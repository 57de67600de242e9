/**
 * Statements: assignment, read, write, if and while, blocks of statements
 * and whole programs, with their C rendering and their meaning as a step
 * from a store and a console to a result, a store and a console.
 *
 * The console is a sequence of input numbers and the sequence of events
 * written so far: prompts (`print`, no newline) and printed lines.
 */
module Stmts {
  import opened Wrappers
  import opened Errors
  import opened Env
  import opened Text
  import opened Exprs

  /** What stops a statement: an evaluation error, missing input, or a loop out of fuel. */
  datatype Fault = Raised(e: EvalException) | InputExhausted | OutOfFuel

  /** A printed line: the integer form when the value is whole, the decimal form otherwise. */
  datatype Printed = IntForm(i: int) | RealForm(d: real)

  datatype Event = Prompt(text: string) | Println(line: Printed)

  datatype Io = Io(input: seq<real>, output: seq<Event>)

  /** The outcome of running a statement: its result, the new store and the new console. */
  datatype Step = Step(res: Result<real, Fault>, store: Store, io: Io)

  /**
   * How `println` shows a value: as the `int` it casts to when the cast
   * loses nothing, and as the double otherwise.
   */
  function Form(d: real): (p: Printed)
    ensures p.IntForm? <==> d == d.Floor as real
    ensures p.IntForm? ==> p.i as real == d
    ensures p.RealForm? ==> p.d == d
  {
    if d == d.Floor as real then IntForm(d.Floor) else RealForm(d)
  }

  /** An evaluation result lifted to a statement step that leaves store and console alone. */
  function Failed(e: EvalException, s: Store, io: Io): Step {
    Step(Err(Raised(e)), s, io)
  }

  /** Java's `NodeWr`: evaluate, print one line, return the value. */
  datatype Wr = Wr(expr: Expr) {

    function Sem(s: Store, io: Io): (r: Step)
      requires expr.Numeric()
      ensures r.store == s && r.io.input == io.input
      ensures r.res.Ok? <==> expr.Defined(s)
      ensures r.res.Ok? ==>
        r.res.value == expr.Eval(s).value && r.io.output == io.output + [Println(Form(r.res.value))]
      ensures r.res.Err? ==> r == Failed(expr.Eval(s).error, s, io)
    {
      var v := expr.Eval(s);
      if v.Err? then Failed(v.error, s, io)
      else Step(Ok(v.value), s, io.(output := io.output + [Println(Form(v.value))]))
    }

    function Code(): string {
      "printf(\"%g\\n\"," + "(double)(" + expr.Code() + "));"
    }
  }

  /** Java's `NodeRd`: prompt with the name, read one number, bind it, return it. */
  datatype Rd = Rd(id: string) {

    function Sem(s: Store, io: Io): (r: Step)
      ensures r.io.output == io.output + [Prompt(id + " = ")]
      ensures r.res.Ok? <==> |io.input| > 0
      ensures |io.input| == 0 ==> r.res == Err(InputExhausted) && r.store == s && r.io.input == io.input
      ensures |io.input| > 0 ==>
        r.res == Ok(io.input[0]) && r.store == s.Put(id, io.input[0]) && r.io.input == io.input[1..]
    {
      var prompted := io.(output := io.output + [Prompt(id + " = ")]);
      if |io.input| == 0 then Step(Err(InputExhausted), s, prompted)
      else Step(Ok(io.input[0]), s.Put(id, io.input[0]), prompted.(input := io.input[1..]))
    }

    function Code(): string {
      "scanf(\"%lf\", &" + id + ");"
    }
  }

  /** Java's `NodeAssn`: evaluate and print through `NodeWr`, then bind and return the value. */
  datatype Assn = Assn(id: string, expr: Expr) {

    function Sem(s: Store, io: Io): (r: Step)
      requires expr.Numeric()
      ensures r.io == Wr(expr).Sem(s, io).io
      ensures r.res == Wr(expr).Sem(s, io).res
      ensures r.res.Ok? ==> r.store == s.Put(id, r.res.value)
      ensures r.res.Err? ==> r.store == s && r.io == io
    {
      var w := Wr(expr).Sem(s, io);
      if w.res.Err? then w
      else Step(w.res, w.store.Put(id, w.res.value), w.io)
    }

    function Code(): string {
      id + "=" + expr.Code() + ";\n" + Wr(expr).Code()
    }
  }

  /** Java's `NodeIf`: a comparison, a then-statement and an optional else-statement. */
  datatype IfNode = IfNode(cond: BoolExpr, thenStmt: Stmt, elseStmt: Option<Stmt>) {

    predicate Numeric() {
      cond.Numeric() && thenStmt.Numeric() && (elseStmt.Some? ==> elseStmt.value.Numeric())
    }

    /** The condition first; nonzero runs the then-branch, zero the else-branch or nothing. */
    function Sem(s: Store, io: Io): (r: Step)
      requires Numeric()
      ensures cond.Eval(s).Err? ==> r == Failed(cond.Eval(s).error, s, io)
    {
      var c := cond.Eval(s);
      if c.Err? then Failed(c.error, s, io)
      else if c.value != 0.0 then thenStmt.Sem(s, io)
      else if elseStmt.Some? then elseStmt.value.Sem(s, io)
      else Step(Ok(0.0), s, io)
    }

    function Code(): string {
      "if " + cond.Code() + " " + thenStmt.Code()
      + (if elseStmt.Some? then " else " + elseStmt.value.Code() else "")
    }
  }

  /** Java's `NodeWhile`: a comparison and a body. */
  datatype WhileNode = WhileNode(cond: BoolExpr, stmt: Stmt) {

    predicate Numeric() {
      cond.Numeric() && stmt.Numeric()
    }

    /**
     * The loop from a state where the last body run gave `last`: the
     * condition is tested before every run of the body and the loop stops
     * when it is 0, returning `last`. At most `fuel` more runs are allowed.
     */
    function Run(s: Store, io: Io, fuel: nat, last: real): (r: Step)
      requires Numeric()
      ensures r.res.Ok? ==> cond.Eval(r.store) == Ok(0.0)
      decreases fuel
    {
      var c := cond.Eval(s);
      if c.Err? then Failed(c.error, s, io)
      else if c.value == 0.0 then Step(Ok(last), s, io)
      else if fuel == 0 then Step(Err(OutOfFuel), s, io)
      else
        var b := stmt.Sem(s, io);
        if b.res.Err? then b
        else Run(b.store, b.io, fuel - 1, b.res.value)
    }

    /** Java's `eval`: the loop with `result` starting at 0. */
    function Sem(s: Store, io: Io, fuel: nat): (r: Step)
      requires Numeric()
      ensures r.res.Ok? ==> cond.Eval(r.store) == Ok(0.0)
    {
      Run(s, io, fuel, 0.0)
    }

    function Code(): string {
      "while " + cond.Code() + " " + stmt.Code()
    }
  }

  /** Java's `NodeStmt`: exactly one of the five statement kinds. */
  datatype Stmt =
    | AssnStmt(assn: Assn)
    | RdStmt(rd: Rd)
    | WrStmt(wr: Wr)
    | WhileStmt(whileNode: WhileNode)
    | IfStmt(ifNode: IfNode)
  {
    predicate Numeric() {
      match this
      case AssnStmt(a) => a.expr.Numeric()
      case RdStmt(_) => true
      case WrStmt(w) => w.expr.Numeric()
      case WhileStmt(w) => w.cond.Numeric() && w.stmt.Numeric()
      case IfStmt(i) =>
        i.cond.Numeric() && i.thenStmt.Numeric() && (i.elseStmt.Some? ==> i.elseStmt.value.Numeric())
    }

    /**
     * Java's `NodeStmt.eval`: assignment, read and write are run; a while
     * or if statement raises "invalid statement" at position 0 without
     * touching store or console.
     */
    function Sem(s: Store, io: Io): (r: Step)
      requires Numeric()
      ensures (WhileStmt? || IfStmt?) ==> r == Failed(EvalException(0, "invalid statement"), s, io)
      ensures r.res.Err? && r.res.error.Raised? ==> r.store == s
    {
      match this
      case AssnStmt(a) => a.Sem(s, io)
      case RdStmt(rd) => rd.Sem(s, io)
      case WrStmt(w) => w.Sem(s, io)
      case _ => Failed(EvalException(0, "invalid statement"), s, io)
    }

    /** Java's `NodeStmt.code`: while and if statements render as nothing. */
    function Code(): string {
      match this
      case AssnStmt(a) => a.Code()
      case RdStmt(rd) => rd.Code()
      case WrStmt(w) => w.Code()
      case _ => ""
    }
  }

  /** Java's `NodeBlock`: a statement and, optionally, the rest of the block. */
  datatype Block = Block(stmt: Stmt, block: Option<Block>) {

    predicate Numeric() {
      stmt.Numeric() && (block.Some? ==> block.value.Numeric())
    }

    /** The statements in source order. */
    function Stmts(): (ss: seq<Stmt>)
      ensures |ss| > 0 && ss[0] == stmt
    {
      [stmt] + if block.Some? then block.value.Stmts() else []
    }

    /** The first statement, then the rest; the block's result is the last one's. */
    function Sem(s: Store, io: Io): (r: Step)
      requires Numeric()
      ensures stmt.Sem(s, io).res.Err? ==> r == stmt.Sem(s, io)
    {
      var first := stmt.Sem(s, io);
      if first.res.Err? || block.None? then first
      else block.value.Sem(first.store, first.io)
    }

    function Code(): string {
      stmt.Code() + (if block.Some? then block.value.Code() else "")
    }
  }

  /** The program: its top-level block. */
  datatype Prog = Prog(block: Block) {

    predicate Numeric() {
      block.Numeric()
    }

    function Sem(s: Store, io: Io): Step
      requires Numeric()
    {
      block.Sem(s, io)
    }

    function Code(): string {
      block.Code()
    }
  }

  // ---------------------------------------------------------------------
  // Properties of the statements.
  // ---------------------------------------------------------------------

  /** An assignment stores the value it returns: reading the name back gives the result. */
  lemma AssnStoresResult(a: Assn, s: Store, io: Io, pos: int)
    requires a.expr.Numeric()
    ensures var r := a.Sem(s, io);
      r.res.Ok? ==> r.store.Get(pos, a.id) == Ok(r.res.value)
  {
    var r := a.Sem(s, io);
    if r.res.Ok? {
      PutThenGet(s, a.id, r.res.value, pos);
    }
  }

  /** A failed assignment prints nothing and changes nothing. */
  lemma AssnFailureChangesNothing(a: Assn, s: Store, io: Io)
    requires a.expr.Numeric() && !a.expr.Defined(s)
    ensures a.Sem(s, io) == Failed(a.expr.Eval(s).error, s, io)
  {
  }

  /** Reading binds the input value: reading the name back gives it. */
  lemma RdStoresInput(rd: Rd, s: Store, x: real, rest: seq<real>, out: seq<Event>, pos: int)
    ensures var r := rd.Sem(s, Io([x] + rest, out));
      r.res == Ok(x) && r.store.Get(pos, rd.id) == Ok(x) && r.io == Io(rest, out + [Prompt(rd.id + " = ")])
  {
    assert ([x] + rest)[1..] == rest;
  }

  /** A nonzero condition runs the then-branch. */
  lemma IfTakesThen(i: IfNode, s: Store, io: Io)
    requires i.Numeric() && i.cond.Eval(s).Ok? && i.cond.Eval(s).value != 0.0
    ensures i.Sem(s, io) == i.thenStmt.Sem(s, io)
  {
  }

  /** A zero condition runs the else-branch when there is one. */
  lemma IfTakesElse(i: IfNode, s: Store, io: Io)
    requires i.Numeric() && i.cond.Eval(s) == Ok(0.0) && i.elseStmt.Some?
    ensures i.Sem(s, io) == i.elseStmt.value.Sem(s, io)
  {
  }

  /** A zero condition without an else-branch returns 0 and changes nothing. */
  lemma IfWithoutElse(i: IfNode, s: Store, io: Io)
    requires i.Numeric() && i.cond.Eval(s) == Ok(0.0) && i.elseStmt.None?
    ensures i.Sem(s, io) == Step(Ok(0.0), s, io)
  {
  }

  /** A condition that is 0 at the first test gives 0 and never runs the body. */
  lemma WhileFalseAtOnce(w: WhileNode, s: Store, io: Io, fuel: nat)
    requires w.Numeric() && w.cond.Eval(s) == Ok(0.0)
    ensures w.Sem(s, io, fuel) == Step(Ok(0.0), s, io)
  {
  }

  /**
   * One iteration: when the condition holds and the body succeeds, the loop
   * continues from the body's state, remembering the body's result.
   */
  lemma WhileUnfolds(w: WhileNode, s: Store, io: Io, fuel: nat, last: real)
    requires w.Numeric() && w.cond.Eval(s).Ok? && w.cond.Eval(s).value != 0.0 && fuel > 0
    requires w.stmt.Sem(s, io).res.Ok?
    ensures var b := w.stmt.Sem(s, io);
      w.Run(s, io, fuel, last) == w.Run(b.store, b.io, fuel - 1, b.res.value)
  {
  }

  /**
   * A body that is an if or while statement fails at its first run, so
   * such a loop either finishes at once or raises "invalid statement".
   */
  lemma WhileOfNestedControlFails(w: WhileNode, s: Store, io: Io, fuel: nat)
    requires w.Numeric() && (w.stmt.WhileStmt? || w.stmt.IfStmt?)
    requires w.cond.Eval(s).Ok? && w.cond.Eval(s).value != 0.0 && fuel > 0
    ensures w.Sem(s, io, fuel) == Failed(EvalException(0, "invalid statement"), s, io)
  {
  }

  /**
   * "while x < 3 do x = x + 1" from x = 0 counts up, printing 1, 2 and 3,
   * and returns the last value assigned.
   */
  lemma CountToThree(io: Io)
    ensures var x := ExprUnit(TermUnit(FactId(0, "x")));
      var three := ExprUnit(TermUnit(FactNum("3")));
      var one := TermUnit(FactNum("1"));
      var inc := AssnStmt(Assn("x", ExprChain(x, Addop(0, "+"), one)));
      var loop := WhileNode(BoolExpr(x, "<", three), inc);
      var r := loop.Sem(Env.Empty.Put("x", 0.0), io, 3);
      && r.res == Ok(3.0)
      && r.store.vals == map["x" := 3.0]
      && r.io.output == io.output + [Println(IntForm(1)), Println(IntForm(2)), Println(IntForm(3))]
  {
    var x := ExprUnit(TermUnit(FactId(0, "x")));
    var three := ExprUnit(TermUnit(FactNum("3")));
    var one := TermUnit(FactNum("1"));
    var inc := AssnStmt(Assn("x", ExprChain(x, Addop(0, "+"), one)));
    var loop := WhileNode(BoolExpr(x, "<", three), inc);
    var s0 := Store(map["x" := 0.0], ["x"]);
    var s1 := Store(map["x" := 1.0], ["x"]);
    var s2 := Store(map["x" := 2.0], ["x"]);
    var s3 := Store(map["x" := 3.0], ["x"]);
    assert Env.Empty.Put("x", 0.0) == s0;
    assert s0.Put("x", 1.0) == s1 && s1.Put("x", 2.0) == s2 && s2.Put("x", 3.0) == s3;
    var io1 := io.(output := io.output + [Println(IntForm(1))]);
    var io2 := io1.(output := io1.output + [Println(IntForm(2))]);
    var io3 := io2.(output := io2.output + [Println(IntForm(3))]);
    assert "1"[..0] == [] && "3"[..0] == [];
    assert DigitsValue("1") == 1 && DigitsValue("3") == 3;
    assert Form(1.0) == IntForm(1) && Form(2.0) == IntForm(2) && Form(3.0) == IntForm(3);
    assert inc.Sem(s0, io) == Step(Ok(1.0), s1, io1);
    assert inc.Sem(s1, io1) == Step(Ok(2.0), s2, io2);
    assert inc.Sem(s2, io2) == Step(Ok(3.0), s3, io3);
    assert loop.Run(s3, io3, 0, 3.0) == Step(Ok(3.0), s3, io3);
    assert loop.Run(s2, io2, 1, 2.0) == Step(Ok(3.0), s3, io3);
    assert loop.Run(s1, io1, 2, 1.0) == Step(Ok(3.0), s3, io3);
  }

  /** A block whose first statement fails stops there: later statements never run. */
  lemma BlockStopsAtFailure(b: Block, s: Store, io: Io)
    requires b.Numeric() && b.stmt.Sem(s, io).res.Err?
    ensures b.Sem(s, io) == b.stmt.Sem(s, io)
  {
  }

  /**
   * Runs the statements of a block before its last one: the failing step
   * when one of them fails, and otherwise the state the last statement
   * starts from.
   */
  function BeforeLast(b: Block, s: Store, io: Io): (r: Step)
    requires b.Numeric()
    ensures b.block.None? ==> r == Step(Ok(0.0), s, io)
    decreases b
  {
    if b.block.None? then Step(Ok(0.0), s, io)
    else
      var first := b.stmt.Sem(s, io);
      if first.res.Err? then first else BeforeLast(b.block.value, first.store, first.io)
  }

  /**
   * A block runs its statements in order: it fails with the first failing
   * statement before the last, and otherwise its result is the last
   * statement's, run in the state the others leave.
   */
  lemma {:induction false} BlockResultIsLast(b: Block, s: Store, io: Io)
    requires b.Numeric()
    ensures var r, p := b.Sem(s, io), BeforeLast(b, s, io);
      && (p.res.Ok? ==> r == Last(b).Sem(p.store, p.io))
      && (p.res.Err? ==> r == p)
    decreases b
  {
    if b.block.Some? {
      var first := b.stmt.Sem(s, io);
      if first.res.Ok? {
        BlockResultIsLast(b.block.value, first.store, first.io);
      }
    }
  }

  /** The last statement of a block. */
  function Last(b: Block): (st: Stmt)
    ensures b.Numeric() ==> st.Numeric()
    ensures st in b.Stmts()
  {
    if b.block.None? then b.stmt else Last(b.block.value)
  }

  /** A block renders its statements' code one after another, in source order. */
  lemma {:induction false} BlockCodeInOrder(b: Block)
    ensures b.Code() == ConcatCode(b.Stmts())
    decreases b
  {
    if b.block.Some? {
      BlockCodeInOrder(b.block.value);
    }
  }

  function ConcatCode(ss: seq<Stmt>): string {
    if |ss| == 0 then "" else ss[0].Code() + ConcatCode(ss[1..])
  }

  /** An assignment renders as the C assignment followed by the print of the same expression. */
  lemma AssnCodeLayout(a: Assn)
    ensures var c := a.Code();
      var head := a.id + "=" + a.expr.Code() + ";\n";
      c[..|head|] == head && c[|head|..] == Wr(a.expr).Code()
  {
  }

  /**
   * If and while statements render as nothing inside a statement, so an if
   * or while whose body is itself an if or while renders as its header
   * alone.
   */
  lemma NestedControlCode(i: IfNode, w: WhileNode)
    ensures IfStmt(i).Code() == "" && WhileStmt(w).Code() == ""
    ensures (i.thenStmt.IfStmt? || i.thenStmt.WhileStmt?) && i.elseStmt.None? ==>
      i.Code() == "if " + i.cond.Code() + " "
    ensures (w.stmt.IfStmt? || w.stmt.WhileStmt?) ==> w.Code() == "while " + w.cond.Code() + " "
  {
  }
}
