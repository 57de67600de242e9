/**
 * The parser's behaviour as functions on a cursor over the token stream.
 * Each function does what one method of the parser does: it reads tokens
 * one `next()` at a time, and yields the node it builds, or the
 * `SyntaxException` the parser raises, together with where the scanner
 * stopped.
 *
 * The concrete syntax of every node is its spelling, the tokens it is
 * written with. The round-trip lemmas state that a successful parse has
 * read exactly the spelling of the node it returns.
 */
module Grammar {
  import opened Wrappers
  import opened Text
  import opened Tokens
  import opened Errors
  import opened Lexer
  import opened Exprs
  import opened Chains
  import opened Stmts

  // ---------------------------------------------------------------------
  // The token stream.
  // ---------------------------------------------------------------------

  /**
   * Where the parser stands: the text and the keyword set of its scanner,
   * the current token, and the position just after it. The operators are
   * the fixed set.
   */
  datatype Cursor = Cursor(text: string, keywords: set<string>, tok: Token, pos: nat) {

    /**
     * What the scanner guarantees of the tokens it produces: a "num" is a
     * non-empty digit string, "EOF" stands at the end of the text, and a
     * token that is neither a number nor an identifier has its kind for
     * its lexeme.
     */
    ghost predicate Fits() {
      && pos <= |text|
      && "num" !in keywords && "EOF" !in keywords
      && (tok.kind == "num" ==> |tok.lex| > 0 && AllDigits(tok.lex))
      && (tok.kind == "EOF" ==> pos == |text|)
      && (tok.kind != "num" && tok.kind != "id" ==> tok.lex == tok.kind)
    }

    /** Twice the unread length, plus one until the EOF token is current. */
    function Measure(): nat
      requires pos <= |text|
    {
      2 * (|text| - pos) + (if tok == EofToken then 0 else 1)
    }

    /** One call of `next()`. */
    function Step(): (d: Cursor)
      requires Fits()
      ensures d.Fits() && d.text == text && d.keywords == keywords
      ensures d.Measure() <= Measure()
      ensures tok != EofToken ==> d.Measure() < Measure()
    {
      ScanFrom(text, keywords, pos)
    }
  }

  /** The cursor that one `next()` from position `pos` of `text` leaves. */
  function ScanFrom(text: string, keywords: set<string>, pos: nat): (d: Cursor)
    requires pos <= |text| && "num" !in keywords && "EOF" !in keywords
    ensures d.Fits() && d.text == text && d.keywords == keywords && pos <= d.pos
    ensures d.pos == pos ==> d.tok == EofToken
  {
    var s := Scan(text, keywords, DefaultOperators, pos);
    ScanShape(text, keywords, DefaultOperators, pos);
    ScanTokenFits(text, keywords, DefaultOperators, pos);
    Cursor(text, keywords, s.tok, s.end)
  }

  /** The cursor after the first `next()` of a fresh scanner. */
  function Start(text: string, keywords: set<string>): (c: Cursor)
    requires "num" !in keywords && "EOF" !in keywords
    ensures c.Fits() && c.text == text && c.keywords == keywords
  {
    ScanFrom(text, keywords, 0)
  }

  /** Reading the tokens `toks` from `c`, one `next()` each, ends at `d`. */
  ghost predicate Reads(c: Cursor, toks: seq<Token>, d: Cursor)
    requires c.Fits()
    decreases |toks|
  {
    if |toks| == 0 then d == c
    else toks[0] == c.tok && Reads(c.Step(), toks[1..], d)
  }

  /** Reading `a` and then `b` is reading `a + b`. */
  lemma {:induction false} ReadsJoin(c: Cursor, a: seq<Token>, d: Cursor, b: seq<Token>, e: Cursor)
    requires c.Fits() && d.Fits()
    requires Reads(c, a, d) && Reads(d, b, e)
    ensures Reads(c, a + b, e)
    decreases |a|
  {
    if |a| == 0 {
      assert a + b == b;
    } else {
      ReadsJoin(c.Step(), a[1..], d, b, e);
      TailOfJoin(a, b);
    }
  }

  lemma TailOfJoin<T>(a: seq<T>, b: seq<T>)
    requires |a| > 0
    ensures (a + b)[0] == a[0] && (a + b)[1..] == a[1..] + b
  {
  }

  /** Reading the token at hand moves on by one `next()`. */
  lemma ReadsOne(c: Cursor)
    requires c.Fits()
    ensures Reads(c, [c.tok], c.Step())
    ensures c.tok.kind != "num" && c.tok.kind != "id" ==> c.tok == OfKind(c.tok.kind)
  {
    assert [c.tok][1..] == [];
  }

  /** Reading the token at hand and then `b`. */
  lemma ReadsLead(c: Cursor, b: seq<Token>, e: Cursor)
    requires c.Fits() && Reads(c.Step(), b, e)
    ensures Reads(c, [c.tok] + b, e)
  {
    TailOfJoin([c.tok], b);
  }

  /** Reading `a`, then the token at `d`, then `b`. */
  lemma ReadsAround(c: Cursor, a: seq<Token>, d: Cursor, b: seq<Token>, e: Cursor)
    requires c.Fits() && d.Fits()
    requires Reads(c, a, d) && Reads(d.Step(), b, e)
    ensures Reads(c, a + [d.tok] + b, e)
  {
    ReadsLead(d, b, e);
    ReadsJoin(c, a, d, [d.tok] + b, e);
    assert a + ([d.tok] + b) == a + [d.tok] + b;
  }

  /**
   * Java's `match(kind)`: the kinds are compared and the next token is
   * scanned; on a different kind the error names the expected kind and the
   * token found, at the scanner's position, and nothing is read.
   */
  function Expect(c: Cursor, kind: string): (r: Result<Cursor, SyntaxException>)
    requires c.Fits()
    ensures r.Ok? <==> c.tok.kind == kind
    ensures r.Ok? ==> r.value == c.Step() && Reads(c, [c.tok], r.value)
    ensures r.Err? ==> r.error == SyntaxException(c.pos, OfKind(kind), c.tok)
  {
    ReadsOne(c);
    if c.tok.kind == kind then Ok(c.Step())
    else Err(SyntaxException(c.pos, OfKind(kind), c.tok))
  }

  // ---------------------------------------------------------------------
  // The parse functions.
  // ---------------------------------------------------------------------

  /** A node or the syntax error, and the cursor where the scanner stopped. */
  datatype Parsed<T> = Parsed(res: Result<T, SyntaxException>, rest: Cursor)

  /**
   * What holds after every parse function: the scanner is on the same text,
   * no further back; a success has read at least one token; and an error
   * reports the token the parser stopped at and the position after it.
   */
  ghost predicate Progress<T>(c: Cursor, r: Parsed<T>)
    requires c.Fits()
  {
    && r.rest.Fits() && r.rest.text == c.text && r.rest.keywords == c.keywords
    && r.rest.Measure() <= c.Measure()
    && (r.res.Ok? ==> r.rest.Measure() < c.Measure())
    && (r.res.Err? ==> r.res.error.pos == r.rest.pos && r.res.error.found == r.rest.tok)
  }

  /**
   * `parseFact`: "-" and a factor, "(" an expression ")", an identifier
   * holding the position after it, or else a number.
   */
  function FactAt(c: Cursor): (r: Parsed<Fact>)
    requires c.Fits()
    ensures Progress(c, r)
    ensures r.res.Ok? ==> r.res.value.Numeric()
    ensures c.tok.kind == "id" ==> r == Parsed(Ok(FactId(c.Step().pos, c.tok.lex)), c.Step())
    ensures c.tok.kind !in {"-", "(", "id", "num"} ==>
      r == Parsed(Err(SyntaxException(c.pos, OfKind("num"), c.tok)), c)
    decreases c.Measure(), 1
  {
    if c.tok.kind == "-" then
      var f := FactAt(c.Step());
      if f.res.Err? then f else Parsed(Ok(FactNeg(f.res.value)), f.rest)
    else if c.tok.kind == "(" then
      var e := ExprAt(c.Step());
      if e.res.Err? then Parsed(Err(e.res.error), e.rest)
      else
        var close := Expect(e.rest, ")");
        if close.Err? then Parsed(Err(close.error), e.rest)
        else Parsed(Ok(FactExpr(e.res.value)), close.value)
    else if c.tok.kind == "id" then
      var d := c.Step();
      Parsed(Ok(FactId(d.pos, c.tok.lex)), d)
    else
      var num := Expect(c, "num");
      if num.Err? then Parsed(Err(num.error), c)
      else Parsed(Ok(FactNum(c.tok.lex)), num.value)
  }

  /**
   * A parenthesised factor needs ")" right after its expression, and
   * otherwise fails there expecting ")".
   */
  lemma FactParenthesised(c: Cursor)
    requires c.Fits() && c.tok.kind == "("
    ensures var r, e := FactAt(c), ExprAt(c.Step());
      && (r.res.Ok? ==> e.res.Ok? && e.rest.tok.kind == ")" && r.res.value == FactExpr(e.res.value))
      && (e.res.Ok? && e.rest.tok.kind != ")" ==>
            r == Parsed(Err(SyntaxException(e.rest.pos, OfKind(")"), e.rest.tok)), e.rest))
  {
  }

  /**
   * `parseTerm`: a factor and, when "*" or "/" follows, the rest of the
   * term, onto whose far end the factor and the operator are spliced. A
   * term ends where no multiplicative operator follows.
   */
  function TermAt(c: Cursor): (r: Parsed<Term>)
    requires c.Fits()
    ensures Progress(c, r)
    ensures r.res.Ok? ==> r.res.value.Numeric() && r.rest.tok.kind != "*" && r.rest.tok.kind != "/"
    decreases c.Measure(), 2
  {
    var f := FactAt(c);
    if f.res.Err? then Parsed(Err(f.res.error), f.rest)
    else
      var k := f.rest.tok.kind;
      if k == "*" || k == "/" then
        var d := f.rest.Step();
        var rest := TermAt(d);
        if rest.res.Err? then rest
        else Parsed(Ok(GraftTerm(rest.res.value, f.res.value, Mulop(d.pos, k))), rest.rest)
      else Parsed(Ok(TermUnit(f.res.value)), f.rest)
  }

  /**
   * `parseExpr`: a term and, when "+" or "-" follows, the rest of the
   * expression, onto whose far end the term and the operator are spliced.
   * An expression ends where no additive operator follows.
   */
  function ExprAt(c: Cursor): (r: Parsed<Expr>)
    requires c.Fits()
    ensures Progress(c, r)
    ensures r.res.Ok? ==> r.res.value.Numeric() && r.rest.tok.kind != "+" && r.rest.tok.kind != "-"
    decreases c.Measure(), 3
  {
    var t := TermAt(c);
    if t.res.Err? then Parsed(Err(t.res.error), t.rest)
    else
      var k := t.rest.tok.kind;
      if k == "+" || k == "-" then
        var d := t.rest.Step();
        var rest := ExprAt(d);
        if rest.res.Err? then rest
        else Parsed(Ok(GraftExpr(rest.res.value, t.res.value, Addop(d.pos, k))), rest.rest)
      else Parsed(Ok(ExprUnit(t.res.value)), t.rest)
  }

  /** `parseAssn`: an identifier, "=", an expression. */
  function AssnAt(c: Cursor): (r: Parsed<Assn>)
    requires c.Fits()
    ensures Progress(c, r)
    ensures r.res.Ok? ==> r.res.value.expr.Numeric() && r.res.value.id == c.tok.lex
  {
    var a := Expect(c, "id");
    if a.Err? then Parsed(Err(a.error), c)
    else
      var eq := Expect(a.value, "=");
      if eq.Err? then Parsed(Err(eq.error), a.value)
      else
        var e := ExprAt(eq.value);
        if e.res.Err? then Parsed(Err(e.res.error), e.rest)
        else Parsed(Ok(Assn(c.tok.lex, e.res.value)), e.rest)
  }

  /**
   * `parseBoolExpr`: an expression, the token after it matched against its
   * own lexeme, and a second expression.
   */
  function BoolAt(c: Cursor): (r: Parsed<BoolExpr>)
    requires c.Fits()
    ensures Progress(c, r)
    ensures r.res.Ok? ==> r.res.value.Numeric()
    ensures var e1 := ExprAt(c);
      && (r.res.Ok? ==> e1.res.Ok? && r.res.value.relop == e1.rest.tok.lex == e1.rest.tok.kind)
      && (e1.res.Ok? && e1.rest.tok.kind != e1.rest.tok.lex ==>
            r == Parsed(Err(SyntaxException(e1.rest.pos, OfKind(e1.rest.tok.lex), e1.rest.tok)), e1.rest))
  {
    var e1 := ExprAt(c);
    if e1.res.Err? then Parsed(Err(e1.res.error), e1.rest)
    else
      var relop := e1.rest.tok;
      var m := Expect(e1.rest, relop.lex);
      if m.Err? then Parsed(Err(m.error), e1.rest)
      else
        var e2 := ExprAt(m.value);
        if e2.res.Err? then Parsed(Err(e2.res.error), e2.rest)
        else Parsed(Ok(BoolExpr(e1.res.value, relop.lex, e2.res.value)), e2.rest)
  }

  /** The `rd` branch of `parseStmt`: "rd", an identifier, ";". */
  function RdAt(c: Cursor): (r: Parsed<Rd>)
    requires c.Fits() && c.tok.kind == "rd"
    ensures Progress(c, r)
    ensures var d := c.Step();
      && (r.res.Ok? ==> d.tok.kind == "id" && r.res.value.id == d.tok.lex)
      && (d.tok.kind != "id" ==> r == Parsed(Err(SyntaxException(d.pos, OfKind("id"), d.tok)), d))
  {
    var d := c.Step();
    var i := Expect(d, "id");
    if i.Err? then Parsed(Err(i.error), d)
    else
      var semi := Expect(i.value, ";");
      if semi.Err? then Parsed(Err(semi.error), i.value)
      else Parsed(Ok(Rd(d.tok.lex)), semi.value)
  }

  /** The `wr` branch of `parseStmt`: "wr", an expression, ";". */
  function WrAt(c: Cursor): (r: Parsed<Wr>)
    requires c.Fits() && c.tok.kind == "wr"
    ensures Progress(c, r)
    ensures r.res.Ok? ==> r.res.value.expr.Numeric()
  {
    var e := ExprAt(c.Step());
    if e.res.Err? then Parsed(Err(e.res.error), e.rest)
    else
      var semi := Expect(e.rest, ";");
      if semi.Err? then Parsed(Err(semi.error), e.rest)
      else Parsed(Ok(Wr(e.res.value)), semi.value)
  }

  /**
   * The `if` branch of `parseStmt`: "if", a comparison, "then", a
   * statement, and "else" with a statement when "else" follows.
   */
  function IfAt(c: Cursor): (r: Parsed<IfNode>)
    requires c.Fits() && c.tok.kind == "if"
    ensures Progress(c, r)
    ensures r.res.Ok? ==> r.res.value.Numeric()
    ensures r.res.Ok? && r.res.value.elseStmt.None? ==> r.rest.tok.kind != "else"
    ensures var b := BoolAt(c.Step());
      b.res.Ok? && b.rest.tok.kind != "then" ==>
        r == Parsed(Err(SyntaxException(b.rest.pos, OfKind("then"), b.rest.tok)), b.rest)
    decreases c.Measure(), 6
  {
    var b := BoolAt(c.Step());
    if b.res.Err? then Parsed(Err(b.res.error), b.rest)
    else
      var t := Expect(b.rest, "then");
      if t.Err? then Parsed(Err(t.error), b.rest)
      else
        var s1 := StmtAt(t.value);
        if s1.res.Err? then Parsed(Err(s1.res.error), s1.rest)
        else if s1.rest.tok.kind == "else" then
          var s2 := StmtAt(s1.rest.Step());
          if s2.res.Err? then Parsed(Err(s2.res.error), s2.rest)
          else Parsed(Ok(IfNode(b.res.value, s1.res.value, Some(s2.res.value))), s2.rest)
        else Parsed(Ok(IfNode(b.res.value, s1.res.value, None)), s1.rest)
  }

  /** The `while` branch of `parseStmt`: "while", a comparison, "do", a statement. */
  function WhileAt(c: Cursor): (r: Parsed<WhileNode>)
    requires c.Fits() && c.tok.kind == "while"
    ensures Progress(c, r)
    ensures r.res.Ok? ==> r.res.value.Numeric()
    ensures var b := BoolAt(c.Step());
      b.res.Ok? && b.rest.tok.kind != "do" ==>
        r == Parsed(Err(SyntaxException(b.rest.pos, OfKind("do"), b.rest.tok)), b.rest)
    decreases c.Measure(), 6
  {
    var b := BoolAt(c.Step());
    if b.res.Err? then Parsed(Err(b.res.error), b.rest)
    else
      var d := Expect(b.rest, "do");
      if d.Err? then Parsed(Err(d.error), b.rest)
      else
        var s := StmtAt(d.value);
        if s.res.Err? then Parsed(Err(s.res.error), s.rest)
        else Parsed(Ok(WhileNode(b.res.value, s.res.value)), s.rest)
  }

  /**
   * `parseStmt`: chosen by the current kind; an assignment is followed by
   * ";", and any other token is an error expecting "stmt", raised before
   * anything is read.
   */
  function StmtAt(c: Cursor): (r: Parsed<Stmt>)
    requires c.Fits()
    ensures Progress(c, r)
    ensures r.res.Ok? ==> r.res.value.Numeric()
    ensures c.tok.kind !in {"id", "rd", "wr", "if", "while"} ==>
      r == Parsed(Err(SyntaxException(c.pos, OfKind("stmt"), c.tok)), c)
    decreases c.Measure(), 7
  {
    var k := c.tok.kind;
    if k == "id" then
      var a := AssnAt(c);
      if a.res.Err? then Parsed(Err(a.res.error), a.rest)
      else
        var semi := Expect(a.rest, ";");
        if semi.Err? then Parsed(Err(semi.error), a.rest)
        else Parsed(Ok(AssnStmt(a.res.value)), semi.value)
    else if k == "rd" then
      var x := RdAt(c);
      if x.res.Err? then Parsed(Err(x.res.error), x.rest) else Parsed(Ok(RdStmt(x.res.value)), x.rest)
    else if k == "wr" then
      var x := WrAt(c);
      if x.res.Err? then Parsed(Err(x.res.error), x.rest) else Parsed(Ok(WrStmt(x.res.value)), x.rest)
    else if k == "if" then
      var x := IfAt(c);
      if x.res.Err? then Parsed(Err(x.res.error), x.rest) else Parsed(Ok(IfStmt(x.res.value)), x.rest)
    else if k == "while" then
      var x := WhileAt(c);
      if x.res.Err? then Parsed(Err(x.res.error), x.rest) else Parsed(Ok(WhileStmt(x.res.value)), x.rest)
    else
      Parsed(Err(SyntaxException(c.pos, OfKind("stmt"), c.tok)), c)
  }

  /**
   * `parseBlock`: a statement and, when ";" follows, another block. A block
   * ends where no ";" follows its last statement.
   */
  function BlockAt(c: Cursor): (r: Parsed<Block>)
    requires c.Fits()
    ensures Progress(c, r)
    ensures r.res.Ok? ==> r.res.value.Numeric() && r.rest.tok.kind != ";"
    ensures r.res.Ok? ==> (r.res.value.block.Some? <==> StmtAt(c).rest.tok.kind == ";")
    decreases c.Measure()
  {
    var s := StmtAt(c);
    if s.res.Err? then Parsed(Err(s.res.error), s.rest)
    else if s.rest.tok.kind == ";" then
      var b := BlockAt(s.rest.Step());
      if b.res.Err? then b
      else Parsed(Ok(Block(s.res.value, Some(b.res.value))), b.rest)
    else Parsed(Ok(Block(s.res.value, None)), s.rest)
  }

  /** `parseProg`: the top-level block. */
  function ProgAt(c: Cursor): (r: Parsed<Prog>)
    requires c.Fits()
    ensures Progress(c, r)
    ensures r.res.Ok? ==> r.res.value.Numeric() && r.rest.tok.kind != ";"
  {
    var b := BlockAt(c);
    if b.res.Err? then Parsed(Err(b.res.error), b.rest) else Parsed(Ok(Prog(b.res.value)), b.rest)
  }

  /**
   * `parse(program)`: the first `next()`, a program, and then the EOF
   * token; anything after the program is an error expecting "EOF".
   */
  function ParseText(text: string, keywords: set<string>): (r: Result<Prog, SyntaxException>)
    requires "num" !in keywords && "EOF" !in keywords
    ensures r.Ok? ==> r.value.Numeric()
    ensures r.Ok? <==> ProgAt(Start(text, keywords)).res.Ok? && ProgAt(Start(text, keywords)).rest.tok.kind == "EOF"
    ensures var p := ProgAt(Start(text, keywords));
      p.res.Ok? && p.rest.tok.kind != "EOF" ==> r == Err(SyntaxException(p.rest.pos, OfKind("EOF"), p.rest.tok))
  {
    var p := ProgAt(Start(text, keywords));
    if p.res.Err? then p.res
    else
      var eof := Expect(p.rest, "EOF");
      if eof.Err? then Err(eof.error) else p.res
  }

  // ---------------------------------------------------------------------
  // Spelling: the tokens each node is written with.
  // ---------------------------------------------------------------------

  function FactSpelling(f: Fact): seq<Token> {
    match f
    case FactNum(num) => [Token("num", num)]
    case FactId(_, id) => [Token("id", id)]
    case FactNeg(g) => [OfKind("-")] + FactSpelling(g)
    case FactExpr(e) => [OfKind("(")] + ExprSpelling(e) + [OfKind(")")]
  }

  function TermSpelling(t: Term): seq<Token> {
    match t
    case TermUnit(f) => FactSpelling(f)
    case TermChain(rest, m, f) => TermSpelling(rest) + [OfKind(m.sym)] + FactSpelling(f)
  }

  function ExprSpelling(e: Expr): seq<Token> {
    match e
    case ExprUnit(t) => TermSpelling(t)
    case ExprChain(rest, a, t) => ExprSpelling(rest) + [OfKind(a.sym)] + TermSpelling(t)
  }

  function BoolSpelling(b: BoolExpr): seq<Token> {
    ExprSpelling(b.expr1) + [OfKind(b.relop)] + ExprSpelling(b.expr2)
  }

  function AssnSpelling(a: Assn): seq<Token> {
    [Token("id", a.id), OfKind("=")] + ExprSpelling(a.expr)
  }

  function StmtSpelling(s: Stmt): seq<Token> {
    match s
    case AssnStmt(a) => AssnSpelling(a) + [OfKind(";")]
    case RdStmt(rd) => [OfKind("rd"), Token("id", rd.id), OfKind(";")]
    case WrStmt(w) => [OfKind("wr")] + ExprSpelling(w.expr) + [OfKind(";")]
    case IfStmt(i) => IfSpelling(i)
    case WhileStmt(w) => [OfKind("while")] + BoolSpelling(w.cond) + [OfKind("do")] + StmtSpelling(w.stmt)
  }

  function IfSpelling(i: IfNode): seq<Token> {
    [OfKind("if")] + BoolSpelling(i.cond) + [OfKind("then")] + StmtSpelling(i.thenStmt)
    + (if i.elseStmt.Some? then [OfKind("else")] + StmtSpelling(i.elseStmt.value) else [])
  }

  function BlockSpelling(b: Block): seq<Token> {
    StmtSpelling(b.stmt) + (if b.block.Some? then [OfKind(";")] + BlockSpelling(b.block.value) else [])
  }

  /** The text of a sequence of tokens, their lexemes one after another. */
  function Lexemes(toks: seq<Token>): string {
    if |toks| == 0 then "" else toks[0].lex + Lexemes(toks[1..])
  }

  // ---------------------------------------------------------------------
  // Round trips: a successful parse has read exactly the spelling of the
  // node it returns.
  // ---------------------------------------------------------------------

  /** The splice puts the factor and its operator in front of the chain's spelling. */
  lemma {:induction false} GraftTermSpelling(t: Term, f: Fact, m: Mulop)
    ensures TermSpelling(GraftTerm(t, f, m)) == FactSpelling(f) + [OfKind(m.sym)] + TermSpelling(t)
  {
    match t
    case TermUnit(u) =>
    case TermChain(rest, n, u) => GraftTermSpelling(rest, f, m);
  }

  /** The splice puts the term and its operator in front of the chain's spelling. */
  lemma {:induction false} GraftExprSpelling(e: Expr, t: Term, a: Addop)
    ensures ExprSpelling(GraftExpr(e, t, a)) == TermSpelling(t) + [OfKind(a.sym)] + ExprSpelling(e)
  {
    match e
    case ExprUnit(u) =>
    case ExprChain(rest, b, u) => GraftExprSpelling(rest, t, a);
  }

  lemma {:induction false} FactSpelled(c: Cursor)
    requires c.Fits()
    ensures var r := FactAt(c); r.res.Ok? ==> Reads(c, FactSpelling(r.res.value), r.rest)
    decreases c.Measure(), 1
  {
    var r := FactAt(c);
    if r.res.Ok? {
      ReadsOne(c);
      if c.tok.kind == "-" {
        var f := FactAt(c.Step());
        FactSpelled(c.Step());
        ReadsJoin(c, [c.tok], c.Step(), FactSpelling(f.res.value), f.rest);
      } else if c.tok.kind == "(" {
        var e := ExprAt(c.Step());
        var inner := ExprSpelling(e.res.value);
        ExprSpelled(c.Step());
        ReadsOne(e.rest);
        ReadsJoin(c.Step(), inner, e.rest, [e.rest.tok], e.rest.Step());
        ReadsJoin(c, [c.tok], c.Step(), inner + [e.rest.tok], e.rest.Step());
        assert [c.tok] + (inner + [e.rest.tok]) == FactSpelling(r.res.value);
      }
    }
  }

  lemma {:induction false} TermSpelled(c: Cursor)
    requires c.Fits()
    ensures var r := TermAt(c); r.res.Ok? ==> Reads(c, TermSpelling(r.res.value), r.rest)
    decreases c.Measure(), 2
  {
    var r := TermAt(c);
    var f := FactAt(c);
    FactSpelled(c);
    if r.res.Ok? {
      var k := f.rest.tok.kind;
      if k == "*" || k == "/" {
        var d := f.rest.Step();
        var rest := TermAt(d);
        var head := FactSpelling(f.res.value);
        var tail := TermSpelling(rest.res.value);
        TermSpelled(d);
        ReadsAround(c, head, f.rest, tail, rest.rest);
        GraftTermSpelling(rest.res.value, f.res.value, Mulop(d.pos, k));
      }
    }
  }

  lemma {:induction false} ExprSpelled(c: Cursor)
    requires c.Fits()
    ensures var r := ExprAt(c); r.res.Ok? ==> Reads(c, ExprSpelling(r.res.value), r.rest)
    decreases c.Measure(), 3
  {
    var r := ExprAt(c);
    var t := TermAt(c);
    TermSpelled(c);
    if r.res.Ok? {
      var k := t.rest.tok.kind;
      if k == "+" || k == "-" {
        var d := t.rest.Step();
        var rest := ExprAt(d);
        var head := TermSpelling(t.res.value);
        var tail := ExprSpelling(rest.res.value);
        ExprSpelled(d);
        ReadsAround(c, head, t.rest, tail, rest.rest);
        GraftExprSpelling(rest.res.value, t.res.value, Addop(d.pos, k));
      }
    }
  }

  lemma AssnSpelled(c: Cursor)
    requires c.Fits()
    ensures var r := AssnAt(c); r.res.Ok? ==> Reads(c, AssnSpelling(r.res.value), r.rest)
  {
    var r := AssnAt(c);
    if r.res.Ok? {
      var a := c.Step();
      var eq := a.Step();
      var e := ExprAt(eq);
      var tail := ExprSpelling(e.res.value);
      ReadsOne(c);
      ReadsOne(a);
      ExprSpelled(eq);
      ReadsJoin(a, [a.tok], eq, tail, e.rest);
      ReadsJoin(c, [c.tok], a, [a.tok] + tail, e.rest);
      assert [c.tok] + ([a.tok] + tail) == AssnSpelling(r.res.value);
    }
  }

  /** The relational operator read is the token after the first expression, spelled by its lexeme. */
  lemma BoolSpelled(c: Cursor)
    requires c.Fits()
    ensures var r := BoolAt(c); r.res.Ok? ==> Reads(c, BoolSpelling(r.res.value), r.rest)
  {
    var r := BoolAt(c);
    if r.res.Ok? {
      var e1 := ExprAt(c);
      var d := e1.rest.Step();
      var e2 := ExprAt(d);
      var left := ExprSpelling(e1.res.value);
      var right := ExprSpelling(e2.res.value);
      ExprSpelled(c);
      ExprSpelled(d);
      ReadsAround(c, left, e1.rest, right, e2.rest);
    }
  }

  lemma RdSpelled(c: Cursor)
    requires c.Fits() && c.tok.kind == "rd"
    ensures var r := RdAt(c); r.res.Ok? ==> Reads(c, StmtSpelling(RdStmt(r.res.value)), r.rest)
  {
    var r := RdAt(c);
    if r.res.Ok? {
      var d := c.Step();
      var i := d.Step();
      ReadsOne(c);
      ReadsOne(d);
      ReadsOne(i);
      ReadsJoin(d, [d.tok], i, [i.tok], i.Step());
      ReadsJoin(c, [c.tok], d, [d.tok] + [i.tok], i.Step());
      assert [c.tok] + ([d.tok] + [i.tok]) == StmtSpelling(RdStmt(r.res.value));
    }
  }

  lemma WrSpelled(c: Cursor)
    requires c.Fits() && c.tok.kind == "wr"
    ensures var r := WrAt(c); r.res.Ok? ==> Reads(c, StmtSpelling(WrStmt(r.res.value)), r.rest)
  {
    var r := WrAt(c);
    if r.res.Ok? {
      var e := ExprAt(c.Step());
      var body := ExprSpelling(e.res.value);
      ReadsOne(c);
      ExprSpelled(c.Step());
      ReadsOne(e.rest);
      ReadsJoin(c.Step(), body, e.rest, [e.rest.tok], e.rest.Step());
      ReadsJoin(c, [c.tok], c.Step(), body + [e.rest.tok], e.rest.Step());
      assert [c.tok] + (body + [e.rest.tok]) == StmtSpelling(WrStmt(r.res.value));
    }
  }

  lemma {:induction false} IfSpelled(c: Cursor)
    requires c.Fits() && c.tok.kind == "if"
    ensures var r := IfAt(c); r.res.Ok? ==> Reads(c, IfSpelling(r.res.value), r.rest)
    decreases c.Measure(), 6
  {
    var r := IfAt(c);
    if r.res.Ok? {
      var b := BoolAt(c.Step());
      var t := b.rest.Step();
      var s1 := StmtAt(t);
      var cond := BoolSpelling(b.res.value);
      var thenPart := StmtSpelling(s1.res.value);
      BoolSpelled(c.Step());
      StmtSpelled(t);
      var elsePart: seq<Token>;
      if s1.rest.tok.kind == "else" {
        var s2 := StmtAt(s1.rest.Step());
        StmtSpelled(s1.rest.Step());
        elsePart := [s1.rest.tok] + StmtSpelling(s2.res.value);
        ReadsLead(s1.rest, StmtSpelling(s2.res.value), r.rest);
        assert r.res.value == IfNode(b.res.value, s1.res.value, Some(s2.res.value));
      } else {
        elsePart := [];
        assert r.res.value == IfNode(b.res.value, s1.res.value, None);
      }
      ReadsJoin(t, thenPart, s1.rest, elsePart, r.rest);
      ReadsAround(c.Step(), cond, b.rest, thenPart + elsePart, r.rest);
      ReadsLead(c, cond + [b.rest.tok] + (thenPart + elsePart), r.rest);
      IfShape(r.res.value, c.tok, b.rest.tok, elsePart);
    }
  }

  /** The spelling of an if statement, grouped as the proof above reads it. */
  lemma IfShape(i: IfNode, kw: Token, thenTok: Token, elsePart: seq<Token>)
    requires kw == OfKind("if") && thenTok == OfKind("then")
    requires elsePart == if i.elseStmt.Some? then [OfKind("else")] + StmtSpelling(i.elseStmt.value) else []
    ensures [kw] + (BoolSpelling(i.cond) + [thenTok] + (StmtSpelling(i.thenStmt) + elsePart)) == IfSpelling(i)
  {
  }

  lemma {:induction false} WhileSpelled(c: Cursor)
    requires c.Fits() && c.tok.kind == "while"
    ensures var r := WhileAt(c); r.res.Ok? ==> Reads(c, StmtSpelling(WhileStmt(r.res.value)), r.rest)
    decreases c.Measure(), 6
  {
    var r := WhileAt(c);
    if r.res.Ok? {
      var b := BoolAt(c.Step());
      var d := b.rest.Step();
      var s := StmtAt(d);
      var cond := BoolSpelling(b.res.value);
      var body := StmtSpelling(s.res.value);
      BoolSpelled(c.Step());
      StmtSpelled(d);
      ReadsAround(c.Step(), cond, b.rest, body, r.rest);
      ReadsLead(c, cond + [b.rest.tok] + body, r.rest);
      assert r.res.value == WhileNode(b.res.value, s.res.value);
      WhileShape(r.res.value, c.tok, b.rest.tok);
    }
  }

  /** The spelling of a while statement, grouped as the proof above reads it. */
  lemma WhileShape(w: WhileNode, kw: Token, doTok: Token)
    requires kw == OfKind("while") && doTok == OfKind("do")
    ensures [kw] + (BoolSpelling(w.cond) + [doTok] + StmtSpelling(w.stmt)) == StmtSpelling(WhileStmt(w))
  {
  }

  /** A statement that parses has read exactly its spelling. */
  lemma {:induction false} StmtSpelled(c: Cursor)
    requires c.Fits()
    ensures var r := StmtAt(c); r.res.Ok? ==> Reads(c, StmtSpelling(r.res.value), r.rest)
    decreases c.Measure(), 7
  {
    var r := StmtAt(c);
    if r.res.Ok? {
      var k := c.tok.kind;
      if k == "id" {
        var a := AssnAt(c);
        AssnSpelled(c);
        ReadsOne(a.rest);
        ReadsJoin(c, AssnSpelling(a.res.value), a.rest, [a.rest.tok], a.rest.Step());
      } else if k == "rd" {
        RdSpelled(c);
      } else if k == "wr" {
        WrSpelled(c);
      } else if k == "if" {
        IfSpelled(c);
      } else if k == "while" {
        WhileSpelled(c);
      }
    }
  }

  /** A block that parses has read its statements' spellings, separated by ";". */
  lemma {:induction false} BlockSpelled(c: Cursor)
    requires c.Fits()
    ensures var r := BlockAt(c); r.res.Ok? ==> Reads(c, BlockSpelling(r.res.value), r.rest)
    decreases c.Measure()
  {
    var r := BlockAt(c);
    var s := StmtAt(c);
    StmtSpelled(c);
    if r.res.Ok? {
      var head := StmtSpelling(s.res.value);
      if s.rest.tok.kind == ";" {
        var d := s.rest.Step();
        var b := BlockAt(d);
        var tail := BlockSpelling(b.res.value);
        assert r.res.value == Block(s.res.value, Some(b.res.value)) && r.rest == b.rest;
        BlockSpelled(d);
        ReadsAround(c, head, s.rest, tail, b.rest);
        BlockShape(r.res.value, s.rest.tok);
      } else {
        assert r.res.value == Block(s.res.value, None) && r.rest == s.rest;
        BlockShape(r.res.value, s.rest.tok);
      }
    }
  }

  /** The spelling of a block, grouped as the proof above reads it. */
  lemma BlockShape(b: Block, semi: Token)
    requires b.block.Some? ==> semi == OfKind(";")
    ensures b.block.Some? ==> StmtSpelling(b.stmt) + [semi] + BlockSpelling(b.block.value) == BlockSpelling(b)
    ensures b.block.None? ==> StmtSpelling(b.stmt) == BlockSpelling(b)
  {
  }

  /**
   * `parse(program)` accepts a text only when the tokens the scanner makes
   * of the whole text are the returned program's spelling followed by EOF.
   */
  lemma ProgramSpelled(text: string, keywords: set<string>)
    requires "num" !in keywords && "EOF" !in keywords
    ensures var r := ParseText(text, keywords);
      var p := ProgAt(Start(text, keywords));
      r.Ok? ==>
        && Reads(Start(text, keywords), BlockSpelling(r.value.block) + [EofToken], p.rest.Step())
        && p.rest.pos == |text| && p.rest.Step() == p.rest
  {
    var c := Start(text, keywords);
    var r := ParseText(text, keywords);
    if r.Ok? {
      var p := ProgAt(c);
      BlockSpelled(c);
      ReadsOne(p.rest);
      ReadsJoin(c, BlockSpelling(r.value.block), p.rest, [p.rest.tok], p.rest.Step());
    }
  }

  // ---------------------------------------------------------------------
  // The C rendering of an expression is the text of its tokens.
  // ---------------------------------------------------------------------

  lemma {:induction false} LexemesJoin(a: seq<Token>, b: seq<Token>)
    ensures Lexemes(a + b) == Lexemes(a) + Lexemes(b)
    decreases |a|
  {
    if |a| == 0 {
      assert a + b == b;
    } else {
      LexemesJoin(a[1..], b);
      TailOfJoin(a, b);
    }
  }

  lemma {:induction false} FactCodeSpelled(f: Fact)
    ensures f.Code() == Lexemes(FactSpelling(f))
    decreases f
  {
    match f
    case FactNum(_) =>
      assert [Token("num", f.num)][1..] == [];
    case FactId(_, _) =>
      assert [Token("id", f.id)][1..] == [];
    case FactNeg(g) =>
      FactCodeSpelled(g);
      LexemesJoin([OfKind("-")], FactSpelling(g));
      assert [OfKind("-")][1..] == [];
    case FactExpr(e) =>
      ExprCodeSpelled(e);
      LexemesJoin([OfKind("(")], ExprSpelling(e));
      LexemesJoin([OfKind("(")] + ExprSpelling(e), [OfKind(")")]);
      assert [OfKind("(")][1..] == [] && [OfKind(")")][1..] == [];
  }

  lemma {:induction false} TermCodeSpelled(t: Term)
    ensures t.Code() == Lexemes(TermSpelling(t))
    decreases t
  {
    match t
    case TermUnit(f) =>
      FactCodeSpelled(f);
    case TermChain(rest, m, f) =>
      TermCodeSpelled(rest);
      FactCodeSpelled(f);
      LexemesJoin(TermSpelling(rest), [OfKind(m.sym)]);
      LexemesJoin(TermSpelling(rest) + [OfKind(m.sym)], FactSpelling(f));
      assert [OfKind(m.sym)][1..] == [];
  }

  /**
   * An expression renders as the lexemes of its spelling, one after
   * another: with the round trip, a parsed expression renders its tokens
   * in the order they were read.
   */
  lemma {:induction false} ExprCodeSpelled(e: Expr)
    ensures e.Code() == Lexemes(ExprSpelling(e))
    decreases e
  {
    match e
    case ExprUnit(t) =>
      TermCodeSpelled(t);
    case ExprChain(rest, a, t) =>
      ExprCodeSpelled(rest);
      TermCodeSpelled(t);
      LexemesJoin(ExprSpelling(rest), [OfKind(a.sym)]);
      LexemesJoin(ExprSpelling(rest) + [OfKind(a.sym)], TermSpelling(t));
      assert [OfKind(a.sym)][1..] == [];
  }

  /**
   * A parsed expression renders as C exactly the lexemes of the tokens the
   * parse read, in the order they were read.
   */
  lemma ParsedExprCode(c: Cursor)
    requires c.Fits()
    ensures var r := ExprAt(c);
      r.res.Ok? ==>
        && Reads(c, ExprSpelling(r.res.value), r.rest)
        && r.res.value.Code() == Lexemes(ExprSpelling(r.res.value))
  {
    var r := ExprAt(c);
    ExprSpelled(c);
    if r.res.Ok? {
      ExprCodeSpelled(r.res.value);
    }
  }
}
