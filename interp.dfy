/**
 * Running statements against a mutable `Environment`: each method is the
 * `eval` of one statement node and is proved to do what the statement's
 * `Sem` says, on the environment's store and the console.
 */
module Interp {
  import opened Wrappers
  import opened Errors
  import opened Env
  import opened Exprs
  import opened Stmts

  /** `NodeWr.eval`: evaluates, prints one line, returns the value. */
  method ExecWr(w: Wr, env: Environment, io: Io) returns (r: Result<real, Fault>, io': Io)
    requires w.expr.Numeric()
    ensures Step(r, env.State(), io') == w.Sem(env.State(), io)
  {
    var v := w.expr.Eval(env.State());
    if v.Err? {
      return Err(Raised(v.error)), io;
    }
    r := Ok(v.value);
    io' := io.(output := io.output + [Println(Form(v.value))]);
  }

  /** `NodeAssn.eval`: evaluates and prints through `ExecWr`, then binds the value. */
  method ExecAssn(a: Assn, env: Environment, io: Io) returns (r: Result<real, Fault>, io': Io)
    requires env.Valid() && a.expr.Numeric()
    modifies env
    ensures env.Valid()
    ensures Step(r, env.State(), io') == a.Sem(old(env.State()), io)
  {
    r, io' := ExecWr(Wr(a.expr), env, io);
    if r.Ok? {
      var stored := env.Put(a.id, r.value);
      r := Ok(stored);
    }
  }

  /** `NodeRd.eval`: prompts, reads one number, binds it and returns it. */
  method ExecRd(rd: Rd, env: Environment, io: Io) returns (r: Result<real, Fault>, io': Io)
    requires env.Valid()
    modifies env
    ensures env.Valid()
    ensures Step(r, env.State(), io') == rd.Sem(old(env.State()), io)
  {
    io' := io.(output := io.output + [Prompt(rd.id + " = ")]);
    if |io.input| == 0 {
      return Err(InputExhausted), io';
    }
    var val := io.input[0];
    io' := io'.(input := io.input[1..]);
    var _ := env.Put(rd.id, val);
    r := Ok(val);
  }

  /** `NodeStmt.eval`: runs an assignment, read or write; refuses if and while. */
  method ExecStmt(st: Stmt, env: Environment, io: Io) returns (r: Result<real, Fault>, io': Io)
    requires env.Valid() && st.Numeric()
    modifies env
    ensures env.Valid()
    ensures Step(r, env.State(), io') == st.Sem(old(env.State()), io)
  {
    match st
    case AssnStmt(a) => r, io' := ExecAssn(a, env, io);
    case RdStmt(rd) => r, io' := ExecRd(rd, env, io);
    case WrStmt(w) => r, io' := ExecWr(w, env, io);
    case _ => r, io' := Err(Raised(EvalException(0, "invalid statement"))), io;
  }

  /** `NodeIf.eval`: the condition, then one branch or nothing. */
  method ExecIf(i: IfNode, env: Environment, io: Io) returns (r: Result<real, Fault>, io': Io)
    requires env.Valid() && i.Numeric()
    modifies env
    ensures env.Valid()
    ensures Step(r, env.State(), io') == i.Sem(old(env.State()), io)
  {
    var c := i.cond.Eval(env.State());
    if c.Err? {
      return Err(Raised(c.error)), io;
    }
    if c.value != 0.0 {
      r, io' := ExecStmt(i.thenStmt, env, io);
    } else if i.elseStmt.Some? {
      r, io' := ExecStmt(i.elseStmt.value, env, io);
    } else {
      r, io' := Ok(0.0), io;
    }
  }

  /**
   * `NodeWhile.eval`: tests the condition before every run of the body and
   * keeps the last body result; at most `fuel` runs.
   */
  method ExecWhile(w: WhileNode, env: Environment, io: Io, fuel: nat) returns (r: Result<real, Fault>, io': Io)
    requires env.Valid() && w.Numeric()
    modifies env
    ensures env.Valid()
    ensures Step(r, env.State(), io') == w.Sem(old(env.State()), io, fuel)
  {
    var result := 0.0;
    var left := fuel;
    io' := io;
    while true
      invariant env.Valid()
      invariant w.Run(env.State(), io', left, result) == w.Sem(old(env.State()), io, fuel)
      decreases left
    {
      var c := w.cond.Eval(env.State());
      if c.Err? {
        return Err(Raised(c.error)), io';
      }
      if c.value == 0.0 {
        return Ok(result), io';
      }
      if left == 0 {
        return Err(OutOfFuel), io';
      }
      var b;
      b, io' := ExecStmt(w.stmt, env, io');
      if b.Err? {
        return b, io';
      }
      result := b.value;
      left := left - 1;
    }
  }

  /** `NodeBlock.eval`: the first statement, then the rest; the last result is returned. */
  method ExecBlock(b: Block, env: Environment, io: Io) returns (r: Result<real, Fault>, io': Io)
    requires env.Valid() && b.Numeric()
    modifies env
    ensures env.Valid()
    ensures Step(r, env.State(), io') == b.Sem(old(env.State()), io)
    decreases b
  {
    r, io' := ExecStmt(b.stmt, env, io);
    if r.Err? || b.block.None? {
      return;
    }
    r, io' := ExecBlock(b.block.value, env, io');
  }

  /** Evaluation of a program: its top-level block. */
  method ExecProg(p: Prog, env: Environment, io: Io) returns (r: Result<real, Fault>, io': Io)
    requires env.Valid() && p.Numeric()
    modifies env
    ensures env.Valid()
    ensures Step(r, env.State(), io') == p.Sem(old(env.State()), io)
  {
    r, io' := ExecBlock(p.block, env, io);
  }
}
