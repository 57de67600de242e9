/**
 * Operator chains. The parser reads T1 a1 T2 ... an Tn+1 right-recursively
 * and then splices the head unit onto the far end of the tail chain, so the
 * finished chain is left-associated: ((T1 a1 T2) a2 ...) an Tn+1.
 *
 * `ExprOf` and `TermOf` are the left-associated chains, `GraftExpr` and
 * `GraftTerm` the splice on values, and `ExprNode.Append` and
 * `TermNode.Append` the in-place splice on linked nodes.
 */
module Chains {
  import opened Wrappers
  import opened Errors
  import opened Env
  import opened Exprs
  import Text

  // ---------------------------------------------------------------------
  // Expression chains: terms joined by additive operators.
  // ---------------------------------------------------------------------

  /** The left-associated chain of `ts` joined by `os`. */
  function ExprOf(ts: seq<Term>, os: seq<Addop>): (e: Expr)
    requires |ts| == |os| + 1
    ensures e.ExprUnit? <==> |os| == 0
    ensures e.term == ts[|ts| - 1]
    ensures AllNumeric(ts) ==> e.Numeric()
    decreases |os|
  {
    if |os| == 0 then ExprUnit(ts[0])
    else ExprChain(ExprOf(ts[..|ts| - 1], os[..|os| - 1]), os[|os| - 1], ts[|ts| - 1])
  }

  /**
   * The splice on values: `t a` is hung below the leftmost unit of `e`, so
   * the result renders as `t`, `a`, then `e`.
   */
  function GraftExpr(e: Expr, t: Term, a: Addop): (r: Expr)
    ensures r.Code() == t.Code() + a.Code() + e.Code()
    ensures e.Numeric() && t.Numeric() ==> r.Numeric()
  {
    match e
    case ExprUnit(u) => ExprChain(ExprUnit(t), a, u)
    case ExprChain(rest, b, u) => ExprChain(GraftExpr(rest, t, a), b, u)
  }

  /** Splicing a unit onto a left-associated chain puts it at the front. */
  lemma {:induction false} GraftExprOf(ts: seq<Term>, os: seq<Addop>, t: Term, a: Addop)
    requires |ts| == |os| + 1
    ensures GraftExpr(ExprOf(ts, os), t, a) == ExprOf([t] + ts, [a] + os)
    decreases |os|
  {
    if |os| > 0 {
      GraftExprOf(ts[..|ts| - 1], os[..|os| - 1], t, a);
      assert ([t] + ts)[..|ts|] == [t] + ts[..|ts| - 1];
      assert ([a] + os)[..|os|] == [a] + os[..|os| - 1];
    }
  }

  /** Every unit and every operator of the chain is well formed. */
  predicate AllNumeric(ts: seq<Term>) {
    forall i :: 0 <= i < |ts| ==> ts[i].Numeric()
  }

  /** One step of a left fold: the accumulated value, then the unit, then the operator. */
  function StepExpr(acc: Result<real, EvalException>, a: Addop, t: Term, s: Store): Result<real, EvalException>
    requires t.Numeric()
  {
    if acc.Err? then acc
    else
      var v := t.Eval(s);
      if v.Err? then v else a.Apply(acc.value, v.value)
  }

  /** Left-to-right evaluation of the rest of a chain, starting from `acc`. */
  function FoldExpr(acc: Result<real, EvalException>, ts: seq<Term>, os: seq<Addop>, s: Store): Result<real, EvalException>
    requires |ts| == |os| && AllNumeric(ts)
    decreases |ts|
  {
    if |ts| == 0 then acc else FoldExpr(StepExpr(acc, os[0], ts[0], s), ts[1..], os[1..], s)
  }

  lemma {:induction false} FoldExprSnoc(acc: Result<real, EvalException>, ts: seq<Term>, os: seq<Addop>, t: Term, a: Addop, s: Store)
    requires |ts| == |os| && AllNumeric(ts) && t.Numeric()
    ensures FoldExpr(acc, ts + [t], os + [a], s) == StepExpr(FoldExpr(acc, ts, os, s), a, t, s)
    decreases |ts|
  {
    if |ts| > 0 {
      assert (ts + [t])[1..] == ts[1..] + [t];
      assert (os + [a])[1..] == os[1..] + [a];
      FoldExprSnoc(StepExpr(acc, os[0], ts[0], s), ts[1..], os[1..], t, a, s);
    }
  }

  /**
   * A left-associated chain evaluates as a left fold: the first unit, then
   * each operator applied to the value so far and the next unit; the first
   * error met, in source order, is the result.
   */
  lemma {:induction false} ExprOfEval(ts: seq<Term>, os: seq<Addop>, s: Store)
    requires |ts| == |os| + 1 && AllNumeric(ts)
    ensures ExprOf(ts, os).Numeric()
    ensures ExprOf(ts, os).Eval(s) == FoldExpr(ts[0].Eval(s), ts[1..], os, s)
    decreases |os|
  {
    if |os| > 0 {
      var ts', os' := ts[..|ts| - 1], os[..|os| - 1];
      var last, op := ts[|ts| - 1], os[|os| - 1];
      assert AllNumeric(ts') && AllNumeric(ts'[1..]) && last.Numeric();
      ExprOfEval(ts', os', s);
      assert ExprOf(ts, os) == ExprChain(ExprOf(ts', os'), op, last);
      FoldExprSnoc(ts[0].Eval(s), ts'[1..], os', last, op, s);
      assert ts'[1..] + [last] == ts[1..];
      assert os' + [op] == os;
    }
  }

  /** The rest of a chain in source order: each operator followed by its unit. */
  function TailTextExpr(ts: seq<Term>, os: seq<Addop>): string
    requires |ts| == |os|
    decreases |ts|
  {
    if |ts| == 0 then "" else os[0].Code() + ts[0].Code() + TailTextExpr(ts[1..], os[1..])
  }

  lemma {:induction false} TailTextExprSnoc(ts: seq<Term>, os: seq<Addop>, t: Term, a: Addop)
    requires |ts| == |os|
    ensures TailTextExpr(ts + [t], os + [a]) == TailTextExpr(ts, os) + a.Code() + t.Code()
    decreases |ts|
  {
    if |ts| > 0 {
      assert (ts + [t])[1..] == ts[1..] + [t];
      assert (os + [a])[1..] == os[1..] + [a];
      TailTextExprSnoc(ts[1..], os[1..], t, a);
    }
  }

  /** A left-associated chain renders its units and operators in source order. */
  lemma {:induction false} ExprOfCode(ts: seq<Term>, os: seq<Addop>)
    requires |ts| == |os| + 1
    ensures ExprOf(ts, os).Code() == ts[0].Code() + TailTextExpr(ts[1..], os)
    decreases |os|
  {
    if |os| > 0 {
      var ts', os' := ts[..|ts| - 1], os[..|os| - 1];
      ExprOfCode(ts', os');
      TailTextExprSnoc(ts'[1..], os', ts[|ts| - 1], os[|os| - 1]);
      assert ts'[1..] + [ts[|ts| - 1]] == ts[1..];
      assert os' + [os[|os| - 1]] == os;
    }
  }

  /**
   * "10 - 2 - 3", built as the parser builds it (the tail "2 - 3" first,
   * then "10 -" spliced on), is 5 and not 10 - (2 - 3) = 11.
   */
  lemma SubtractionIsLeftAssociative(s: Store)
    ensures var ten, two, three := TermUnit(FactNum("10")), TermUnit(FactNum("2")), TermUnit(FactNum("3"));
      var minus := Addop(0, "-");
      GraftExpr(ExprOf([two, three], [minus]), ten, minus).Eval(s) == Ok(5.0)
  {
    var ten, two, three := TermUnit(FactNum("10")), TermUnit(FactNum("2")), TermUnit(FactNum("3"));
    var minus := Addop(0, "-");
    assert "10"[..1] == "1" && "1"[..0] == [] && "2"[..0] == [] && "3"[..0] == [];
    assert Text.DigitsValue("1") == 1;
    assert Text.DigitsValue("10") == 10 && Text.DigitsValue("2") == 2 && Text.DigitsValue("3") == 3;
    assert ten.Eval(s) == Ok(10.0);
    assert two.Eval(s) == Ok(2.0);
    assert three.Eval(s) == Ok(3.0);
    assert GraftExpr(ExprOf([two, three], [minus]), ten, minus)
        == ExprChain(ExprChain(ExprUnit(ten), minus, two), minus, three);
    assert ExprChain(ExprUnit(ten), minus, two).Eval(s) == Ok(8.0);
  }

  // ---------------------------------------------------------------------
  // Term chains: factors joined by multiplicative operators.
  // ---------------------------------------------------------------------

  /** The left-associated chain of `fs` joined by `ms`. */
  function TermOf(fs: seq<Fact>, ms: seq<Mulop>): (t: Term)
    requires |fs| == |ms| + 1
    ensures t.TermUnit? <==> |ms| == 0
    ensures t.fact == fs[|fs| - 1]
    ensures AllNumericFacts(fs) ==> t.Numeric()
    decreases |ms|
  {
    if |ms| == 0 then TermUnit(fs[0])
    else TermChain(TermOf(fs[..|fs| - 1], ms[..|ms| - 1]), ms[|ms| - 1], fs[|fs| - 1])
  }

  /**
   * The splice on values: `f m` is hung below the leftmost unit of `t`, so
   * the result renders as `f`, `m`, then `t`.
   */
  function GraftTerm(t: Term, f: Fact, m: Mulop): (r: Term)
    ensures r.Code() == f.Code() + m.Code() + t.Code()
    ensures t.Numeric() && f.Numeric() ==> r.Numeric()
  {
    match t
    case TermUnit(u) => TermChain(TermUnit(f), m, u)
    case TermChain(rest, n, u) => TermChain(GraftTerm(rest, f, m), n, u)
  }

  /** Splicing a unit onto a left-associated chain puts it at the front. */
  lemma {:induction false} GraftTermOf(fs: seq<Fact>, ms: seq<Mulop>, f: Fact, m: Mulop)
    requires |fs| == |ms| + 1
    ensures GraftTerm(TermOf(fs, ms), f, m) == TermOf([f] + fs, [m] + ms)
    decreases |ms|
  {
    if |ms| > 0 {
      GraftTermOf(fs[..|fs| - 1], ms[..|ms| - 1], f, m);
      assert ([f] + fs)[..|fs|] == [f] + fs[..|fs| - 1];
      assert ([m] + ms)[..|ms|] == [m] + ms[..|ms| - 1];
    }
  }

  predicate AllNumericFacts(fs: seq<Fact>) {
    forall i :: 0 <= i < |fs| ==> fs[i].Numeric()
  }

  function StepTerm(acc: Result<real, EvalException>, m: Mulop, f: Fact, s: Store): Result<real, EvalException>
    requires f.Numeric()
  {
    if acc.Err? then acc
    else
      var v := f.Eval(s);
      if v.Err? then v else m.Apply(acc.value, v.value)
  }

  function FoldTerm(acc: Result<real, EvalException>, fs: seq<Fact>, ms: seq<Mulop>, s: Store): Result<real, EvalException>
    requires |fs| == |ms| && AllNumericFacts(fs)
    decreases |fs|
  {
    if |fs| == 0 then acc else FoldTerm(StepTerm(acc, ms[0], fs[0], s), fs[1..], ms[1..], s)
  }

  lemma {:induction false} FoldTermSnoc(acc: Result<real, EvalException>, fs: seq<Fact>, ms: seq<Mulop>, f: Fact, m: Mulop, s: Store)
    requires |fs| == |ms| && AllNumericFacts(fs) && f.Numeric()
    ensures FoldTerm(acc, fs + [f], ms + [m], s) == StepTerm(FoldTerm(acc, fs, ms, s), m, f, s)
    decreases |fs|
  {
    if |fs| > 0 {
      assert (fs + [f])[1..] == fs[1..] + [f];
      assert (ms + [m])[1..] == ms[1..] + [m];
      FoldTermSnoc(StepTerm(acc, ms[0], fs[0], s), fs[1..], ms[1..], f, m, s);
    }
  }

  /** A left-associated term chain evaluates as a left fold over its factors. */
  lemma {:induction false} TermOfEval(fs: seq<Fact>, ms: seq<Mulop>, s: Store)
    requires |fs| == |ms| + 1 && AllNumericFacts(fs)
    ensures TermOf(fs, ms).Numeric()
    ensures TermOf(fs, ms).Eval(s) == FoldTerm(fs[0].Eval(s), fs[1..], ms, s)
    decreases |ms|
  {
    if |ms| > 0 {
      var fs', ms' := fs[..|fs| - 1], ms[..|ms| - 1];
      var last, op := fs[|fs| - 1], ms[|ms| - 1];
      assert AllNumericFacts(fs') && AllNumericFacts(fs'[1..]) && last.Numeric();
      TermOfEval(fs', ms', s);
      assert TermOf(fs, ms) == TermChain(TermOf(fs', ms'), op, last);
      FoldTermSnoc(fs[0].Eval(s), fs'[1..], ms', last, op, s);
      assert fs'[1..] + [last] == fs[1..];
      assert ms' + [op] == ms;
    }
  }

  function TailTextTerm(fs: seq<Fact>, ms: seq<Mulop>): string
    requires |fs| == |ms|
    decreases |fs|
  {
    if |fs| == 0 then "" else ms[0].Code() + fs[0].Code() + TailTextTerm(fs[1..], ms[1..])
  }

  lemma {:induction false} TailTextTermSnoc(fs: seq<Fact>, ms: seq<Mulop>, f: Fact, m: Mulop)
    requires |fs| == |ms|
    ensures TailTextTerm(fs + [f], ms + [m]) == TailTextTerm(fs, ms) + m.Code() + f.Code()
    decreases |fs|
  {
    if |fs| > 0 {
      assert (fs + [f])[1..] == fs[1..] + [f];
      assert (ms + [m])[1..] == ms[1..] + [m];
      TailTextTermSnoc(fs[1..], ms[1..], f, m);
    }
  }

  /** A left-associated term chain renders its factors and operators in source order. */
  lemma {:induction false} TermOfCode(fs: seq<Fact>, ms: seq<Mulop>)
    requires |fs| == |ms| + 1
    ensures TermOf(fs, ms).Code() == fs[0].Code() + TailTextTerm(fs[1..], ms)
    decreases |ms|
  {
    if |ms| > 0 {
      var fs', ms' := fs[..|fs| - 1], ms[..|ms| - 1];
      TermOfCode(fs', ms');
      TailTextTermSnoc(fs'[1..], ms', fs[|fs| - 1], ms[|ms| - 1]);
      assert fs'[1..] + [fs[|fs| - 1]] == fs[1..];
      assert ms' + [ms[|ms| - 1]] == ms;
    }
  }

  // ---------------------------------------------------------------------
  // The linked nodes and their in-place splice.
  // ---------------------------------------------------------------------

  /**
   * Java's `NodeExpr`: a term, and, when `expr` links a sub-chain, the
   * operator joining that sub-chain (the left operand) to the term.
   */
  class ExprNode {
    var term: Term
    var addop: Option<Addop>
    var expr: ExprNode?
    ghost var Repr: set<ExprNode>

    /** A finite acyclic chain in which an operator is present exactly where a sub-chain is. */
    ghost predicate Valid()
      reads this, Repr
      decreases Repr
    {
      && this in Repr
      && (addop.Some? <==> expr != null)
      && (expr != null ==>
            && expr in Repr && expr.Repr <= Repr && this !in expr.Repr
            && expr.Valid())
    }

    /** The chain as a value; Java's `eval` and `code` are `Value().Eval` and `Value().Code`. */
    function Value(): Expr
      reads this, Repr
      requires Valid()
      decreases Repr
    {
      if expr == null then ExprUnit(term) else ExprChain(expr.Value(), addop.value, term)
    }

    /** `new NodeExpr(term, addop, null)`: the parser never links a sub-chain at construction. */
    constructor (term: Term, addop: Option<Addop>)
      ensures this.term == term && this.addop == addop && expr == null
      ensures Repr == {this}
    {
      this.term := term;
      this.addop := addop;
      expr := null;
      Repr := {this};
    }

    /**
     * Java's `append(e)`: walks to the node without a sub-chain, moves `e`'s
     * operator onto it, links `e` as its sub-chain and clears `e`'s operator.
     * The value changes by `GraftExpr`; earlier nodes keep their fields.
     */
    method Append(e: ExprNode)
      requires Valid()
      requires e.expr == null && e.addop.Some? && e.Repr == {e} && e !in Repr
      modifies Repr, e
      ensures Valid() && Repr == old(Repr) + {e}
      ensures Value() == GraftExpr(old(Value()), e.term, old(e.addop.value))
      ensures e.addop == None && e.expr == null && e.term == old(e.term)
      ensures forall n :: n in old(Repr) ==> n.term == old(n.term)
      ensures forall n :: n in old(Repr) && old(n.expr) != null ==>
        n.expr == old(n.expr) && n.addop == old(n.addop)
      decreases Repr
    {
      if expr == null {
        addop := e.addop;
        expr := e;
        e.addop := None;
        Repr := Repr + {e};
      } else {
        expr.Append(e);
        Repr := Repr + {e};
      }
    }
  }

  /**
   * Java's `NodeTerm`: a factor, and, when `term` links a sub-chain, the
   * operator joining that sub-chain (the left operand) to the factor.
   */
  class TermNode {
    var fact: Fact
    var mulop: Option<Mulop>
    var term: TermNode?
    ghost var Repr: set<TermNode>

    ghost predicate Valid()
      reads this, Repr
      decreases Repr
    {
      && this in Repr
      && (mulop.Some? <==> term != null)
      && (term != null ==>
            && term in Repr && term.Repr <= Repr && this !in term.Repr
            && term.Valid())
    }

    function Value(): Term
      reads this, Repr
      requires Valid()
      decreases Repr
    {
      if term == null then TermUnit(fact) else TermChain(term.Value(), mulop.value, fact)
    }

    /** `new NodeTerm(fact, mulop, null)`. */
    constructor (fact: Fact, mulop: Option<Mulop>)
      ensures this.fact == fact && this.mulop == mulop && term == null
      ensures Repr == {this}
    {
      this.fact := fact;
      this.mulop := mulop;
      term := null;
      Repr := {this};
    }

    /** Java's `append(t)`, the same splice for term chains. */
    method Append(t: TermNode)
      requires Valid()
      requires t.term == null && t.mulop.Some? && t.Repr == {t} && t !in Repr
      modifies Repr, t
      ensures Valid() && Repr == old(Repr) + {t}
      ensures Value() == GraftTerm(old(Value()), t.fact, old(t.mulop.value))
      ensures t.mulop == None && t.term == null && t.fact == old(t.fact)
      ensures forall n :: n in old(Repr) ==> n.fact == old(n.fact)
      ensures forall n :: n in old(Repr) && old(n.term) != null ==>
        n.term == old(n.term) && n.mulop == old(n.mulop)
      decreases Repr
    {
      if term == null {
        mulop := t.mulop;
        term := t;
        t.mulop := None;
        Repr := Repr + {t};
      } else {
        term.Append(t);
        Repr := Repr + {t};
      }
    }
  }
}
