/**
 * Arithmetic expressions: operator nodes, factors, terms (factors joined by
 * `*` and `/`), expressions (terms joined by `+` and `-`) and comparisons,
 * each with its value in a store and its C rendering.
 *
 * A chain such as T1 + T2 - T3 is held with its rightmost unit at the top:
 * `ExprChain(rest, op, unit)` stands for `rest op unit`.
 */
module Exprs {
  import opened Wrappers
  import opened Text
  import opened Errors
  import opened Env

  /** `+` or `-`, with the position the parser recorded for it. */
  datatype Addop = Addop(pos: int, sym: string) {

    predicate Known() {
      sym == "+" || sym == "-"
    }

    /** Java's `op(o1, o2)`: the sum or left-minus-right difference. */
    function Apply(o1: real, o2: real): (r: Result<real, EvalException>)
      ensures r.Ok? <==> Known()
      ensures sym == "+" ==> r == Ok(o1 + o2)
      ensures sym == "-" ==> r == Ok(o1 - o2)
      ensures r.Err? ==> r.error == EvalException(pos, "bogus addop: " + sym)
    {
      if sym == "+" then Ok(o1 + o2)
      else if sym == "-" then Ok(o1 - o2)
      else Err(EvalException(pos, "bogus addop: " + sym))
    }

    function Code(): string {
      sym
    }
  }

  /** `*` or `/`, with the position the parser recorded for it. */
  datatype Mulop = Mulop(pos: int, sym: string) {

    predicate Known() {
      sym == "*" || sym == "/"
    }

    /**
     * Java's `op(o1, o2)`: the product or the quotient. A zero divisor
     * gives 0 here (Java's double division gives an infinity or NaN).
     */
    function Apply(o1: real, o2: real): (r: Result<real, EvalException>)
      ensures r.Ok? <==> Known()
      ensures sym == "*" ==> r == Ok(o1 * o2)
      ensures sym == "/" && o2 != 0.0 ==> r == Ok(o1 / o2)
      ensures r.Err? ==> r.error == EvalException(pos, "bogus mulop: " + sym)
    {
      if sym == "*" then Ok(o1 * o2)
      else if sym == "/" then Ok(if o2 == 0.0 then 0.0 else o1 / o2)
      else Err(EvalException(pos, "bogus mulop: " + sym))
    }

    function Code(): string {
      sym
    }
  }

  /** A number, a variable, a negated factor, or a parenthesised expression. */
  datatype Fact =
    | FactNum(num: string)
    | FactId(pos: int, id: string)
    | FactNeg(fact: Fact)
    | FactExpr(expr: Expr)
  {
    /** Every literal is a non-empty run of decimal digits, as the scanner makes them. */
    predicate Numeric() {
      match this
      case FactNum(num) => |num| > 0 && AllDigits(num)
      case FactId(_, _) => true
      case FactNeg(f) => f.Numeric()
      case FactExpr(e) => e.Numeric()
    }

    /** Every variable is bound and every operator is known. */
    ghost predicate Defined(s: Store) {
      match this
      case FactNum(_) => true
      case FactId(_, id) => id in s.vals
      case FactNeg(f) => f.Defined(s)
      case FactExpr(e) => e.Defined(s)
    }

    /** The value in `s`; it fails exactly when something is undefined. */
    function Eval(s: Store): (r: Result<real, EvalException>)
      requires Numeric()
      ensures r.Ok? <==> Defined(s)
    {
      match this
      case FactNum(num) => Ok(DigitsValue(num) as real)
      case FactId(pos, id) => s.Get(pos, id)
      case FactNeg(f) =>
        var v := f.Eval(s);
        if v.Err? then v else Ok(-v.value)
      case FactExpr(e) => e.Eval(s)
    }

    function Code(): string {
      match this
      case FactNum(num) => num
      case FactId(_, id) => id
      case FactNeg(f) => "-" + f.Code()
      case FactExpr(e) => "(" + e.Code() + ")"
    }
  }

  /** A factor, or a term chain followed by a multiplicative operator and a factor. */
  datatype Term =
    | TermUnit(fact: Fact)
    | TermChain(term: Term, mulop: Mulop, fact: Fact)
  {
    predicate Numeric() {
      match this
      case TermUnit(f) => f.Numeric()
      case TermChain(t, _, f) => t.Numeric() && f.Numeric()
    }

    ghost predicate Defined(s: Store) {
      match this
      case TermUnit(f) => f.Defined(s)
      case TermChain(t, m, f) => t.Defined(s) && m.Known() && f.Defined(s)
    }

    /**
     * The sub-chain is the left operand and is evaluated first, then the
     * factor, then the operator is applied.
     */
    function Eval(s: Store): (r: Result<real, EvalException>)
      requires Numeric()
      ensures r.Ok? <==> Defined(s)
    {
      match this
      case TermUnit(f) => f.Eval(s)
      case TermChain(t, m, f) =>
        var l := t.Eval(s);
        if l.Err? then l
        else
          var v := f.Eval(s);
          if v.Err? then v else m.Apply(l.value, v.value)
    }

    function Code(): string {
      match this
      case TermUnit(f) => f.Code()
      case TermChain(t, m, f) => t.Code() + m.Code() + f.Code()
    }
  }

  /** A term, or an expression chain followed by an additive operator and a term. */
  datatype Expr =
    | ExprUnit(term: Term)
    | ExprChain(expr: Expr, addop: Addop, term: Term)
  {
    predicate Numeric() {
      match this
      case ExprUnit(t) => t.Numeric()
      case ExprChain(e, _, t) => e.Numeric() && t.Numeric()
    }

    ghost predicate Defined(s: Store) {
      match this
      case ExprUnit(t) => t.Defined(s)
      case ExprChain(e, a, t) => e.Defined(s) && a.Known() && t.Defined(s)
    }

    /**
     * The sub-chain is the left operand and is evaluated first, then the
     * term, then the operator is applied.
     */
    function Eval(s: Store): (r: Result<real, EvalException>)
      requires Numeric()
      ensures r.Ok? <==> Defined(s)
    {
      match this
      case ExprUnit(t) => t.Eval(s)
      case ExprChain(e, a, t) =>
        var l := e.Eval(s);
        if l.Err? then l
        else
          var v := t.Eval(s);
          if v.Err? then v else a.Apply(l.value, v.value)
    }

    function Code(): string {
      match this
      case ExprUnit(t) => t.Code()
      case ExprChain(e, a, t) => e.Code() + a.Code() + t.Code()
    }
  }

  /** The six relational operators a comparison knows. */
  predicate IsRelop(relop: string) {
    relop in {"<", "<=", ">", ">=", "==", "<>"}
  }

  /** Whether `relop` holds between the two values. */
  predicate Holds(relop: string, l: real, r: real)
    requires IsRelop(relop)
  {
    match relop
    case "<" => l < r
    case "<=" => l <= r
    case ">" => l > r
    case ">=" => l >= r
    case "==" => l == r
    case "<>" => l != r
  }

  /** A comparison of two expressions, as used by `if` and `while`. */
  datatype BoolExpr = BoolExpr(expr1: Expr, relop: string, expr2: Expr) {

    predicate Numeric() {
      expr1.Numeric() && expr2.Numeric()
    }

    /**
     * 1 when the relation holds and 0 when it does not; both sides are
     * evaluated, left first, before the operator is looked at.
     */
    function Eval(s: Store): (r: Result<real, EvalException>)
      requires Numeric()
      ensures r.Ok? <==> expr1.Defined(s) && expr2.Defined(s) && IsRelop(relop)
      ensures r.Ok? ==> r.value == (if Holds(relop, expr1.Eval(s).value, expr2.Eval(s).value) then 1.0 else 0.0)
      ensures !expr1.Defined(s) ==> r == expr1.Eval(s)
      ensures expr1.Defined(s) && !expr2.Defined(s) ==> r == expr2.Eval(s)
      ensures expr1.Defined(s) && expr2.Defined(s) && !IsRelop(relop) ==>
        r == Err(EvalException(0, "invalid relop: " + relop))
    {
      var l := expr1.Eval(s);
      if l.Err? then l
      else
        var v := expr2.Eval(s);
        if v.Err? then v
        else if IsRelop(relop) then Ok(if Holds(relop, l.value, v.value) then 1.0 else 0.0)
        else Err(EvalException(0, "invalid relop: " + relop))
    }

    function Code(): string {
      "(" + expr1.Code() + " " + relop + " " + expr2.Code() + ")"
    }
  }

  /** A successful comparison yields 0 or 1. */
  lemma BoolIsZeroOrOne(b: BoolExpr, s: Store)
    requires b.Numeric() && b.Eval(s).Ok?
    ensures b.Eval(s).value == 0.0 || b.Eval(s).value == 1.0
  {
  }

  /** A literal is worth its decimal value, whatever the store, and is never negative. */
  lemma LiteralValue(num: string, s: Store, t: Store)
    requires |num| > 0 && AllDigits(num)
    ensures FactNum(num).Eval(s) == FactNum(num).Eval(t)
    ensures FactNum(num).Eval(s).value >= 0.0
  {
  }

  /** The decimal text of a natural number reads back as that number. */
  lemma LiteralOfNumber(n: nat, s: Store)
    ensures FactNum(NatToString(n)).Eval(s) == Ok(n as real)
  {
    DigitsValueOfNatToString(n);
  }

  /** A variable is worth its binding; an unbound one fails at the node's position. */
  lemma VariableValue(pos: int, id: string, s: Store)
    ensures id in s.vals ==> FactId(pos, id).Eval(s) == Ok(s.vals[id])
    ensures id !in s.vals ==> FactId(pos, id).Eval(s) == Err(EvalException(pos, UndefinedMessage(id)))
  {
  }

  /** Negating twice gives back the factor's value, errors included. */
  lemma DoubleNegation(f: Fact, s: Store)
    requires f.Numeric()
    ensures FactNeg(FactNeg(f)).Eval(s) == f.Eval(s)
  {
  }

  /** Parentheses change neither the value nor the errors of an expression. */
  lemma ParenthesesKeepValue(e: Expr, s: Store)
    requires e.Numeric()
    ensures FactExpr(e).Eval(s) == e.Eval(s)
    ensures TermUnit(FactExpr(e)).Eval(s) == e.Eval(s)
  {
  }

  /**
   * The rendering of a parenthesised expression adds exactly one pair of
   * parentheses around the inner text; a negation adds one leading minus,
   * so a double negation renders as "--".
   */
  lemma WrappedCode(e: Expr, f: Fact)
    ensures var c := FactExpr(e).Code();
      |c| == |e.Code()| + 2 && c[0] == '(' && c[|c| - 1] == ')' && c[1..|c| - 1] == e.Code()
    ensures FactNeg(FactNeg(f)).Code() == "--" + f.Code()
  {
    var c := FactExpr(e).Code();
    assert c[1..|c| - 1] == e.Code();
  }
}
