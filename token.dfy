/** The scanner's unit of output: a token kind paired with its lexeme. */
module Tokens {

  /**
   * `kind` is the token type ("id", "num", "+", "EOF", ...); `lex` is the
   * exact source text. Java's accessors `tok()` and `lex()` are the fields.
   */
  datatype Token = Token(kind: string, lex: string) {

    /** Java's `equals(Token)`: only the kinds are compared. */
    predicate SameKind(t: Token) {
      kind == t.kind
    }

    /** Java's `toString()`: "<kind,lexeme>". */
    function ToString(): string {
      "<" + kind + "," + lex + ">"
    }
  }

  /** The one-argument constructor `Token(kind)`: the lexeme is the kind itself. */
  function OfKind(kind: string): (t: Token)
    ensures t.kind == kind && t.lex == kind
  {
    Token(kind, kind)
  }

  /** The token the scanner produces at end of input. */
  const EofToken: Token := OfKind("EOF")

  /** Matching ignores lexemes: tokens of one kind are interchangeable. */
  lemma SameKindIgnoresLexeme(k: string, a: string, b: string)
    ensures Token(k, a).SameKind(Token(k, b))
    ensures Token(k, a).SameKind(OfKind(k))
  {
  }

  /** Kind-only equality is an equivalence relation. */
  lemma SameKindIsEquivalence(a: Token, b: Token, c: Token)
    ensures a.SameKind(a)
    ensures a.SameKind(b) ==> b.SameKind(a)
    ensures a.SameKind(b) && b.SameKind(c) ==> a.SameKind(c)
  {
  }

  /**
   * The rendering holds the kind and the lexeme verbatim, in that order,
   * between angle brackets; when the kind has no comma, the two parts can be
   * recovered from the text, so such tokens render differently.
   */
  lemma {:induction false} ToStringLayout(t: Token)
    ensures var s := t.ToString();
      && |s| == |t.kind| + |t.lex| + 3
      && s[0] == '<' && s[|s| - 1] == '>'
      && s[1..|t.kind| + 1] == t.kind
      && s[|t.kind| + 1] == ','
      && s[|t.kind| + 2..|s| - 1] == t.lex
  {
    var s := t.ToString();
    assert s == ("<" + t.kind + ",") + t.lex + ">";
    assert s[1..|t.kind| + 1] == ("<" + t.kind)[1..];
  }

  lemma ToStringInjective(a: Token, b: Token)
    requires ',' !in a.kind && ',' !in b.kind
    requires a.ToString() == b.ToString()
    ensures a == b
  {
    ToStringLayout(a);
    ToStringLayout(b);
  }
}
