/** The two error records: a parse fault and an evaluation fault, both with a position. */
module Errors {
  import opened Text
  import opened Tokens

  /** Raised by the parser: where, which token kind was expected, which token was found. */
  datatype SyntaxException = SyntaxException(pos: int, expected: Token, found: Token) {

    /** "syntax error, pos=<n>, expected=<tok>, found=<tok>" */
    function ToString(): string {
      "syntax error" + ", pos=" + IntToString(pos)
      + ", expected=" + expected.ToString()
      + ", found=" + found.ToString()
    }
  }

  /** Raised during evaluation: where, and a human-readable message. */
  datatype EvalException = EvalException(pos: int, msg: string) {

    /** "eval error, pos=<n>, <msg>" */
    function ToString(): string {
      "eval error" + ", pos=" + IntToString(pos) + ", " + msg
    }
  }

  /**
   * The text of a syntax error identifies itself, and the expected token's
   * rendering stands, right after the position's digits, wholly before the
   * found token's, which ends the text.
   */
  lemma {:induction false} SyntaxTextLayout(x: SyntaxException)
    ensures var s := x.ToString();
      var exp := x.expected.ToString();
      var fnd := x.found.ToString();
      var e := 29 + |IntToString(x.pos)|;
      && s[..12] == "syntax error"
      && s[|s| - |fnd|..] == fnd
      && e + |exp| <= |s| - |fnd|
      && s[e..e + |exp|] == exp
  {
    var s := x.ToString();
    var head := "syntax error" + ", pos=" + IntToString(x.pos) + ", expected=";
    var exp := x.expected.ToString();
    var fnd := x.found.ToString();
    assert s == head + exp + ", found=" + fnd;
    assert s[..12] == head[..12];
    var e := |head|;
    assert s[e..e + |exp|] == exp;
  }

  /** The text of an evaluation error identifies itself and ends with the message verbatim. */
  lemma {:induction false} EvalTextLayout(x: EvalException)
    ensures var s := x.ToString();
      && s[..10] == "eval error"
      && s[|s| - |x.msg|..] == x.msg
  {
    var s := x.ToString();
    var head := "eval error" + ", pos=" + IntToString(x.pos) + ", ";
    assert s == head + x.msg;
    assert s[..10] == head[..10];
  }

  /** The two kinds of error never render alike. */
  lemma SyntaxAndEvalTextsDiffer(x: SyntaxException, y: EvalException)
    ensures x.ToString() != y.ToString()
  {
    SyntaxTextLayout(x);
    EvalTextLayout(y);
    assert x.ToString()[0] == 's' && y.ToString()[0] == 'e';
  }
}
