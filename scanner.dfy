/**
 * The lexer: a cursor `pos` walks the program text, skips whitespace,
 * comments and illegal characters, and leaves the next token in `token`.
 */
module Lexer {
  import opened Wrappers
  import opened Text
  import opened Tokens
  import opened Errors

  /** The fixed character sets the Java constructor fills in. */
  datatype CharClass = Whitespace | Digits | Letters | Legits {
    predicate Contains(c: char) {
      match this
      case Whitespace => c == ' ' || c == '\n' || c == '\t'
      case Digits => IsDigit(c)
      case Letters => IsLetter(c)
      case Legits => IsLetter(c) || IsDigit(c)
    }
  }

  predicate IsLetter(c: char) {
    'A' <= c <= 'Z' || 'a' <= c <= 'z'
  }

  /** The operator set the Java constructor installs: single characters only. */
  const DefaultOperators: set<string> := {"=", "+", "-", "*", "/", "(", ")", ";"}

  /** The keyword set the Java constructor installs: empty. */
  const DefaultKeywords: set<string> := {}

  /** The end of the run of `cls` characters starting at `i`. */
  function RunEnd(p: string, i: nat, cls: CharClass): (j: nat)
    requires i <= |p|
    ensures i <= j <= |p|
    ensures forall k :: i <= k < j ==> cls.Contains(p[k])
    ensures j == |p| || !cls.Contains(p[j])
    decreases |p| - i
  {
    if i < |p| && cls.Contains(p[i]) then RunEnd(p, i + 1, cls) else i
  }

  /** The first index at or after `i` holding `c`, or the end of the text. */
  function Find(p: string, i: nat, c: char): (j: nat)
    requires i <= |p|
    ensures i <= j <= |p|
    ensures forall k :: i <= k < j ==> p[k] != c
    ensures j == |p| || p[j] == c
    decreases |p| - i
  {
    if i < |p| && p[i] != c then Find(p, i + 1, c) else i
  }

  /** Java's `program.startsWith(prefix, i)`. */
  predicate StartsAt(p: string, prefix: string, i: nat) {
    i + |prefix| <= |p| && p[i..i + |prefix|] == prefix
  }

  /** A comment marker exactly at `i`: "//" or "#". */
  predicate IsCommentStart(p: string, i: nat) {
    i < |p| && (StartsAt(p, "//", i) || p[i] == '#')
  }

  /**
   * What one call of `next()` leaves behind: whether a token was found,
   * the token, where its lexeme starts, and the new cursor.
   */
  datatype Lexeme = Lexeme(more: bool, tok: Token, start: nat, end: nat)

  /** A digit, a letter or a one-character operator at `j` starts a token. */
  predicate StartsToken(p: string, ops: set<string>, j: nat)
    requires j < |p|
  {
    IsDigit(p[j]) || IsLetter(p[j]) || [p[j]] in ops
  }

  /** The token whose first character, at `j`, is a digit, a letter or an operator character. */
  function LexAt(p: string, kw: set<string>, ops: set<string>, j: nat): (r: Lexeme)
    requires j < |p| && (StartsToken(p, ops, j))
    ensures r.more && r.start == j < r.end <= |p| && r.tok.lex == p[j..r.end]
  {
    if IsDigit(p[j]) then
      var k := RunEnd(p, j, Digits);
      Lexeme(true, Token("num", p[j..k]), j, k)
    else if IsLetter(p[j]) then
      var k := RunEnd(p, RunEnd(p, j, Letters), Legits);
      var lx := p[j..k];
      Lexeme(true, Token(if lx in kw then lx else "id", lx), j, k)
    else if j + 2 < |p| && p[j..j + 2] in ops then
      Lexeme(true, OfKind(p[j..j + 2]), j, j + 2)
    else
      Lexeme(true, OfKind(p[j..j + 1]), j, j + 1)
  }

  /**
   * The specification of `next()` from cursor `i`: a comment marker at the
   * cursor is skipped to (not past) the end of its line, then whitespace;
   * at the end of the text the EOF token is produced; otherwise the first
   * character chooses a number, an identifier or keyword, or an operator of
   * one or two characters; any other character is skipped and scanning
   * resumes one position later.
   */
  function Scan(p: string, kw: set<string>, ops: set<string>, i: nat): (r: Lexeme)
    requires i <= |p|
    ensures i <= r.start <= r.end <= |p|
    ensures r.more <==> r.start < |p|
    ensures !r.more ==> r.tok == EofToken && r.end == |p|
    ensures r.more ==> r.start < r.end && r.tok.lex == p[r.start..r.end]
    decreases |p| - i
  {
    if IsCommentStart(p, i) then
      Scan(p, kw, ops, Find(p, i, '\n'))
    else
      var j := RunEnd(p, i, Whitespace);
      if j == |p| then
        Lexeme(false, EofToken, j, j)
      else if StartsToken(p, ops, j) then
        LexAt(p, kw, ops, j)
      else
        Scan(p, kw, ops, j + 1)
  }

  class Scanner {
    const program: string
    const keywords: set<string>
    const operators: set<string>
    /** Index of the next character to read. */
    var pos: nat
    /** The last token scanned; None before the first call of Next. */
    var token: Option<Token>

    ghost predicate Valid()
      reads this
    {
      pos <= |program|
    }

    /**
     * What the parser relies on about the current token: a "num" token is a
     * non-empty run of digits, and an "EOF" token stands at the end of the text.
     */
    ghost predicate TokenFits()
      reads this
    {
      token.Some? ==>
        && (token.value.kind == "num" ==> |token.value.lex| > 0 && AllDigits(token.value.lex))
        && (token.value.kind == "EOF" ==> pos == |program|)
    }

    /** Neither "num" nor "EOF" can be the kind of a keyword or an operator. */
    ghost predicate PlainKinds()
      reads this
    {
      "num" !in keywords && "EOF" !in keywords && "EOF" !in operators
    }

    /**
     * Java's `Scanner(program)`, with the keyword set as a parameter; the
     * operator set is the fixed one.
     */
    constructor (program: string, keywords: set<string>)
      ensures Valid()
      ensures this.program == program && this.keywords == keywords
      ensures operators == DefaultOperators
      ensures pos == 0 && token == None
    {
      this.program := program;
      this.keywords := keywords;
      this.operators := DefaultOperators;
      pos := 0;
      token := None;
    }

    predicate Done()
      reads this
    {
      pos >= |program|
    }

    /** Advances over the run of `cls` characters at the cursor. */
    method Many(cls: CharClass)
      requires Valid()
      modifies this`pos
      ensures Valid()
      ensures pos == RunEnd(program, old(pos), cls)
    {
      while !Done() && cls.Contains(program[pos])
        invariant old(pos) <= pos <= |program|
        invariant RunEnd(program, pos, cls) == RunEnd(program, old(pos), cls)
        decreases |program| - pos
      {
        pos := pos + 1;
      }
    }

    /** Advances to just after the next occurrence of `c`, or to the end. */
    method Past(c: char)
      requires Valid()
      modifies this`pos
      ensures Valid()
      ensures var f := Find(program, old(pos), c);
        pos == if f < |program| then f + 1 else f
    {
      while !Done() && c != program[pos]
        invariant old(pos) <= pos <= |program|
        invariant Find(program, pos, c) == Find(program, old(pos), c)
        decreases |program| - pos
      {
        pos := pos + 1;
      }
      if !Done() && c == program[pos] {
        pos := pos + 1;
      }
    }

    /** Scans a maximal run of digits as a "num" token. */
    method NextNumber()
      requires Valid()
      modifies this
      ensures Valid()
      ensures pos == RunEnd(program, old(pos), Digits)
      ensures token == Some(Token("num", program[old(pos)..pos]))
    {
      var start := pos;
      Many(Digits);
      token := Some(Token("num", program[start..pos]));
    }

    /** Scans letters, then letters or digits; a keyword is its own kind. */
    method NextKwId()
      requires Valid()
      modifies this
      ensures Valid()
      ensures pos == RunEnd(program, RunEnd(program, old(pos), Letters), Legits)
      ensures var lx := program[old(pos)..pos];
        token == Some(Token(if lx in keywords then lx else "id", lx))
    {
      var start := pos;
      Many(Letters);
      Many(Legits);
      var lexeme := program[start..pos];
      token := Some(Token(if lexeme in keywords then lexeme else "id", lexeme));
    }

    /**
     * Scans an operator: two characters if they form an operator and do not
     * reach the end of the text, otherwise one.
     */
    method NextOp()
      requires Valid() && pos < |program|
      modifies this
      ensures Valid()
      ensures var o := old(pos);
        if o + 2 < |program| && program[o..o + 2] in operators
        then pos == o + 2 && token == Some(OfKind(program[o..o + 2]))
        else pos == o + 1 && token == Some(OfKind(program[o..o + 1]))
    {
      var start := pos;
      pos := start + 2;
      if !Done() {
        var lexeme := program[start..pos];
        if lexeme in operators {
          token := Some(OfKind(lexeme));
          return;
        }
      }
      pos := start + 1;
      var lexeme := program[start..pos];
      token := Some(OfKind(lexeme));
    }

    /** Skips a comment: up to, not past, the next newline. */
    method SkipLine()
      requires Valid()
      modifies this`pos
      ensures Valid()
      ensures pos == Find(program, old(pos), '\n')
    {
      while !Done() && program[pos] != '\n'
        invariant old(pos) <= pos <= |program|
        invariant Find(program, pos, '\n') == Find(program, old(pos), '\n')
        decreases |program| - pos
      {
        pos := pos + 1;
      }
    }

    /** Scans the token whose first character, at the cursor, is legal. */
    method NextLexeme()
      requires Valid() && pos < |program|
      requires StartsToken(program, operators, pos)
      modifies this
      ensures Valid()
      ensures var r := LexAt(program, keywords, operators, old(pos));
        token == Some(r.tok) && pos == r.end
    {
      var c := program[pos];
      if IsDigit(c) {
        NextNumber();
      } else if IsLetter(c) {
        NextKwId();
      } else {
        NextOp();
      }
    }

    /** Advances to the next token; false exactly when the end of input is reached. */
    method Next() returns (more: bool)
      requires Valid()
      modifies this
      ensures Valid()
      ensures var r := Scan(program, keywords, operators, old(pos));
        more == r.more && token == Some(r.tok) && pos == r.end
      ensures PlainKinds() ==> TokenFits()
      decreases |program| - pos, 2
    {
      ghost var start := pos;
      if !Done() && (StartsAt(program, "//", pos) || program[pos] == '#') {
        more := NextAfterComment();
      } else {
        more := NextAfterBlanks();
      }
      if PlainKinds() {
        ScanTokenFits(program, keywords, operators, start);
      }
    }

    /** Skips the comment that starts at the cursor, then scans on. */
    method NextAfterComment() returns (more: bool)
      requires Valid() && IsCommentStart(program, pos)
      modifies this
      ensures Valid()
      ensures var r := Scan(program, keywords, operators, old(pos));
        more == r.more && token == Some(r.tok) && pos == r.end
      decreases |program| - pos, 0
    {
      CommentSkipped(program, keywords, operators, pos);
      SkipLine();
      more := Next();
    }

    /** Skips whitespace at a cursor that is not on a comment marker, then scans on. */
    method NextAfterBlanks() returns (more: bool)
      requires Valid() && !IsCommentStart(program, pos)
      modifies this
      ensures Valid()
      ensures var r := Scan(program, keywords, operators, old(pos));
        more == r.more && token == Some(r.tok) && pos == r.end
      decreases |program| - pos, 1
    {
      ScanAfterBlanks(program, keywords, operators, pos);
      Many(Whitespace);
      more := NextFrom();
    }

    /**
     * At the first character after the whitespace: produces EOF, scans a
     * token, or skips one illegal character and scans on.
     */
    method NextFrom() returns (more: bool)
      requires Valid()
      modifies this
      ensures Valid()
      ensures var r := Resume(program, keywords, operators, old(pos));
        more == r.more && token == Some(r.tok) && pos == r.end
      decreases |program| - pos, 0
    {
      if Done() {
        token := Some(OfKind("EOF"));
        return false;
      }
      if StartsToken(program, operators, pos) {
        NextLexeme();
        return true;
      }
      pos := pos + 1;
      more := Next();
    }

    /** Java's `curr()`: the current token, or an error before the first scan. */
    function Curr(): Result<Token, SyntaxException>
      reads this
    {
      if token.None? then Err(SyntaxException(pos, OfKind("ANY"), OfKind("EMPTY")))
      else Ok(token.value)
    }

    /**
     * A measure that every successful match of a token other than EOF
     * decreases: the parser's recursion is bounded by it.
     */
    function Measure(): nat
      reads this
      requires Valid()
    {
      2 * (|program| - pos) + (if token == Some(EofToken) then 0 else 1)
    }

    /**
     * Java's `match(t)`: fails without moving when the current token's kind
     * differs from `t`'s, otherwise scans the next token.
     */
    method Match(t: Token) returns (r: Outcome<SyntaxException>)
      requires Valid()
      modifies this
      ensures Valid()
      ensures old(token).Some? ==> token.Some?
      ensures old(token).None? ==>
        r == Fail(SyntaxException(old(pos), OfKind("ANY"), OfKind("EMPTY")))
      ensures old(token).Some? && !t.SameKind(old(token).value) ==>
        r == Fail(SyntaxException(old(pos), t, old(token).value))
      ensures r.Fail? ==> pos == old(pos) && token == old(token)
      ensures old(token).Some? && t.SameKind(old(token).value) ==>
        r.Pass? && var s := Scan(program, keywords, operators, old(pos));
          token == Some(s.tok) && pos == s.end
      ensures r.Pass? && t.kind != "EOF" ==> Measure() < old(Measure())
      ensures Measure() <= old(Measure())
      ensures PlainKinds() && old(TokenFits()) ==> TokenFits()
    {
      var cur := Curr();
      if cur.Err? {
        return Fail(cur.error);
      }
      if !t.SameKind(cur.value) {
        return Fail(SyntaxException(pos, t, cur.value));
      }
      var _ := Next();
      return Pass;
    }

    /** Java's `pos()`. */
    function Pos(): nat
      reads this
    {
      pos
    }
  }

  /**
   * The shape of every token `Scan` produces: a maximal run of digits is a
   * "num"; a letter followed by letters, then letters or digits, is an
   * identifier whose kind is the lexeme when that is a keyword and "id"
   * otherwise; anything else is an operator whose kind is its lexeme, two
   * characters only when they form an operator and end before the last
   * character of the text.
   */
  ghost predicate WellShaped(p: string, kw: set<string>, ops: set<string>, r: Lexeme)
    requires r.start <= r.end <= |p|
  {
    r.more ==>
      r.start < |p| &&
      var c := p[r.start];
      && (IsDigit(c) ==>
            && r.tok.kind == "num"
            && AllDigits(r.tok.lex)
            && r.end == RunEnd(p, r.start, Digits)
            && (r.end == |p| || !IsDigit(p[r.end])))
      && (IsLetter(c) ==>
            && r.end == RunEnd(p, RunEnd(p, r.start, Letters), Legits)
            && (r.end == |p| || !Legits.Contains(p[r.end]))
            && r.tok.kind == (if r.tok.lex in kw then r.tok.lex else "id"))
      && (!IsDigit(c) && !IsLetter(c) ==>
            && [c] in ops
            && r.tok.kind == r.tok.lex
            && r.tok.lex == (if r.start + 2 < |p| && p[r.start..r.start + 2] in ops
                             then p[r.start..r.start + 2] else [c]))
  }

  lemma LexAtShape(p: string, kw: set<string>, ops: set<string>, j: nat)
    requires j < |p| && (StartsToken(p, ops, j))
    ensures WellShaped(p, kw, ops, LexAt(p, kw, ops, j))
  {
    var r := LexAt(p, kw, ops, j);
    if IsDigit(p[j]) {
      assert AllDigits(r.tok.lex);
    } else if !IsLetter(p[j]) {
      assert p[j..j + 1] == [p[j]];
    }
  }

  /** Every token `next()` produces is `WellShaped`, through comments and skipped characters. */
  lemma {:induction false} ScanShape(p: string, kw: set<string>, ops: set<string>, i: nat)
    requires i <= |p|
    ensures WellShaped(p, kw, ops, Scan(p, kw, ops, i))
    decreases |p| - i
  {
    if IsCommentStart(p, i) {
      ScanShape(p, kw, ops, Find(p, i, '\n'));
    } else {
      var j := RunEnd(p, i, Whitespace);
      if j < |p| {
        if StartsToken(p, ops, j) {
          LexAtShape(p, kw, ops, j);
        } else {
          ScanShape(p, kw, ops, j + 1);
        }
      }
    }
  }

  /**
   * When "num" and "EOF" are no keyword or operator, a "num" token is a
   * non-empty run of digits and an "EOF" token ends the text.
   */
  lemma ScanTokenFits(p: string, kw: set<string>, ops: set<string>, i: nat)
    requires i <= |p|
    requires "num" !in kw && "EOF" !in kw && "EOF" !in ops
    ensures var r := Scan(p, kw, ops, i);
      && (r.tok.kind == "num" ==> |r.tok.lex| > 0 && AllDigits(r.tok.lex))
      && (r.tok.kind == "EOF" ==> r.end == |p|)
  {
    ScanShape(p, kw, ops, i);
    EofKindMeansEnd(p, kw, ops, i);
  }

  /** With the empty keyword set every identifier has kind "id". */
  lemma NoKeywordsMeansId(p: string, ops: set<string>, i: nat)
    requires i <= |p|
    ensures var r := Scan(p, DefaultKeywords, ops, i);
      r.more && IsLetter(p[r.start]) ==> r.tok.kind == "id"
  {
    ScanShape(p, DefaultKeywords, ops, i);
  }

  /** With the fixed operator set every operator token is one character long. */
  lemma DefaultOperatorsAreSingle(p: string, kw: set<string>, i: nat)
    requires i <= |p|
    ensures var r := Scan(p, kw, DefaultOperators, i);
      r.more && !IsDigit(p[r.start]) && !IsLetter(p[r.start]) ==>
        r.end == r.start + 1 && r.tok == OfKind([p[r.start]])
  {
    ScanShape(p, kw, DefaultOperators, i);
    var r := Scan(p, kw, DefaultOperators, i);
    if r.more && !IsDigit(p[r.start]) && !IsLetter(p[r.start]) && r.start + 2 < |p| {
      assert |p[r.start..r.start + 2]| == 2;
    }
  }

  /**
   * A token of kind "EOF" comes only from the end of input, unless "EOF"
   * itself is a keyword or an operator.
   */
  lemma EofKindMeansEnd(p: string, kw: set<string>, ops: set<string>, i: nat)
    requires i <= |p|
    requires "EOF" !in kw && "EOF" !in ops
    ensures var r := Scan(p, kw, ops, i);
      r.tok.kind == "EOF" ==> !r.more && r.end == |p|
  {
    ScanShape(p, kw, ops, i);
  }

  /**
   * What `Scan` does once the whitespace is behind it, at `j`: EOF at the
   * end of the text, a token at a legal first character, and otherwise a
   * fresh scan one position later.
   */
  function Resume(p: string, kw: set<string>, ops: set<string>, j: nat): (r: Lexeme)
    requires j <= |p|
    ensures j <= r.start <= r.end <= |p|
    ensures r.more <==> r.start < |p|
    ensures !r.more ==> r.tok == EofToken && r.end == |p|
  {
    if j == |p| then Lexeme(false, EofToken, j, j)
    else if StartsToken(p, ops, j) then LexAt(p, kw, ops, j)
    else Scan(p, kw, ops, j + 1)
  }

  /** Away from a comment marker, `Scan` skips blanks and resumes after them. */
  lemma ScanAfterBlanks(p: string, kw: set<string>, ops: set<string>, i: nat)
    requires i <= |p| && !IsCommentStart(p, i)
    ensures Scan(p, kw, ops, i) == Resume(p, kw, ops, RunEnd(p, i, Whitespace))
  {
  }

  /** A comment marker at the cursor is skipped up to the newline that ends it. */
  lemma CommentSkipped(p: string, kw: set<string>, ops: set<string>, i: nat)
    requires i <= |p| && IsCommentStart(p, i)
    ensures Scan(p, kw, ops, i) == Scan(p, kw, ops, Find(p, i, '\n'))
  {
  }

  /** An illegal character after the whitespace is skipped by exactly one position. */
  lemma IllegalSkipped(p: string, kw: set<string>, ops: set<string>, i: nat)
    requires i <= |p| && !IsCommentStart(p, i)
    requires var j := RunEnd(p, i, Whitespace);
      j < |p| && !IsDigit(p[j]) && !IsLetter(p[j]) && [p[j]] !in ops
    ensures Scan(p, kw, ops, i) == Scan(p, kw, ops, RunEnd(p, i, Whitespace) + 1)
  {
  }

  /**
   * The comment check comes before whitespace is skipped: after a blank, "//"
   * is scanned as the operator "/".
   */
  lemma BlankBeforeMarkerIsNoComment()
    ensures Scan(" //", DefaultKeywords, DefaultOperators, 0)
         == Lexeme(true, OfKind("/"), 1, 2)
  {
    var p := " //";
    assert p[0] == ' ' && p[0..2][0] == ' ';
    assert !IsCommentStart(p, 0);
    assert RunEnd(p, 1, Whitespace) == 1;
    assert RunEnd(p, 0, Whitespace) == 1;
    assert p[1..3] == "//" && "//" !in DefaultOperators;
    assert p[1..2] == "/";
  }
}
