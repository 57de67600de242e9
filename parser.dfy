/**
 * The recursive-descent parser: one method per grammar rule, each reading
 * tokens from the shared scanner and building its part of the tree.
 *
 *   prog     ::= block EOF
 *   block    ::= stmt [ ";" block ]
 *   stmt     ::= id "=" expr ";" | "rd" id ";" | "wr" expr ";"
 *              | "if" boolexpr "then" stmt [ "else" stmt ]
 *              | "while" boolexpr "do" stmt
 *   boolexpr ::= expr relop expr
 *   expr     ::= term [ addop expr ]
 *   term     ::= fact [ mulop term ]
 *   fact     ::= "-" fact | "(" expr ")" | id | num
 *
 * Every method is proved to do exactly what the parse function of the same
 * rule in module Grammar computes from the scanner's state on entry: the
 * same tree or the same exception, and the same scanner state on exit. The
 * properties of the parse (what it reads, what it builds) are proved there.
 */
module Parsing {
  import opened Wrappers
  import opened Tokens
  import opened Errors
  import opened Lexer
  import opened Exprs
  import opened Chains
  import opened Stmts
  import opened Grammar

  /**
   * `term.append(new NodeTerm(fact, mulop, null))`: the factor and its
   * operator become the new leftmost link of the chain.
   */
  method SpliceTerm(rest: TermNode, f: Fact, m: Mulop)
    requires rest.Valid()
    modifies rest.Repr
    ensures rest.Valid() && fresh(rest.Repr - old(rest.Repr))
    ensures rest.Value() == GraftTerm(old(rest.Value()), f, m)
  {
    var head := new TermNode(f, Some(m));
    rest.Append(head);
  }

  /**
   * `expr.append(new NodeExpr(term, addop, null))`: the term and its
   * operator become the new leftmost link of the chain.
   */
  method SpliceExpr(rest: ExprNode, t: Term, a: Addop)
    requires rest.Valid()
    modifies rest.Repr
    ensures rest.Valid() && fresh(rest.Repr - old(rest.Repr))
    ensures rest.Value() == GraftExpr(old(rest.Value()), t, a)
  {
    var head := new ExprNode(t, Some(a));
    rest.Append(head);
  }

  class Parser {
    const keywords: set<string>
    var scanner: Scanner?

    /** The scanner's state as a cursor of the functional parse. */
    ghost function At(): Cursor
      reads this, scanner
      requires scanner != null && scanner.token.Some?
    {
      Cursor(scanner.program, scanner.keywords, scanner.token.value, scanner.pos)
    }

    /** A scanner that has read a token, with the fixed operators and these keywords. */
    ghost predicate Valid()
      reads this, scanner
    {
      && scanner != null && scanner.token.Some?
      && scanner.keywords == keywords && scanner.operators == DefaultOperators
      && At().Fits()
    }

    /** The parser for a language with the given keywords. */
    constructor (keywords: set<string>)
      ensures this.keywords == keywords && scanner == null
    {
      this.keywords := keywords;
      scanner := null;
    }

    /**
     * `match(s)`: the scanner's match of a token of kind `s`; on success the
     * scanner has read one more token, on failure nothing has moved.
     */
    method Match(kind: string) returns (o: Outcome<SyntaxException>)
      requires Valid()
      modifies scanner
      ensures Valid()
      ensures var e := Expect(old(At()), kind);
        && (o.Pass? <==> e.Ok?)
        && (e.Ok? ==> At() == e.value)
        && (e.Err? ==> o == Fail(e.error) && At() == old(At()))
    {
      ghost var c := At();
      o := scanner.Match(OfKind(kind));
      if o.Pass? {
        assert At() == ScanFrom(c.text, c.keywords, c.pos) == c.Step();
      }
    }

    /**
     * `parseMulop`: a "*" or "/" token becomes an operator node, at the
     * position the scanner holds once the operator is consumed; anything
     * else is left for the caller.
     */
    method ParseMulop() returns (m: Option<Mulop>)
      requires Valid()
      modifies scanner
      ensures Valid()
      ensures var c := old(At());
        if c.tok.kind == "*" || c.tok.kind == "/" then
          m == Some(Mulop(c.Step().pos, c.tok.kind)) && At() == c.Step()
        else
          m == None && At() == c
    {
      var cur := scanner.Curr();
      if cur.value.SameKind(OfKind("*")) {
        var _ := Match("*");
        return Some(Mulop(scanner.Pos(), "*"));
      }
      if cur.value.SameKind(OfKind("/")) {
        var _ := Match("/");
        return Some(Mulop(scanner.Pos(), "/"));
      }
      return None;
    }

    /** `parseAddop`: the same for "+" and "-". */
    method ParseAddop() returns (a: Option<Addop>)
      requires Valid()
      modifies scanner
      ensures Valid()
      ensures var c := old(At());
        if c.tok.kind == "+" || c.tok.kind == "-" then
          a == Some(Addop(c.Step().pos, c.tok.kind)) && At() == c.Step()
        else
          a == None && At() == c
    {
      var cur := scanner.Curr();
      if cur.value.SameKind(OfKind("+")) {
        var _ := Match("+");
        return Some(Addop(scanner.Pos(), "+"));
      }
      if cur.value.SameKind(OfKind("-")) {
        var _ := Match("-");
        return Some(Addop(scanner.Pos(), "-"));
      }
      return None;
    }

    /**
     * `parseFact`: chooses by the current kind. "-" negates a factor, "("
     * reads an expression and then needs ")", "id" is a variable carrying
     * the position after it, and anything else must be "num".
     */
    method ParseFact() returns (r: Result<Fact, SyntaxException>)
      requires Valid()
      modifies scanner
      ensures Valid() && Parsed(r, At()) == FactAt(old(At()))
      decreases At().Measure(), 1
    {
      var cur := scanner.Curr();
      var tok := cur.value;
      if tok.SameKind(OfKind("-")) {
        var _ := Match("-");
        var f := ParseFact();
        if f.Err? {
          return f;
        }
        return Ok(FactNeg(f.value));
      }
      if tok.SameKind(OfKind("(")) {
        var _ := Match("(");
        var e := ParseExpr();
        if e.Err? {
          return Err(e.error);
        }
        var inner := e.value.Value();
        var close := Match(")");
        if close.Fail? {
          return Err(close.error);
        }
        return Ok(FactExpr(inner));
      }
      if tok.SameKind(OfKind("id")) {
        var _ := Match("id");
        return Ok(FactId(scanner.Pos(), tok.lex));
      }
      var num := Match("num");
      if num.Fail? {
        return Err(num.error);
      }
      return Ok(FactNum(tok.lex));
    }

    /**
     * `parseTerm`: a factor, then, if a "*" or "/" follows, the rest of the
     * term, onto whose far end the factor and operator are spliced with
     * `append`. The chain returned holds the term the parse function builds.
     */
    method ParseTerm() returns (r: Result<TermNode, SyntaxException>)
      requires Valid()
      modifies scanner
      ensures Valid()
      ensures var p := TermAt(old(At()));
        && At() == p.rest && (r.Ok? <==> p.res.Ok?)
        && (r.Err? ==> r.error == p.res.error)
        && (r.Ok? ==> fresh(r.value.Repr) && r.value.Valid() && r.value.Value() == p.res.value)
      decreases At().Measure(), 2
    {
      var f := ParseFact();
      if f.Err? {
        return Err(f.error);
      }
      var m := ParseMulop();
      if m.None? {
        var unit := new TermNode(f.value, None);
        return Ok(unit);
      }
      var rest := ParseTerm();
      if rest.Err? {
        return rest;
      }
      SpliceTerm(rest.value, f.value, m.value);
      return rest;
    }

    /**
     * `parseExpr`: a term, then, if a "+" or "-" follows, the rest of the
     * expression, onto whose far end the term and operator are spliced with
     * `append`. The chain returned holds the expression the parse function
     * builds.
     */
    method ParseExpr() returns (r: Result<ExprNode, SyntaxException>)
      requires Valid()
      modifies scanner
      ensures Valid()
      ensures var p := ExprAt(old(At()));
        && At() == p.rest && (r.Ok? <==> p.res.Ok?)
        && (r.Err? ==> r.error == p.res.error)
        && (r.Ok? ==> fresh(r.value.Repr) && r.value.Valid() && r.value.Value() == p.res.value)
      decreases At().Measure(), 3
    {
      var t := ParseTerm();
      if t.Err? {
        return Err(t.error);
      }
      var term := t.value.Value();
      var a := ParseAddop();
      if a.None? {
        var unit := new ExprNode(term, None);
        return Ok(unit);
      }
      var rest := ParseExpr();
      if rest.Err? {
        return rest;
      }
      SpliceExpr(rest.value, term, a.value);
      return rest;
    }

    /** `parseAssn`: an identifier, "=", and an expression. */
    method ParseAssn() returns (r: Result<Assn, SyntaxException>)
      requires Valid()
      modifies scanner
      ensures Valid() && Parsed(r, At()) == AssnAt(old(At()))
    {
      var id := scanner.Curr();
      var o := Match("id");
      if o.Fail? {
        return Err(o.error);
      }
      o := Match("=");
      if o.Fail? {
        return Err(o.error);
      }
      var e := ParseExpr();
      if e.Err? {
        return Err(e.error);
      }
      return Ok(Assn(id.value.lex, e.value.Value()));
    }

    /**
     * `parseBoolExpr`: an expression, a relational operator and an
     * expression. The operator is matched by its own lexeme, so any token
     * whose kind equals its lexeme is taken; its text is checked only when
     * the comparison is evaluated.
     */
    method ParseBoolExpr() returns (r: Result<BoolExpr, SyntaxException>)
      requires Valid()
      modifies scanner
      ensures Valid() && Parsed(r, At()) == BoolAt(old(At()))
    {
      var e1 := ParseExpr();
      if e1.Err? {
        return Err(e1.error);
      }
      var lhs := e1.value.Value();
      var cur := scanner.Curr();
      var relop := cur.value;
      var o := Match(relop.lex);
      if o.Fail? {
        return Err(o.error);
      }
      var e2 := ParseExpr();
      if e2.Err? {
        return Err(e2.error);
      }
      return Ok(BoolExpr(lhs, relop.lex, e2.value.Value()));
    }

    /**
     * `parseStmt`: chooses by the current kind among assignment, read,
     * write, if and while; any other token is a syntax error expecting a
     * statement, raised before anything is consumed.
     */
    method ParseStmt() returns (r: Result<Stmt, SyntaxException>)
      requires Valid()
      modifies scanner
      ensures Valid() && Parsed(r, At()) == StmtAt(old(At()))
      decreases At().Measure(), 7
    {
      var cur := scanner.Curr();
      var tok := cur.value;
      if tok.SameKind(OfKind("id")) {
        var assn := ParseAssn();
        if assn.Err? {
          return Err(assn.error);
        }
        var o := Match(";");
        if o.Fail? {
          return Err(o.error);
        }
        return Ok(AssnStmt(assn.value));
      }
      if tok.SameKind(OfKind("rd")) {
        var rd := ParseRd();
        if rd.Err? {
          return Err(rd.error);
        }
        return Ok(RdStmt(rd.value));
      }
      if tok.SameKind(OfKind("wr")) {
        var wr := ParseWr();
        if wr.Err? {
          return Err(wr.error);
        }
        return Ok(WrStmt(wr.value));
      }
      if tok.SameKind(OfKind("if")) {
        var i := ParseIf();
        if i.Err? {
          return Err(i.error);
        }
        return Ok(IfStmt(i.value));
      }
      if tok.SameKind(OfKind("while")) {
        var w := ParseWhile();
        if w.Err? {
          return Err(w.error);
        }
        return Ok(WhileStmt(w.value));
      }
      return Err(SyntaxException(scanner.Pos(), OfKind("stmt"), tok));
    }

    /** The `rd` branch of `parseStmt`: "rd", an identifier, ";". */
    method ParseRd() returns (r: Result<Rd, SyntaxException>)
      requires Valid() && At().tok.kind == "rd"
      modifies scanner
      ensures Valid() && Parsed(r, At()) == RdAt(old(At()))
    {
      var o := Match("rd");
      var id := scanner.Curr();
      o := Match("id");
      if o.Fail? {
        return Err(o.error);
      }
      o := Match(";");
      if o.Fail? {
        return Err(o.error);
      }
      return Ok(Rd(id.value.lex));
    }

    /** The `wr` branch of `parseStmt`: "wr", an expression, ";". */
    method ParseWr() returns (r: Result<Wr, SyntaxException>)
      requires Valid() && At().tok.kind == "wr"
      modifies scanner
      ensures Valid() && Parsed(r, At()) == WrAt(old(At()))
    {
      var o := Match("wr");
      var e := ParseExpr();
      if e.Err? {
        return Err(e.error);
      }
      var expr := e.value.Value();
      o := Match(";");
      if o.Fail? {
        return Err(o.error);
      }
      return Ok(Wr(expr));
    }

    /**
     * The `if` branch of `parseStmt`: "if", a comparison, "then", a
     * statement, and an else-part when the next token is "else".
     */
    method ParseIf() returns (r: Result<IfNode, SyntaxException>)
      requires Valid() && At().tok.kind == "if"
      modifies scanner
      ensures Valid() && Parsed(r, At()) == IfAt(old(At()))
      decreases At().Measure(), 6
    {
      var o := Match("if");
      var cond := ParseBoolExpr();
      if cond.Err? {
        return Err(cond.error);
      }
      o := Match("then");
      if o.Fail? {
        return Err(o.error);
      }
      var thenStmt := ParseStmt();
      if thenStmt.Err? {
        return Err(thenStmt.error);
      }
      var elseStmt: Option<Stmt> := None;
      var next := scanner.Curr();
      if next.value.SameKind(OfKind("else")) {
        o := Match("else");
        var e := ParseStmt();
        if e.Err? {
          return Err(e.error);
        }
        elseStmt := Some(e.value);
      }
      return Ok(IfNode(cond.value, thenStmt.value, elseStmt));
    }

    /** The `while` branch of `parseStmt`: "while", a comparison, "do", a statement. */
    method ParseWhile() returns (r: Result<WhileNode, SyntaxException>)
      requires Valid() && At().tok.kind == "while"
      modifies scanner
      ensures Valid() && Parsed(r, At()) == WhileAt(old(At()))
      decreases At().Measure(), 6
    {
      var o := Match("while");
      var cond := ParseBoolExpr();
      if cond.Err? {
        return Err(cond.error);
      }
      o := Match("do");
      if o.Fail? {
        return Err(o.error);
      }
      var body := ParseStmt();
      if body.Err? {
        return Err(body.error);
      }
      return Ok(WhileNode(cond.value, body.value));
    }

    /** `parseBlock`: a statement, then, if ";" follows, another block. */
    method ParseBlock() returns (r: Result<Block, SyntaxException>)
      requires Valid()
      modifies scanner
      ensures Valid() && Parsed(r, At()) == BlockAt(old(At()))
      decreases At().Measure()
    {
      var stmt := ParseStmt();
      if stmt.Err? {
        return Err(stmt.error);
      }
      var cur := scanner.Curr();
      if cur.value.SameKind(OfKind(";")) {
        var _ := Match(";");
        var rest := ParseBlock();
        if rest.Err? {
          return rest;
        }
        return Ok(Block(stmt.value, Some(rest.value)));
      }
      return Ok(Block(stmt.value, None));
    }

    /** `parseProg`: the top-level block. */
    method ParseProg() returns (r: Result<Prog, SyntaxException>)
      requires Valid()
      modifies scanner
      ensures Valid() && Parsed(r, At()) == ProgAt(old(At()))
    {
      var b := ParseBlock();
      if b.Err? {
        return Err(b.error);
      }
      return Ok(Prog(b.value));
    }

    /**
     * `parse(program)`: scans the first token, reads a program, and then
     * requires the end of the text. The result is the functional parse of
     * the text, and a successful parse has consumed the whole text.
     */
    method Parse(program: string) returns (r: Result<Prog, SyntaxException>)
      requires "num" !in keywords && "EOF" !in keywords
      modifies this
      ensures r == ParseText(program, keywords)
      ensures scanner != null && scanner.program == program
      ensures r.Ok? ==> scanner.pos == |program|
    {
      scanner := new Scanner(program, keywords);
      var _ := scanner.Next();
      assert At() == Start(program, keywords);
      var prog := ParseProg();
      if prog.Err? {
        return prog;
      }
      var o := Match("EOF");
      if o.Fail? {
        return Err(o.error);
      }
      return prog;
    }
  }
}
