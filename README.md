# A verified model of a small translator's front end

The translator reads a tiny imperative language and both interprets it and
renders it as C. This project models its whole front end in Dafny:

- **Lexer** (`Lexer`). A `Scanner` class holds the program text, a cursor
  `pos` and the current `token`. Its methods move the cursor the way the
  original `while` loops do. Every method is proved against `Scan`, a
  function that states what one call of `next()` leaves behind.
- **Parser** (`Grammar`, `Parsing`). `Grammar` states the parser as
  functions on a cursor: the scanner's text, keywords, current token and
  position. Each function reads tokens one `next()` at a time and yields
  the node or the `SyntaxException`, together with where the scanner
  stopped. A `Parser` class has one method per grammar rule, each
  advancing the shared scanner. Every method is proved to return exactly
  what its `Grammar` function returns from the scanner's state on entry,
  and to leave the scanner where that function stops. Expressions and
  terms are read right-recursively. They are then spliced in place
  (`Append` on the `ExprNode` / `TermNode` classes in `Chains`), so the
  finished chain is left-associated.
- **Tree** (`Exprs`, `Stmts`). Every node kind is a datatype with its
  evaluation and its C rendering.
  - Evaluation is a function from a `Store` and a console (`Io`: pending
    input numbers and the events printed so far) to a result, a store and a
    console.
  - Rendering is a string function.
- **Interpreter** (`Interp`). Statements run against a mutable `Environment`
  class, and each `Exec…` method is proved to do what the matching `Sem`
  function says.
- **Environment and errors** (`Env`, `Errors`, `Tokens`). The variable
  store follows its documented map contract. It is paired with the `toC`
  declaration loop, and with the two error records and their texts.

## Results

- **Splice.** Splicing a unit onto a chain built from units `T1 … Tn` and
  operators gives the chain of `T0 T1 … Tn`. Every parsed chain therefore
  evaluates as a left fold, `((T1 a1 T2) a2 …) an Tn+1`, with the left
  operand evaluated first, and renders its units and operators in source
  order. `SubtractionIsLeftAssociative` shows the consequence:
  `10 - 2 - 3` is `5`.
- **Lexer.** `Scan` has these properties:
  - the cursor stays in bounds and only moves forward;
  - it reports "no more tokens" exactly when it reaches the end, and then
    the token is `EOF`;
  - every token's lexeme is the text it was scanned from, and its shape
    follows its first character;
  - comment markers are honoured only before blanks are skipped, so
    `" //"` scans as the operator `/`;
  - an illegal character is skipped by exactly one position.

  The whole scanner terminates, and its mutual recursion is ordered by the
  remaining text.
- **Parser.** Each tree node has a spelling: the tokens it is written
  with, `"("` and `")"` around a parenthesised expression, `";"` after an
  assignment, `"then"` and `"do"` inside `if` and `while`, and so on.
  - Round trip: a successful parse has read exactly the spelling of the
    tree it returns (`FactSpelled` … `BlockSpelled`). `parse` accepts a
    text only when the scanner's tokens for the whole text are the
    program's spelling followed by `EOF` (`ProgramSpelled`).
  - A parsed expression renders as C exactly the lexemes it was read from
    (`ParsedExprCode`).
  - Progress: no rule ever moves the scanner back. A rule that succeeds
    has consumed at least one token. When a rule fails, the error carries
    the scanner's position and the token found there.
  - Errors: the model raises the `SyntaxException` of the code on every
    path, because each method is equal to its `Grammar` function. The
    contracts spell out the error on these paths: a token that starts no
    factor or no statement, a token left after the program, a missing `")"`, `"then"` or `"do"`, an identifier missing
    after `rd`, and a relational token whose kind differs from its lexeme.
  - Termination: the functions are ordered by a measure of the remaining
    input, twice the unread length plus one until `EOF` is current. A rule
    that recurses does so only after consuming a token, or into a rule
    ranked below it at the same measure.
- **Two quirks of the source, reproduced as written.**
  - Keywords: the scanner's keyword set is empty, so `rd`, `wr`, `if` and
    `while` lex as `id` (`NoKeywordsMeansId`). The parser therefore only
    reaches those branches when the scanner is built with a keyword set.
  - Relational operators: the operator set has no `<` or `>`. A comparison
    takes any token whose kind equals its lexeme. So an identifier spelled
    `id`, or `=`, is accepted by the parser and rejected only at
    evaluation.

## Model

| member | source | states |
|---|---|---|
| Tokens.OfKind | ta1/Token.java:31-33 | the one-argument token has its lexeme equal to its kind |
| Tokens.SameKindIgnoresLexeme | ta1/Token.java:56-58 | tokens of one kind are equal under `equals`, whatever their lexemes |
| Tokens.SameKindIsEquivalence | ta1/Token.java:56-58 | kind equality is reflexive, symmetric and transitive |
| Tokens.ToStringLayout | ta1/Token.java:65-67 | the text is `<`, the kind, `,`, the lexeme, `>`, each at its exact position |
| Tokens.ToStringInjective | ta1/Token.java:65-67 | two tokens whose kinds have no comma render alike only if they are equal |
| Errors.SyntaxTextLayout | ta1/SyntaxException.java:36-41 | the text starts with "syntax error", the expected token's rendering sits right after the position digits, and the found token's rendering ends the text |
| Errors.EvalTextLayout | EvalException.java:26-30 | the text starts with "eval error" and ends with the message verbatim |
| Errors.SyntaxAndEvalTextsDiffer | ta1/SyntaxException.java:36-41 | a syntax error and an evaluation error never render alike |
| Lexer.RunEnd | Scanner.java:104-107 | the end of the maximal run of a character class: every character before it is in the class, the one at it is not |
| Lexer.Find | Scanner.java:172-173 | the first newline at or after the cursor, or the end of the text |
| Lexer.LexAt | Scanner.java:190-196 | a token at a legal first character is non-empty and its lexeme is the scanned text |
| Lexer.Scan | Scanner.java:168-203 | the cursor stays in bounds and never moves back; a token is found exactly when one starts before the end; otherwise the token is EOF at the end; a found token's lexeme is the text it spans |
| Lexer.Resume | Scanner.java:183-202 | after the blanks: EOF at the end, a token at a legal character, and a rescan one position on otherwise |
| Lexer.LexAtShape | Scanner.java:132-159 | numbers are maximal digit runs of kind "num"; identifiers start with a letter and have kind "id" unless a keyword; operators have kind equal to lexeme and are two characters only when the pair is an operator ending before the last character |
| Lexer.ScanShape | Scanner.java:168-203 | every token `next()` produces has the shape of `LexAtShape`, across comments and skipped characters |
| Lexer.ScanTokenFits | Scanner.java:132-136 | a "num" token is a non-empty digit string, and an "EOF" token stands at the end of the text |
| Lexer.NoKeywordsMeansId | Scanner.java:138-144 | with the empty keyword set every identifier has kind "id" |
| Lexer.DefaultOperatorsAreSingle | Scanner.java:61-70 | with the fixed operator set every operator token is one character, kind equal to lexeme |
| Lexer.EofKindMeansEnd | Scanner.java:183-187 | a token of kind "EOF" only comes from the end of the text |
| Lexer.ScanAfterBlanks | Scanner.java:183-201 | away from a comment marker, `next()` skips the blanks and resumes after them |
| Lexer.CommentSkipped | Scanner.java:170-180 | a "//" or "#" at the cursor is skipped up to, not past, the newline, and scanning restarts there |
| Lexer.IllegalSkipped | Scanner.java:197-201 | an illegal character after the blanks is skipped by exactly one position |
| Lexer.BlankBeforeMarkerIsNoComment | Scanner.java:170-183 | " //" scans as the operator "/" at position 1, because the comment check comes before blank skipping |
| Lexer.Scanner.constructor | Scanner.java:82-92 | the scanner starts at position 0 with no token and the fixed operator set |
| Lexer.Scanner.Many | Scanner.java:104-107 | the cursor ends at the end of the run of the class |
| Lexer.Scanner.Past | Scanner.java:123-128 | the cursor ends just after the next occurrence of the character, or at the end |
| Lexer.Scanner.NextNumber | Scanner.java:132-136 | scans the digit run and sets a "num" token holding exactly that text |
| Lexer.Scanner.NextKwId | Scanner.java:138-144 | scans letters then letters-or-digits; the kind is the lexeme if it is a keyword, "id" otherwise |
| Lexer.Scanner.NextOp | Scanner.java:146-159 | two characters when they form an operator and `old+2` is before the end, otherwise one; kind equals lexeme |
| Lexer.Scanner.SkipLine | Scanner.java:172-173 | the cursor ends at the next newline or the end |
| Lexer.Scanner.NextLexeme | Scanner.java:190-196 | the token and cursor are those of `LexAt` |
| Lexer.Scanner.Next | Scanner.java:168-203 | the result, token and cursor are those of `Scan` from the old cursor; token invariants are kept |
| Lexer.Scanner.NextAfterComment | Scanner.java:170-180 | the comment branch of `next()` agrees with `Scan` |
| Lexer.Scanner.NextAfterBlanks | Scanner.java:183-202 | the branch after the comment check agrees with `Scan` |
| Lexer.Scanner.NextFrom | Scanner.java:184-202 | the end-of-text, token and illegal-character cases agree with `Resume` |
| Lexer.Scanner.Match | Scanner.java:213-217 | no token: fails with ANY/EMPTY; a kind mismatch fails with `SyntaxException(pos, t, curr)` and moves nothing; a kind match scans the next token as `Scan` says and shrinks the parse measure unless `t` is EOF |
| Env.Store.Put | Environment.java:24-31 | the name is bound to the value, every other binding is unchanged, and a new name is appended to the declaration order |
| Env.Store.Get | Environment.java:33-42 | succeeds exactly when the name is bound, with its value; otherwise fails with an "undefined variable" error at the caller's position |
| Env.JoinedIsCommaList | Environment.java:49-54 | the accumulated string is a blank followed by the names separated by commas |
| Env.DeclTextShape | Environment.java:48-56 | no names give ""; otherwise "int " plus the comma list plus ";\nx=0;x=x;\n" |
| Env.DeclTextOfX | Environment.java:21-56 | the fixed list {"x"} renders as "int x;\nx=0;x=x;\n" |
| Env.PutThenGet | Environment.java:24-39 | a put value is read back |
| Env.PutLeavesOthers | Environment.java:24-28 | binding one name leaves every other lookup unchanged |
| Env.UnboundRaises | Environment.java:33-39 | a name never bound raises an error carrying the caller's position |
| Env.PutKeepsValid | Environment.java:24-28 | binding keeps names unique and in step with the bindings |
| Env.PutTwice | Environment.java:24-28 | the later of two puts to one name wins |
| Env.Environment.constructor | Environment.java:19-21 | a new environment holds no bindings |
| Env.Environment.Put | Environment.java:29-31 | the store becomes the store's `Put` and the value passed in is returned |
| Env.Environment.Get | Environment.java:40-42 | the result is the store's `Get` |
| Env.Environment.ToC | Environment.java:48-56 | the loop builds exactly `DeclText` of the bound names |
| Exprs.Addop.Apply | NodeAddop.java:27-33 | "+" adds, "-" subtracts right from left, any other symbol fails with "bogus addop: " and the node's position |
| Exprs.Mulop.Apply | NodeMulop.java:28-34 | "*" multiplies, "/" divides by a nonzero divisor, any other symbol fails with "bogus mulop: " and the node's position |
| Exprs.Fact.Eval | NodeFactId.java:26-28 | a factor evaluates exactly when its variables are bound and its operators known |
| Exprs.Term.Eval | ta1/NodeTerm.java:47-51 | a term evaluates exactly when its variables are bound and its operators known |
| Exprs.Expr.Eval | NodeExpr.java:46-50 | an expression evaluates exactly when its variables are bound and its operators known |
| Exprs.BoolExpr.Eval | NodeBoolExpr.java:11-23 | succeeds exactly when both sides evaluate and the relop is one of the six; the result is 1 or 0 by the relation; the left side's error, then the right side's, takes precedence over "invalid relop: " at position 0 |
| Exprs.BoolIsZeroOrOne | NodeBoolExpr.java:15-20 | a successful comparison yields 0 or 1 |
| Exprs.LiteralValue | NodeFactNum.java:24-26 | a literal's value ignores the store and is never negative |
| Exprs.LiteralOfNumber | NodeFactNum.java:24-26 | the decimal text of a natural number evaluates to that number |
| Exprs.VariableValue | NodeFactId.java:26-28 | a variable is its binding, or an undefined-variable error at the node's position |
| Exprs.DoubleNegation | NodeFactNeg.java:13-15 | negating twice gives back the value, errors included |
| Exprs.ParenthesesKeepValue | ta1/NodeFactExpr.java:24-26 | parentheses keep the inner value and errors |
| Exprs.WrappedCode | ta1/NodeFactExpr.java:32 | parentheses add exactly one pair around the inner text; double negation renders as "--" |
| Chains.ExprOf | NodeExpr.java:46-50 | the left chain of terms and additive operators; its top node holds the rightmost term |
| Chains.GraftExprOf | NodeExpr.java:29-36 | splicing a term and operator onto a chain gives the chain with them in front |
| Chains.FoldExprSnoc | NodeExpr.java:46-50 | the left fold over one more unit applies one more step |
| Chains.ExprOfEval | NodeExpr.java:46-50 | a chain's value is the left fold over its terms from the first |
| Chains.TailTextExprSnoc | NodeExpr.java:56-58 | the source-order text of one more operator and unit is appended at the end |
| Chains.ExprOfCode | NodeExpr.java:56-58 | a chain renders its terms and operators in source order |
| Chains.SubtractionIsLeftAssociative | Parser.java:126-134 | the chain built from 10 - 2 - 3 evaluates to 5 |
| Chains.TermOf | ta1/NodeTerm.java:47-51 | the left chain of factors and multiplicative operators; its top node holds the rightmost factor |
| Chains.GraftTermOf | ta1/NodeTerm.java:30-37 | splicing a factor and operator onto a chain gives the chain with them in front |
| Chains.FoldTermSnoc | ta1/NodeTerm.java:47-51 | the left fold over one more factor applies one more step |
| Chains.TermOfEval | ta1/NodeTerm.java:47-51 | a term chain's value is the left fold over its factors |
| Chains.TailTextTermSnoc | ta1/NodeTerm.java:57-59 | the source-order text of one more operator and factor is appended at the end |
| Chains.TermOfCode | ta1/NodeTerm.java:57-59 | a term chain renders its factors and operators in source order |
| Chains.ExprNode.constructor | NodeExpr.java:18-22 | a new node holds its term and operator and no sub-chain |
| Chains.ExprNode.Append | NodeExpr.java:29-36 | the chain's value becomes `GraftExpr` of the old value; the argument's operator is cleared; earlier nodes keep their terms, and nodes that had a sub-chain keep it and their operator |
| Chains.TermNode.constructor | ta1/NodeTerm.java:20-24 | a new node holds its factor and operator and no sub-chain |
| Chains.TermNode.Append | ta1/NodeTerm.java:30-37 | the chain's value becomes `GraftTerm` of the old value; the argument's operator is cleared; earlier nodes keep their factors, and nodes that had a sub-chain keep it and their operator |
| Stmts.Form | NodeWr.java:29-33 | the integer form is printed exactly when the value is whole, and shows that value |
| Stmts.Wr.Sem | NodeWr.java:27-35 | on success exactly one line is printed and the value returned; an error prints nothing; the store never changes |
| Stmts.Rd.Sem | NodeRd.java:9-15 | the prompt `id = ` is printed, then the first input is consumed, bound and returned; no input fails |
| Stmts.Assn.Sem | NodeAssn.java:27-29 | prints as `NodeWr` does, then binds the printed value; a failure leaves store and console unchanged |
| Stmts.IfNode.Sem | NodeIf.java:11-18 | the condition's error is raised before either branch runs |
| Stmts.WhileNode.Run | NodeWhile.java:10-15 | a loop that ends normally ends with its condition evaluating to 0 |
| Stmts.WhileNode.Sem | NodeWhile.java:10-15 | a loop that ends normally ends with its condition evaluating to 0 |
| Stmts.Stmt.Sem | NodeStmt.java:47-55 | if and while statements raise "invalid statement" at position 0 and change nothing |
| Stmts.Block.Sem | NodeBlock.java:11-16 | a failing first statement is the block's outcome |
| Stmts.AssnStoresResult | NodeAssn.java:27-29 | after an assignment, reading the name gives the returned value |
| Stmts.AssnFailureChangesNothing | NodeAssn.java:28 | a failing expression prints nothing and binds nothing |
| Stmts.RdStoresInput | NodeRd.java:9-15 | reading binds and returns the first input and prints the prompt |
| Stmts.IfTakesThen | NodeIf.java:13-14 | a nonzero condition runs the then-statement |
| Stmts.IfTakesElse | NodeIf.java:15-16 | a zero condition runs the else-statement when present |
| Stmts.IfWithoutElse | NodeIf.java:17 | a zero condition without else gives 0 and changes nothing |
| Stmts.WhileFalseAtOnce | NodeWhile.java:11-14 | a condition that is 0 at once gives 0 and never runs the body |
| Stmts.WhileUnfolds | NodeWhile.java:12-13 | a true condition and a successful body continue from the body's state with its result remembered |
| Stmts.WhileOfNestedControlFails | NodeWhile.java:12-13 | a loop whose body is an if or while fails with "invalid statement" at its first run |
| Stmts.CountToThree | NodeWhile.java:10-15 | `while x < 3 do x = x + 1` from 0 prints 1, 2, 3 and returns 3 |
| Stmts.BlockStopsAtFailure | NodeBlock.java:12-14 | after a failing statement no later statement runs |
| Stmts.BeforeLast | NodeBlock.java:11-16 | a block of one statement leaves the state as it is before its last statement |
| Stmts.BlockResultIsLast | NodeBlock.java:11-16 | when the statements before the last succeed, the block's outcome is the last statement run in the state `BeforeLast` gives; otherwise it is the first failure |
| Stmts.BlockCodeInOrder | NodeBlock.java:18-20 | a block renders its statements' code in source order |
| Stmts.AssnCodeLayout | NodeAssn.java:35-37 | an assignment renders as the C assignment followed by the print of the same expression |
| Stmts.NestedControlCode | NodeStmt.java:62-69 | if and while statements render as "" inside a statement, so a nested one leaves only its header |
| Interp.ExecWr | NodeWr.java:27-35 | the method's result, store and console are `Wr.Sem`'s |
| Interp.ExecAssn | NodeAssn.java:27-29 | the method's result, store and console are `Assn.Sem`'s |
| Interp.ExecRd | NodeRd.java:9-15 | the method's result, store and console are `Rd.Sem`'s |
| Interp.ExecStmt | NodeStmt.java:47-55 | the method's result, store and console are `Stmt.Sem`'s |
| Interp.ExecIf | NodeIf.java:11-18 | the method's result, store and console are `IfNode.Sem`'s |
| Interp.ExecWhile | NodeWhile.java:10-15 | the loop's result, store and console are `WhileNode.Sem`'s |
| Interp.ExecBlock | NodeBlock.java:11-16 | the method's result, store and console are `Block.Sem`'s |
| Interp.ExecProg | Parser.java:157-160 | the program runs as its top-level block |
| Grammar.Cursor.Step | Scanner.java:168-203 | one `next()` keeps the text and the token invariants, never grows the measure, and shrinks it unless the token was EOF |
| Grammar.ScanFrom | Scanner.java:168-203 | the cursor one `next()` leaves: in bounds, never moving back, and at EOF whenever it did not move |
| Grammar.Start | Parser.java:247-248 | the first token of a fresh scanner meets the token invariants |
| Grammar.Expect | Parser.java:18-20 | succeeds exactly when the current kind is the expected one, reading that token; otherwise fails with the position, the expected kind and the token found, reading nothing |
| Grammar.FactAt | Parser.java:81-102 | a parsed factor has only digit literals; an identifier becomes a variable carrying the position after it, and reads just that token; a token that starts no factor fails expecting "num" without reading anything; every rule keeps the progress and error-position guarantees |
| Grammar.FactParenthesised | Parser.java:88-93 | a parenthesised factor succeeds only with ")" right after its expression, and otherwise fails there expecting ")" |
| Grammar.TermAt | Parser.java:110-118 | a term ends where no "*" or "/" follows and has only digit literals |
| Grammar.ExprAt | Parser.java:126-134 | an expression ends where no "+" or "-" follows and has only digit literals |
| Grammar.AssnAt | Parser.java:142-149 | an assignment binds the identifier it started with |
| Grammar.BoolAt | Parser.java:178-184 | the operator is the lexeme of the token after the first expression, whose kind equals its lexeme; a token whose kind differs from its lexeme fails there, expecting its lexeme |
| Grammar.RdAt | Parser.java:199-205 | a read names the identifier after "rd"; any other token there fails expecting "id" |
| Grammar.WrAt | Parser.java:207-212 | a write holds an expression with only digit literals |
| Grammar.IfAt | Parser.java:214-226 | without an else-part the next token is not "else"; a missing "then" fails at the token after the condition |
| Grammar.WhileAt | Parser.java:228-234 | a missing "do" fails at the token after the condition |
| Grammar.StmtAt | Parser.java:192-237 | a parsed statement has only digit literals, with the progress and error-position guarantees; a token other than an identifier, "rd", "wr", "if" or "while" fails expecting "stmt" without reading anything |
| Grammar.BlockAt | Parser.java:168-176 | a block continues exactly when ";" follows its first statement, and ends where no ";" follows |
| Grammar.ProgAt | Parser.java:157-160 | the program is its top-level block, ending where no ";" follows |
| Grammar.ParseText | Parser.java:246-252 | the text parses exactly when a program is read and EOF follows it; a token left after the program fails there, expecting "EOF" |
| Grammar.GraftTermSpelling | Parser.java:116 | the spliced term is spelled as the factor, the operator, then the chain |
| Grammar.GraftExprSpelling | Parser.java:132 | the spliced expression is spelled as the term, the operator, then the chain |
| Grammar.FactSpelled | Parser.java:81-102 | a parsed factor has read exactly its spelling, "(" and ")" included |
| Grammar.TermSpelled | Parser.java:110-118 | a parsed term has read exactly its spelling |
| Grammar.ExprSpelled | Parser.java:126-134 | a parsed expression has read exactly its spelling |
| Grammar.AssnSpelled | Parser.java:142-149 | a parsed assignment has read the identifier, "=" and the expression |
| Grammar.BoolSpelled | Parser.java:178-184 | a parsed comparison has read the first expression, the operator token and the second expression |
| Grammar.RdSpelled | Parser.java:199-205 | a parsed read has read "rd", the identifier and ";" |
| Grammar.WrSpelled | Parser.java:207-212 | a parsed write has read "wr", the expression and ";" |
| Grammar.IfSpelled | Parser.java:214-226 | a parsed if has read "if", the condition, "then", the statement, and "else" with its statement when present |
| Grammar.WhileSpelled | Parser.java:228-234 | a parsed while has read "while", the condition, "do" and the body |
| Grammar.StmtSpelled | Parser.java:192-237 | a parsed statement has read exactly its spelling, ";" after an assignment included |
| Grammar.BlockSpelled | Parser.java:168-176 | a parsed block has read its statements' spellings separated by ";" |
| Grammar.ProgramSpelled | Parser.java:246-252 | an accepted text is tokenised into the program's spelling followed by EOF, and the scanner ends at the end of the text |
| Grammar.FactCodeSpelled | NodeFactNeg.java:18-20 | a factor renders as the lexemes of its spelling |
| Grammar.TermCodeSpelled | ta1/NodeTerm.java:57-59 | a term renders as the lexemes of its spelling |
| Grammar.ExprCodeSpelled | NodeExpr.java:56-58 | an expression renders as the lexemes of its spelling |
| Grammar.ParsedExprCode | Parser.java:126-134 | a parsed expression renders as C exactly the lexemes of the tokens read, in order |
| Parsing.SpliceTerm | Parser.java:116 | the spliced chain's value is `GraftTerm` of the old value with the factor and operator |
| Parsing.SpliceExpr | Parser.java:132 | the spliced chain's value is `GraftExpr` of the old value with the term and operator |
| Parsing.Parser.constructor | Parser.java:7-9 | the parser starts without a scanner |
| Parsing.Parser.Match | Parser.java:18-20 | the scanner moves exactly as `Expect` says, and the outcome is `Expect`'s |
| Parsing.Parser.ParseMulop | Parser.java:45-55 | "*" or "/" is consumed and becomes an operator at the position after it; anything else is left in place |
| Parsing.Parser.ParseAddop | Parser.java:63-73 | "+" or "-" is consumed and becomes an operator at the position after it; anything else is left in place |
| Parsing.Parser.ParseFact | Parser.java:81-102 | the result and the scanner's new state are `FactAt`'s |
| Parsing.Parser.ParseTerm | Parser.java:110-118 | the scanner's new state is `TermAt`'s; on success a fresh valid chain whose value is `TermAt`'s term, otherwise `TermAt`'s error |
| Parsing.Parser.ParseExpr | Parser.java:126-134 | the scanner's new state is `ExprAt`'s; on success a fresh valid chain whose value is `ExprAt`'s expression, otherwise `ExprAt`'s error |
| Parsing.Parser.ParseAssn | Parser.java:142-149 | the result and the scanner's new state are `AssnAt`'s |
| Parsing.Parser.ParseBoolExpr | Parser.java:178-184 | the result and the scanner's new state are `BoolAt`'s |
| Parsing.Parser.ParseStmt | Parser.java:192-237 | the result and the scanner's new state are `StmtAt`'s |
| Parsing.Parser.ParseRd | Parser.java:199-205 | the result and the scanner's new state are `RdAt`'s |
| Parsing.Parser.ParseWr | Parser.java:207-212 | the result and the scanner's new state are `WrAt`'s |
| Parsing.Parser.ParseIf | Parser.java:214-226 | the result and the scanner's new state are `IfAt`'s |
| Parsing.Parser.ParseWhile | Parser.java:228-234 | the result and the scanner's new state are `WhileAt`'s |
| Parsing.Parser.ParseBlock | Parser.java:168-176 | the result and the scanner's new state are `BlockAt`'s |
| Parsing.Parser.ParseProg | Parser.java:157-160 | the result and the scanner's new state are `ProgAt`'s |
| Parsing.Parser.Parse | Parser.java:246-252 | the result is `ParseText` of the program, and a successful parse has consumed the whole text |

## Left out

- Main.java, ta1/Code.java, ta1/Node.java and ta1/NodeStmt.java are not part of this model. They are a driver, a C file writer, an abstract base and a superseded draft.
- `Scanner.main` and the illegal-character message printed to the error stream are left out. An illegal character is modelled only as skipped.
- Console I/O becomes the `Io` value. The input is a sequence of numbers, and the output is a sequence of prompt and line events. A missing number, which is an exception in Java, is the `InputExhausted` fault.
- Exprs.Mulop.Apply: division by zero returns 0 instead of an IEEE infinity or NaN, because values are `real`. Rounding, `Double.toString` text and the saturating `(int)` cast when printing are left out for the same reason.
- Exprs.Fact.Eval: a literal must be a non-empty digit string, the only form the scanner produces. Other `Double.parseDouble` inputs and their exception are left out.
- Stmts.WhileNode.Sem: the loop takes a `fuel` bound on body runs and fails with `OutOfFuel` past it. A loop that never ends in the source is not distinguished from one that runs longer than the fuel.
- Env.Store.Get: `Environment.java` is a stub whose `get` always returns 0 and whose `put` stores nothing. The model follows its documented map contract instead. The "undefined variable: " message text is this model's choice. `toC` keeps the source's format, lists the names in first-binding order, and treats the source's `s == ""` reference comparison as string equality.
- ta1 uses `int` while the other nodes use `double`; one `real` domain is used throughout.
- Chains.ExprNode.constructor and Chains.TermNode.constructor take no third argument, because the parser always passes `null` there. A finished chain that becomes part of a factor, statement or comparison is held by value (`Value()`), since nothing mutates it afterwards.
- Lexer.Scanner.constructor takes the keyword set as a parameter (the source's is empty), so the parser's keyword branches can be reached. The operator set is the source's fixed one.
- Parsing.Parser.Parse requires that "num" and "EOF" are not keywords. This holds for the source's empty keyword set.
- Lexer.Scan: a character here is a Unicode scalar value, while Java's `pos` counts UTF-16 code units. A character outside the Basic Multilingual Plane is one position in the model and two in Java.
- Lexer.IllegalSkipped: such a character, when illegal, is skipped by one step here and by two in Java. Every later position (in tokens, `FactId` nodes and errors) is then one less in the model than in Java.
