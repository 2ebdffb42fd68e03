/**
 * What the parser of src/ast/mod.rs accepts and what it builds.
 *
 * The central notion is that a run of tokens SPELLS a syntax tree: every
 * primary of the tree is a literal or identifier token carrying the tree's
 * text, every operator and keyword is the token of that kind, in order.
 * A parse from a position succeeds with a tree exactly when the tokens
 * from there spell that tree (and, for an expression, a stop follows), and
 * it consumes exactly the tokens spelled.
 *
 *  - An expression is `primary (op primary)*`, nested to the right, ended by
 *    `;`, `{` or the end of the tokens; it holds no assignment.
 *  - A statement is `let name = e ;`, `if e { body }` or `name = e ;`.
 *  - A body is statements up to and including its closing brace.
 *  - A module is `fn` and one function, and tokens after it are never read.
 */
module ParserProperties {
  import opened Results
  import opened Tokens
  import opened Ast
  import opened Parsing

  function OperatorToken(op: BinaryOperationTy): TokenTy {
    match op
    case Addition => Symbol(Add)
    case Greater => Symbol(SymbolTy.Greater)
    case Assignment => Symbol(Assign)
  }

  /** The token at `p` exists and has kind `ty`. */
  predicate At(tokens: seq<Token>, p: nat, ty: TokenTy) {
    p < |tokens| && tokens[p].ty == ty
  }

  /** Token `t` spells the variable or literal `e`: its kind, and the text it covers in `source`. */
  predicate SpellsPrimary(source: string, t: Token, e: Expression) {
    match e
    case Variable(name) => t.ty == Identifier && Slice(source, t.range) == Ok(name)
    case Literal(Lit(value, ty)) => t.ty == TokenTy.Literal(ty) && Slice(source, t.range) == Ok(value)
    case Operation(_) => false
  }

  /** The number of tokens an expression is written with. */
  function Size(e: Expression): nat {
    match e
    case Operation(Binary(l, _, r)) => Size(l) + 1 + Size(r)
    case _ => 1
  }

  /**
   * The tokens from `pos` on spell `e`: a primary token, or a primary token,
   * a `+` or `>` and the tokens of the right operand.
   */
  predicate Spells(source: string, tokens: seq<Token>, pos: nat, e: Expression)
    decreases e
  {
    match e
    case Operation(Binary(l, op, r)) =>
      && pos + 1 < |tokens| && SpellsPrimary(source, tokens[pos], l)
      && op != Assignment && tokens[pos + 1].ty == OperatorToken(op)
      && Spells(source, tokens, pos + 2, r)
    case _ => pos < |tokens| && SpellsPrimary(source, tokens[pos], e)
  }

  /** Every left operand is a variable or a literal: `a + b + c` is `a + (b + c)`. */
  predicate RightNested(e: Expression) {
    match e
    case Operation(Binary(l, _, r)) => !l.Operation? && RightNested(r)
    case _ => true
  }

  /** A literal or identifier token whose range lies within the source. */
  predicate PrimaryToken(source: string, t: Token) {
    (t.ty.Literal? || t.ty == Identifier) && t.range.start <= t.range.end <= |source|
  }

  /** `tokens[pos..p]` alternates primaries and binary operators, beginning and ending with a primary. */
  predicate ChainAt(source: string, tokens: seq<Token>, pos: nat, p: nat)
    decreases p - pos
  {
    pos < p <= |tokens| && PrimaryToken(source, tokens[pos]) &&
    (p == pos + 1 || (BinaryOp(tokens[pos + 1].ty).Some? && ChainAt(source, tokens, pos + 2, p)))
  }

  /** Position `p` ends an expression: the tokens end there or a `;` or `{` follows. */
  predicate StopsAt(tokens: seq<Token>, p: nat) {
    p == |tokens| || (p < |tokens| && StopsExpression(tokens[p].ty))
  }

  /**
   * A parsed expression is the tree its tokens spell, texts included; it
   * consumes exactly those tokens, is followed by a stop, is nested to the
   * right and holds no assignment.
   */
  lemma {:induction false} ExpressionShape(source: string, tokens: seq<Token>, pos: nat)
    requires ParseExpressionAt(source, tokens, pos).Ok?
    decreases |tokens| - pos
    ensures var (e, p) := ParseExpressionAt(source, tokens, pos).value;
      Spells(source, tokens, pos, e) && p == pos + Size(e) && StopsAt(tokens, p) &&
      RightNested(e) && NoAssignment(e) && ChainAt(source, tokens, pos, p)
  {
    var (e, p) := ParseExpressionAt(source, tokens, pos).value;
    if pos + 1 < |tokens| && BinaryOp(tokens[pos + 1].ty).Some? {
      ExpressionShape(source, tokens, pos + 2);
      assert BinaryOp(tokens[pos + 1].ty) == Some(e.operation.ty);
    }
  }

  /** Conversely, tokens that spell an expression and are followed by a stop parse as that expression. */
  lemma {:induction false} ExpressionParses(source: string, tokens: seq<Token>, pos: nat, e: Expression)
    requires Spells(source, tokens, pos, e) && StopsAt(tokens, pos + Size(e))
    decreases e
    ensures ParseExpressionAt(source, tokens, pos) == Ok((e, pos + Size(e)))
  {
    if e.Operation? {
      ExpressionParses(source, tokens, pos + 2, e.operation.right);
      assert BinaryOp(tokens[pos + 1].ty) == Some(e.operation.ty);
    }
  }

  /** A chain followed by a stop position parses, and exactly up to that position. */
  lemma {:induction false} ChainParses(source: string, tokens: seq<Token>, pos: nat, p: nat)
    requires ChainAt(source, tokens, pos, p) && StopsAt(tokens, p)
    decreases p - pos
    ensures ParseExpressionAt(source, tokens, pos).Ok?
    ensures ParseExpressionAt(source, tokens, pos).value.1 == p
  {
    if p != pos + 1 {
      ChainParses(source, tokens, pos + 2, p);
    }
  }

  /** An expression is never ended by anything but `;`, `{` or the end—an `=` after it, for example, fails. */
  lemma ExpressionEndsOnlyAtStop(source: string, tokens: seq<Token>, pos: nat)
    requires pos + 1 < |tokens| && PrimaryToken(source, tokens[pos])
    requires BinaryOp(tokens[pos + 1].ty).None? && !StopsExpression(tokens[pos + 1].ty)
    ensures ParseExpressionAt(source, tokens, pos) == Err(UnexpectedToken(tokens[pos + 1]))
  {
  }

  /** A primary must open the expression. */
  lemma ExpressionNeedsPrimary(source: string, tokens: seq<Token>, pos: nat)
    requires pos < |tokens| && !tokens[pos].ty.Literal? && tokens[pos].ty != Identifier
    ensures ParseExpressionAt(source, tokens, pos) == Err(UnexpectedToken(tokens[pos]))
  {
  }

  /** The number of tokens a statement is written with. */
  function StatementSize(s: Statement): nat
    decreases s
  {
    match s
    case Declaration(_, e) => Size(e) + 4
    case Expression(e) => Size(e) + 1
    case ControlFlow(If(c, body)) => Size(c) + 2 + BodySize(body)
  }

  /** The number of tokens a body is written with, its closing brace included. */
  function BodySize(body: seq<Statement>): nat
    decreases body
  {
    if |body| == 0 then 1 else StatementSize(body[0]) + BodySize(body[1..])
  }

  /**
   * The tokens from `pos` on spell the statement `s`:
   * `let name = e ;` for a declaration, `name = e ;` for an expression
   * statement, which must be an assignment to a variable, and
   * `if c { body }` for a conditional.
   */
  predicate SpellsStatement(source: string, tokens: seq<Token>, pos: nat, s: Statement)
    decreases s
  {
    match s
    case Declaration(name, e) =>
      && At(tokens, pos, Keyword(Let))
      && At(tokens, pos + 1, Identifier) && Slice(source, tokens[pos + 1].range) == Ok(name)
      && At(tokens, pos + 2, Symbol(Assign))
      && Spells(source, tokens, pos + 3, e)
      && At(tokens, pos + 3 + Size(e), Symbol(EndStmt))
    case Expression(e) =>
      && e.Operation? && e.operation.left.Variable? && e.operation.ty == Assignment
      && At(tokens, pos, Identifier) && Slice(source, tokens[pos].range) == Ok(e.operation.left.name)
      && At(tokens, pos + 1, Symbol(Assign))
      && Spells(source, tokens, pos + 2, e.operation.right)
      && At(tokens, pos + 2 + Size(e.operation.right), Symbol(EndStmt))
    case ControlFlow(If(c, body)) =>
      && At(tokens, pos, Keyword(KeywordTy.If))
      && Spells(source, tokens, pos + 1, c)
      && At(tokens, pos + 1 + Size(c), Symbol(OpBrace))
      && SpellsBody(source, tokens, pos + 2 + Size(c), body)
  }

  /** The tokens from `pos` on spell the statements of `body` one after another, then `}`. */
  predicate SpellsBody(source: string, tokens: seq<Token>, pos: nat, body: seq<Statement>)
    decreases body
  {
    if |body| == 0 then At(tokens, pos, Symbol(ClBrace))
    else SpellsStatement(source, tokens, pos, body[0]) && SpellsBody(source, tokens, pos + StatementSize(body[0]), body[1..])
  }

  /** A parsed body is the statements its tokens spell, and it consumes exactly those tokens and the `}`. */
  lemma {:induction false} BodyShape(source: string, tokens: seq<Token>, pos: nat)
    requires ParseBodyAt(source, tokens, pos).Ok?
    decreases |tokens| - pos, 2
    ensures var (body, q) := ParseBodyAt(source, tokens, pos).value;
      SpellsBody(source, tokens, pos, body) && q == pos + BodySize(body)
  {
    if tokens[pos].ty != Symbol(ClBrace) {
      var (s, p) := ParseStatementAt(source, tokens, pos).value;
      var (rest, q) := ParseBodyAt(source, tokens, p).value;
      StatementShape(source, tokens, pos);
      BodyShape(source, tokens, p);
      assert ([s] + rest)[0] == s && ([s] + rest)[1..] == rest;
    }
  }

  /** A parsed statement is the statement its tokens spell, and it consumes exactly those tokens. */
  lemma {:induction false} StatementShape(source: string, tokens: seq<Token>, pos: nat)
    requires pos < |tokens| && ParseStatementAt(source, tokens, pos).Ok?
    decreases |tokens| - pos, 1
    ensures var (s, q) := ParseStatementAt(source, tokens, pos).value;
      SpellsStatement(source, tokens, pos, s) && q == pos + StatementSize(s)
  {
    var t := tokens[pos];
    if t.ty == Keyword(Let) {
      DeclarationShape(source, tokens, pos);
    } else if t.ty == Keyword(KeywordTy.If) {
      ConditionalShape(source, tokens, pos);
    } else {
      AssignmentShape(source, tokens, pos);
    }
  }

  /** `let name = e ;`: the name is the identifier's text and `e` the expression its tokens spell. */
  lemma DeclarationShape(source: string, tokens: seq<Token>, pos: nat)
    requires pos < |tokens| && tokens[pos].ty == Keyword(Let) && ParseDeclarationAt(source, tokens, pos).Ok?
    ensures var (s, q) := ParseDeclarationAt(source, tokens, pos).value;
      SpellsStatement(source, tokens, pos, s) && q == pos + StatementSize(s)
  {
    ExpressionShape(source, tokens, pos + 3);
  }

  /** `name = e ;`: an assignment to the variable the identifier names, of the expression the tokens spell. */
  lemma AssignmentShape(source: string, tokens: seq<Token>, pos: nat)
    requires pos < |tokens| && tokens[pos].ty == Identifier && ParseAssignmentAt(source, tokens, pos).Ok?
    ensures var (s, q) := ParseAssignmentAt(source, tokens, pos).value;
      SpellsStatement(source, tokens, pos, s) && q == pos + StatementSize(s)
  {
    ExpressionShape(source, tokens, pos + 2);
    var s := ParseAssignmentAt(source, tokens, pos).value.0;
    assert Size(s.expression) == 2 + Size(s.expression.operation.right);
  }

  /** `if c { body }`: the condition and the body are the ones their tokens spell. */
  lemma {:induction false} ConditionalShape(source: string, tokens: seq<Token>, pos: nat)
    requires pos < |tokens| && tokens[pos].ty == Keyword(KeywordTy.If) && ParseConditionalAt(source, tokens, pos).Ok?
    decreases |tokens| - pos, 0
    ensures var (s, q) := ParseConditionalAt(source, tokens, pos).value;
      SpellsStatement(source, tokens, pos, s) && q == pos + StatementSize(s)
  {
    ConditionalParts(source, tokens, pos);
    var e := ParseExpressionAt(source, tokens, pos + 1).value;
    ExpressionSpelled(source, tokens, pos + 1);
    var b := ParseBodyAt(source, tokens, e.1 + 1).value;
    BodyShape(source, tokens, e.1 + 1);
    ConditionalSpelled(source, tokens, pos, e.0, b.0);
  }

  /** The part of `ExpressionShape` a statement needs: the tokens spell the expression, and its size. */
  lemma ExpressionSpelled(source: string, tokens: seq<Token>, pos: nat)
    requires ParseExpressionAt(source, tokens, pos).Ok?
    ensures var (e, p) := ParseExpressionAt(source, tokens, pos).value;
      Spells(source, tokens, pos, e) && p == pos + Size(e)
  {
    ExpressionShape(source, tokens, pos);
  }

  /** A conditional is its condition, the `{` after it and the body after that. */
  lemma ConditionalParts(source: string, tokens: seq<Token>, pos: nat)
    requires ParseConditionalAt(source, tokens, pos).Ok?
    ensures var e := ParseExpressionAt(source, tokens, pos + 1);
      e.Ok? && At(tokens, e.value.1, Symbol(OpBrace)) && ParseBodyAt(source, tokens, e.value.1 + 1).Ok? &&
      var b := ParseBodyAt(source, tokens, e.value.1 + 1).value;
      ParseConditionalAt(source, tokens, pos).value == (ControlFlow(ControlFlow.If(e.value.0, b.0)), b.1)
  {
  }

  lemma ConditionalSpelled(source: string, tokens: seq<Token>, pos: nat, c: Expression, body: seq<Statement>)
    requires At(tokens, pos, Keyword(KeywordTy.If)) && Spells(source, tokens, pos + 1, c)
    requires At(tokens, pos + 1 + Size(c), Symbol(OpBrace)) && SpellsBody(source, tokens, pos + 2 + Size(c), body)
    ensures SpellsStatement(source, tokens, pos, ControlFlow(ControlFlow.If(c, body)))
    ensures StatementSize(ControlFlow(ControlFlow.If(c, body))) == Size(c) + 2 + BodySize(body)
  {
  }

  /** Conversely, tokens that spell a body parse as that body, up to and including its `}`. */
  lemma {:induction false} BodyParses(source: string, tokens: seq<Token>, pos: nat, body: seq<Statement>)
    requires SpellsBody(source, tokens, pos, body)
    decreases body, 2
    ensures ParseBodyAt(source, tokens, pos) == Ok((body, pos + BodySize(body)))
  {
    if |body| > 0 {
      var s := body[0];
      assert tokens[pos].ty != Symbol(ClBrace) by {
        FirstTokenOfStatement(source, tokens, pos, s);
      }
      StatementParses(source, tokens, pos, s);
      BodyParses(source, tokens, pos + StatementSize(s), body[1..]);
      assert [s] + body[1..] == body;
    }
  }

  /** A statement opens with `let`, `if` or an identifier. */
  lemma FirstTokenOfStatement(source: string, tokens: seq<Token>, pos: nat, s: Statement)
    requires SpellsStatement(source, tokens, pos, s)
    ensures pos < |tokens| && tokens[pos].ty in {Keyword(Let), Keyword(KeywordTy.If), Identifier}
  {
  }

  /** Conversely, tokens that spell a statement parse as that statement. */
  lemma {:induction false} StatementParses(source: string, tokens: seq<Token>, pos: nat, s: Statement)
    requires SpellsStatement(source, tokens, pos, s)
    decreases s, 1
    ensures ParseStatementAt(source, tokens, pos) == Ok((s, pos + StatementSize(s)))
  {
    match s
    case Declaration(_, _) =>
      DeclarationParses(source, tokens, pos, s);
    case Expression(_) =>
      AssignmentParses(source, tokens, pos, s);
    case ControlFlow(_) =>
      ConditionalParses(source, tokens, pos, s);
  }

  lemma DeclarationParses(source: string, tokens: seq<Token>, pos: nat, s: Statement)
    requires s.Declaration? && SpellsStatement(source, tokens, pos, s)
    ensures ParseDeclarationAt(source, tokens, pos) == Ok((s, pos + StatementSize(s)))
  {
    ExpressionParses(source, tokens, pos + 3, s.expression);
  }

  lemma AssignmentParses(source: string, tokens: seq<Token>, pos: nat, s: Statement)
    requires s.Expression? && SpellsStatement(source, tokens, pos, s)
    ensures pos < |tokens| && ParseAssignmentAt(source, tokens, pos) == Ok((s, pos + StatementSize(s)))
  {
    var e := s.expression;
    ExpressionParses(source, tokens, pos + 2, e.operation.right);
    assert Size(e) == 2 + Size(e.operation.right);
    assert e == Operation(Binary(Variable(e.operation.left.name), Assignment, e.operation.right));
  }

  lemma {:induction false} ConditionalParses(source: string, tokens: seq<Token>, pos: nat, s: Statement)
    requires s.ControlFlow? && SpellsStatement(source, tokens, pos, s)
    decreases s, 0
    ensures ParseConditionalAt(source, tokens, pos) == Ok((s, pos + StatementSize(s)))
  {
    var c, body := s.flow.condition, s.flow.body;
    assert ParseExpressionAt(source, tokens, pos + 1) == Ok((c, pos + 1 + Size(c))) by {
      ExpressionParses(source, tokens, pos + 1, c);
    }
    assert ParseBodyAt(source, tokens, pos + 2 + Size(c)) == Ok((body, pos + 2 + Size(c) + BodySize(body))) by {
      BodyParses(source, tokens, pos + 2 + Size(c), body);
    }
  }

  /** A statement that opens with anything but `let`, `if` or an identifier fails on that token. */
  lemma StatementNeedsOpener(source: string, tokens: seq<Token>, pos: nat)
    requires pos < |tokens|
    requires tokens[pos].ty !in {Keyword(Let), Keyword(KeywordTy.If), Identifier}
    ensures ParseStatementAt(source, tokens, pos) == Err(UnexpectedToken(tokens[pos]))
  {
  }

  /** The position of the `{` that opens a function's body, for a function spelled from `pos`. */
  function BodyOpen(pos: nat, f: Function): nat {
    if f.returnType.Some? then pos + 5 else pos + 3
  }

  /**
   * The tokens from `pos` (after `fn`) spell `f`: `name ( ) [-> Type] { body }`,
   * with the name and the return type the texts of their identifiers and no
   * arguments.
   */
  predicate SpellsFunction(source: string, tokens: seq<Token>, pos: nat, f: Function) {
    && At(tokens, pos, Identifier) && Slice(source, tokens[pos].range) == Ok(f.name)
    && At(tokens, pos + 1, Symbol(OpParen)) && At(tokens, pos + 2, Symbol(ClParen))
    && f.arguments == []
    && (f.returnType.Some? ==>
         At(tokens, pos + 3, Symbol(ThinArrow)) &&
         At(tokens, pos + 4, Identifier) && Slice(source, tokens[pos + 4].range) == Ok(f.returnType.value))
    && At(tokens, BodyOpen(pos, f), Symbol(OpBrace))
    && SpellsBody(source, tokens, BodyOpen(pos, f) + 1, f.body)
  }

  /** The number of tokens of a function after `fn`. */
  function FunctionSize(f: Function): nat {
    (if f.returnType.Some? then 6 else 4) + BodySize(f.body)
  }

  /** A parsed function is the function its tokens spell, and it consumes exactly those tokens. */
  lemma FunctionShape(source: string, tokens: seq<Token>, pos: nat)
    requires ParseFunctionAt(source, tokens, pos).Ok?
    ensures var (f, q) := ParseFunctionAt(source, tokens, pos).value;
      SpellsFunction(source, tokens, pos, f) && q == pos + FunctionSize(f)
  {
    var rt := if tokens[pos + 3].ty == Symbol(ThinArrow) then ParseReturnTypeAt(source, tokens, pos + 4) else Ok((None, pos + 3));
    BodyShape(source, tokens, rt.value.1 + 1);
  }

  /** Conversely, tokens that spell a function parse as that function. */
  lemma FunctionParses(source: string, tokens: seq<Token>, pos: nat, f: Function)
    requires SpellsFunction(source, tokens, pos, f)
    ensures ParseFunctionAt(source, tokens, pos) == Ok((f, pos + FunctionSize(f)))
  {
    BodyParses(source, tokens, BodyOpen(pos, f) + 1, f.body);
  }

  /** Both parentheses are read before either is checked, so a missing `)` is reported as the end of input. */
  lemma ParenthesesReadTogether(source: string, tokens: seq<Token>, pos: nat)
    requires pos + 2 == |tokens| && PrimaryToken(source, tokens[pos]) && tokens[pos].ty == Identifier
    ensures ParseFunctionAt(source, tokens, pos) == Err(UnexpectedEnd)
  {
  }

  /** The tokens spell the module `m`: `fn` and its one function. */
  predicate SpellsModule(source: string, tokens: seq<Token>, m: Module) {
    |m.functions| == 1 && At(tokens, 0, Keyword(KeywordTy.Function)) && SpellsFunction(source, tokens, 1, m.functions[0])
  }

  /**
   * `parse` yields the module its tokens spell, of exactly one function
   * after `fn`; without tokens it fails at the end, and with another first
   * token it fails on that token.
   */
  lemma ModuleShape(source: string, tokens: seq<Token>)
    ensures Parse(source, tokens).Ok? ==> SpellsModule(source, tokens, Parse(source, tokens).value)
    ensures |tokens| == 0 ==> Parse(source, tokens) == Err(UnexpectedEnd)
    ensures |tokens| > 0 && tokens[0].ty != Keyword(KeywordTy.Function) ==>
      Parse(source, tokens) == Err(UnexpectedToken(tokens[0]))
  {
    if Parse(source, tokens).Ok? {
      FunctionShape(source, tokens, 1);
    }
  }

  /** Conversely, tokens that spell a module parse as that module. */
  lemma ModuleParses(source: string, tokens: seq<Token>, m: Module)
    requires SpellsModule(source, tokens, m)
    ensures Parse(source, tokens) == Ok(m)
  {
    FunctionParses(source, tokens, 1, m.functions[0]);
    assert [m.functions[0]] == m.functions;
  }


  // Tokens after the parsed part are never read.

  lemma {:induction false} ExpressionIgnoresRest(source: string, tokens: seq<Token>, extra: seq<Token>, pos: nat)
    requires ParseExpressionAt(source, tokens, pos).Ok? && ParseExpressionAt(source, tokens, pos).value.1 < |tokens|
    decreases |tokens| - pos
    ensures ParseExpressionAt(source, tokens + extra, pos) == ParseExpressionAt(source, tokens, pos)
  {
    assert (tokens + extra)[pos] == tokens[pos];
    assert (tokens + extra)[pos + 1] == tokens[pos + 1];
    if BinaryOp(tokens[pos + 1].ty).Some? {
      ExpressionIgnoresRest(source, tokens, extra, pos + 2);
    }
  }

  lemma {:induction false} BodyIgnoresRest(source: string, tokens: seq<Token>, extra: seq<Token>, pos: nat)
    requires ParseBodyAt(source, tokens, pos).Ok?
    decreases |tokens| - pos, 2
    ensures ParseBodyAt(source, tokens + extra, pos) == ParseBodyAt(source, tokens, pos)
  {
    assert (tokens + extra)[pos] == tokens[pos];
    if tokens[pos].ty != Symbol(ClBrace) {
      StatementIgnoresRest(source, tokens, extra, pos);
      BodyIgnoresRest(source, tokens, extra, ParseStatementAt(source, tokens, pos).value.1);
    }
  }

  lemma {:induction false} StatementIgnoresRest(source: string, tokens: seq<Token>, extra: seq<Token>, pos: nat)
    requires pos < |tokens| && ParseStatementAt(source, tokens, pos).Ok?
    decreases |tokens| - pos, 1
    ensures ParseStatementAt(source, tokens + extra, pos) == ParseStatementAt(source, tokens, pos)
  {
    var t := tokens[pos];
    if t.ty == Keyword(Let) {
      DeclarationIgnoresRest(source, tokens, extra, pos);
    } else if t.ty == Keyword(KeywordTy.If) {
      ConditionalIgnoresRest(source, tokens, extra, pos);
    } else {
      AssignmentIgnoresRest(source, tokens, extra, pos);
    }
  }

  lemma DeclarationIgnoresRest(source: string, tokens: seq<Token>, extra: seq<Token>, pos: nat)
    requires ParseDeclarationAt(source, tokens, pos).Ok?
    ensures ParseDeclarationAt(source, tokens + extra, pos) == ParseDeclarationAt(source, tokens, pos)
  {
    var all := tokens + extra;
    assert forall i :: 0 <= i < |tokens| ==> all[i] == tokens[i];
    ExpressionIgnoresRest(source, tokens, extra, pos + 3);
  }

  lemma AssignmentIgnoresRest(source: string, tokens: seq<Token>, extra: seq<Token>, pos: nat)
    requires pos < |tokens| && ParseAssignmentAt(source, tokens, pos).Ok?
    ensures ParseAssignmentAt(source, tokens + extra, pos) == ParseAssignmentAt(source, tokens, pos)
  {
    var all := tokens + extra;
    assert forall i :: 0 <= i < |tokens| ==> all[i] == tokens[i];
    ExpressionIgnoresRest(source, tokens, extra, pos + 2);
  }

  lemma {:induction false} ConditionalIgnoresRest(source: string, tokens: seq<Token>, extra: seq<Token>, pos: nat)
    requires ParseConditionalAt(source, tokens, pos).Ok?
    decreases |tokens| - pos, 0
    ensures ParseConditionalAt(source, tokens + extra, pos) == ParseConditionalAt(source, tokens, pos)
  {
    var all := tokens + extra;
    var condition := ParseExpressionAt(source, tokens, pos + 1).value;
    assert all[condition.1] == tokens[condition.1];
    ExpressionIgnoresRest(source, tokens, extra, pos + 1);
    BodyIgnoresRest(source, tokens, extra, condition.1 + 1);
  }

  lemma FunctionIgnoresRest(source: string, tokens: seq<Token>, extra: seq<Token>, pos: nat)
    requires ParseFunctionAt(source, tokens, pos).Ok?
    ensures ParseFunctionAt(source, tokens + extra, pos) == ParseFunctionAt(source, tokens, pos)
  {
    var all := tokens + extra;
    assert forall i :: 0 <= i < |tokens| ==> all[i] == tokens[i];
    var rt := if tokens[pos + 3].ty == Symbol(ThinArrow) then ParseReturnTypeAt(source, tokens, pos + 4) else Ok((None, pos + 3));
    BodyIgnoresRest(source, tokens, extra, rt.value.1 + 1);
  }

  /** Appending tokens after a module that parses does not change it: a second function is never read. */
  lemma ParseIgnoresRest(source: string, tokens: seq<Token>, extra: seq<Token>)
    requires Parse(source, tokens).Ok?
    ensures Parse(source, tokens + extra) == Parse(source, tokens)
  {
    assert (tokens + extra)[0] == tokens[0];
    FunctionIgnoresRest(source, tokens, extra, 1);
  }
}
