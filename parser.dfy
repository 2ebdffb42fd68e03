/**
 * The recursive-descent parser of src/ast/mod.rs (a copy of it sits in
 * src/parse/mod.rs).
 *
 * A `Parser` holds the source text, the token array and a cursor `index`.
 * Each parsing method is specified by a pure function of the cursor
 * position that returns the parsed value together with the position after
 * it.  Where the source panics (an `unwrap` on a missing token, an
 * unexpected token, a slice outside the text) the model returns a
 * `ParseError`.
 */
module Parsing {
  import opened Results
  import opened Tokens
  import opened Ast

  datatype ParseError =
    | UnexpectedEnd                     // `unwrap` on a missing token
    | UnexpectedToken(token: Token)     // a `panic!("Unexpected Token!")` arm
    | RangeOutOfBounds(range: Range)    // `&source[range]` outside the text

  /** `&source[range]`. */
  function Slice(source: string, range: Range): (r: Result<string, ParseError>)
    ensures r.Ok? <==> range.start <= range.end <= |source|
  {
    if range.start <= range.end <= |source| then Ok(source[range.start..range.end])
    else Err(RangeOutOfBounds(range))
  }

  /** `read_token().unwrap()` at position `pos`. */
  function TokenAt(tokens: seq<Token>, pos: nat): (r: Result<Token, ParseError>)
    ensures r.Ok? <==> pos < |tokens|
    ensures r.Ok? ==> r.value == tokens[pos]
  {
    if pos < |tokens| then Ok(tokens[pos]) else Err(UnexpectedEnd)
  }

  /** Read the token at `pos`, which must be of kind `ty`; the position after it. */
  function Expect(tokens: seq<Token>, pos: nat, ty: TokenTy): (r: Result<nat, ParseError>)
    ensures r.Ok? <==> pos < |tokens| && tokens[pos].ty == ty
    ensures r.Ok? ==> r.value == pos + 1
  {
    var t :- TokenAt(tokens, pos);
    if t.ty == ty then Ok(pos + 1) else Err(UnexpectedToken(t))
  }

  /** The binary operator a token stands for after a primary expression. */
  function BinaryOp(ty: TokenTy): Option<BinaryOperationTy> {
    if ty == Symbol(Add) then Some(Addition)
    else if ty == Symbol(SymbolTy.Greater) then Some(BinaryOperationTy.Greater)
    else None
  }

  /** The tokens that end an expression without being consumed by it. */
  predicate StopsExpression(ty: TokenTy) {
    ty == Symbol(EndStmt) || ty == Symbol(OpBrace)
  }

  /** A literal token becomes a `Literal` with its text and type, an identifier a `Variable`. */
  function ParsePrimary(source: string, t: Token): (r: Result<Expression, ParseError>)
    ensures r.Ok? <==> (t.ty.Literal? || t.ty == Identifier) && t.range.start <= t.range.end <= |source|
    ensures r.Ok? ==> !r.value.Operation? && (r.value.Variable? <==> t.ty == Identifier)
    ensures r.Err? ==> r.error == UnexpectedToken(t) || r.error == RangeOutOfBounds(t.range)
  {
    match t.ty
    case Literal(ty) =>
      var value :- Slice(source, t.range);
      Ok(Expression.Literal(Lit(value, ty)))
    case Identifier =>
      var name :- Slice(source, t.range);
      Ok(Variable(name))
    case _ => Err(UnexpectedToken(t))
  }

  /** `parse_expression` from position `pos`. */
  function ParseExpressionAt(source: string, tokens: seq<Token>, pos: nat): (r: Result<(Expression, nat), ParseError>)
    decreases |tokens| - pos
    ensures r.Ok? ==> pos < r.value.1 <= |tokens|
  {
    var t :- TokenAt(tokens, pos);
    var expr :- ParsePrimary(source, t);
    if pos + 1 < |tokens| && BinaryOp(tokens[pos + 1].ty).Some? then
      var right :- ParseExpressionAt(source, tokens, pos + 2);
      Ok((Operation(Binary(expr, BinaryOp(tokens[pos + 1].ty).value, right.0)), right.1))
    else if pos + 1 == |tokens| || StopsExpression(tokens[pos + 1].ty) then
      Ok((expr, pos + 1))
    else
      Err(UnexpectedToken(tokens[pos + 1]))
  }

  /** `parse_body` from position `pos`: statements up to and including the closing brace. */
  function ParseBodyAt(source: string, tokens: seq<Token>, pos: nat): (r: Result<(seq<Statement>, nat), ParseError>)
    decreases |tokens| - pos, 2
    ensures r.Ok? ==> pos < r.value.1 <= |tokens| && tokens[r.value.1 - 1].ty == Symbol(ClBrace)
  {
    var t :- TokenAt(tokens, pos);
    if t.ty == Symbol(ClBrace) then Ok(([], pos + 1))
    else
      var statement :- ParseStatementAt(source, tokens, pos);
      var rest :- ParseBodyAt(source, tokens, statement.1);
      Ok(([statement.0] + rest.0, rest.1))
  }

  /** One statement of `parse_body`, chosen by the token at `pos`, which is not a closing brace. */
  function ParseStatementAt(source: string, tokens: seq<Token>, pos: nat): (r: Result<(Statement, nat), ParseError>)
    requires pos < |tokens|
    decreases |tokens| - pos, 1
    ensures r.Ok? ==> pos < r.value.1 <= |tokens|
  {
    var t := tokens[pos];
    if t.ty == Keyword(Let) then ParseDeclarationAt(source, tokens, pos)
    else if t.ty == Keyword(KeywordTy.If) then ParseConditionalAt(source, tokens, pos)
    else if t.ty == Identifier then ParseAssignmentAt(source, tokens, pos)
    else Err(UnexpectedToken(t))
  }

  /** The `let` arm from the keyword at `pos`: `let name = expression ;`. */
  function ParseDeclarationAt(source: string, tokens: seq<Token>, pos: nat): (r: Result<(Statement, nat), ParseError>)
    ensures r.Ok? ==> pos < r.value.1 <= |tokens|
  {
    var nameToken :- TokenAt(tokens, pos + 1);
    var name :- if nameToken.ty == Identifier then Slice(source, nameToken.range) else Err(UnexpectedToken(nameToken));
    var assign :- Expect(tokens, pos + 2, Symbol(Assign));
    var expression :- ParseExpressionAt(source, tokens, assign);
    var end :- Expect(tokens, expression.1, Symbol(EndStmt));
    Ok((Declaration(name, expression.0), end))
  }

  /** The `if` arm from the keyword at `pos`: `if condition { body }`. */
  function ParseConditionalAt(source: string, tokens: seq<Token>, pos: nat): (r: Result<(Statement, nat), ParseError>)
    decreases |tokens| - pos, 0
    ensures r.Ok? ==> pos < r.value.1 <= |tokens|
  {
    var condition :- ParseExpressionAt(source, tokens, pos + 1);
    var open :- Expect(tokens, condition.1, Symbol(OpBrace));
    var body :- ParseBodyAt(source, tokens, open);
    Ok((ControlFlow(ControlFlow.If(condition.0, body.0)), body.1))
  }

  /**
   * The identifier arm from the identifier at `pos`: `name = expression ;`,
   * an assignment whose target is sliced from the text last.
   */
  function ParseAssignmentAt(source: string, tokens: seq<Token>, pos: nat): (r: Result<(Statement, nat), ParseError>)
    requires pos < |tokens|
    ensures r.Ok? ==> pos < r.value.1 <= |tokens|
  {
    var assign :- Expect(tokens, pos + 1, Symbol(Assign));
    var expression :- ParseExpressionAt(source, tokens, assign);
    var end :- Expect(tokens, expression.1, Symbol(EndStmt));
    var name :- Slice(source, tokens[pos].range);
    Ok((Statement.Expression(Operation(Binary(Variable(name), Assignment, expression.0))), end))
  }

  /** The optional `-> Type` of `parse_function`, from the token after the arrow. */
  function ParseReturnTypeAt(source: string, tokens: seq<Token>, pos: nat): (r: Result<(Option<string>, nat), ParseError>)
    ensures r.Ok? <==> pos < |tokens| && tokens[pos].ty == Identifier && Slice(source, tokens[pos].range).Ok?
    ensures r.Ok? ==> r.value == (Some(Slice(source, tokens[pos].range).value), pos + 1)
  {
    var t :- TokenAt(tokens, pos);
    if t.ty == Identifier then
      var name :- Slice(source, t.range);
      Ok((Some(name), pos + 1))
    else
      Err(UnexpectedToken(t))
  }

  /** `parse_function` from position `pos`, the token after `fn`. */
  function ParseFunctionAt(source: string, tokens: seq<Token>, pos: nat): (r: Result<(Function, nat), ParseError>)
    ensures r.Ok? ==> pos < r.value.1 <= |tokens|
  {
    var nameToken :- TokenAt(tokens, pos);
    var name :- if nameToken.ty == Identifier then Slice(source, nameToken.range) else Err(UnexpectedToken(nameToken));
    var open :- TokenAt(tokens, pos + 1);
    var close :- TokenAt(tokens, pos + 2);
    if open.ty != Symbol(OpParen) then Err(UnexpectedToken(open))
    else if close.ty != Symbol(ClParen) then Err(UnexpectedToken(close))
    else
      var next :- TokenAt(tokens, pos + 3);
      var returnType :-
        if next.ty == Symbol(ThinArrow) then ParseReturnTypeAt(source, tokens, pos + 4)
        else if next.ty == Symbol(OpBrace) then Ok((None, pos + 3))
        else Err(UnexpectedToken(next));
      var open :- Expect(tokens, returnType.1, Symbol(OpBrace));
      var body :- ParseBodyAt(source, tokens, open);
      Ok((Func(name, [], returnType.0, body.0), body.1))
  }

  /** `parse` from position `pos`: `fn` and one function; what follows it is not read. */
  function ParseModuleAt(source: string, tokens: seq<Token>, pos: nat): (r: Result<Module, ParseError>)
    ensures r.Ok? ==> |r.value.functions| == 1 && pos < |tokens| && tokens[pos].ty == Keyword(KeywordTy.Function)
    ensures pos >= |tokens| ==> r == Err(UnexpectedEnd)
  {
    var t :- TokenAt(tokens, pos);
    if t.ty == Keyword(KeywordTy.Function) then
      var parsed :- ParseFunctionAt(source, tokens, pos + 1);
      Ok(Module([parsed.0]))
    else
      Err(UnexpectedToken(t))
  }

  /** `Parser::new(source, tokens).parse()`. */
  function Parse(source: string, tokens: seq<Token>): (r: Result<Module, ParseError>)
    ensures r.Ok? ==> |r.value.functions| == 1 && |tokens| > 0 && tokens[0].ty == Keyword(KeywordTy.Function)
  {
    ParseModuleAt(source, tokens, 0)
  }

  /** `body` followed by what a parse from the current position yields. */
  function Prepend(body: seq<Statement>, r: Result<(seq<Statement>, nat), ParseError>): Result<(seq<Statement>, nat), ParseError> {
    match r
    case Ok((rest, p)) => Ok((body + rest, p))
    case Err(e) => Err(e)
  }

  lemma PrependNothing(r: Result<(seq<Statement>, nat), ParseError>)
    ensures Prepend([], r) == r
  {
    if r.Ok? {
      assert [] + r.value.0 == r.value.0;
    }
  }

  lemma PrependTwice(a: seq<Statement>, b: seq<Statement>, r: Result<(seq<Statement>, nat), ParseError>)
    ensures Prepend(a, Prepend(b, r)) == Prepend(a + b, r)
  {
    if r.Ok? {
      assert a + (b + r.value.0) == (a + b) + r.value.0;
    }
  }

  /** A method result `r` with cursor `index` agrees with the specification result `spec`. */
  predicate Agrees<T(==)>(r: Result<T, ParseError>, index: nat, spec: Result<(T, nat), ParseError>) {
    match spec
    case Ok((v, p)) => r == Ok(v) && index == p
    case Err(e) => r == Err(e)
  }

  class Parser {
    const source: string
    const tokens: seq<Token>
    var index: nat

    /** `Parser::new`: the cursor starts at the first token. */
    constructor (source: string, tokens: seq<Token>)
      ensures this.source == source && this.tokens == tokens && index == 0
    {
      this.source, this.tokens, index := source, tokens, 0;
    }

    /** The token at the cursor, which then moves past it; `None` at the end, where the cursor stays. */
    method ReadToken() returns (t: Option<Token>)
      modifies this
      ensures old(index) < |tokens| ==> t == Some(tokens[old(index)]) && index == old(index) + 1
      ensures old(index) >= |tokens| ==> t == None && index == old(index)
    {
      if index < |tokens| {
        t := Some(tokens[index]);
        index := index + 1;
      } else {
        t := None;
      }
    }

    /** The token at the cursor, without moving it. */
    method PeekToken() returns (t: Option<Token>)
      ensures t.Some? <==> index < |tokens|
      ensures t.Some? ==> t.value == tokens[index]
    {
      t := if index < |tokens| then Some(tokens[index]) else None;
    }

    /** `read_token().unwrap()`. */
    method ReadExisting() returns (r: Result<Token, ParseError>)
      modifies this
      ensures r == TokenAt(tokens, old(index))
      ensures r.Ok? ==> index == old(index) + 1
    {
      var t := ReadToken();
      if t.None? {
        return Err(UnexpectedEnd);
      }
      return Ok(t.value);
    }

    method ParseExpression() returns (r: Result<Expression, ParseError>)
      modifies this
      decreases |tokens| - index
      ensures Agrees(r, index, ParseExpressionAt(source, tokens, old(index)))
    {
      var t := ReadExisting();
      if t.Err? {
        return Err(t.error);
      }
      var expr := ParsePrimary(source, t.value);
      if expr.Err? {
        return Err(expr.error);
      }
      var next := PeekToken();
      if next.Some? && BinaryOp(next.value.ty).Some? {
        var _ := ReadToken();
        var right := ParseExpression();
        if right.Err? {
          return right;
        }
        return Ok(Operation(Binary(expr.value, BinaryOp(next.value.ty).value, right.value)));
      } else if next.None? || StopsExpression(next.value.ty) {
        return expr;
      } else {
        return Err(UnexpectedToken(next.value));
      }
    }

    /** `parse_body`: read statements until a closing brace is consumed. */
    method ParseBody() returns (r: Result<seq<Statement>, ParseError>)
      modifies this
      decreases |tokens| - index, 2
      ensures Agrees(r, index, ParseBodyAt(source, tokens, old(index)))
    {
      var body: seq<Statement> := [];
      PrependNothing(ParseBodyAt(source, tokens, index));
      while true
        invariant old(index) <= index <= |tokens| || (index == old(index) && body == [])
        invariant ParseBodyAt(source, tokens, old(index)) == Prepend(body, ParseBodyAt(source, tokens, index))
        decreases |tokens| - index
      {
        var t := ReadExisting();
        if t.Err? {
          return Err(t.error);
        }
        if t.value.ty == Symbol(ClBrace) {
          assert body + [] == body;
          break;
        }
        var statement := ParseStatement(t.value);
        if statement.Err? {
          return Err(statement.error);
        }
        PrependTwice(body, [statement.value], ParseBodyAt(source, tokens, index));
        body := body + [statement.value];
      }
      return Ok(body);
    }

    /** One arm of the `match` in `parse_body`; its first token `t` has just been read. */
    method ParseStatement(t: Token) returns (r: Result<Statement, ParseError>)
      requires 0 < index <= |tokens| && tokens[index - 1] == t && t.ty != Symbol(ClBrace)
      modifies this
      decreases |tokens| - index, 1
      ensures Agrees(r, index, ParseStatementAt(source, tokens, old(index) - 1))
    {
      if t.ty == Keyword(Let) {
        var nameToken := ReadExisting();
        if nameToken.Err? {
          return Err(nameToken.error);
        }
        if nameToken.value.ty != Identifier {
          return Err(UnexpectedToken(nameToken.value));
        }
        var name := Slice(source, nameToken.value.range);
        if name.Err? {
          return Err(name.error);
        }
        var assign := ReadExisting();
        if assign.Err? {
          return Err(assign.error);
        }
        if assign.value.ty != Symbol(Assign) {
          return Err(UnexpectedToken(assign.value));
        }
        var expression := ParseExpression();
        if expression.Err? {
          return Err(expression.error);
        }
        var end := ReadExisting();
        if end.Err? {
          return Err(end.error);
        }
        if end.value.ty != Symbol(EndStmt) {
          return Err(UnexpectedToken(end.value));
        }
        return Ok(Declaration(name.value, expression.value));
      } else if t.ty == Keyword(KeywordTy.If) {
        var condition := ParseExpression();
        if condition.Err? {
          return Err(condition.error);
        }
        var open := ReadExisting();
        if open.Err? {
          return Err(open.error);
        }
        if open.value.ty != Symbol(OpBrace) {
          return Err(UnexpectedToken(open.value));
        }
        var body := ParseBody();
        if body.Err? {
          return Err(body.error);
        }
        return Ok(ControlFlow(ControlFlow.If(condition.value, body.value)));
      } else if t.ty == Identifier {
        var assign := ReadExisting();
        if assign.Err? {
          return Err(assign.error);
        }
        if assign.value.ty != Symbol(Assign) {
          return Err(UnexpectedToken(assign.value));
        }
        var expression := ParseExpression();
        if expression.Err? {
          return Err(expression.error);
        }
        var end := ReadExisting();
        if end.Err? {
          return Err(end.error);
        }
        if end.value.ty != Symbol(EndStmt) {
          return Err(UnexpectedToken(end.value));
        }
        var name := Slice(source, t.range);
        if name.Err? {
          return Err(name.error);
        }
        return Ok(Statement.Expression(Operation(Binary(Variable(name.value), Assignment, expression.value))));
      } else {
        return Err(UnexpectedToken(t));
      }
    }

    method ParseFunction() returns (r: Result<Function, ParseError>)
      modifies this
      ensures Agrees(r, index, ParseFunctionAt(source, tokens, old(index)))
    {
      var nameToken := ReadExisting();
      if nameToken.Err? {
        return Err(nameToken.error);
      }
      if nameToken.value.ty != Identifier {
        return Err(UnexpectedToken(nameToken.value));
      }
      var name := Slice(source, nameToken.value.range);
      if name.Err? {
        return Err(name.error);
      }
      var open := ReadExisting();
      if open.Err? {
        return Err(open.error);
      }
      var close := ReadExisting();
      if close.Err? {
        return Err(close.error);
      }
      if open.value.ty != Symbol(OpParen) {
        return Err(UnexpectedToken(open.value));
      }
      if close.value.ty != Symbol(ClParen) {
        return Err(UnexpectedToken(close.value));
      }
      var arguments: seq<()> := [];
      var next := PeekToken();
      if next.None? {
        return Err(UnexpectedEnd);
      }
      var returnType: Option<string>;
      if next.value.ty == Symbol(ThinArrow) {
        var _ := ReadToken();
        var typeToken := ReadExisting();
        if typeToken.Err? {
          return Err(typeToken.error);
        }
        if typeToken.value.ty != Identifier {
          return Err(UnexpectedToken(typeToken.value));
        }
        var typeName := Slice(source, typeToken.value.range);
        if typeName.Err? {
          return Err(typeName.error);
        }
        returnType := Some(typeName.value);
      } else if next.value.ty == Symbol(OpBrace) {
        returnType := None;
      } else {
        return Err(UnexpectedToken(next.value));
      }
      var brace := ReadExisting();
      if brace.Err? {
        return Err(brace.error);
      }
      if brace.value.ty != Symbol(OpBrace) {
        return Err(UnexpectedToken(brace.value));
      }
      var body := ParseBody();
      if body.Err? {
        return Err(body.error);
      }
      return Ok(Func(name.value, arguments, returnType, body.value));
    }

    /** `parse`: the keyword `fn`, then one function. */
    method Parse() returns (r: Result<Module, ParseError>)
      modifies this
      ensures r == ParseModuleAt(source, tokens, old(index))
    {
      var t := ReadExisting();
      if t.Err? {
        return Err(t.error);
      }
      if t.value.ty == Keyword(KeywordTy.Function) {
        var parsed := ParseFunction();
        if parsed.Err? {
          return Err(parsed.error);
        }
        return Ok(Module([parsed.value]));
      }
      return Err(UnexpectedToken(t.value));
    }
  }
}
