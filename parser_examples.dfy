/**
 * The parses the repository's own tests expect (src/ast/mod.rs and
 * tests/ast.rs), and the types `get_type` gives the parsed expressions.
 */
module ParserExamples {
  import opened Results
  import opened Tokens
  import opened Ast
  import opened Lexer
  import opened Parsing
  import opened Typing
  import LexerExamples

  /**
   * `test_expression_1`: the tokens of `12 + 2` parse as the sum of the
   * literals `12` and `2`, which is a number.
   */
  lemma TwelvePlusTwoParses(s: string, env: string -> PrimitiveTy)
    requires |s| == 6 && s[0] == '1' && s[1] == '2' && s[2] == ' ' && s[3] == '+' && s[4] == ' ' && s[5] == '2'
    ensures var tokens := [Token(Range(0, 2), TokenTy.Literal(Number)), Token(Range(3, 4), Symbol(Add)), Token(Range(5, 6), TokenTy.Literal(Number))];
      var e := Operation(Binary(Expression.Literal(Lit("12", Number)), Addition, Expression.Literal(Lit("2", Number))));
      Lex(s) == [Ok(tokens[0]), Ok(tokens[1]), Ok(tokens[2])] &&
      ParseExpressionAt(s, tokens, 0) == Ok((e, 3)) &&
      GetType(e, env) == Ok(Number)
  {
    LexerExamples.TwelvePlusTwo(s);
    assert s[0..2] == "12";
    assert s[5..6] == "2";
  }

  /**
   * `test_expression_2`: `abc + 2` parses as the sum of the variable `abc`
   * and the literal `2`; it is a number exactly when `abc` is one.
   */
  lemma AbcPlusTwoParses(source: string, env: string -> PrimitiveTy)
    requires |source| == 7 && source[0] == 'a' && source[1] == 'b' && source[2] == 'c' && source[3] == ' '
    requires source[4] == '+' && source[5] == ' ' && source[6] == '2'
    ensures var tokens := [Token(Range(0, 3), Identifier), Token(Range(4, 5), Symbol(Add)), Token(Range(6, 7), TokenTy.Literal(Number))];
      var e := Operation(Binary(Variable("abc"), Addition, Expression.Literal(Lit("2", Number))));
      Lex(source) == [Ok(tokens[0]), Ok(tokens[1]), Ok(tokens[2])] &&
      ParseExpressionAt(source, tokens, 0) == Ok((e, 3)) &&
      GetType(e, env) == if env("abc") == Number then Ok(Number) else Err(TypeMismatch(env("abc"), Number))
  {
    LexerExamples.AbcPlusTwo(source);
    assert source[0..3] == "abc";
    assert source[6..7] == "2";
    AbcPlusTwoExpression(source, env);
  }

  /** The tokens of `abc + 2`, parsed and typed, given the names they point to. */
  lemma AbcPlusTwoExpression(source: string, env: string -> PrimitiveTy)
    requires |source| == 7 && source[0..3] == "abc" && source[6..7] == "2"
    ensures var tokens := [Token(Range(0, 3), Identifier), Token(Range(4, 5), Symbol(Add)), Token(Range(6, 7), TokenTy.Literal(Number))];
      var e := Operation(Binary(Variable("abc"), Addition, Expression.Literal(Lit("2", Number))));
      ParseExpressionAt(source, tokens, 0) == Ok((e, 3)) &&
      GetType(e, env) == if env("abc") == Number then Ok(Number) else Err(TypeMismatch(env("abc"), Number))
  {
  }

  /** A body whose first token is `}` is empty. */
  lemma BodyEnd(source: string, tokens: seq<Token>, pos: nat)
    requires pos < |tokens| && tokens[pos].ty == Symbol(ClBrace)
    ensures ParseBodyAt(source, tokens, pos) == Ok(([], pos + 1))
  {
  }

  /** A body that opens with a statement is that statement followed by the body after it. */
  lemma BodyStep(source: string, tokens: seq<Token>, pos: nat)
    requires pos < |tokens| && tokens[pos].ty != Symbol(ClBrace) && ParseStatementAt(source, tokens, pos).Ok?
    ensures var (s, p) := ParseStatementAt(source, tokens, pos).value;
      ParseBodyAt(source, tokens, pos) == Prepend([s], ParseBodyAt(source, tokens, p))
  {
  }

  /** The tokens of the `test_complex_1` module, with their ranges in its 81-character text. */
  function ComplexTokens(): seq<Token> {
    [ Token(Range(1, 3), Keyword(KeywordTy.Function)), Token(Range(4, 16), Identifier),
      Token(Range(16, 17), Symbol(OpParen)), Token(Range(17, 18), Symbol(ClParen)),
      Token(Range(19, 21), Symbol(ThinArrow)), Token(Range(22, 25), Identifier),
      Token(Range(26, 27), Symbol(OpBrace)),
      Token(Range(32, 35), Keyword(Let)), Token(Range(36, 37), Identifier), Token(Range(38, 39), Symbol(Assign)),
      Token(Range(40, 42), TokenTy.Literal(Number)), Token(Range(42, 43), Symbol(EndStmt)),
      Token(Range(48, 50), Keyword(KeywordTy.If)), Token(Range(51, 52), Identifier),
      Token(Range(53, 54), Symbol(SymbolTy.Greater)), Token(Range(55, 56), TokenTy.Literal(Number)),
      Token(Range(57, 58), Symbol(OpBrace)),
      Token(Range(67, 68), Identifier), Token(Range(69, 70), Symbol(Assign)), Token(Range(71, 72), TokenTy.Literal(Number)),
      Token(Range(72, 73), Symbol(EndStmt)),
      Token(Range(78, 79), Symbol(ClBrace)), Token(Range(80, 81), Symbol(ClBrace)) ]
  }

  /** A token sequence laid out as the `test_complex_1` tokens, position by position. */
  predicate ComplexShape(ts: seq<Token>) {
    |ts| == 23 &&
    ts[0] == Token(Range(1, 3), Keyword(KeywordTy.Function)) &&
    ts[1] == Token(Range(4, 16), Identifier) &&
    ts[2] == Token(Range(16, 17), Symbol(OpParen)) &&
    ts[3] == Token(Range(17, 18), Symbol(ClParen)) &&
    ts[4] == Token(Range(19, 21), Symbol(ThinArrow)) &&
    ts[5] == Token(Range(22, 25), Identifier) &&
    ts[6] == Token(Range(26, 27), Symbol(OpBrace)) &&
    ts[7] == Token(Range(32, 35), Keyword(Let)) &&
    ts[8] == Token(Range(36, 37), Identifier) &&
    ts[9] == Token(Range(38, 39), Symbol(Assign)) &&
    ts[10] == Token(Range(40, 42), TokenTy.Literal(Number)) &&
    ts[11] == Token(Range(42, 43), Symbol(EndStmt)) &&
    ts[12] == Token(Range(48, 50), Keyword(KeywordTy.If)) &&
    ts[13] == Token(Range(51, 52), Identifier) &&
    ts[14] == Token(Range(53, 54), Symbol(SymbolTy.Greater)) &&
    ts[15] == Token(Range(55, 56), TokenTy.Literal(Number)) &&
    ts[16] == Token(Range(57, 58), Symbol(OpBrace)) &&
    ts[17] == Token(Range(67, 68), Identifier) &&
    ts[18] == Token(Range(69, 70), Symbol(Assign)) &&
    ts[19] == Token(Range(71, 72), TokenTy.Literal(Number)) &&
    ts[20] == Token(Range(72, 73), Symbol(EndStmt)) &&
    ts[21] == Token(Range(78, 79), Symbol(ClBrace)) &&
    ts[22] == Token(Range(80, 81), Symbol(ClBrace))
  }

  lemma ComplexTokensShape()
    ensures ComplexShape(ComplexTokens())
  {
  }

  /** The inner `b = 5;` body of `test_complex_1`, from its assignment on. */
  lemma ComplexInnerBody(source: string, ts: seq<Token>)
    requires ComplexShape(ts) && |source| == 81 && source[67..68] == "b" && source[71..72] == "5"
    ensures ParseBodyAt(source, ts, 17) ==
      Ok(([Statement.Expression(Operation(Binary(Variable("b"), Assignment, Expression.Literal(Lit("5", Number)))))], 22))
  {
    var five := Expression.Literal(Lit("5", Number));
    assert ParseExpressionAt(source, ts, 19) == Ok((five, 20)) by {
      assert Slice(source, ts[19].range) == Ok("5");
    }
    assert ParseStatementAt(source, ts, 17) == Ok((Statement.Expression(Operation(Binary(Variable("b"), Assignment, five))), 21)) by {
      assert Slice(source, ts[17].range) == Ok("b");
    }
    BodyEnd(source, ts, 21);
    assert [Statement.Expression(Operation(Binary(Variable("b"), Assignment, five)))] + [] ==
      [Statement.Expression(Operation(Binary(Variable("b"), Assignment, five)))];
  }

  /** `let a = 10;` of `test_complex_1`. */
  lemma ComplexDeclaration(source: string, ts: seq<Token>)
    requires ComplexShape(ts) && |source| == 81 && source[36..37] == "a" && source[40..42] == "10"
    ensures ParseStatementAt(source, ts, 7) == Ok((Declaration("a", Expression.Literal(Lit("10", Number))), 12))
  {
    assert ParseExpressionAt(source, ts, 10) == Ok((Expression.Literal(Lit("10", Number)), 11)) by {
      assert Slice(source, ts[10].range) == Ok("10");
    }
    assert Slice(source, ts[8].range) == Ok("a");
  }

  /** The condition `a > 5` of `test_complex_1`. */
  lemma ComplexCondition(source: string, ts: seq<Token>)
    requires ComplexShape(ts) && |source| == 81 && source[51..52] == "a" && source[55..56] == "5"
    ensures ParseExpressionAt(source, ts, 13) ==
      Ok((Operation(Binary(Variable("a"), BinaryOperationTy.Greater, Expression.Literal(Lit("5", Number)))), 16))
  {
    assert ParseExpressionAt(source, ts, 15) == Ok((Expression.Literal(Lit("5", Number)), 16)) by {
      assert Slice(source, ts[15].range) == Ok("5");
    }
    assert Slice(source, ts[13].range) == Ok("a");
  }

  /** `if a > 5 { b = 5; }` of `test_complex_1`. */
  lemma ComplexConditional(source: string, ts: seq<Token>)
    requires ComplexShape(ts) && |source| == 81 && source[51..52] == "a" && source[55..56] == "5" && source[67..68] == "b" && source[71..72] == "5"
    ensures ParseStatementAt(source, ts, 12) ==
      Ok((ControlFlow(ControlFlow.If(
            Operation(Binary(Variable("a"), BinaryOperationTy.Greater, Expression.Literal(Lit("5", Number)))),
            [Statement.Expression(Operation(Binary(Variable("b"), Assignment, Expression.Literal(Lit("5", Number)))))])), 22))
  {
    ComplexCondition(source, ts);
    ComplexInnerBody(source, ts);
  }

  /** The outer body of `test_complex_1`: a declaration, then an `if` around the assignment. */
  lemma ComplexOuterBody(source: string, ts: seq<Token>)
    requires ComplexShape(ts) && |source| == 81 && source[36..37] == "a" && source[40..42] == "10" && source[51..52] == "a" &&
      source[55..56] == "5" && source[67..68] == "b" && source[71..72] == "5"
    ensures ParseBodyAt(source, ts, 7) ==
      Ok(([ Declaration("a", Expression.Literal(Lit("10", Number))),
            ControlFlow(ControlFlow.If(
              Operation(Binary(Variable("a"), BinaryOperationTy.Greater, Expression.Literal(Lit("5", Number)))),
              [Statement.Expression(Operation(Binary(Variable("b"), Assignment, Expression.Literal(Lit("5", Number)))))]))
          ], 23))
  {
    ComplexDeclaration(source, ts);
    ComplexConditional(source, ts);
    var declaration := ParseStatementAt(source, ts, 7).value.0;
    var conditional := ParseStatementAt(source, ts, 12).value.0;
    BodyEnd(source, ts, 22);
    BodyStep(source, ts, 12);
    BodyStep(source, ts, 7);
    assert [declaration] + ([conditional] + []) == [declaration, conditional];
  }

  /**
   * `test_complex_1`: the module is the one function `IAmAFunction`, with no
   * arguments, the return type `int` and the two-statement body.
   */
  lemma ComplexModule(source: string, ts: seq<Token>)
    requires ComplexShape(ts) && |source| == 81 && source[4..16] == "IAmAFunction" && source[22..25] == "int" &&
      source[36..37] == "a" && source[40..42] == "10" && source[51..52] == "a" &&
      source[55..56] == "5" && source[67..68] == "b" && source[71..72] == "5"
    ensures Parse(source, ts) ==
      Ok(Module([Func("IAmAFunction", [], Some("int"),
        [ Declaration("a", Expression.Literal(Lit("10", Number))),
          ControlFlow(ControlFlow.If(
            Operation(Binary(Variable("a"), BinaryOperationTy.Greater, Expression.Literal(Lit("5", Number)))),
            [Statement.Expression(Operation(Binary(Variable("b"), Assignment, Expression.Literal(Lit("5", Number)))))]))
        ])]))
  {
    ComplexOuterBody(source, ts);
    var body := ParseBodyAt(source, ts, 7).value.0;
    assert ParseReturnTypeAt(source, ts, 5) == Ok((Some("int"), 6)) by {
      assert Slice(source, ts[5].range) == Ok("int");
    }
    assert ParseFunctionAt(source, ts, 1) == Ok((Func("IAmAFunction", [], Some("int"), body), 23)) by {
      assert Slice(source, ts[1].range) == Ok("IAmAFunction");
    }
  }

  /** The lexer's items for the `test_complex_1` text are the tokens above, in order, with no error section. */
  lemma ComplexItemsAreTokens()
    ensures var items := LexerExamples.ComplexLine1Items() + LexerExamples.ComplexLine2Items() + LexerExamples.ComplexLine3Items() +
      LexerExamples.ComplexLine4Items() + LexerExamples.ComplexLine5Items() + LexerExamples.ComplexLine6Items();
      |items| == |ComplexTokens()| && forall i :: 0 <= i < |items| ==> items[i] == Ok(ComplexTokens()[i])
  {
  }

  /** The names and literals of the `test_complex_1` text, where its tokens point. */
  lemma ComplexSlices(source: string)
    requires source == "\n" + ("fn IAmAFunction() -> int {\n" + ("    let a = 10;\n" + ("    if a > 5 {\n" + ("        b = 5;\n" + ("    }\n" + "}")))))
    ensures |source| == 81 && source[4..16] == "IAmAFunction" && source[22..25] == "int" &&
      source[36..37] == "a" && source[40..42] == "10" && source[51..52] == "a" &&
      source[55..56] == "5" && source[67..68] == "b" && source[71..72] == "5"
  {
    LexerExamples.ComplexText1Holds();
    LexerExamples.ComplexText2Holds();
    LexerExamples.ComplexText3Holds();
    LexerExamples.ComplexText4Holds();
    ComplexSlicesOf(source, "fn IAmAFunction() -> int {\n", "    let a = 10;\n", "    if a > 5 {\n", "        b = 5;\n", "    }\n" + "}");
  }

  lemma ComplexSlicesOf(s: string, w1: string, w2: string, w3: string, w4: string, rest: string)
    requires LexerExamples.ComplexText1(w1) && LexerExamples.ComplexText2(w2) && LexerExamples.ComplexText3(w3) && LexerExamples.ComplexText4(w4)
    requires |rest| == 7 && s == "\n" + (w1 + (w2 + (w3 + (w4 + rest))))
    ensures |s| == 81 && s[4..16] == "IAmAFunction" && s[22..25] == "int" &&
      s[36..37] == "a" && s[40..42] == "10" && s[51..52] == "a" &&
      s[55..56] == "5" && s[67..68] == "b" && s[71..72] == "5"
  {
    SliceOf(s, 1, w1, w2 + (w3 + (w4 + rest)), 3, 15);
    SliceOf(s, 1, w1, w2 + (w3 + (w4 + rest)), 21, 24);
    SliceOf(s, 28, w2, w3 + (w4 + rest), 8, 9);
    SliceOf(s, 28, w2, w3 + (w4 + rest), 12, 14);
    SliceOf(s, 44, w3, w4 + rest, 7, 8);
    SliceOf(s, 44, w3, w4 + rest, 11, 12);
    SliceOf(s, 59, w4, rest, 8, 9);
    SliceOf(s, 59, w4, rest, 12, 13);
    assert w1[3..15] == "IAmAFunction";
    assert w1[21..24] == "int";
    assert w2[8..9] == "a" && w2[12..14] == "10";
    assert w3[7..8] == "a" && w3[11..12] == "5";
    assert w4[8..9] == "b" && w4[12..13] == "5";
  }

  /** Characters `a` to `b` of a line `w` that starts the text at `p`. */
  lemma SliceOf(s: string, p: nat, w: string, rest: string, a: nat, b: nat)
    requires p <= |s| && s[p..] == w + rest && a <= b <= |w|
    ensures p + b <= |s| && s[p + a..p + b] == w[a..b]
  {
    forall j | 0 <= j < b - a
      ensures s[p + a..p + b][j] == w[a..b][j]
    {
      assert s[p + a + j] == s[p..][a + j] == (w + rest)[a + j];
    }
  }

  /**
   * tests/ast.rs `test_complex_1`, from the text: it lexes into the tokens
   * above with no error section, and they parse as the one function
   * `IAmAFunction`, with no arguments, the return type `int` and the
   * two-statement body.
   */
  lemma ComplexSourceParses(source: string)
    requires source == "\n" + ("fn IAmAFunction() -> int {\n" + ("    let a = 10;\n" + ("    if a > 5 {\n" + ("        b = 5;\n" + ("    }\n" + "}")))))
    ensures |Lex(source)| == |ComplexTokens()| && forall i :: 0 <= i < |ComplexTokens()| ==> Lex(source)[i] == Ok(ComplexTokens()[i])
    ensures Parse(source, ComplexTokens()) ==
      Ok(Module([Func("IAmAFunction", [], Some("int"),
        [ Declaration("a", Expression.Literal(Lit("10", Number))),
          ControlFlow(ControlFlow.If(
            Operation(Binary(Variable("a"), BinaryOperationTy.Greater, Expression.Literal(Lit("5", Number)))),
            [Statement.Expression(Operation(Binary(Variable("b"), Assignment, Expression.Literal(Lit("5", Number)))))]))
        ])]))
  {
    LexerExamples.ComplexLex(source);
    ComplexItemsAreTokens();
    ComplexSlices(source);
    ComplexTokensShape();
    ComplexModule(source, ComplexTokens());
  }
}
