# deltac front end in Dafny

This project models the front end of the `deltac` compiler and proves properties of the model. It has four parts:

- **Lexer** (`src/lexer/tokenizer.rs`). A `Tokenizer` is a cursor over the `remaining` text with character `index`, `line` and `column` counters.
  - `next_token` skips one blank, lexes one token, steps over one invalid character, or reports the end.
  - The iterator's `next` merges each run of invalid characters into one `TextSection` error.
- **Parser** (`src/ast/mod.rs`, with a copy in `src/parse/mod.rs`). A recursive-descent parser with a cursor over the token array. It builds `Module -> Function -> Statement -> Expression`.
- **Type resolver**: `Expression::get_type` (`src/parse/mod.rs`). It computes an expression's primitive type from the type of each variable.
- **Assembly buffer**: `Generator` (`src/codegen/mod.rs`). It collects assembly lines and renders them as one text.

Structure:

- Each stateful class of the source is a Dafny `class` with the same fields: `Lexer.Tokenizer`, `Parsing.Parser` and `Codegen.Generator`.
- Every method is proved against a pure specification function of the old state:
  - `Lexer.Step` and `Lexer.NextItem` for the lexer;
  - `Parsing.ParseExpressionAt`, `ParseBodyAt`, `ParseStatementAt`, `ParseFunctionAt` and `ParseModuleAt` for the parser;
  - `Codegen.Listing` for the buffer.
- The properties the source promises are lemmas about those functions, in `LexerProperties`, `ParserProperties` and `Typing`.
- The expectations of the repository's tests are lemmas in `LexerExamples` and `ParserExamples`.

Files:

| file | modules |
|---|---|
| `results.dfy` | `Results`: `Option`, `Result` |
| `tokens.dfy` | `Tokens`: token kinds and the two spelling tables |
| `lexer.dfy` | `Lexer` and `LexerProperties` |
| `lexer_examples.dfy` | `LexerExamples` |
| `ast.dfy` | `Ast` |
| `parser.dfy` | `Parsing` |
| `parser_properties.dfy` | `ParserProperties` |
| `parser_examples.dfy` | `ParserExamples` |
| `typing.dfy` | `Typing` |
| `codegen.dfy` | `Codegen` |

Modelling choices that depart from a literal reading:

- **Spelling tables.** The lexer searches the symbol and keyword tables front to back and takes the first spelling that starts the text. The tables are defined in `src/lexer/token.rs`, which is not part of this model.
  - The spellings are taken from `src/token.rs`. That file keeps them in `HashMap`s, which have no fixed order.
  - The model fixes the order: `->`, `+=`, `=`, `+`, `>`, `(`, `)`, `{`, `}`, `;` for symbols, and `fn`, `let`, `if`, `return` for keywords.
  - `Tokens.FindIsLongestMatch` proves that under this order the first match is the longest match.
- **Keywords match by prefix.** There is no check of the character that follows, so `ifx` is the keyword `if` followed by the identifier `x`. The model does what the code does; see `LexerExamples.KeywordPrefixSplitsWord`.
- **Character index.** `index` counts characters, not bytes. This agrees with the test `basic_invalid_1`, which gives the two three-byte characters at the start the range `0..2`.
- **Panics.** Every panic of the parser becomes a `Parsing.ParseError`:
  - `UnexpectedEnd` for an `unwrap` on a missing token;
  - `UnexpectedToken` for an "Unexpected Token!" arm;
  - `RangeOutOfBounds` for a source slice outside the text.

  The `assert_eq!` in `get_type` becomes `Typing.TypeError`.
- **Module parsing.** `parse` reads `fn` and one function and never looks at the tokens after it. The model follows the code: `ParserProperties.ParseIgnoresRest`.

## Model

| member | source | states |
|---|---|---|
| Tokens.FindIsLongestMatch | src/lexer/tokenizer.rs:45-67 | in a table where no spelling is a proper prefix of a later one, the `find` used by `read_symbol`/`read_keyword` fails exactly when no spelling starts the text, and otherwise returns the longest spelling that does |
| Tokens.AddAssignBeforeAdd | src/lexer/tokenizer.rs:113-122 | `+=` is lexed as one `AddAssign`, and `+` is `Add` unless `=` follows |
| Tokens.Find | src/lexer/tokenizer.rs:47-50 | an entry `find` returns is an entry of the table whose spelling starts the text |
| Tokens.FirstPrefixIsFirst | src/lexer/tokenizer.rs:59-62 | no entry before the one `find` stops at has a spelling that starts the text |
| Tokens.SymbolTableOrdered | src/token.rs:16-28 | in the symbol order the model fixes, no spelling comes before a longer spelling it starts (`+` after `+=`) |
| Tokens.KeywordTableOrdered | src/token.rs:47-53 | in the keyword order the model fixes, no spelling comes before a longer spelling it starts |
| Lexer.DigitRunIsMaximal | src/lexer/tokenizer.rs:33-43 | the digit run `read_number` measures holds only digits and cannot be extended |
| Lexer.IdentRunIsMaximal | src/lexer/tokenizer.rs:135-149 | the identifier run holds only letters, digits and `_` and cannot be extended |
| Lexer.InvalidRunIsMaximal | src/lexer/tokenizer.rs:168-174 | the run the clone counts holds only positions where `next_token` reports an invalid character, and the position after it is not one |
| Lexer.Scan | src/lexer/tokenizer.rs:93-154 | the text is classified as a blank exactly when it starts with a space or `\r` and as a line break exactly when it starts with a newline; a word is non-empty and lies within the text, and an invalid character is the first character; the order of the other rules is stated by `LexerProperties.Classification` |
| Lexer.Step | src/lexer/tokenizer.rs:88-155 | `End` exactly when nothing remains, and then the state is unchanged; every other step consumes between one and all remaining characters, the index advancing by the number consumed |
| Lexer.NextItem | src/lexer/tokenizer.rs:161-192 | `next` returns `None` only with nothing left, and every item it yields strictly shortens the remaining text, so iteration terminates |
| Lexer.StepOnInvalid | src/lexer/tokenizer.rs:151-154 | `next_token` reports an invalid character exactly where no rule applies, and then consumes one character |
| Lexer.NextOnWord | src/lexer/tokenizer.rs:105-149 | a token at the cursor is yielded at once, with the range from the index over its length, and index and column advance by that length |
| Lexer.NextOnSpace | src/lexer/tokenizer.rs:93-97 | a space or `\r` yields nothing of its own; `next` continues one column further |
| Lexer.NextOnInvalid | src/lexer/tokenizer.rs:161-189 | at an invalid character `next` yields one section over it and every invalid character that follows it, on one line, and stands after that run |
| Lexer.Tokenize | src/lexer/tokenizer.rs:161-192 | the stream holds at most as many items as there are characters left: every item consumes at least one |
| Lexer.Lex | src/lexer/tokenizer.rs:24-31 | the stream of a fresh tokenizer over a text holds at most as many items as the text has characters |
| Lexer.Tokenizer.constructor | src/lexer/tokenizer.rs:24-31 | the whole text remains; index, line and column are zero |
| Lexer.Tokenizer.Clone | src/lexer/tokenizer.rs:15 | the clone has the same four fields |
| Lexer.Tokenizer.ReadNumber | src/lexer/tokenizer.rs:33-43 | returns the range of the maximal digit run from the index and advances over it |
| Lexer.Tokenizer.ReadSymbol | src/lexer/tokenizer.rs:45-55 | returns the kind and range of the table symbol that starts the text and advances over its spelling |
| Lexer.Tokenizer.ReadKeyword | src/lexer/tokenizer.rs:57-67 | returns the kind and range of the table keyword that starts the text and advances over its spelling |
| Lexer.Tokenizer.IncrementCol | src/lexer/tokenizer.rs:69-72 | column and index advance by `n`; nothing else changes |
| Lexer.Tokenizer.IncrementLine | src/lexer/tokenizer.rs:74-78 | the line advances by one, the column returns to zero and the index advances by one |
| Lexer.Tokenizer.IncrementChar | src/lexer/tokenizer.rs:80-86 | drops `n` characters of the remaining text, or all of them when fewer remain; the counters are unchanged |
| Lexer.Tokenizer.NextToken | src/lexer/tokenizer.rs:88-155 | result and new state are those of `Step` on the old state |
| Lexer.Tokenizer.InvalidRun | src/lexer/tokenizer.rs:166-174 | the loop over a clone counts exactly the run of invalid characters at the cursor, and the tokenizer itself does not move |
| Lexer.Tokenizer.Next | src/lexer/tokenizer.rs:161-192 | item and new state are those of `NextItem` on the old state, including the recursion on `Skip` |
| LexerProperties.BlankStep | src/lexer/tokenizer.rs:93-103 | space and `\r` are skipped with index and column plus one; a newline is skipped with line and index plus one and the column reset to zero |
| LexerProperties.Classification | src/lexer/tokenizer.rs:105-154 | for a non-blank start: a digit gives a number; else a symbol spelling gives that symbol and is never lexed as a keyword or identifier; else a keyword; else an identifier; else an invalid character |
| LexerProperties.NumberStep | src/lexer/tokenizer.rs:105-111 | a leading digit yields one `Number` literal over the maximal digit run from the index |
| LexerProperties.IdentifierStep | src/lexer/tokenizer.rs:135-149 | an identifier token spans `start..start+n` with `n` the maximal identifier run; index and column advance by `n` |
| LexerProperties.NextNoneIffBlank | src/lexer/tokenizer.rs:161-192 | `next` returns `None` exactly when nothing but blanks remains |
| LexerProperties.StepConsistent | src/lexer/tokenizer.rs:88-155 | after a step the remaining text is still the input from the new index on |
| LexerProperties.SkipStep | src/lexer/tokenizer.rs:93-103 | a skipped character is a blank at the index, and `next` starts over one character later |
| LexerProperties.NextItemSpan | src/lexer/tokenizer.rs:161-192 | an item is a non-empty range within the text that starts after the skipped blanks and ends where the tokenizer now stands |
| LexerProperties.InvalidSection | src/lexer/tokenizer.rs:168-189 | at an invalid character, the section `next` yields is the one `SectionFrom` describes for that character's index, line and column |
| LexerProperties.ErrorSectionShape | src/lexer/tokenizer.rs:168-189 | every error section `next` yields is the section of an invalid character at or after the index |
| LexerProperties.SectionCoversRun | src/lexer/tokenizer.rs:168-189 | a run of invalid characters is reported as one non-empty section, and every position it covers is invalid |
| LexerProperties.SectionEndsRun | src/lexer/tokenizer.rs:176-188 | the run cannot be extended; the section's line range is empty and its column range is as long as its index range |
| LexerProperties.ErrorThenValid | src/lexer/tokenizer.rs:168-189 | after an error section the tokenizer stands at a character that is not invalid |
| LexerProperties.TokenizeInOrder | src/lexer/tokenizer.rs:161-192 | the items of the whole stream are non-empty ranges within the text, in strictly increasing and non-overlapping order |
| LexerProperties.TokenizeBlankGaps | src/lexer/tokenizer.rs:93-103 | everything before, between and after the items of the stream is blank |
| LexerProperties.TokenizeErrorsApart | src/lexer/tokenizer.rs:168-189 | two error sections in the stream are never adjacent: invalid runs are merged |
| LexerExamples.TwelvePlusTwo | tests/tokenizer.rs:9-29 | `12 + 2` lexes as a number, a plus and a number at `0..2`, `3..4` and `5..6` |
| LexerExamples.IfByPrefix | src/lexer/tokenizer.rs:124-133 | wherever the text starts with `if`, `next` yields the keyword `If` over two characters, whatever follows |
| LexerExamples.KeywordPrefixSplitsWord | src/lexer/tokenizer.rs:124-149 | `ifx` lexes as the keyword `If` followed by the identifier `x` |
| LexerExamples.BasicInvalid | tests/tokenizer.rs:235-265 | `造造 12 + 2 造造` lexes as an error section `0..2`, the tokens `3..5`, `6..7` and `8..9`, and an error section `10..12`, both sections on line range `0..0` |
| LexerExamples.AbcPlusTwo | tests/ast.rs:38-41 | the text `abc + 2` lexes as an identifier at `0..3`, a plus at `4..5` and a number at `6..7`, with no error section |
| LexerExamples.ComplexLex | tests/ast.rs:59-68 | the six-line text of `test_complex_1` lexes, line by line, into the 23 tokens `fn`, `IAmAFunction`, `(`, `)`, `->`, `int`, `{`, `let`, `a`, `=`, `10`, `;`, `if`, `a`, `>`, `5`, `{`, `b`, `=`, `5`, `;`, `}`, `}` with their character ranges, and no error section |
| Parsing.Slice | src/ast/mod.rs:125-131 | slicing the source succeeds exactly when the range lies within the text |
| Parsing.TokenAt | src/ast/mod.rs:107-111 | `read_token().unwrap()` succeeds exactly when a token exists at the position, and gives that token |
| Parsing.Expect | src/ast/mod.rs:164-191 | reading a token of a required kind succeeds exactly when the token exists and has that kind, and moves past it |
| Parsing.ParsePrimary | src/ast/mod.rs:119-132 | a literal or identifier token whose range lies within the text parses, and nothing else does; the result is a primary, a variable exactly when the token is an identifier; a failure is the unexpected token or the range outside the text |
| Parsing.ParseExpressionAt | src/ast/mod.rs:117-158 | a parsed expression consumes at least one token and stays within the token array |
| Parsing.ParseBodyAt | src/ast/mod.rs:160-241 | a parsed body consumes at least one token and stays within the token array, and the last token it consumes is `}` |
| Parsing.ParseStatementAt | src/ast/mod.rs:162-235 | a parsed statement consumes at least one token and stays within the token array |
| Parsing.ParseDeclarationAt | src/ast/mod.rs:164-191 | a parsed declaration consumes at least one token and stays within the token array |
| Parsing.ParseConditionalAt | src/ast/mod.rs:192-206 | a parsed conditional consumes at least one token and stays within the token array |
| Parsing.ParseAssignmentAt | src/ast/mod.rs:207-230 | a parsed assignment consumes at least one token and stays within the token array |
| Parsing.ParseReturnTypeAt | src/ast/mod.rs:264-284 | the return type parses exactly when an identifier whose range lies within the text follows the arrow, and is then that identifier's text, one token further |
| Parsing.ParseFunctionAt | src/ast/mod.rs:243-299 | a parsed function consumes at least one token and stays within the token array |
| Parsing.ParseModuleAt | src/ast/mod.rs:94-105 | a parsed module holds exactly one function and starts at a `fn` token; with no token left `parse` fails at the end |
| Parsing.Parse | src/ast/mod.rs:94-105 | a parsed module holds exactly one function and the tokens start with `fn` |
| Parsing.Parser.constructor | src/ast/mod.rs:87-93 | the parser holds the text and the tokens, with the cursor at the first token |
| Parsing.Parser.ReadToken | src/ast/mod.rs:107-111 | returns the token at the cursor and advances by one; at the end returns `None` and leaves the cursor |
| Parsing.Parser.PeekToken | src/ast/mod.rs:113-115 | returns the token at the cursor, if any, and never moves the cursor |
| Parsing.Parser.ReadExisting | src/ast/mod.rs:107-111 | the `unwrap` of `read_token`: the token at the cursor, or `UnexpectedEnd` |
| Parsing.Parser.ParseExpression | src/ast/mod.rs:117-158 | result and cursor agree with `ParseExpressionAt` from the old cursor |
| Parsing.Parser.ParseBody | src/ast/mod.rs:160-241 | result and cursor agree with `ParseBodyAt` from the old cursor; the loop pushes one statement per iteration and stops after `}` |
| Parsing.Parser.ParseStatement | src/ast/mod.rs:162-235 | the arm chosen by the token just read agrees with `ParseStatementAt` from that token |
| Parsing.Parser.ParseFunction | src/ast/mod.rs:243-299 | result and cursor agree with `ParseFunctionAt` from the old cursor |
| Parsing.Parser.Parse | src/ast/mod.rs:94-105 | the module is the one `ParseModuleAt` gives from the cursor |
| ParserProperties.ExpressionShape | src/ast/mod.rs:117-158 | a parsed expression is the tree its consumed tokens spell: each variable and literal carries the kind of its token and the text the token covers, each operator is its token; it consumes exactly those tokens, is followed by the end or by `;` or `{`, is nested to the right and holds no assignment; the tokens alternate primaries and operators |
| ParserProperties.ExpressionParses | src/ast/mod.rs:117-158 | conversely, tokens that spell an expression, texts included, and are followed by the end or by `;` or `{` parse as exactly that expression, up to the stop |
| ParserProperties.ChainParses | src/ast/mod.rs:117-158 | conversely, primaries joined by `+`/`>` and followed by a stop parse, exactly up to the stop |
| ParserProperties.ExpressionEndsOnlyAtStop | src/ast/mod.rs:151-156 | after a primary, a token other than `+`, `>`, `;` or `{` fails on that token |
| ParserProperties.ExpressionNeedsPrimary | src/ast/mod.rs:119-132 | an expression opening with a token other than a literal or identifier fails on that token |
| ParserProperties.BodyShape | src/ast/mod.rs:160-241 | a parsed body is the sequence of statements its tokens spell one after another, then the `}`; it consumes exactly those tokens |
| ParserProperties.BodyParses | src/ast/mod.rs:160-241 | conversely, tokens that spell a sequence of statements and then `}` parse as exactly that body, up to and including the `}` |
| ParserProperties.StatementShape | src/ast/mod.rs:162-235 | a parsed statement is the statement its tokens spell, chosen by the first token: `let name = e ;` is the declaration of the identifier's text with the expression spelled after `=`, `if c { body }` has the condition and the body spelled by their tokens, `name = e ;` assigns the expression spelled after `=` to the variable named by the identifier's text; it consumes exactly those tokens |
| ParserProperties.StatementParses | src/ast/mod.rs:162-235 | conversely, tokens that spell a statement parse as exactly that statement |
| ParserProperties.DeclarationShape | src/ast/mod.rs:164-191 | `let name = e ;` gives the declaration named by the identifier's text whose expression is the one the tokens after `=` spell, ending at `;` |
| ParserProperties.DeclarationParses | src/ast/mod.rs:164-191 | conversely, tokens that spell `let name = e ;` parse as that declaration |
| ParserProperties.ConditionalShape | src/ast/mod.rs:192-206 | `if c { body }` gives the conditional whose condition is the expression its tokens spell and whose body is the statements spelled after `{`, ending at `}` |
| ParserProperties.ConditionalParses | src/ast/mod.rs:192-206 | conversely, tokens that spell `if c { body }` parse as that conditional |
| ParserProperties.AssignmentShape | src/ast/mod.rs:207-230 | `name = e ;` gives the expression statement assigning the expression the tokens after `=` spell to the variable named by the identifier's text, ending at `;` |
| ParserProperties.AssignmentParses | src/ast/mod.rs:207-230 | conversely, tokens that spell `name = e ;` parse as that assignment |
| ParserProperties.StatementNeedsOpener | src/ast/mod.rs:235 | a statement opening with anything but `let`, `if` or an identifier fails on that token |
| ParserProperties.FunctionShape | src/ast/mod.rs:243-299 | a parsed function is the one its tokens spell: named by its identifier's text, no arguments, a return type exactly when `->` follows `()` and then the text of the type's identifier, and the body spelled after `{`; it consumes exactly those tokens |
| ParserProperties.FunctionParses | src/ast/mod.rs:243-299 | conversely, tokens that spell a function parse as exactly that function |
| ParserProperties.ParenthesesReadTogether | src/ast/mod.rs:251-263 | both parentheses are read before either is checked, so a missing `)` at the end is `UnexpectedEnd` |
| ParserProperties.ModuleShape | src/ast/mod.rs:94-105 | a parsed module is `fn` followed by the one function its tokens spell; no tokens fail at the end, another first token fails on that token |
| ParserProperties.ModuleParses | src/ast/mod.rs:94-105 | conversely, tokens that spell `fn` and a function parse as the module of that function |
| ParserProperties.ParseIgnoresRest | src/ast/mod.rs:94-105 | tokens appended after a module that parses do not change the result: a second function is never read |
| ParserProperties.BodyIgnoresRest | src/ast/mod.rs:160-241 | a body that parses is unchanged by tokens appended after the array |
| ParserExamples.TwelvePlusTwoParses | tests/ast.rs:12-34 | the text `12 + 2` lexes as a number, a plus and a number at `0..2`, `3..4` and `5..6`, with no error section; those tokens parse as the sum of the literals `12` and `2`, whose type is `Number` |
| ParserExamples.AbcPlusTwoParses | tests/ast.rs:36-55 | the text `abc + 2` lexes as an identifier, a plus and a number at `0..3`, `4..5` and `6..7`, with no error section; those tokens parse as the sum of the variable `abc` and the literal `2`, which is a number exactly when `abc` is one |
| ParserExamples.ComplexSourceParses | tests/ast.rs:57-110 | the text of `test_complex_1` lexes into its 23 tokens with no error section, and they parse as the one function `IAmAFunction` with no arguments, the return type `int` and the body `let a = 10;` and `if a > 5 { b = 5; }` |
| Typing.GetType | src/parse/mod.rs:47-68 | only an addition can fail to be typed, and only on operands of two different types; variables, literals, comparisons and assignments are always typed |
| Typing.AdditionTyping | src/parse/mod.rs:55-59 | an addition is typed exactly when both operands are typed alike, and then has their type; a failing left operand is reported first, then the right, then a mismatch |
| Typing.OperatorTypes | src/parse/mod.rs:60-61 | a comparison is `Boolean` and an assignment `Void`, whatever the operands |
| Typing.TypeDependsOnConsulted | src/parse/mod.rs:47-68 | the type depends only on the types of the variables reached through additions |
| Typing.SumTyping | src/parse/mod.rs:49-59 | a sum is typed exactly when all its flattened operands have one type, which is then its type |
| Codegen.Decimal | src/codegen/mod.rs:26-29 | the spelling of the exit code is non-empty and consists of decimal digits |
| Codegen.DecimalRoundTrip | src/codegen/mod.rs:26-29 | the exit code's decimal spelling is digits only, without a leading zero, and reads back as the code |
| Codegen.ListingSplits | src/codegen/mod.rs:31-35 | splitting the rendered text at its newlines gives the lines back, then the empty text after the final newline, when no line holds a newline |
| Codegen.Listing | src/codegen/mod.rs:31-35 | the rendered text ends with a newline, and is just that newline when there are no lines |
| Codegen.Generator.constructor | src/codegen/mod.rs:8-12 | the buffer starts empty |
| Codegen.Generator.Raw | src/codegen/mod.rs:14-16 | appends exactly the one line; earlier lines are unchanged |
| Codegen.Generator.Label | src/codegen/mod.rs:18-20 | appends the single line `name:` |
| Codegen.Generator.LabelWithValue | src/codegen/mod.rs:22-24 | appends the single line `name: value` |
| Codegen.Generator.Exit | src/codegen/mod.rs:26-29 | appends exactly `mov $<code>, %rdi` and then `call exit` |
| Codegen.Generator.FullRaw | src/codegen/mod.rs:31-35 | returns the lines joined by newlines plus one final newline, without changing the buffer; splitting it gives the lines back |

## Left out

- Character classes: `is_alphabetic` and `is_numeric` are Unicode properties in Rust. The model restricts identifier characters to ASCII letters, digits and `_`, and digits to `0`-`9`. Under Unicode's Alphabetic property, the characters of `basic_invalid_1` would be identifier characters. Under ASCII, the test's expectation holds.
- The tables of `src/lexer/token.rs`: `src/lexer/token.rs` is not part of this model. Its spellings are taken from `src/token.rs`, in the fixed order given above.
- Byte offsets: Rust slices `&str` by bytes. The model counts characters, as the tests' ranges do. A multi-byte character is one position.
- Integer width: `usize` counters and `u32` exit codes cannot overflow at the sizes involved. The counters are unbounded naturals; the exit code is a `u32` newtype.
- `Rc`, `Cow` and lifetimes: there is no aliasing, so the tree is a plain value and strings are copied.
- Lexer.Tokenizer.ReadSymbol and Lexer.Tokenizer.ReadKeyword: both require that a spelling starts the text. `next_token` calls them only then, so the `expect` inside them cannot fail.
- Typing.GetType: the variable environment is a total function, as the closure `Fn(&str) -> PrimitiveTy` is. Whether a variable is known is the caller's concern.
- `PrimitiveTy`: `src/lib.rs` declares only `Number`, but `get_type` needs `Boolean` and `Void`. The model declares all three.
- The parser of `src/parse/mod.rs` is the same code as that of `src/ast/mod.rs`. It is modelled once, in `Parsing`.
- `src/main.rs` prints diagnostics to the console. It is I/O and is not modelled.
- `src/tokenizer.rs` and the rest of `src/token.rs` are an older lexer outside the crate's module tree, and are not modelled.
- Code generation beyond the line buffer (instruction selection, `if` lowering, labels) does not occur in `src/codegen/mod.rs` and is not modelled.
- Tests: the parser tests of `tests/ast.rs` and `src/ast/mod.rs` are restated from their texts, which are fixed character by character: each text is lexed by the model, the `collect` into a `Result` succeeds because no error section occurs, and the tokens obtained are parsed. Of the tokenizer tests, `basic_1` and `basic_invalid_1` are restated. `basic_2`, `complex_1`, `function_1` and `function_2` are not: they exercise no rule of the lexer that those two and the `test_complex_1` text do not already cover, and restating a text costs one lemma per line of it.
