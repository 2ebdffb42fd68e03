/**
 * The position-tracking lexer of src/lexer/tokenizer.rs.
 *
 * A `Tokenizer` is a cursor over the `remaining` text with character
 * `index`, `line` and `column` counters.  Its methods follow the source
 * step by step; each is specified by a pure function on `LexState`, the
 * value of the four fields, and the properties the lexer promises are
 * lemmas about those functions.
 */
module Lexer {
  import opened Results
  import opened Tokens

  // Character classes, restricted to ASCII.

  predicate IsDigit(c: char) {
    '0' <= c <= '9'
  }

  predicate IsIdentChar(c: char) {
    'a' <= c <= 'z' || 'A' <= c <= 'Z' || IsDigit(c) || c == '_'
  }

  /** Characters skipped without a token: space, carriage return, newline. */
  predicate IsBlank(c: char) {
    c == ' ' || c == '\r' || c == '\n'
  }

  /** The first character of `s` starts no token and is not skipped. */
  predicate InvalidAt(s: string) {
    && |s| > 0
    && !IsBlank(s[0])
    && !IsDigit(s[0])
    && FindSymbol(s).None?
    && FindKeyword(s).None?
    && !IsIdentChar(s[0])
  }

  /** The length of the maximal run of decimal digits that starts `s`. */
  function DigitRunLength(s: string): (n: nat)
    ensures n <= |s|
  {
    if |s| > 0 && IsDigit(s[0]) then 1 + DigitRunLength(s[1..]) else 0
  }

  /** The length of the maximal run of identifier characters that starts `s`. */
  function IdentRunLength(s: string): (n: nat)
    ensures n <= |s|
  {
    if |s| > 0 && IsIdentChar(s[0]) then 1 + IdentRunLength(s[1..]) else 0
  }

  /** The character at position `k` of `s` is invalid in its context. */
  predicate InvalidAtIndex(s: string, k: nat)
    requires k <= |s|
  {
    InvalidAt(s[k..])
  }

  /** The number of consecutive positions, from the start of `s`, whose character is invalid. */
  function InvalidRunLength(s: string): (n: nat)
    ensures n <= |s|
  {
    if InvalidAt(s) then 1 + InvalidRunLength(s[1..]) else 0
  }

  /** `DigitRunLength` measures a run of digits that cannot be extended. */
  lemma {:induction false} DigitRunIsMaximal(s: string)
    ensures forall k :: 0 <= k < DigitRunLength(s) ==> IsDigit(s[k])
    ensures DigitRunLength(s) == |s| || !IsDigit(s[DigitRunLength(s)])
  {
    if |s| > 0 && IsDigit(s[0]) {
      DigitRunIsMaximal(s[1..]);
    }
  }

  /** `IdentRunLength` measures a run of identifier characters that cannot be extended. */
  lemma {:induction false} IdentRunIsMaximal(s: string)
    ensures forall k :: 0 <= k < IdentRunLength(s) ==> IsIdentChar(s[k])
    ensures IdentRunLength(s) == |s| || !IsIdentChar(s[IdentRunLength(s)])
  {
    if |s| > 0 && IsIdentChar(s[0]) {
      IdentRunIsMaximal(s[1..]);
    }
  }

  /** `InvalidRunLength` measures a run of invalid positions that cannot be extended. */
  lemma {:induction false} InvalidRunIsMaximal(s: string)
    ensures forall k :: 0 <= k < InvalidRunLength(s) ==> InvalidAtIndex(s, k)
    ensures !InvalidAtIndex(s, InvalidRunLength(s))
  {
    if InvalidAt(s) {
      var n := InvalidRunLength(s);
      InvalidRunIsMaximal(s[1..]);
      assert forall k :: 1 <= k <= n ==> s[1..][k - 1..] == s[k..];
      assert forall k :: 1 <= k <= n ==> InvalidAtIndex(s, k) == InvalidAtIndex(s[1..], k - 1);
    }
  }

  /** The four fields of a tokenizer. */
  datatype LexState = LexState(remaining: string, line: nat, column: nat, index: nat)

  /** What one `next_token` call reports. */
  datatype TokenResult = Lexed(token: Token) | Skip | InvalidCharacter(c: char) | End

  /** One item of the token stream: a token or a run of invalid characters. */
  type LexItem = Result<Token, TextSection>

  /** How `next_token` classifies the start of a non-empty text, and how many characters that takes. */
  datatype Lexeme = Space | LineBreak | Word(ty: TokenTy, length: nat) | Invalid(c: char)

  /**
   * The classification order of `next_token`: space or carriage return,
   * newline, digit run, symbol table, keyword table, identifier run, and
   * otherwise one invalid character.
   */
  function Scan(s: string): (x: Lexeme)
    requires |s| > 0
    ensures x.Space? <==> s[0] == ' ' || s[0] == '\r'
    ensures x.LineBreak? <==> s[0] == '\n'
    ensures x.Word? ==> 0 < x.length <= |s|
    ensures x.Invalid? ==> x.c == s[0]
  {
    var c := s[0];
    if c == ' ' || c == '\r' then Space
    else if c == '\n' then LineBreak
    else if IsDigit(c) then Word(Literal(Number), DigitRunLength(s))
    else if FindSymbol(s).Some? then
      var (spelling, ty) := FindSymbol(s).value;
      Word(Symbol(ty), |spelling|)
    else if FindKeyword(s).Some? then
      var (spelling, ty) := FindKeyword(s).value;
      Word(Keyword(ty), |spelling|)
    else if IdentRunLength(s) > 0 then Word(Identifier, IdentRunLength(s))
    else Invalid(c)
  }

  /** `increment_char(n)`: drop `n` characters, or all of them when there are fewer. */
  function Drop(s: string, n: nat): string {
    if n <= |s| then s[n..] else []
  }

  /** `increment_char(n)` followed by `increment_col(n)`, for `n` characters that remain. */
  function Advance(st: LexState, n: nat): LexState
    requires n <= |st.remaining|
  {
    LexState(st.remaining[n..], st.line, st.column + n, st.index + n)
  }

  /**
   * `next_token`: skip one blank, or lex one token, or step over one invalid
   * character, or report the end.  Every step but `End` consumes at least
   * one character, and the index advances by exactly the number of
   * characters consumed.
   */
  function Step(st: LexState): (r: (TokenResult, LexState))
    ensures r.0.End? <==> |st.remaining| == 0
    ensures r.0.End? ==> r.1 == st
    ensures !r.0.End? ==> st.index < r.1.index <= st.index + |st.remaining|
    ensures r.1.index - st.index <= |st.remaining|
    ensures r.1.remaining == st.remaining[r.1.index - st.index..]
  {
    if |st.remaining| == 0 then (End, st)
    else
      match Scan(st.remaining)
      case Space => (Skip, Advance(st, 1))
      case LineBreak => (Skip, LexState(st.remaining[1..], st.line + 1, 0, st.index + 1))
      case Word(ty, n) => (Lexed(Token(Range(st.index, st.index + n), ty)), Advance(st, n))
      case Invalid(c) => (InvalidCharacter(c), Advance(st, 1))
  }

  /**
   * `Iterator::next`: skip blanks, then yield one token, or one error
   * section covering the whole run of invalid characters, or nothing at
   * the end of the text.
   */
  function NextItem(st: LexState): (r: (Option<LexItem>, LexState))
    decreases |st.remaining|
    ensures r.0.None? ==> |r.1.remaining| == 0
    ensures r.0.Some? ==> |r.1.remaining| < |st.remaining|
  {
    var (t, st1) := Step(st);
    match t
    case Lexed(token) => (Some(Ok(token)), st1)
    case Skip => NextItem(st1)
    case InvalidCharacter(_) =>
      var st2 := Advance(st1, InvalidRunLength(st1.remaining));
      (Some(Err(TextSection(Range(st.index, st2.index), Range(st.line, st2.line), Range(st.column, st2.column)))), st2)
    case End => (None, st1)
  }

  /**
   * Every item the iterator yields, in order, until it returns `None`;
   * each item consumes at least one character.
   */
  function Tokenize(st: LexState): (items: seq<LexItem>)
    decreases |st.remaining|
    ensures |items| <= |st.remaining|
  {
    match NextItem(st)
    case (None, _) => []
    case (Some(item), st') => [item] + Tokenize(st')
  }

  /** The items of a fresh tokenizer over `s`. */
  function Lex(s: string): (items: seq<LexItem>)
    ensures |items| <= |s|
  {
    Tokenize(LexState(s, 0, 0, 0))
  }

  /** `next_token` reports an invalid character exactly where `InvalidAt` holds, and then consumes one character. */
  lemma StepOnInvalid(st: LexState)
    ensures Step(st).0.InvalidCharacter? <==> InvalidAt(st.remaining)
    ensures InvalidAt(st.remaining) ==> Step(st).1 == Advance(st, 1)
  {
  }

  /** A word at the tokenizer's position is yielded at once, as one token over its characters. */
  lemma NextOnWord(st: LexState)
    requires |st.remaining| > 0 && Scan(st.remaining).Word?
    ensures var w := Scan(st.remaining);
      NextItem(st) == (Some(Ok(Token(Range(st.index, st.index + w.length), w.ty))), Advance(st, w.length))
  {
  }

  /** A space or carriage return is passed over: `next` continues one column further. */
  lemma NextOnSpace(st: LexState)
    requires |st.remaining| > 0 && Scan(st.remaining).Space?
    ensures NextItem(st) == NextItem(Advance(st, 1))
  {
  }

  /**
   * At an invalid character `next` reports one section reaching past the
   * invalid characters that follow it, on the same line, and the
   * tokenizer stands right after that run.
   */
  lemma NextOnInvalid(st: LexState)
    requires InvalidAt(st.remaining)
    ensures var n := 1 + InvalidRunLength(st.remaining[1..]);
      && n <= |st.remaining|
      && NextItem(st) ==
        (Some(Err(TextSection(Range(st.index, st.index + n), Range(st.line, st.line), Range(st.column, st.column + n)))),
         LexState(st.remaining[n..], st.line, st.column + n, st.index + n))
  {
    StepOnInvalid(st);
    var m := InvalidRunLength(st.remaining[1..]);
    assert st.remaining[1..][m..] == st.remaining[1 + m..];
  }

  class Tokenizer {
    var remaining: string
    var line: nat
    var column: nat
    var index: nat

    function State(): LexState
      reads this
    {
      LexState(remaining, line, column, index)
    }

    /** `Tokenizer::new`: the whole text remains, all counters at zero. */
    constructor (s: string)
      ensures State() == LexState(s, 0, 0, 0)
    {
      remaining, line, column, index := s, 0, 0, 0;
    }

    /** The derived `clone`. */
    constructor Clone(other: Tokenizer)
      ensures State() == other.State()
    {
      remaining, line, column, index := other.remaining, other.line, other.column, other.index;
    }

    method ReadNumber() returns (range: Range)
      modifies this
      ensures range == Range(old(index), old(index) + DigitRunLength(old(remaining)))
      ensures State() == Advance(old(State()), DigitRunLength(old(remaining)))
    {
      var length := DigitRunLength(remaining);
      range := Range(index, index + length);
      IncrementCol(length);
      remaining := remaining[length..];
    }

    /** Called only when some symbol spelling starts the remaining text. */
    method ReadSymbol() returns (ty: SymbolTy, range: Range)
      requires FindSymbol(remaining).Some?
      modifies this
      ensures var (spelling, t) := FindSymbol(old(remaining)).value;
        && ty == t
        && range == Range(old(index), old(index) + |spelling|)
        && State() == Advance(old(State()), |spelling|)
    {
      var startIndex := index;
      var (spelling, t) := FindSymbol(remaining).value;
      IncrementChar(|spelling|);
      IncrementCol(|spelling|);
      ty, range := t, Range(startIndex, index);
    }

    /** Called only when some keyword spelling starts the remaining text. */
    method ReadKeyword() returns (ty: KeywordTy, range: Range)
      requires FindKeyword(remaining).Some?
      modifies this
      ensures var (spelling, t) := FindKeyword(old(remaining)).value;
        && ty == t
        && range == Range(old(index), old(index) + |spelling|)
        && State() == Advance(old(State()), |spelling|)
    {
      var startIndex := index;
      var (spelling, t) := FindKeyword(remaining).value;
      IncrementChar(|spelling|);
      IncrementCol(|spelling|);
      ty, range := t, Range(startIndex, index);
    }

    method IncrementCol(n: nat)
      modifies this
      ensures State() == LexState(old(remaining), old(line), old(column) + n, old(index) + n)
    {
      column := column + n;
      index := index + n;
    }

    method IncrementLine()
      modifies this
      ensures State() == LexState(old(remaining), old(line) + 1, 0, old(index) + 1)
    {
      column := 0;
      line := line + 1;
      index := index + 1;
    }

    method IncrementChar(n: nat)
      modifies this
      ensures State() == LexState(Drop(old(remaining), n), old(line), old(column), old(index))
    {
      remaining := if n <= |remaining| then remaining[n..] else [];
    }

    method NextToken() returns (r: TokenResult)
      modifies this
      ensures (r, State()) == Step(old(State()))
    {
      if |remaining| == 0 {
        return End;
      }
      var c := remaining[0];
      if c == ' ' || c == '\r' {
        remaining := remaining[1..];
        IncrementCol(1);
        return Skip;
      }
      if c == '\n' {
        remaining := remaining[1..];
        IncrementLine();
        return Skip;
      }
      if IsDigit(c) {
        var number := ReadNumber();
        return Lexed(Token(number, Literal(Number)));
      }
      if FindSymbol(remaining).Some? {
        var ty, range := ReadSymbol();
        return Lexed(Token(range, Symbol(ty)));
      }
      if FindKeyword(remaining).Some? {
        var ty, range := ReadKeyword();
        return Lexed(Token(range, Keyword(ty)));
      }
      var identifierLength := IdentRunLength(remaining);
      if identifierLength > 0 {
        var startIndex := index;
        IncrementChar(identifierLength);
        IncrementCol(identifierLength);
        return Lexed(Token(Range(startIndex, startIndex + identifierLength), Identifier));
      }
      IncrementChar(1);
      IncrementCol(1);
      return InvalidCharacter(c);
    }

    /**
     * Lines 169-175 of `next`: a clone of the tokenizer calls `next_token`
     * for as long as it reports invalid characters, and counts them.
     */
    method InvalidRun() returns (length: nat)
      ensures length == InvalidRunLength(remaining)
    {
      var copy := new Tokenizer.Clone(this);
      length := 0;
      ghost var pre := copy.State();
      var r := copy.NextToken();
      while r.InvalidCharacter?
        modifies copy
        invariant length <= |remaining| && pre.remaining == remaining[length..]
        invariant (r, copy.State()) == Step(pre)
        invariant InvalidRunLength(remaining) == length + InvalidRunLength(pre.remaining)
        decreases |remaining| - length
      {
        StepOnInvalid(pre);
        length := length + 1;
        pre := copy.State();
        r := copy.NextToken();
      }
      StepOnInvalid(pre);
    }

    method Next() returns (item: Option<LexItem>)
      modifies this
      ensures (item, State()) == NextItem(old(State()))
      decreases |remaining|
    {
      var preLine, preCol, preIndex := line, column, index;
      ghost var st0 := State();
      var r := NextToken();
      ghost var st1 := State();
      assert (r, st1) == Step(st0);
      if r.Lexed? {
        item := Some(Ok(r.token));
      } else if r.Skip? {
        item := Next();
      } else if r.InvalidCharacter? {
        var length := InvalidRun();
        IncrementChar(length);
        IncrementCol(length);
        item := Some(Err(TextSection(Range(preIndex, index), Range(preLine, line), Range(preCol, column))));
        assert State() == Advance(st1, length);
      } else {
        item := None;
      }
    }
  }
}

/** Properties of the lexer, stated on its specification functions. */
module LexerProperties {
  import opened Results
  import opened Tokens
  import opened Lexer

  /** The state's remaining text is the input from the state's index on. */
  ghost predicate Consistent(input: string, st: LexState) {
    st.index <= |input| && st.remaining == input[st.index..]
  }

  function Start(item: LexItem): nat {
    match item
    case Ok(t) => t.range.start
    case Err(s) => s.index.start
  }

  function End(item: LexItem): nat {
    match item
    case Ok(t) => t.range.end
    case Err(s) => s.index.end
  }

  ghost predicate BlankBetween(input: string, a: nat, b: nat)
    requires b <= |input|
  {
    forall k :: a <= k < b ==> IsBlank(input[k])
  }

  /** Space and carriage return advance index and column by one; newline starts the next line. */
  lemma BlankStep(st: LexState)
    requires |st.remaining| > 0 && IsBlank(st.remaining[0])
    ensures Step(st).0 == Skip
    ensures st.remaining[0] != '\n' ==>
      Step(st).1 == LexState(st.remaining[1..], st.line, st.column + 1, st.index + 1)
    ensures st.remaining[0] == '\n' ==>
      Step(st).1 == LexState(st.remaining[1..], st.line + 1, 0, st.index + 1)
  {
  }

  /**
   * The order in which `next_token` classifies a lexeme that does not start
   * with a blank: digit run, symbol table, keyword table, identifier run,
   * invalid character.  A symbol is never lexed as a keyword or an identifier.
   */
  lemma Classification(st: LexState)
    requires |st.remaining| > 0 && !IsBlank(st.remaining[0])
    ensures var (r, _) := Step(st); var c := st.remaining[0];
      && (r.Lexed? || r.InvalidCharacter?)
      && (IsDigit(c) ==> r.Lexed? && r.token.ty == Literal(Number))
      && (!IsDigit(c) && FindSymbol(st.remaining).Some? ==>
            r.Lexed? && r.token.ty == Symbol(FindSymbol(st.remaining).value.1))
      && (!IsDigit(c) && FindSymbol(st.remaining).None? && FindKeyword(st.remaining).Some? ==>
            r.Lexed? && r.token.ty == Keyword(FindKeyword(st.remaining).value.1))
      && (!IsDigit(c) && FindSymbol(st.remaining).None? && FindKeyword(st.remaining).None? && IsIdentChar(c) ==>
            r.Lexed? && r.token.ty == Identifier)
      && (r.InvalidCharacter? <==> InvalidAt(st.remaining))
      && (r.InvalidCharacter? ==> r.c == c)
  {
  }

  /** A leading digit yields one Number literal over the maximal digit run. */
  lemma NumberStep(st: LexState)
    requires |st.remaining| > 0 && IsDigit(st.remaining[0])
    ensures var (r, st') := Step(st);
      && r.Lexed? && r.token.ty == Literal(Number) && r.token.range.start == st.index
      && var n := r.token.range.end - st.index;
      && 1 <= n <= |st.remaining|
      && (forall k :: 0 <= k < n ==> IsDigit(st.remaining[k]))
      && (n == |st.remaining| || !IsDigit(st.remaining[n]))
      && st' == LexState(st.remaining[n..], st.line, st.column + n, st.index + n)
  {
    DigitRunIsMaximal(st.remaining);
  }

  /**
   * When no digit, symbol or keyword starts the text, an identifier token
   * spans the maximal run of identifier characters, and index and column
   * advance by its length.
   */
  lemma IdentifierStep(st: LexState)
    requires |st.remaining| > 0 && !IsBlank(st.remaining[0]) && !IsDigit(st.remaining[0])
    requires FindSymbol(st.remaining).None? && FindKeyword(st.remaining).None?
    requires IsIdentChar(st.remaining[0])
    ensures var (r, st') := Step(st);
      && r.Lexed? && r.token.ty == Identifier && r.token.range.start == st.index
      && var n := r.token.range.end - st.index;
      && 1 <= n <= |st.remaining|
      && (forall k :: 0 <= k < n ==> IsIdentChar(st.remaining[k]))
      && (n == |st.remaining| || !IsIdentChar(st.remaining[n]))
      && st' == LexState(st.remaining[n..], st.line, st.column + n, st.index + n)
  {
    IdentRunIsMaximal(st.remaining);
  }

  /** `next` returns `None` exactly when nothing but blanks remains. */
  lemma {:induction false} NextNoneIffBlank(st: LexState)
    ensures NextItem(st).0.None? <==> forall k :: 0 <= k < |st.remaining| ==> IsBlank(st.remaining[k])
    decreases |st.remaining|
  {
    if |st.remaining| == 0 {
    } else if IsBlank(st.remaining[0]) {
      var st1 := Step(st).1;
      BlankStep(st);
      NextNoneIffBlank(st1);
      assert st1.remaining == st.remaining[1..];
      assert forall k :: 1 <= k < |st.remaining| ==> st.remaining[k] == st1.remaining[k - 1];
    } else {
      assert Step(st).0.Lexed? || Step(st).0.InvalidCharacter? by {
        Classification(st);
      }
    }
  }

  lemma ConsistentSuffix(input: string, st: LexState, st': LexState)
    requires Consistent(input, st)
    requires st.index <= st'.index <= st.index + |st.remaining|
    requires st'.remaining == st.remaining[st'.index - st.index..]
    ensures Consistent(input, st')
  {
    assert input[st.index..][st'.index - st.index..] == input[st'.index..];
  }

  lemma StepConsistent(input: string, st: LexState)
    requires Consistent(input, st)
    ensures Consistent(input, Step(st).1)
  {
    ConsistentSuffix(input, st, Step(st).1);
  }

  /** The facts `NextItemSpan` states about one call of `next` from `st`. */
  ghost predicate SpanFrom(input: string, st: LexState, r: (Option<LexItem>, LexState)) {
    && Consistent(input, r.1)
    && (r.0.Some? ==>
          && st.index <= Start(r.0.value) < End(r.0.value) == r.1.index
          && BlankBetween(input, st.index, Start(r.0.value)))
  }

  lemma WordSpan(input: string, st: LexState)
    requires Consistent(input, st) && Step(st).0.Lexed?
    ensures SpanFrom(input, st, NextItem(st))
  {
    StepConsistent(input, st);
  }

  lemma InvalidSpan(input: string, st: LexState)
    requires Consistent(input, st) && Step(st).0.InvalidCharacter?
    ensures SpanFrom(input, st, NextItem(st))
  {
    var st1 := Step(st).1;
    var st2 := Advance(st1, InvalidRunLength(st1.remaining));
    assert NextItem(st) == (Some(Err(TextSection(Range(st.index, st2.index), Range(st.line, st2.line), Range(st.column, st2.column)))), st2);
    assert Consistent(input, st2) by {
      StepConsistent(input, st);
      ConsistentSuffix(input, st1, st2);
    }
  }

  /** A skipped character is a blank at the tokenizer's index, and `next` then starts over one character later. */
  lemma SkipStep(input: string, st: LexState)
    requires Consistent(input, st) && Step(st).0.Skip?
    ensures st.index < |input| && IsBlank(input[st.index])
    ensures Step(st).1.index == st.index + 1
    ensures NextItem(st) == NextItem(Step(st).1)
  {
    assert input[st.index] == st.remaining[0];
  }

  lemma SkipSpan(input: string, st: LexState, st1: LexState, r: (Option<LexItem>, LexState))
    requires st.index < |input| && IsBlank(input[st.index]) && st1.index == st.index + 1
    requires SpanFrom(input, st1, r)
    ensures SpanFrom(input, st, r)
  {
  }

  /**
   * An item yielded by `next` is a non-empty range that starts after the
   * skipped blanks and ends where the tokenizer now stands.
   */
  lemma {:induction false} NextItemSpan(input: string, st: LexState)
    requires Consistent(input, st)
    ensures Consistent(input, NextItem(st).1)
    ensures NextItem(st).0.Some? ==>
      var item := NextItem(st).0.value;
      && st.index <= Start(item) < End(item) == NextItem(st).1.index
      && BlankBetween(input, st.index, Start(item))
    decreases |st.remaining|
  {
    var t := Step(st).0;
    if t.Skip? {
      StepConsistent(input, st);
      SkipStep(input, st);
      NextItemSpan(input, Step(st).1);
      SkipSpan(input, st, Step(st).1, NextItem(Step(st).1));
    } else if t.Lexed? {
      WordSpan(input, st);
    } else if t.InvalidCharacter? {
      InvalidSpan(input, st);
    }
  }

  /** The invalid run measured from position `j` of `input`, stated on `input`'s own positions. */
  lemma InvalidRunFrom(input: string, j: nat)
    requires j <= |input|
    ensures j + InvalidRunLength(input[j..]) <= |input|
    ensures forall k :: j <= k < j + InvalidRunLength(input[j..]) ==> InvalidAtIndex(input, k)
    ensures !InvalidAtIndex(input, j + InvalidRunLength(input[j..]))
  {
    var rest := input[j..];
    var n := InvalidRunLength(rest);
    InvalidRunIsMaximal(rest);
    forall k | j <= k <= j + n
      ensures InvalidAtIndex(input, k) == InvalidAtIndex(rest, k - j)
    {
      assert rest[k - j..] == input[k..];
    }
  }

  /**
   * The error section `next` reports for an invalid character at position
   * `i` of `input`, on line `line` and column `column`: it covers that
   * character and the run of invalid characters after it.
   */
  function SectionFrom(input: string, i: nat, line: nat, column: nat): TextSection
    requires i < |input|
  {
    var n := 1 + InvalidRunLength(input[i + 1..]);
    TextSection(Range(i, i + n), Range(line, line), Range(column, column + n))
  }

  lemma InvalidSection(input: string, st: LexState)
    requires Consistent(input, st) && InvalidAt(st.remaining)
    ensures st.index < |input|
    ensures NextItem(st).0 == Some(Err(SectionFrom(input, st.index, st.line, st.column)))
  {
    SectionOfSuffix(input, st.index, st.remaining, st.line, st.column);
    NextOnInvalid(st);
  }

  lemma SectionOfSuffix(input: string, i: nat, rest: string, line: nat, column: nat)
    requires i < |input| && rest == input[i..]
    ensures var n := 1 + InvalidRunLength(rest[1..]);
      SectionFrom(input, i, line, column) == TextSection(Range(i, i + n), Range(line, line), Range(column, column + n))
  {
    assert rest[1..] == input[i + 1..];
  }

  /**
   * Every error section `next` yields is the section of an invalid
   * character at or after the tokenizer's index.
   */
  lemma {:induction false} ErrorSectionShape(input: string, st: LexState)
    requires Consistent(input, st)
    requires NextItem(st).0.Some? && NextItem(st).0.value.Err?
    ensures var sec := NextItem(st).0.value.error;
      && st.index <= sec.index.start < |input|
      && InvalidAtIndex(input, sec.index.start)
      && sec == SectionFrom(input, sec.index.start, sec.line.start, sec.column.start)
    decreases |st.remaining|
  {
    if Step(st).0.Skip? {
      StepConsistent(input, st);
      SkipStep(input, st);
      ErrorSectionShape(input, Step(st).1);
    } else {
      StepOnInvalid(st);
      InvalidSection(input, st);
    }
  }

  /**
   * A run of invalid characters is reported as ONE section: the section
   * is non-empty and every position it covers holds an invalid character.
   */
  lemma SectionCoversRun(input: string, i: nat, line: nat, column: nat)
    requires i < |input| && InvalidAtIndex(input, i)
    ensures var sec := SectionFrom(input, i, line, column);
      && sec.index.start == i < sec.index.end <= |input|
      && forall k :: i <= k < sec.index.end ==> InvalidAtIndex(input, k)
  {
    InvalidRunFrom(input, i + 1);
  }

  /**
   * The run a section covers cannot be extended: the position after it
   * is skipped or starts a token.  Its line range is empty and its column
   * range is as long as its index range.
   */
  lemma SectionEndsRun(input: string, i: nat, line: nat, column: nat)
    requires i < |input|
    ensures var sec := SectionFrom(input, i, line, column);
      && sec.index.end <= |input|
      && !InvalidAtIndex(input, sec.index.end)
      && sec.line.start == sec.line.end == line
      && sec.column.start == column
      && sec.column.end - sec.column.start == sec.index.end - sec.index.start
  {
    InvalidRunFrom(input, i + 1);
  }

  /** An error section that does not start at an invalid character starts after the tokenizer's index. */
  lemma {:induction false} ErrorAfterValidStart(input: string, st: LexState)
    requires Consistent(input, st)
    requires NextItem(st).0.Some? && NextItem(st).0.value.Err?
    requires !InvalidAt(st.remaining)
    ensures Start(NextItem(st).0.value) > st.index
  {
    var (t, st1) := Step(st);
    StepOnInvalid(st);
    StepConsistent(input, st);
    assert t.Skip?;
    NextItemSpan(input, st1);
  }

  /** After an error section `next` stands at a character that is not invalid. */
  lemma ErrorThenValid(input: string, st: LexState)
    requires Consistent(input, st)
    requires NextItem(st).0.Some? && NextItem(st).0.value.Err?
    ensures !InvalidAt(NextItem(st).1.remaining)
  {
    var sec := NextItem(st).0.value.error;
    ErrorSectionShape(input, st);
    SectionEndsRun(input, sec.index.start, sec.line.start, sec.column.start);
    NextItemSpan(input, st);
  }

  /** `Tokenize` is `next` called until it returns `None`. */
  lemma TokenizeUnfold(st: LexState)
    ensures NextItem(st).0.None? ==> Tokenize(st) == []
    ensures NextItem(st).0.Some? ==> Tokenize(st) == [NextItem(st).0.value] + Tokenize(NextItem(st).1)
  {
  }

  /** Items lie inside the text from `lo` on, each a non-empty range, in increasing, non-overlapping order. */
  ghost predicate InOrder(input: string, lo: nat, items: seq<LexItem>) {
    && (forall i :: 0 <= i < |items| ==> lo <= Start(items[i]) < End(items[i]) <= |input|)
    && (forall i, j :: 0 <= i < j < |items| ==> End(items[i]) <= Start(items[j]))
  }

  /** The text from `lo` on is blank before, between and after the items. */
  ghost predicate BlankGaps(input: string, lo: nat, items: seq<LexItem>)
    requires lo <= |input| && InOrder(input, lo, items)
  {
    && (|items| == 0 ==> BlankBetween(input, lo, |input|))
    && (|items| > 0 ==> BlankBetween(input, lo, Start(items[0])))
    && (|items| > 0 ==> BlankBetween(input, End(items[|items| - 1]), |input|))
    && (forall i :: 0 <= i < |items| - 1 ==> BlankBetween(input, End(items[i]), Start(items[i + 1])))
  }

  /** Two error sections in a row are separated by at least one character. */
  ghost predicate ErrorsApart(items: seq<LexItem>) {
    forall i :: 0 <= i < |items| - 1 && items[i].Err? && items[i + 1].Err? ==> End(items[i]) < Start(items[i + 1])
  }

  lemma ConsInOrder(input: string, lo: nat, item: LexItem, rest: seq<LexItem>)
    requires lo <= Start(item) < End(item) <= |input| && InOrder(input, End(item), rest)
    ensures InOrder(input, lo, [item] + rest)
  {
    var items := [item] + rest;
    assert forall i :: 1 <= i < |items| ==> items[i] == rest[i - 1];
  }

  lemma ConsBlankGaps(input: string, lo: nat, item: LexItem, rest: seq<LexItem>)
    requires lo <= Start(item) < End(item) <= |input| && InOrder(input, End(item), rest)
    requires BlankBetween(input, lo, Start(item)) && BlankGaps(input, End(item), rest)
    ensures InOrder(input, lo, [item] + rest) && BlankGaps(input, lo, [item] + rest)
  {
    ConsInOrder(input, lo, item, rest);
    var items := [item] + rest;
    assert forall i :: 1 <= i < |items| ==> items[i] == rest[i - 1];
  }

  lemma ConsErrorsApart(item: LexItem, rest: seq<LexItem>)
    requires ErrorsApart(rest)
    requires |rest| > 0 && item.Err? && rest[0].Err? ==> End(item) < Start(rest[0])
    ensures ErrorsApart([item] + rest)
  {
    var items := [item] + rest;
    assert forall i :: 1 <= i < |items| ==> items[i] == rest[i - 1];
  }

  /** The items of the token stream lie inside the text in strictly increasing, non-overlapping order. */
  lemma {:induction false} TokenizeInOrder(input: string, st: LexState)
    requires Consistent(input, st)
    ensures InOrder(input, st.index, Tokenize(st))
    decreases |st.remaining|
  {
    TokenizeUnfold(st);
    var (item, st') := NextItem(st);
    if item.Some? {
      NextItemSpan(input, st);
      TokenizeInOrder(input, st');
      ConsInOrder(input, st.index, item.value, Tokenize(st'));
    }
  }

  lemma NoneMeansBlank(input: string, st: LexState)
    requires Consistent(input, st) && NextItem(st).0.None?
    ensures BlankBetween(input, st.index, |input|)
  {
    NextNoneIffBlank(st);
    forall k | st.index <= k < |input| ensures IsBlank(input[k]) {
      assert input[k] == st.remaining[k - st.index];
    }
  }

  /** What lies before, between and after the items of the token stream is blank. */
  lemma {:induction false} TokenizeBlankGaps(input: string, st: LexState)
    requires Consistent(input, st)
    ensures InOrder(input, st.index, Tokenize(st)) && BlankGaps(input, st.index, Tokenize(st))
    decreases |st.remaining|
  {
    TokenizeUnfold(st);
    TokenizeInOrder(input, st);
    var (item, st') := NextItem(st);
    if item.None? {
      NoneMeansBlank(input, st);
    } else {
      NextItemSpan(input, st);
      TokenizeBlankGaps(input, st');
      ConsBlankGaps(input, st.index, item.value, Tokenize(st'));
    }
  }

  /** Two error sections are never adjacent in the token stream. */
  lemma {:induction false} TokenizeErrorsApart(input: string, st: LexState)
    requires Consistent(input, st)
    ensures ErrorsApart(Tokenize(st))
    decreases |st.remaining|
  {
    TokenizeUnfold(st);
    var (item, st') := NextItem(st);
    if item.Some? {
      NextItemSpan(input, st);
      TokenizeErrorsApart(input, st');
      var rest := Tokenize(st');
      if |rest| > 0 && item.value.Err? && rest[0].Err? {
        TokenizeUnfold(st');
        ErrorThenValid(input, st);
        ErrorAfterValidStart(input, st');
      }
      ConsErrorsApart(item.value, rest);
    }
  }
}
