/**
 * The token streams the repository's own tests expect, derived from the
 * lexer's specification functions one `next` call at a time.
 */
module LexerExamples {
  import opened Results
  import opened Tokens
  import opened Lexer
  import opened LexerProperties

  /** No symbol spelling starts with a character outside the symbols' first characters. */
  lemma NoSymbolAt(s: string)
    requires |s| > 0 && s[0] !in "-+=>(){};"
    ensures FindSymbol(s).None?
  {
    SymbolTableOrdered();
    FindIsLongestMatch(SymbolTable, s);
    forall j | 0 <= j < |SymbolTable| ensures !(SymbolTable[j].0 <= s) {
      assert SymbolTable[j].0[0] in "-+=>(){};";
    }
  }

  /** No keyword spelling starts with a character other than `f`, `l`, `i` or `r`. */
  lemma NoKeywordAt(s: string)
    requires |s| > 0 && s[0] !in "flir"
    ensures FindKeyword(s).None?
  {
    KeywordTableOrdered();
    FindIsLongestMatch(KeywordTable, s);
    forall j | 0 <= j < |KeywordTable| ensures !(KeywordTable[j].0 <= s) {
      assert KeywordTable[j].0[0] in "flir";
    }
  }

  lemma TwelveStep(s: string)
    requires |s| == 6 && s[0] == '1' && s[1] == '2' && s[2] == ' '
    ensures NextItem(LexState(s, 0, 0, 0)) == (Some(Ok(Token(Range(0, 2), Literal(Number)))), LexState(s[2..], 0, 2, 2))
  {
    assert DigitRunLength(s[2..]) == 0;
    assert DigitRunLength(s[1..]) == 1;
    assert Scan(s) == Word(Literal(Number), 2);
    NextOnWord(LexState(s, 0, 0, 0));
  }

  lemma PlusStep(s: string)
    requires |s| == 4 && s[0] == ' ' && s[1] == '+' && s[2] == ' '
    ensures NextItem(LexState(s, 0, 2, 2)) == (Some(Ok(Token(Range(3, 4), Symbol(Add)))), LexState(s[2..], 0, 4, 4))
  {
    NextOnSpace(LexState(s, 0, 2, 2));
    assert s[1..][1..] == s[2..];
    AddStep(LexState(s[1..], 0, 3, 3));
  }

  lemma TwoStep(s: string)
    requires |s| == 2 && s[0] == ' ' && s[1] == '2'
    ensures NextItem(LexState(s, 0, 4, 4)) == (Some(Ok(Token(Range(5, 6), Literal(Number)))), LexState([], 0, 6, 6))
  {
    NextOnSpace(LexState(s, 0, 4, 4));
    assert DigitRunLength(s[1..]) == 1;
    assert Scan(s[1..]) == Word(Literal(Number), 1);
    NextOnWord(LexState(s[1..], 0, 5, 5));
  }

  /** tests/tokenizer.rs `basic_1`: `12 + 2` is a number, a plus and a number, at 0..2, 3..4 and 5..6. */
  lemma TwelvePlusTwo(s: string)
    requires |s| == 6 && s[0] == '1' && s[1] == '2' && s[2] == ' ' && s[3] == '+' && s[4] == ' ' && s[5] == '2'
    ensures Lex(s) ==
      [Ok(Token(Range(0, 2), Literal(Number))), Ok(Token(Range(3, 4), Symbol(Add))), Ok(Token(Range(5, 6), Literal(Number)))]
  {
    var twelve := Ok(Token(Range(0, 2), Literal(Number)));
    var plus := Ok(Token(Range(3, 4), Symbol(Add)));
    var two := Ok(Token(Range(5, 6), Literal(Number)));
    assert Lex(s) == [twelve] + Tokenize(LexState(s[2..], 0, 2, 2)) by {
      TwelveStep(s);
      TokenizeCons(LexState(s, 0, 0, 0), twelve, LexState(s[2..], 0, 2, 2));
    }
    assert Tokenize(LexState(s[2..], 0, 2, 2)) == [plus] + Tokenize(LexState(s[4..], 0, 4, 4)) by {
      PlusStep(s[2..]);
      assert s[2..][2..] == s[4..];
      TokenizeCons(LexState(s[2..], 0, 2, 2), plus, LexState(s[4..], 0, 4, 4));
    }
    assert Tokenize(LexState(s[4..], 0, 4, 4)) == [two] by {
      TwoStep(s[4..]);
      TokenizeCons(LexState(s[4..], 0, 4, 4), two, LexState([], 0, 6, 6));
      TokenizeUnfold(LexState([], 0, 6, 6));
    }
  }

  /**
   * Keywords match by prefix alone: wherever the text starts with `if`,
   * `next` yields the keyword `If` over two characters, whatever follows.
   */
  lemma IfByPrefix(st: LexState)
    requires "if" <= st.remaining
    ensures NextItem(st) == (Some(Ok(Token(Range(st.index, st.index + 2), Keyword(If)))), Advance(st, 2))
  {
    var s := st.remaining;
    assert s[0] == 'i' && s[1] == 'f';
    NoSymbolAt(s);
    assert !("fn" <= s) && !("let" <= s);
    assert FirstPrefix(KeywordTable[2..], s) == 0;
    assert FirstPrefix(KeywordTable[1..], s) == 1;
    assert FindKeyword(s) == Some(("if", If));
    assert Scan(s) == Word(Keyword(If), 2);
    NextOnWord(st);
  }

  lemma LetterStep(s: string, index: nat)
    requires |s| == 1 && 'a' <= s[0] <= 'z' && s[0] !in "flir"
    ensures NextItem(LexState(s, 0, index, index)) == (Some(Ok(Token(Range(index, index + 1), Identifier))), LexState([], 0, index + 1, index + 1))
  {
    NoSymbolAt(s);
    NoKeywordAt(s);
    assert IdentRunLength(s[1..]) == 0;
    assert Scan(s) == Word(Identifier, 1);
    NextOnWord(LexState(s, 0, index, index));
  }

  lemma IfxHead(s: string)
    requires |s| == 3 && s[0] == 'i' && s[1] == 'f'
    ensures Lex(s) == [Ok(Token(Range(0, 2), Keyword(If)))] + Tokenize(LexState(s[2..], 0, 2, 2))
  {
    assert "if" <= s;
    IfByPrefix(LexState(s, 0, 0, 0));
    TokenizeCons(LexState(s, 0, 0, 0), Ok(Token(Range(0, 2), Keyword(If))), LexState(s[2..], 0, 2, 2));
  }

  lemma IfxTail(r: string)
    requires |r| == 1 && r[0] == 'x'
    ensures Tokenize(LexState(r, 0, 2, 2)) == [Ok(Token(Range(2, 3), Identifier))]
  {
    LetterStep(r, 2);
    TokenizeCons(LexState(r, 0, 2, 2), Ok(Token(Range(2, 3), Identifier)), LexState([], 0, 3, 3));
    TokenizeUnfold(LexState([], 0, 3, 3));
  }

  /** The text `ifx` is the keyword `if` followed by the identifier `x`, not one identifier. */
  lemma KeywordPrefixSplitsWord(s: string)
    requires |s| == 3 && s[0] == 'i' && s[1] == 'f' && s[2] == 'x'
    ensures Lex(s) == [Ok(Token(Range(0, 2), Keyword(If))), Ok(Token(Range(2, 3), Identifier))]
  {
    IfxHead(s);
    IfxTail(s[2..]);
  }

  /** `造` starts no token under the ASCII character classes. */
  lemma OutsideLanguage(r: string)
    requires |r| > 0 && r[0] == '造'
    ensures InvalidAt(r)
  {
    NoSymbolAt(r);
    NoKeywordAt(r);
  }

  /** Two characters outside the language, then a space or the end: one error section over both. */
  lemma InvalidPairStep(st: LexState)
    requires |st.remaining| >= 2 && st.remaining[0] == '造' && st.remaining[1] == '造'
    requires |st.remaining| == 2 || st.remaining[2] == ' '
    ensures NextItem(st) ==
      (Some(Err(TextSection(Range(st.index, st.index + 2), Range(st.line, st.line), Range(st.column, st.column + 2)))),
       Advance(st, 2))
  {
    var r := st.remaining;
    assert InvalidAt(r) by {
      OutsideLanguage(r);
    }
    assert InvalidRunLength(r[1..]) == 1 by {
      OutsideLanguage(r[1..]);
      assert r[1..][1..] == r[2..];
      assert InvalidRunLength(r[2..]) == 0;
    }
    NextOnInvalid(st);
  }

  /** `+` not followed by `=` is one Add symbol. */
  lemma ScanAdd(s: string)
    requires |s| >= 2 && s[0] == '+' && s[1] != '='
    ensures Scan(s) == Word(Symbol(Add), 1)
  {
    assert FindSymbol(s) == Some(("+", Add)) by {
      assert s == "+" + s[1..];
      AddAssignBeforeAdd(s[1..]);
    }
  }

  lemma AddStep(st: LexState)
    requires |st.remaining| >= 2 && st.remaining[0] == '+' && st.remaining[1] != '='
    ensures NextItem(st) == (Some(Ok(Token(Range(st.index, st.index + 1), Symbol(Add)))), Advance(st, 1))
  {
    ScanAdd(st.remaining);
    NextOnWord(st);
  }

  /** An item `next` yields heads the stream. */
  lemma TokenizeCons(st: LexState, item: LexItem, next: LexState)
    requires NextItem(st) == (Some(item), next)
    ensures Tokenize(st) == [item] + Tokenize(next)
  {
  }

  /** A leading space contributes nothing to the stream. */
  lemma SkipSpace(st: LexState)
    requires |st.remaining| > 0 && st.remaining[0] == ' '
    ensures Tokenize(st) == Tokenize(Advance(st, 1))
  {
    NextOnSpace(st);
    TokenizeUnfold(st);
    TokenizeUnfold(Advance(st, 1));
  }

  // Generic steps for longer texts.  A line is given as `Starts(w, r)`:
  // the line `w` starts the remaining text `r`.  Each step lemma works `k`
  // characters into the line and reads the characters it needs from `w`,
  // so that a line is lexed by a chain of them.

  /** `w` starts `r`, character by character. */
  predicate Starts(w: string, r: string) {
    |w| <= |r| && Agrees(w, r, 1)
  }

  /**
   * `w` starts `r`, reached through `depth` extra steps: the extra step in
   * `Starts` keeps the verifier from reading any character of `r` until a
   * lemma asks for it.
   */
  predicate Agrees(w: string, r: string, depth: nat)
    decreases |w|, depth
  {
    if depth > 0 then Agrees(w, r, depth - 1)
    else |w| <= |r| && (|w| > 0 ==> w[0] == r[0] && Agrees(w[1..], r[1..], 1))
  }

  lemma StartsFirst(w: string, r: string)
    requires Starts(w, r)
    ensures |w| <= |r| && (|w| > 0 ==> w[0] == r[0] && Starts(w[1..], r[1..]))
  {
    assert Agrees(w, r, 0);
  }

  lemma {:induction false} StartsChars(w: string, r: string, a: nat, b: nat)
    requires Starts(w, r) && a <= b <= |w|
    ensures |w| <= |r| && forall j :: a <= j < b ==> r[j] == w[j]
    decreases |w|
  {
    StartsFirst(w, r);
    if |w| > 0 {
      StartsChars(w[1..], r[1..], if a == 0 then 0 else a - 1, if b == 0 then 0 else b - 1);
      assert forall j :: 1 <= j < |w| ==> r[j] == r[1..][j - 1] && w[j] == w[1..][j - 1];
    }
  }

  lemma StartsChar(w: string, r: string, j: nat)
    requires Starts(w, r) && j < |w|
    ensures |w| <= |r| && r[j] == w[j]
  {
    StartsChars(w, r, j, j + 1);
  }

  lemma {:induction false} StartsAppend(w: string, rest: string)
    ensures Starts(w, w + rest)
    decreases |w|
  {
    if |w| > 0 {
      assert (w + rest)[1..] == w[1..] + rest;
      StartsAppend(w[1..], rest);
    }
    assert Agrees(w, w + rest, 0);
  }

  lemma AdvanceAdvance(st: LexState, a: nat, b: nat)
    requires a + b <= |st.remaining|
    ensures Advance(Advance(st, a), b) == Advance(st, a + b)
  {
    assert st.remaining[a..][b..] == st.remaining[a + b..];
  }

  lemma {:induction false} IdentRunOf(s: string, n: nat)
    requires n <= |s| && (forall j :: 0 <= j < n ==> IsIdentChar(s[j])) && (n == |s| || !IsIdentChar(s[n]))
    ensures IdentRunLength(s) == n
    decreases n
  {
    if n > 0 {
      IdentRunOf(s[1..], n - 1);
    }
  }

  lemma {:induction false} DigitRunOf(s: string, n: nat)
    requires n <= |s| && (forall j :: 0 <= j < n ==> IsDigit(s[j])) && (n == |s| || !IsDigit(s[n]))
    ensures DigitRunLength(s) == n
    decreases n
  {
    if n > 0 {
      DigitRunOf(s[1..], n - 1);
    }
  }

  /** A run of `n` identifier characters that no symbol or keyword starts is one identifier. */
  lemma ScanIdentifier(s: string, n: nat)
    requires 0 < n <= |s| && !IsDigit(s[0]) && s[0] !in "-+=>(){};" && FindKeyword(s).None?
    requires (forall j :: 0 <= j < n ==> IsIdentChar(s[j])) && (n == |s| || !IsIdentChar(s[n]))
    ensures Scan(s) == Word(Identifier, n)
  {
    NoSymbolAt(s);
    IdentRunOf(s, n);
  }

  /** A maximal run of `n` digits is one number. */
  lemma ScanNumber(s: string, n: nat)
    requires 0 < n <= |s| && (forall j :: 0 <= j < n ==> IsDigit(s[j])) && (n == |s| || !IsDigit(s[n]))
    ensures Scan(s) == Word(Literal(Number), n)
  {
    DigitRunOf(s, n);
  }

  /** The entry at `i` is the first whose spelling starts `s`. */
  lemma {:induction false} FirstPrefixAt<T>(table: seq<(string, T)>, s: string, i: nat)
    requires i < |table| && table[i].0 <= s && forall j :: 0 <= j < i ==> !(table[j].0 <= s)
    ensures FirstPrefix(table, s) == i
    decreases i
  {
    if i > 0 {
      assert !(table[0].0 <= s);
      assert forall j :: 0 <= j < i - 1 ==> table[1..][j] == table[j + 1];
      FirstPrefixAt(table[1..], s, i - 1);
    }
  }

  /**
   * A one-character symbol other than `+` is found by its first character
   * alone (`+` may start `+=` instead).
   */
  lemma ScanOneCharSymbol(s: string, i: nat)
    requires 2 <= i < |SymbolTable| && i != 3 && |s| > 0 && s[0] == SymbolTable[i].0[0]
    ensures Scan(s) == Word(Symbol(SymbolTable[i].1), 1)
  {
    assert |SymbolTable[i].0| == 1;
    assert SymbolTable[i].0 <= s;
    forall j | 0 <= j < i ensures !(SymbolTable[j].0 <= s) {
      assert SymbolTable[j].0[0] != SymbolTable[i].0[0];
    }
    FirstPrefixAt(SymbolTable, s, i);
  }

  /** `->` is one ThinArrow symbol. */
  lemma ScanArrow(s: string)
    requires |s| >= 2 && s[0] == '-' && s[1] == '>'
    ensures Scan(s) == Word(Symbol(ThinArrow), 2)
  {
    assert "->" <= s;
  }

  /** A keyword spelling that starts the text is that keyword: no symbol and no earlier keyword starts it. */
  lemma ScanKeyword(s: string, i: nat)
    requires i < |KeywordTable| && KeywordTable[i].0 <= s
    ensures Scan(s) == Word(Keyword(KeywordTable[i].1), |KeywordTable[i].0|)
  {
    assert s[0] == KeywordTable[i].0[0];
    NoSymbolAt(s);
    forall j | 0 <= j < i ensures !(KeywordTable[j].0 <= s) {
      assert KeywordTable[j].0[0] != KeywordTable[i].0[0];
    }
    FirstPrefixAt(KeywordTable, s, i);
  }

  /** No keyword starts with `in`, so `int` is an identifier. */
  lemma NoKeywordIn(s: string)
    requires |s| >= 2 && s[0] == 'i' && s[1] == 'n'
    ensures FindKeyword(s).None?
  {
    KeywordTableOrdered();
    FindIsLongestMatch(KeywordTable, s);
    forall j | 0 <= j < |KeywordTable| ensures !(KeywordTable[j].0 <= s) {
      assert KeywordTable[j].0[0] != 'i' || KeywordTable[j].0[1] != 'n';
    }
  }

  /** A newline is passed over: `next` continues at column 0 of the next line. */
  lemma NextOnNewline(st: LexState)
    requires |st.remaining| > 0 && st.remaining[0] == '\n'
    ensures NextItem(st) == NextItem(LexState(st.remaining[1..], st.line + 1, 0, st.index + 1))
  {
    assert Scan(st.remaining) == LineBreak;
  }

  lemma SkipNewline(st: LexState)
    requires |st.remaining| > 0 && st.remaining[0] == '\n'
    ensures Tokenize(st) == Tokenize(LexState(st.remaining[1..], st.line + 1, 0, st.index + 1))
  {
    NextOnNewline(st);
    TokenizeUnfold(st);
    TokenizeUnfold(LexState(st.remaining[1..], st.line + 1, 0, st.index + 1));
  }

  // A chain of steps over a long text is kept cheap by folding: `Rest(st, k)`
  // stands for the items from position `k` on, and `Cons(x, t)` for
  // `[x] + t`; the verifier opens either only where `Unhide` or `UnhideCons`
  // asks, so a chain of steps never sets it lexing the text on its own.

  /** The items from `k` characters on, folded. */
  function Rest(st: LexState, k: nat): seq<LexItem>
    requires k <= |st.remaining|
  {
    Later(st, k, 3 + |st.remaining|)
  }

  /** `Tokenize` from `k` on, after `depth` steps; a depth the verifier cannot compute keeps it folded. */
  function Later(st: LexState, k: nat, depth: nat): seq<LexItem>
    requires k <= |st.remaining|
    decreases depth
  {
    if depth > 0 then Later(st, k, depth - 1) else Tokenize(Advance(st, k))
  }

  lemma {:induction false} LaterIs(st: LexState, k: nat, depth: nat)
    requires k <= |st.remaining|
    ensures Later(st, k, depth) == Tokenize(Advance(st, k))
    decreases depth
  {
    if depth > 0 {
      LaterIs(st, k, depth - 1);
    }
  }

  lemma Unhide(st: LexState, k: nat)
    requires k <= |st.remaining|
    ensures Rest(st, k) == Tokenize(Advance(st, k))
  {
    LaterIs(st, k, 3 + |st.remaining|);
  }

  lemma UnhideStart(st: LexState)
    ensures Rest(st, 0) == Tokenize(st)
  {
    Unhide(st, 0);
    assert st.remaining[0..] == st.remaining;
  }

  /** `[x] + t`, folded in the same way. */
  function Cons(x: LexItem, t: seq<LexItem>): seq<LexItem> {
    Prepended(x, t, 3 + Start(x))
  }

  function Prepended(x: LexItem, t: seq<LexItem>, depth: nat): seq<LexItem>
    decreases depth
  {
    if depth > 0 then Prepended(x, t, depth - 1) else [x] + t
  }

  lemma {:induction false} PrependedIs(x: LexItem, t: seq<LexItem>, depth: nat)
    ensures Prepended(x, t, depth) == [x] + t
    decreases depth
  {
    if depth > 0 {
      PrependedIs(x, t, depth - 1);
    }
  }

  lemma UnhideCons(x: LexItem, t: seq<LexItem>)
    ensures Cons(x, t) == [x] + t
  {
    PrependedIs(x, t, 3 + Start(x));
  }

  // Steps at position `k`, stated between folded positions.  Each needs one
  // fact about the text there and no more.

  lemma SpaceStep(st: LexState, k: nat)
    requires k < |st.remaining| && st.remaining[k] == ' '
    ensures Rest(st, k) == Rest(st, k + 1)
  {
    SkipSpace(Advance(st, k));
    AdvanceAdvance(st, k, 1);
    Unhide(st, k);
    Unhide(st, k + 1);
  }

  /** A newline ends the line: what follows is lexed from column 0 of the next line. */
  lemma NewlineStep(st: LexState, k: nat)
    requires k < |st.remaining| && st.remaining[k] == '\n'
    ensures Rest(st, k) == Tokenize(LexState(st.remaining[k + 1..], st.line + 1, 0, st.index + k + 1))
  {
    NewlineAt(st, k);
    Unhide(st, k);
  }

  lemma NewlineAt(st: LexState, k: nat)
    requires k < |st.remaining| && st.remaining[k] == '\n'
    ensures Tokenize(Advance(st, k)) == Tokenize(LexState(st.remaining[k + 1..], st.line + 1, 0, st.index + k + 1))
  {
    assert Advance(st, k).remaining[1..] == st.remaining[k + 1..];
    SkipNewline(Advance(st, k));
  }

  /** A word at position `k` is one token over its characters. */
  lemma WordStep(st: LexState, k: nat, ty: TokenTy, n: nat)
    requires k < |st.remaining| && Scan(st.remaining[k..]) == Word(ty, n)
    ensures k + n <= |st.remaining|
    ensures Rest(st, k) == Cons(Ok(Token(Range(st.index + k, st.index + k + n), ty)), Rest(st, k + n))
  {
    NextOnWord(Advance(st, k));
    AdvanceAdvance(st, k, n);
    RestCons(st, k, n, Ok(Token(Range(st.index + k, st.index + k + n), ty)));
  }

  /** Two characters outside the language, then a space or the end, are one error section. */
  lemma InvalidPairAt(st: LexState, k: nat)
    requires k + 2 <= |st.remaining| && st.remaining[k] == '造' && st.remaining[k + 1] == '造'
    requires k + 2 == |st.remaining| || st.remaining[k + 2] == ' '
    ensures Rest(st, k) ==
      Cons(Err(TextSection(Range(st.index + k, st.index + k + 2), Range(st.line, st.line), Range(st.column + k, st.column + k + 2))), Rest(st, k + 2))
  {
    InvalidPairNext(st, k);
    RestCons(st, k, 2, Err(TextSection(Range(st.index + k, st.index + k + 2), Range(st.line, st.line), Range(st.column + k, st.column + k + 2))));
  }

  lemma InvalidPairNext(st: LexState, k: nat)
    requires k + 2 <= |st.remaining| && st.remaining[k] == '造' && st.remaining[k + 1] == '造'
    requires k + 2 == |st.remaining| || st.remaining[k + 2] == ' '
    ensures NextItem(Advance(st, k)) ==
      (Some(Err(TextSection(Range(st.index + k, st.index + k + 2), Range(st.line, st.line), Range(st.column + k, st.column + k + 2)))), Advance(st, k + 2))
  {
    InvalidPairStep(Advance(st, k));
    AdvanceAdvance(st, k, 2);
  }

  /** An item `next` yields at `k`, ending at `k + n`, heads the folded items from `k`. */
  lemma RestCons(st: LexState, k: nat, n: nat, x: LexItem)
    requires k + n <= |st.remaining| && NextItem(Advance(st, k)) == (Some(x), Advance(st, k + n))
    ensures Rest(st, k) == Cons(x, Rest(st, k + n))
  {
    TokenizeUnfold(Advance(st, k));
    Unhide(st, k);
    Unhide(st, k + n);
    UnhideCons(x, Rest(st, k + n));
  }

  /** Nothing is left after the last character. */
  lemma EndStep(st: LexState)
    ensures Rest(st, |st.remaining|) == []
  {
    TokenizeUnfold(Advance(st, |st.remaining|));
    Unhide(st, |st.remaining|);
  }

  // What `Scan` finds at position `k` of a text `r`, from its characters.

  lemma IdentifierScan(r: string, k: nat, n: nat)
    requires 0 < n && k + n < |r|
    requires !IsDigit(r[k]) && r[k] !in "-+=>(){};" && (r[k] !in "flir" || (r[k] == 'i' && r[k + 1] == 'n'))
    requires (forall j :: k <= j < k + n ==> IsIdentChar(r[j])) && !IsIdentChar(r[k + n])
    ensures Scan(r[k..]) == Word(Identifier, n)
  {
    var s := r[k..];
    if s[0] in "flir" {
      NoKeywordIn(s);
    } else {
      NoKeywordAt(s);
    }
    ScanIdentifier(s, n);
  }

  lemma NumberScan(r: string, k: nat, n: nat)
    requires 0 < n && k + n <= |r|
    requires (forall j :: k <= j < k + n ==> IsDigit(r[j])) && (k + n == |r| || !IsDigit(r[k + n]))
    ensures Scan(r[k..]) == Word(Literal(Number), n)
  {
    ScanNumber(r[k..], n);
  }

  // The steps at position `k` of a line `w` that starts the remaining text;
  // each reads from `w` only the characters it needs.

  lemma LineSpace(st: LexState, w: string, k: nat)
    requires Starts(w, st.remaining) && k < |w| && w[k] == ' '
    ensures Rest(st, k) == Rest(st, k + 1)
  {
    StartsChar(w, st.remaining, k);
    SpaceStep(st, k);
  }

  lemma LineSpaces(st: LexState, w: string, k: nat)
    requires Starts(w, st.remaining) && k + 4 <= |w| && w[k] == ' ' && w[k + 1] == ' ' && w[k + 2] == ' ' && w[k + 3] == ' '
    ensures Rest(st, k) == Rest(st, k + 4)
  {
    LineSpace(st, w, k);
    LineSpace(st, w, k + 1);
    LineSpace(st, w, k + 2);
    LineSpace(st, w, k + 3);
  }

  lemma LineIdentifier(st: LexState, w: string, k: nat, n: nat)
    requires Starts(w, st.remaining) && 0 < n && k + n < |w|
    requires !IsDigit(w[k]) && w[k] !in "-+=>(){};" && (w[k] !in "flir" || (w[k] == 'i' && w[k + 1] == 'n'))
    requires (forall j :: k <= j < k + n ==> IsIdentChar(w[j])) && !IsIdentChar(w[k + n])
    ensures Rest(st, k) == Cons(Ok(Token(Range(st.index + k, st.index + k + n), Identifier)), Rest(st, k + n))
  {
    StartsChars(w, st.remaining, k, k + n + 1);
    IdentifierScan(st.remaining, k, n);
    WordStep(st, k, Identifier, n);
  }

  lemma LineNumber(st: LexState, w: string, k: nat, n: nat)
    requires Starts(w, st.remaining) && 0 < n && k + n <= |w|
    requires forall j :: k <= j < k + n ==> IsDigit(w[j])
    requires (k + n < |w| && !IsDigit(w[k + n])) || k + n == |w| == |st.remaining|
    ensures Rest(st, k) == Cons(Ok(Token(Range(st.index + k, st.index + k + n), Literal(Number))), Rest(st, k + n))
  {
    if k + n < |w| {
      StartsChars(w, st.remaining, k, k + n + 1);
    } else {
      StartsChars(w, st.remaining, k, k + n);
    }
    NumberScan(st.remaining, k, n);
    WordStep(st, k, Literal(Number), n);
  }

  lemma LineSymbol(st: LexState, w: string, k: nat, i: nat)
    requires Starts(w, st.remaining) && 2 <= i < |SymbolTable| && i != 3 && k < |w| && w[k] == SymbolTable[i].0[0]
    ensures Rest(st, k) == Cons(Ok(Token(Range(st.index + k, st.index + k + 1), Symbol(SymbolTable[i].1))), Rest(st, k + 1))
  {
    StartsChar(w, st.remaining, k);
    ScanOneCharSymbol(st.remaining[k..], i);
    WordStep(st, k, Symbol(SymbolTable[i].1), 1);
  }

  lemma LineArrow(st: LexState, w: string, k: nat)
    requires Starts(w, st.remaining) && k + 1 < |w| && w[k] == '-' && w[k + 1] == '>'
    ensures Rest(st, k) == Cons(Ok(Token(Range(st.index + k, st.index + k + 2), Symbol(ThinArrow))), Rest(st, k + 2))
  {
    StartsChars(w, st.remaining, k, k + 2);
    ScanArrow(st.remaining[k..]);
    WordStep(st, k, Symbol(ThinArrow), 2);
  }

  lemma LineAdd(st: LexState, w: string, k: nat)
    requires Starts(w, st.remaining) && k + 1 < |w| && w[k] == '+' && w[k + 1] != '='
    ensures Rest(st, k) == Cons(Ok(Token(Range(st.index + k, st.index + k + 1), Symbol(Add))), Rest(st, k + 1))
  {
    StartsChars(w, st.remaining, k, k + 2);
    ScanAdd(st.remaining[k..]);
    WordStep(st, k, Symbol(Add), 1);
  }

  lemma LineFn(st: LexState, w: string, k: nat)
    requires Starts(w, st.remaining) && k + 2 <= |w| && w[k] == 'f' && w[k + 1] == 'n'
    ensures Rest(st, k) == Cons(Ok(Token(Range(st.index + k, st.index + k + 2), Keyword(Function))), Rest(st, k + 2))
  {
    StartsChars(w, st.remaining, k, k + 2);
    assert KeywordTable[0].0 <= st.remaining[k..];
    ScanKeyword(st.remaining[k..], 0);
    WordStep(st, k, Keyword(Function), 2);
  }

  lemma LineLet(st: LexState, w: string, k: nat)
    requires Starts(w, st.remaining) && k + 3 <= |w| && w[k] == 'l' && w[k + 1] == 'e' && w[k + 2] == 't'
    ensures Rest(st, k) == Cons(Ok(Token(Range(st.index + k, st.index + k + 3), Keyword(Let))), Rest(st, k + 3))
  {
    StartsChars(w, st.remaining, k, k + 3);
    assert KeywordTable[1].0 <= st.remaining[k..];
    ScanKeyword(st.remaining[k..], 1);
    WordStep(st, k, Keyword(Let), 3);
  }

  lemma LineIf(st: LexState, w: string, k: nat)
    requires Starts(w, st.remaining) && k + 2 <= |w| && w[k] == 'i' && w[k + 1] == 'f'
    ensures Rest(st, k) == Cons(Ok(Token(Range(st.index + k, st.index + k + 2), Keyword(KeywordTy.If))), Rest(st, k + 2))
  {
    StartsChars(w, st.remaining, k, k + 2);
    assert KeywordTable[2].0 <= st.remaining[k..];
    ScanKeyword(st.remaining[k..], 2);
    WordStep(st, k, Keyword(KeywordTy.If), 2);
  }

  lemma LineInvalidPair(st: LexState, w: string, k: nat)
    requires Starts(w, st.remaining) && k + 2 <= |w| && w[k] == '造' && w[k + 1] == '造'
    requires (k + 2 < |w| && w[k + 2] == ' ') || k + 2 == |w| == |st.remaining|
    ensures Rest(st, k) ==
      Cons(Err(TextSection(Range(st.index + k, st.index + k + 2), Range(st.line, st.line), Range(st.column + k, st.column + k + 2))), Rest(st, k + 2))
  {
    if k + 2 < |w| {
      StartsChars(w, st.remaining, k, k + 3);
    } else {
      StartsChars(w, st.remaining, k, k + 2);
    }
    InvalidPairAt(st, k);
  }

  lemma Flat5(a: LexItem, b: LexItem, c: LexItem, d: LexItem, e: LexItem, t: seq<LexItem>)
    ensures Cons(a, Cons(b, Cons(c, Cons(d, Cons(e, t))))) == [a, b, c, d, e] + t
  {
    UnhideCons(e, t);
    UnhideCons(d, [e] + t);
    UnhideCons(c, [d] + ([e] + t));
    UnhideCons(b, [c] + ([d] + ([e] + t)));
    UnhideCons(a, [b] + ([c] + ([d] + ([e] + t))));
  }

  lemma {:induction false} StartsOf(w: string, r: string)
    requires |w| <= |r| && forall j :: 0 <= j < |w| ==> r[j] == w[j]
    ensures Starts(w, r)
    decreases |w|
  {
    if |w| > 0 {
      StartsOf(w[1..], r[1..]);
    }
    assert Agrees(w, r, 0);
  }

  /** `basic_invalid_1` from the characters of its one line alone. */
  lemma BasicInvalidLine(s: string, w: string)
    requires |w| == 12 && w[0] == '造' && w[1] == '造' && w[2] == ' ' && w[3] == '1' && w[4] == '2' && w[5] == ' '
    requires w[6] == '+' && w[7] == ' ' && w[8] == '2' && w[9] == ' ' && w[10] == '造' && w[11] == '造'
    requires Starts(w, s) && |s| == 12
    ensures Lex(s) == [
      Err(TextSection(Range(0, 2), Range(0, 0), Range(0, 2))),
      Ok(Token(Range(3, 5), Literal(Number))),
      Ok(Token(Range(6, 7), Symbol(Add))),
      Ok(Token(Range(8, 9), Literal(Number))),
      Err(TextSection(Range(10, 12), Range(0, 0), Range(10, 12)))]
  {
    var st := LexState(s, 0, 0, 0);
    LineInvalidPair(st, w, 0);
    LineSpace(st, w, 2);
    LineNumber(st, w, 3, 2);
    LineSpace(st, w, 5);
    LineAdd(st, w, 6);
    LineSpace(st, w, 7);
    LineNumber(st, w, 8, 1);
    LineSpace(st, w, 9);
    LineInvalidPair(st, w, 10);
    EndStep(st);
    UnhideStart(st);
    Flat5(Err(TextSection(Range(0, 2), Range(0, 0), Range(0, 2))), Ok(Token(Range(3, 5), Literal(Number))), Ok(Token(Range(6, 7), Symbol(Add))),
      Ok(Token(Range(8, 9), Literal(Number))), Err(TextSection(Range(10, 12), Range(0, 0), Range(10, 12))), []);
  }

  /**
   * tests/tokenizer.rs `basic_invalid_1`: in `造造 12 + 2 造造` each pair of
   * characters outside the language is one error section, and the tokens
   * between them are lexed as usual.
   */
  lemma BasicInvalid(s: string)
    requires |s| == 12 && s[0] == '造' && s[1] == '造' && s[2] == ' ' && s[3] == '1' && s[4] == '2' && s[5] == ' '
    requires s[6] == '+' && s[7] == ' ' && s[8] == '2' && s[9] == ' ' && s[10] == '造' && s[11] == '造'
    ensures Lex(s) == [
      Err(TextSection(Range(0, 2), Range(0, 0), Range(0, 2))),
      Ok(Token(Range(3, 5), Literal(Number))),
      Ok(Token(Range(6, 7), Symbol(Add))),
      Ok(Token(Range(8, 9), Literal(Number))),
      Err(TextSection(Range(10, 12), Range(0, 0), Range(10, 12)))]
  {
    StartsOf("造造 12 + 2 造造", s);
    BasicInvalidLine(s, "造造 12 + 2 造造");
  }

  /** `xs + t`, folded one item at a time. */
  function ConsAll(xs: seq<LexItem>, t: seq<LexItem>): seq<LexItem>
    decreases |xs|
  {
    if |xs| == 0 then t else Cons(xs[0], ConsAll(xs[1..], t))
  }

  lemma {:induction false} ConsAllIs(xs: seq<LexItem>, t: seq<LexItem>)
    ensures ConsAll(xs, t) == xs + t
    decreases |xs|
  {
    if |xs| > 0 {
      ConsAllIs(xs[1..], t);
      UnhideCons(xs[0], xs[1..] + t);
      assert xs == [xs[0]] + xs[1..];
    }
  }

  /** `abc + 2` from the characters of its one line alone. */
  lemma AbcPlusTwoLine(s: string, w: string)
    requires |w| == 7 && w[0] == 'a' && w[1] == 'b' && w[2] == 'c' && w[3] == ' ' && w[4] == '+' && w[5] == ' ' && w[6] == '2'
    requires Starts(w, s) && |s| == 7
    ensures Lex(s) == [Ok(Token(Range(0, 3), Identifier)), Ok(Token(Range(4, 5), Symbol(Add))), Ok(Token(Range(6, 7), Literal(Number)))]
  {
    var st := LexState(s, 0, 0, 0);
    LineIdentifier(st, w, 0, 3);
    LineSpace(st, w, 3);
    LineAdd(st, w, 4);
    LineSpace(st, w, 5);
    LineNumber(st, w, 6, 1);
    EndStep(st);
    UnhideStart(st);
    ConsAllIs([Ok(Token(Range(0, 3), Identifier)), Ok(Token(Range(4, 5), Symbol(Add))), Ok(Token(Range(6, 7), Literal(Number)))], []);
  }

  /**
   * tests/ast.rs `test_expression_2`: `abc + 2` is the identifier `abc`,
   * the symbol `+` and the number `2`.
   */
  lemma AbcPlusTwo(s: string)
    requires |s| == 7 && s[0] == 'a' && s[1] == 'b' && s[2] == 'c' && s[3] == ' ' && s[4] == '+' && s[5] == ' ' && s[6] == '2'
    ensures Lex(s) == [Ok(Token(Range(0, 3), Identifier)), Ok(Token(Range(4, 5), Symbol(Add))), Ok(Token(Range(6, 7), Literal(Number)))]
  {
    StartsOf("abc + 2", s);
    AbcPlusTwoLine(s, "abc + 2");
  }

  // `test_complex_1`, one line at a time.  The line starting at index `p`
  // on line `line` is lexed from `LexState(s[p..], line, 0, p)`, and ends
  // where the next line's items begin.

  lemma NewlineRest(st: LexState, k: nat)
    requires k < |st.remaining| && st.remaining[k] == '\n'
    ensures Rest(st, k) == Rest(LexState(st.remaining[k + 1..], st.line + 1, 0, st.index + k + 1), 0)
  {
    NewlineStep(st, k);
    UnhideStart(LexState(st.remaining[k + 1..], st.line + 1, 0, st.index + k + 1));
  }

  lemma DropDrop(s: string, p: nat, k: nat)
    requires p + k <= |s|
    ensures s[p..][k..] == s[p + k..]
  {
  }

  /** The items of each line of `test_complex_1`, at their places in its text. */
  function ComplexLine1Items(): seq<LexItem> {
    [ Ok(Token(Range(1, 3), Keyword(Function))), Ok(Token(Range(4, 16), Identifier)),
      Ok(Token(Range(16, 17), Symbol(OpParen))), Ok(Token(Range(17, 18), Symbol(ClParen))),
      Ok(Token(Range(19, 21), Symbol(ThinArrow))), Ok(Token(Range(22, 25), Identifier)),
      Ok(Token(Range(26, 27), Symbol(OpBrace))) ]
  }

  function ComplexLine2Items(): seq<LexItem> {
    [ Ok(Token(Range(32, 35), Keyword(Let))), Ok(Token(Range(36, 37), Identifier)), Ok(Token(Range(38, 39), Symbol(Assign))),
      Ok(Token(Range(40, 42), Literal(Number))), Ok(Token(Range(42, 43), Symbol(EndStmt))) ]
  }

  function ComplexLine3Items(): seq<LexItem> {
    [ Ok(Token(Range(48, 50), Keyword(KeywordTy.If))), Ok(Token(Range(51, 52), Identifier)),
      Ok(Token(Range(53, 54), Symbol(SymbolTy.Greater))), Ok(Token(Range(55, 56), Literal(Number))),
      Ok(Token(Range(57, 58), Symbol(OpBrace))) ]
  }

  function ComplexLine4Items(): seq<LexItem> {
    [ Ok(Token(Range(67, 68), Identifier)), Ok(Token(Range(69, 70), Symbol(Assign))),
      Ok(Token(Range(71, 72), Literal(Number))), Ok(Token(Range(72, 73), Symbol(EndStmt))) ]
  }

  function ComplexLine5Items(): seq<LexItem> {
    [Ok(Token(Range(78, 79), Symbol(ClBrace)))]
  }

  function ComplexLine6Items(): seq<LexItem> {
    [Ok(Token(Range(80, 81), Symbol(ClBrace)))]
  }

  /** A newline at `k` hands over to the line after it. */
  lemma LineEnd(s: string, p: nat, line: nat, w: string, k: nat)
    requires p <= |s| && Starts(w, s[p..]) && k < |w| && w[k] == '\n'
    ensures p + k + 1 <= |s|
    ensures Rest(LexState(s[p..], line, 0, p), k) == Rest(LexState(s[p + k + 1..], line + 1, 0, p + k + 1), 0)
  {
    StartsChar(w, s[p..], k);
    NewlineRest(LexState(s[p..], line, 0, p), k);
    DropDrop(s, p, k + 1);
  }

  // The lines of `test_complex_1` after its opening newline, character by character.

  predicate ComplexText1(w: string) {
    |w| == 27 && ComplexText1Name(w) && ComplexText1Signature(w)
  }

  predicate ComplexText1Name(w: string)
    requires |w| == 27
  {
    ComplexText1Keyword(w) && w[7] == 'F' && w[8] == 'u' && w[9] == 'n' && w[10] == 'c' && w[11] == 't' && w[12] == 'i' &&
    w[13] == 'o' && w[14] == 'n'
  }

  predicate ComplexText1Keyword(w: string)
    requires |w| == 27
  {
    w[0] == 'f' && w[1] == 'n' && w[2] == ' ' && w[3] == 'I' && w[4] == 'A' && w[5] == 'm' && w[6] == 'A'
  }

  predicate ComplexText1Signature(w: string)
    requires |w| == 27
  {
    w[15] == '(' && w[16] == ')' && w[17] == ' ' && w[18] == '-' && w[19] == '>' &&
    w[20] == ' ' && w[21] == 'i' && w[22] == 'n' && w[23] == 't' && w[24] == ' ' && w[25] == '{' && w[26] == '\n'
  }

  predicate ComplexText2(w: string) {
    |w| == 16 && w[0] == ' ' && w[1] == ' ' && w[2] == ' ' && w[3] == ' ' && w[4] == 'l' && w[5] == 'e' &&
    w[6] == 't' && w[7] == ' ' && w[8] == 'a' && w[9] == ' ' && w[10] == '=' && w[11] == ' ' && w[12] == '1' &&
    w[13] == '0' && w[14] == ';' && w[15] == '\n'
  }

  predicate ComplexText3(w: string) {
    |w| == 15 && w[0] == ' ' && w[1] == ' ' && w[2] == ' ' && w[3] == ' ' && w[4] == 'i' && w[5] == 'f' &&
    w[6] == ' ' && w[7] == 'a' && w[8] == ' ' && w[9] == '>' && w[10] == ' ' && w[11] == '5' && w[12] == ' ' &&
    w[13] == '{' && w[14] == '\n'
  }

  predicate ComplexText4(w: string) {
    |w| == 15 && w[0] == ' ' && w[1] == ' ' && w[2] == ' ' && w[3] == ' ' && w[4] == ' ' && w[5] == ' ' &&
    w[6] == ' ' && w[7] == ' ' && w[8] == 'b' && w[9] == ' ' && w[10] == '=' && w[11] == ' ' && w[12] == '5' &&
    w[13] == ';' && w[14] == '\n'
  }

  predicate ComplexText5(w: string) {
    |w| == 6 && w[0] == ' ' && w[1] == ' ' && w[2] == ' ' && w[3] == ' ' && w[4] == '}' && w[5] == '\n'
  }

  predicate ComplexText6(w: string) {
    |w| == 1 && w[0] == '}'
  }

  /** `fn IAmAFunction() -> int {`, with its newline. */
  lemma ComplexLine1(s: string, w: string)
    requires ComplexText1(w)
    requires 1 <= |s| && Starts(w, s[1..])
    ensures 28 <= |s|
    ensures Rest(LexState(s[1..], 1, 0, 1), 0) ==
      ComplexLine1Items() + Rest(LexState(s[28..], 2, 0, 28), 0)
  {
    var st := LexState(s[1..], 1, 0, 1);
    LineFn(st, w, 0);
    LineSpace(st, w, 2);
    LineIdentifier(st, w, 3, 12);
    LineSymbol(st, w, 15, 5);
    LineSymbol(st, w, 16, 6);
    LineSpace(st, w, 17);
    LineArrow(st, w, 18);
    LineSpace(st, w, 20);
    LineIdentifier(st, w, 21, 3);
    LineSpace(st, w, 24);
    LineSymbol(st, w, 25, 7);
    LineEnd(s, 1, 1, w, 26);
    ConsAllIs(ComplexLine1Items(), Rest(LexState(s[28..], 2, 0, 28), 0));
  }

  /** `    let a = 10;`, with its newline. */
  lemma ComplexLine2(s: string, w: string)
    requires ComplexText2(w)
    requires 28 <= |s| && Starts(w, s[28..])
    ensures 44 <= |s|
    ensures Rest(LexState(s[28..], 2, 0, 28), 0) ==
      ComplexLine2Items() + Rest(LexState(s[44..], 3, 0, 44), 0)
  {
    var st := LexState(s[28..], 2, 0, 28);
    LineSpaces(st, w, 0);
    LineLet(st, w, 4);
    LineSpace(st, w, 7);
    LineIdentifier(st, w, 8, 1);
    LineSpace(st, w, 9);
    LineSymbol(st, w, 10, 2);
    LineSpace(st, w, 11);
    LineNumber(st, w, 12, 2);
    LineSymbol(st, w, 14, 9);
    LineEnd(s, 28, 2, w, 15);
    ConsAllIs(ComplexLine2Items(), Rest(LexState(s[44..], 3, 0, 44), 0));
  }

  /** `    if a > 5 {`, with its newline. */
  lemma ComplexLine3(s: string, w: string)
    requires ComplexText3(w)
    requires 44 <= |s| && Starts(w, s[44..])
    ensures 59 <= |s|
    ensures Rest(LexState(s[44..], 3, 0, 44), 0) ==
      ComplexLine3Items() + Rest(LexState(s[59..], 4, 0, 59), 0)
  {
    var st := LexState(s[44..], 3, 0, 44);
    LineSpaces(st, w, 0);
    LineIf(st, w, 4);
    LineSpace(st, w, 6);
    LineIdentifier(st, w, 7, 1);
    LineSpace(st, w, 8);
    LineSymbol(st, w, 9, 4);
    LineSpace(st, w, 10);
    LineNumber(st, w, 11, 1);
    LineSpace(st, w, 12);
    LineSymbol(st, w, 13, 7);
    LineEnd(s, 44, 3, w, 14);
    ConsAllIs(ComplexLine3Items(), Rest(LexState(s[59..], 4, 0, 59), 0));
  }

  /** `        b = 5;`, with its newline. */
  lemma ComplexLine4(s: string, w: string)
    requires ComplexText4(w)
    requires 59 <= |s| && Starts(w, s[59..])
    ensures 74 <= |s|
    ensures Rest(LexState(s[59..], 4, 0, 59), 0) ==
      ComplexLine4Items() + Rest(LexState(s[74..], 5, 0, 74), 0)
  {
    var st := LexState(s[59..], 4, 0, 59);
    LineSpaces(st, w, 0);
    LineSpaces(st, w, 4);
    LineIdentifier(st, w, 8, 1);
    LineSpace(st, w, 9);
    LineSymbol(st, w, 10, 2);
    LineSpace(st, w, 11);
    LineNumber(st, w, 12, 1);
    LineSymbol(st, w, 13, 9);
    LineEnd(s, 59, 4, w, 14);
    ConsAllIs(ComplexLine4Items(), Rest(LexState(s[74..], 5, 0, 74), 0));
  }

  /** `    }`, with its newline. */
  lemma ComplexLine5(s: string, w: string)
    requires ComplexText5(w)
    requires 74 <= |s| && Starts(w, s[74..])
    ensures 80 <= |s|
    ensures Rest(LexState(s[74..], 5, 0, 74), 0) ==
      ComplexLine5Items() + Rest(LexState(s[80..], 6, 0, 80), 0)
  {
    var st := LexState(s[74..], 5, 0, 74);
    LineSpaces(st, w, 0);
    LineSymbol(st, w, 4, 8);
    LineEnd(s, 74, 5, w, 5);
    ConsAllIs(ComplexLine5Items(), Rest(LexState(s[80..], 6, 0, 80), 0));
  }

  /** The closing `}` that ends the text. */
  lemma ComplexLine6(s: string, w: string)
    requires ComplexText6(w)
    requires |s| == 81 && Starts(w, s[80..])
    ensures Rest(LexState(s[80..], 6, 0, 80), 0) == ComplexLine6Items() + []
  {
    var st := LexState(s[80..], 6, 0, 80);
    LineSymbol(st, w, 0, 8);
    EndStep(st);
    ConsAllIs(ComplexLine6Items(), []);
  }

  /** Six lines' items, joined. */
  lemma JoinSix(x: seq<LexItem>, a1: seq<LexItem>, a2: seq<LexItem>, a3: seq<LexItem>, a4: seq<LexItem>, a5: seq<LexItem>, a6: seq<LexItem>,
                r2: seq<LexItem>, r3: seq<LexItem>, r4: seq<LexItem>, r5: seq<LexItem>, r6: seq<LexItem>)
    requires x == a1 + r2 && r2 == a2 + r3 && r3 == a3 + r4 && r4 == a4 + r5 && r5 == a5 + r6 && r6 == a6 + []
    ensures x == a1 + a2 + a3 + a4 + a5 + a6
  {
    assert a6 + [] == a6;
    assert a1 + (a2 + (a3 + (a4 + (a5 + a6)))) == a1 + a2 + a3 + a4 + a5 + a6;
  }

  /** The text is its opening newline followed by the six lines. */
  lemma ComplexStarts(s: string, w1: string, w2: string, w3: string, w4: string, w5: string, w6: string)
    requires |w1| == 27 && |w2| == 16 && |w3| == 15 && |w4| == 15 && |w5| == 6 && |w6| == 1
    requires s == "\n" + (w1 + (w2 + (w3 + (w4 + (w5 + w6)))))
    ensures |s| == 81 && s[0] == '\n' && Starts(w1, s[1..]) && Starts(w2, s[28..]) && Starts(w3, s[44..])
    ensures Starts(w4, s[59..]) && Starts(w5, s[74..]) && Starts(w6, s[80..])
  {
    var r5 := w5 + w6;
    var r4 := w4 + r5;
    var r3 := w3 + r4;
    var r2 := w2 + r3;
    var r1 := w1 + r2;
    StartsAfter(s, 1, w1, r2);
    StartsAfter(s, 28, w2, r3);
    StartsAfter(s, 44, w3, r4);
    StartsAfter(s, 59, w4, r5);
    StartsAfter(s, 74, w5, w6);
    StartsAfter(s, 80, w6, []);
  }

  /** `w` starts the text at `p`, and `rest` follows it. */
  lemma StartsAfter(s: string, p: nat, w: string, rest: string)
    requires p <= |s| && s[p..] == w + rest
    ensures Starts(w, s[p..]) && p + |w| <= |s| && s[p + |w|..] == rest
  {
    StartsAppend(w, rest);
    DropDrop(s, p, |w|);
    assert (w + rest)[|w|..] == rest;
  }

  /** The lines chained: each hands over to the next, and the last ends the text. */
  lemma ComplexLexLines(s: string, w1: string, w2: string, w3: string, w4: string, w5: string, w6: string)
    requires ComplexText1(w1) && ComplexText2(w2) && ComplexText3(w3) && ComplexText4(w4) && ComplexText5(w5) && ComplexText6(w6)
    requires |s| == 81 && s[0] == '\n' && Starts(w1, s[1..]) && Starts(w2, s[28..]) && Starts(w3, s[44..])
    requires Starts(w4, s[59..]) && Starts(w5, s[74..]) && Starts(w6, s[80..])
    ensures Lex(s) == ComplexLine1Items() + ComplexLine2Items() + ComplexLine3Items() + ComplexLine4Items() + ComplexLine5Items() + ComplexLine6Items()
  {
    var st := LexState(s, 0, 0, 0);
    NewlineRest(st, 0);
    UnhideStart(st);
    ComplexLine1(s, w1);
    ComplexLine2(s, w2);
    ComplexLine3(s, w3);
    ComplexLine4(s, w4);
    ComplexLine5(s, w5);
    ComplexLine6(s, w6);
    JoinSix(Rest(LexState(s[1..], 1, 0, 1), 0),
      ComplexLine1Items(), ComplexLine2Items(), ComplexLine3Items(), ComplexLine4Items(), ComplexLine5Items(), ComplexLine6Items(),
      Rest(LexState(s[28..], 2, 0, 28), 0), Rest(LexState(s[44..], 3, 0, 44), 0),
      Rest(LexState(s[59..], 4, 0, 59), 0), Rest(LexState(s[74..], 5, 0, 74), 0), Rest(LexState(s[80..], 6, 0, 80), 0));
  }

  lemma ComplexLexOf(s: string, w1: string, w2: string, w3: string, w4: string, w5: string, w6: string)
    requires ComplexText1(w1) && ComplexText2(w2) && ComplexText3(w3) && ComplexText4(w4) && ComplexText5(w5) && ComplexText6(w6)
    requires s == "\n" + (w1 + (w2 + (w3 + (w4 + (w5 + w6)))))
    ensures Lex(s) == ComplexLine1Items() + ComplexLine2Items() + ComplexLine3Items() + ComplexLine4Items() + ComplexLine5Items() + ComplexLine6Items()
  {
    ComplexStarts(s, w1, w2, w3, w4, w5, w6);
    ComplexLexLines(s, w1, w2, w3, w4, w5, w6);
  }

  lemma ComplexText1Holds()
    ensures ComplexText1("fn IAmAFunction() -> int {\n")
  {
    ComplexText1NameHolds();
    ComplexText1SignatureHolds();
  }

  lemma ComplexText1NameHolds()
    ensures ComplexText1Name("fn IAmAFunction() -> int {\n")
  {
    ComplexText1KeywordHolds();
  }

  lemma ComplexText1KeywordHolds()
    ensures ComplexText1Keyword("fn IAmAFunction() -> int {\n")
  {
  }

  lemma ComplexText1SignatureHolds()
    ensures ComplexText1Signature("fn IAmAFunction() -> int {\n")
  {
  }

  lemma ComplexText2Holds()
    ensures ComplexText2("    let a = 10;\n")
  {
  }

  lemma ComplexText3Holds()
    ensures ComplexText3("    if a > 5 {\n")
  {
  }

  lemma ComplexText4Holds()
    ensures ComplexText4("        b = 5;\n")
  {
  }

  lemma ComplexText5Holds()
    ensures ComplexText5("    }\n")
  {
  }

  lemma ComplexText6Holds()
    ensures ComplexText6("}")
  {
  }

  /**
   * The text of tests/ast.rs `test_complex_1` lexes, line by line, into
   * the keyword `fn`, the name, the parentheses, the arrow, `int` and `{`;
   * then `let a = 10;`, `if a > 5 {`, `b = 5;` and the two closing braces,
   * each token over its own characters and no error section.
   */
  lemma ComplexLex(s: string)
    requires s == "\n" + ("fn IAmAFunction() -> int {\n" + ("    let a = 10;\n" + ("    if a > 5 {\n" + ("        b = 5;\n" + ("    }\n" + "}")))))
    ensures Lex(s) == ComplexLine1Items() + ComplexLine2Items() + ComplexLine3Items() + ComplexLine4Items() + ComplexLine5Items() + ComplexLine6Items()
  {
    ComplexText1Holds();
    ComplexText2Holds();
    ComplexText3Holds();
    ComplexText4Holds();
    ComplexText5Holds();
    ComplexText6Holds();
    ComplexLexOf(s, "fn IAmAFunction() -> int {\n", "    let a = 10;\n", "    if a > 5 {\n", "        b = 5;\n", "    }\n", "}");
  }
}
