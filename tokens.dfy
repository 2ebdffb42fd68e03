/**
 * The vocabulary shared by the lexer and the parser: primitive types, ranges,
 * token kinds and the two spelling tables.
 */
module Tokens {
  import opened Results

  /** The three primitive types of the language. */
  datatype PrimitiveTy = Number | Boolean | Void

  /** A half-open range `start..end`. */
  datatype Range = Range(start: nat, end: nat)

  /** A run of invalid input: its character-index, line and column ranges. */
  datatype TextSection = TextSection(index: Range, line: Range, column: Range)

  datatype SymbolTy =
    | Assign | Add | AddAssign | Greater | OpParen | ClParen | OpBrace | ClBrace | EndStmt | ThinArrow

  datatype KeywordTy = Function | Let | If | Return

  datatype TokenTy =
    | Literal(lit: PrimitiveTy)
    | Symbol(sym: SymbolTy)
    | Keyword(kw: KeywordTy)
    | Identifier

  /** A token refers to the source text through its range only. */
  datatype Token = Token(range: Range, ty: TokenTy)

  /**
   * The symbol spellings, searched front to back.  The two-character
   * spellings come before the one-character spellings they start with, so
   * `+=` is found before `+`.
   */
  const SymbolTable: seq<(string, SymbolTy)> := [
    ("->", ThinArrow), ("+=", AddAssign), ("=", Assign), ("+", Add), (">", Greater),
    ("(", OpParen), (")", ClParen), ("{", OpBrace), ("}", ClBrace), (";", EndStmt)
  ]

  /** The keyword spellings, searched front to back. */
  const KeywordTable: seq<(string, KeywordTy)> := [
    ("fn", Function), ("let", Let), ("if", If), ("return", Return)
  ]

  /**
   * The position of the first entry of `table` whose spelling starts `s`,
   * or `|table|` when there is none.
   */
  function FirstPrefix<T>(table: seq<(string, T)>, s: string): (i: nat)
    ensures i <= |table|
    ensures i < |table| ==> table[i].0 <= s
  {
    if |table| == 0 then 0
    else if table[0].0 <= s then 0
    else 1 + FirstPrefix(table[1..], s)
  }

  /** No entry before the one `FirstPrefix` selects starts `s`. */
  lemma {:induction false} FirstPrefixIsFirst<T>(table: seq<(string, T)>, s: string)
    ensures forall j :: 0 <= j < FirstPrefix(table, s) ==> !(table[j].0 <= s)
  {
    if |table| > 0 && !(table[0].0 <= s) {
      FirstPrefixIsFirst(table[1..], s);
      assert forall j :: 1 <= j < |table| ==> table[j] == table[1..][j - 1];
    }
  }

  /** The entry `iter().find(|e| s.starts_with(e.0))` returns. */
  function Find<T>(table: seq<(string, T)>, s: string): (r: Option<(string, T)>)
    ensures r.Some? ==> r.value in table && r.value.0 <= s
  {
    var i := FirstPrefix(table, s);
    if i < |table| then Some(table[i]) else None
  }

  function FindSymbol(s: string): Option<(string, SymbolTy)> {
    Find(SymbolTable, s)
  }

  function FindKeyword(s: string): Option<(string, KeywordTy)> {
    Find(KeywordTable, s)
  }

  /** No spelling is a proper prefix of a spelling listed after it. */
  ghost predicate PrefixOrdered<T>(table: seq<(string, T)>) {
    forall i, j :: 0 <= i < j < |table| ==> !(table[i].0 < table[j].0)
  }

  lemma SymbolTableOrdered()
    ensures PrefixOrdered(SymbolTable)
  {
  }

  lemma KeywordTableOrdered()
    ensures PrefixOrdered(KeywordTable)
  {
    forall i, j | 0 <= i < j < |KeywordTable|
      ensures !(KeywordTable[i].0 < KeywordTable[j].0)
    {
      assert KeywordTable[i].0[0] != KeywordTable[j].0[0] || KeywordTable[i].0[1] != KeywordTable[j].0[1];
    }
  }

  /**
   * In a prefix-ordered table the first spelling that starts `s` is the
   * longest spelling that starts `s`, and `Find` fails only when no
   * spelling starts `s`.
   */
  lemma {:induction false} FindIsLongestMatch<T>(table: seq<(string, T)>, s: string)
    requires PrefixOrdered(table)
    ensures Find(table, s).None? <==> forall j :: 0 <= j < |table| ==> !(table[j].0 <= s)
    ensures Find(table, s).Some? ==>
      var found := Find(table, s).value;
      found in table && found.0 <= s &&
      forall j :: 0 <= j < |table| && table[j].0 <= s ==> |table[j].0| <= |found.0|
  {
    var i := FirstPrefix(table, s);
    FirstPrefixIsFirst(table, s);
    if i < |table| {
      forall j | 0 <= j < |table| && table[j].0 <= s
        ensures |table[j].0| <= |table[i].0|
      {
      }
    }
  }

  /** `+=` is one AddAssign symbol, never `+` followed by `=`. */
  lemma AddAssignBeforeAdd(rest: string)
    ensures FindSymbol("+=" + rest) == Some(("+=", AddAssign))
    ensures FindSymbol("+" + rest) == (if "=" <= rest then Some(("+=", AddAssign)) else Some(("+", Add)))
  {
    assert ("+=" + rest)[0] == '+' && ("+" + rest)[0] == '+';
    assert !("->" <= "+=" + rest);
    assert "+=" <= "+=" + rest;
    assert !("->" <= "+" + rest);
    if "=" <= rest {
      assert "+=" <= "+" + rest;
      assert FirstPrefix(SymbolTable[1..], "+" + rest) == 0;
    } else {
      assert ("=" <= rest) == (|rest| > 0 && rest[0] == '=');
      assert |rest| > 0 ==> ("+" + rest)[1] == rest[0];
      assert ("+=" <= "+" + rest) == (|rest| > 0 && rest[0] == '=');
      assert !("=" <= "+" + rest);
      assert "+" <= "+" + rest;
      assert FirstPrefix(SymbolTable[3..], "+" + rest) == 0;
      assert FirstPrefix(SymbolTable[2..], "+" + rest) == 1;
      assert FirstPrefix(SymbolTable[1..], "+" + rest) == 2;
    }
    assert FirstPrefix(SymbolTable[1..], "+=" + rest) == 0;
  }
}
