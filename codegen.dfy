/**
 * The assembly buffer of src/codegen/mod.rs: a `Generator` collects lines of
 * AT&T-syntax assembly and renders them as one text, a newline after each.
 */
module Codegen {
  import Lexer

  /** Rust's `u32`, the type of an exit code. */
  newtype u32 = x: int | 0 <= x < 0x1_0000_0000

  function DigitChar(d: nat): (c: char)
    requires d < 10
    ensures Lexer.IsDigit(c) && c as int - '0' as int == d
  {
    (('0' as int) + d) as char
  }

  function DigitValue(c: char): nat
    requires Lexer.IsDigit(c)
  {
    c as int - '0' as int
  }

  /** The decimal spelling `format!("{}", n)` gives a number. */
  function Decimal(n: nat): (s: string)
    decreases n
    ensures |s| > 0 && forall i :: 0 <= i < |s| ==> Lexer.IsDigit(s[i])
  {
    if n < 10 then [DigitChar(n)] else Decimal(n / 10) + [DigitChar(n % 10)]
  }

  /** The value of a string of decimal digits. */
  function DecimalValue(s: string): nat
    requires forall i :: 0 <= i < |s| ==> Lexer.IsDigit(s[i])
  {
    if |s| == 0 then 0
    else DecimalValue(s[..|s| - 1]) * 10 + DigitValue(s[|s| - 1])
  }

  /**
   * `Decimal` spells `n` with digits only, without a leading zero, and its
   * value is `n`: reading a number back from the listing gives the number
   * written.
   */
  lemma {:induction false} DecimalRoundTrip(n: nat)
    decreases n
    ensures var s := Decimal(n);
      |s| > 0 && (forall i :: 0 <= i < |s| ==> Lexer.IsDigit(s[i])) &&
      (|s| > 1 ==> s[0] != '0') &&
      DecimalValue(s) == n
  {
    if n >= 10 {
      DecimalRoundTrip(n / 10);
      var s := Decimal(n);
      assert s[..|s| - 1] == Decimal(n / 10);
    }
  }

  /** `lines.join("\n")`. */
  function Join(lines: seq<string>): string {
    if |lines| == 0 then ""
    else if |lines| == 1 then lines[0]
    else lines[0] + "\n" + Join(lines[1..])
  }

  /** The text split at every newline (Rust's `split('\n')`). */
  function Split(s: string): (r: seq<string>)
    ensures |r| > 0
  {
    if |s| == 0 then [""]
    else if s[0] == '\n' then [""] + Split(s[1..])
    else
      var rest := Split(s[1..]);
      [[s[0]] + rest[0]] + rest[1..]
  }

  predicate NoNewline(line: string) {
    forall i :: 0 <= i < |line| ==> line[i] != '\n'
  }

  /** The text `full_raw` renders: the lines joined by newlines, then one more newline. */
  function Listing(asm: seq<string>): (s: string)
    ensures |s| > 0 && s[|s| - 1] == '\n'
    ensures |asm| == 0 ==> s == "\n"
  {
    Join(asm) + "\n"
  }

  lemma {:induction false} SplitAfterLine(line: string, rest: string)
    requires NoNewline(line)
    decreases |line|
    ensures Split(line + "\n" + rest) == [line] + Split(rest)
  {
    if |line| == 0 {
      assert line + "\n" + rest == "\n" + rest;
      assert ("\n" + rest)[1..] == rest;
    } else {
      SplitAfterLine(line[1..], rest);
      assert (line + "\n" + rest)[1..] == line[1..] + "\n" + rest;
      assert [line[0]] + line[1..] == line;
    }
  }

  /**
   * Splitting the rendered text at its newlines gives back the lines,
   * followed by the empty text after the final newline, provided no line
   * holds a newline of its own.
   */
  lemma {:induction false} ListingSplits(asm: seq<string>)
    ensures (forall i :: 0 <= i < |asm| ==> NoNewline(asm[i])) ==>
      Split(Listing(asm)) == (if |asm| == 0 then ["", ""] else asm + [""])
  {
    if !(forall i :: 0 <= i < |asm| ==> NoNewline(asm[i])) {
    } else if |asm| == 0 {
      assert Listing(asm) == "\n";
    } else if |asm| == 1 {
      SplitAfterLine(asm[0], "");
      assert Listing(asm) == asm[0] + "\n" + "";
    } else {
      ListingSplits(asm[1..]);
      SplitAfterLine(asm[0], Listing(asm[1..]));
      assert Listing(asm) == asm[0] + "\n" + Listing(asm[1..]);
      assert [asm[0]] + (asm[1..] + [""]) == asm + [""];
    }
  }

  class Generator {
    var asm: seq<string>

    /** `Generator::new`: no lines yet. */
    constructor ()
      ensures asm == []
    {
      asm := [];
    }

    /** Append one line. */
    method Raw(line: string)
      modifies this
      ensures asm == old(asm) + [line]
    {
      asm := asm + [line];
    }

    /** Append the line `name:`. */
    method Label(name: string)
      modifies this
      ensures asm == old(asm) + [name + ":"]
    {
      Raw(name + ":");
    }

    /** Append the line `name: value`. */
    method LabelWithValue(name: string, value: string)
      modifies this
      ensures asm == old(asm) + [name + ": " + value]
    {
      Raw(name + ": " + value);
    }

    /** Append the two lines that load the exit code into `%rdi` and call `exit`. */
    method Exit(code: u32)
      modifies this
      ensures asm == old(asm) + ["mov $" + Decimal(code as nat) + ", %rdi", "call exit"]
    {
      Raw("mov $" + Decimal(code as nat) + ", %rdi");
      Raw("call exit");
    }

    /**
     * The whole listing.  It ends with a newline, and when no line holds a
     * newline of its own it splits back into the lines, one per newline.
     */
    method FullRaw() returns (s: string)
      ensures s == Listing(asm)
      ensures |s| > 0 && s[|s| - 1] == '\n'
      ensures (forall i :: 0 <= i < |asm| ==> NoNewline(asm[i])) ==>
        Split(s) == (if |asm| == 0 then ["", ""] else asm + [""])
    {
      s := Join(asm);
      s := s + "\n";
      ListingSplits(asm);
    }
  }
}
