/** String helpers standing in for the parts of Go's `fmt`, `strings` and Python's `str` that the core uses. */
module Text {

  predicate IsAsciiLower(ch: char) { 'a' <= ch <= 'z' }

  predicate IsAsciiUpper(ch: char) { 'A' <= ch <= 'Z' }

  predicate IsAsciiDigit(ch: char) { '0' <= ch <= '9' }

  predicate IsAscii(ch: char) { ch as int < 0x80 }

  /** Number of bytes a code point takes in UTF-8: what Go's `len` counts for each character of a string. */
  function Utf8Width(ch: char): (n: nat)
    ensures 1 <= n <= 4
    ensures n == 1 <==> IsAscii(ch)
  {
    if ch as int < 0x80 then 1
    else if ch as int < 0x800 then 2
    else if ch as int < 0x1_0000 then 3
    else 4
  }

  /** Go's `len(s)` for a string: its length in UTF-8 bytes. */
  function Utf8Length(s: string): (n: nat)
    ensures n >= |s|
    ensures n == 0 <==> s == []
  {
    if s == [] then 0 else Utf8Width(s[0]) + Utf8Length(s[1..])
  }

  lemma {:induction false} AsciiUtf8Length(s: string)
    requires forall i :: 0 <= i < |s| ==> IsAscii(s[i])
    ensures Utf8Length(s) == |s|
  {
    if s != [] {
      assert IsAscii(s[0]);
      AsciiUtf8Length(s[1..]);
    }
  }

  /** ASCII-only lower-casing of one character. */
  function LowerChar(ch: char): (r: char)
    ensures !IsAsciiUpper(r)
    ensures IsAsciiUpper(ch) ==> IsAsciiLower(r) && r as int == ch as int + 32
    ensures !IsAsciiUpper(ch) ==> r == ch
  {
    if IsAsciiUpper(ch) then (ch as int + 32) as char else ch
  }

  /** `strings.ToLower` restricted to ASCII letters. */
  function AsciiLower(s: string): (r: string)
    ensures |r| == |s|
    ensures forall i :: 0 <= i < |s| ==> r[i] == LowerChar(s[i])
  {
    seq(|s|, i requires 0 <= i < |s| => LowerChar(s[i]))
  }

  /** `strings.ReplaceAll(s, old, new)` for one-character `old` and `new`. */
  function ReplaceChar(s: string, from: char, to: char): (r: string)
    ensures |r| == |s|
    ensures forall i :: 0 <= i < |s| ==> r[i] == if s[i] == from then to else s[i]
  {
    seq(|s|, i requires 0 <= i < |s| => if s[i] == from then to else s[i])
  }

  function DigitChar(d: nat): (ch: char)
    requires d < 10
    ensures IsAsciiDigit(ch) && DigitValue(ch) == d
  {
    "0123456789"[d]
  }

  /** The value of one decimal digit (0 for any other character). */
  function DigitValue(ch: char): nat
  {
    if IsAsciiDigit(ch) then ch as int - '0' as int else 0
  }

  /** The number a string of decimal digits denotes, read most significant digit first. */
  function DecimalValue(s: string): nat
  {
    if s == [] then 0 else 10 * DecimalValue(s[..|s| - 1]) + DigitValue(s[|s| - 1])
  }

  /** The number a decimal text with an optional leading '-' denotes. */
  function SignedDecimalValue(s: string): int
  {
    if s != [] && s[0] == '-' then -(DecimalValue(s[1..]) as int) else DecimalValue(s)
  }

  /** Decimal rendering of a natural number, as `%d` prints it. */
  function NatToString(n: nat): (s: string)
    ensures |s| >= 1
    ensures forall i :: 0 <= i < |s| ==> IsAsciiDigit(s[i])
    ensures s[0] == '0' <==> n == 0
    ensures |s| == 1 || s[0] != '0'
    decreases n
  {
    if n < 10 then [DigitChar(n)] else NatToString(n / 10) + [DigitChar(n % 10)]
  }

  /** Decimal rendering of an integer, as Go's `%d` or `strconv.Itoa` prints it. */
  function IntToString(n: int): (s: string)
    ensures |s| >= 1
    ensures n < 0 <==> s[0] == '-'
    ensures n < 0 ==> |s| >= 2 && s[1] != '0'
    ensures 0 <= n ==> (|s| == 1 || s[0] != '0')
    ensures forall i :: (if n < 0 then 1 else 0) <= i < |s| ==> IsAsciiDigit(s[i])
  {
    if n < 0 then "-" + NatToString(-n) else NatToString(n)
  }

  /** Reading back the decimal text of a natural number gives the number. */
  lemma {:induction false} NatToStringRoundTrip(n: nat)
    ensures DecimalValue(NatToString(n)) == n
    decreases n
  {
    var s := NatToString(n);
    if n < 10 {
      assert s[..|s| - 1] == [];
    } else {
      assert s[..|s| - 1] == NatToString(n / 10);
      NatToStringRoundTrip(n / 10);
    }
  }

  /** Reading back the decimal text of an integer gives the integer. */
  lemma IntToStringRoundTrip(n: int)
    ensures SignedDecimalValue(IntToString(n)) == n
  {
    var t := IntToString(n);
    if n < 0 {
      var digits := NatToString(-n);
      assert t == "-" + digits;
      assert t[1..] == digits;
      NatToStringRoundTrip(-n);
    } else {
      assert IsAsciiDigit(t[0]);
      NatToStringRoundTrip(n);
    }
  }

  /** Different integers have different decimal texts. */
  lemma IntToStringInjective(a: int, b: int)
    requires IntToString(a) == IntToString(b)
    ensures a == b
  {
    IntToStringRoundTrip(a);
    IntToStringRoundTrip(b);
  }

  /** Python's `sub in text` for strings, and Go's `strings.Contains`; the empty string occurs in every text. */
  predicate Contains(text: string, sub: string)
    ensures Contains(text, sub) ==> |sub| <= |text|
    ensures sub == [] ==> Contains(text, sub)
    ensures Contains(text, sub) && |sub| == |text| ==> sub == text
  {
    assert sub == [] ==> OccursAt(text, sub, 0);
    exists i | 0 <= i <= |text| - |sub| :: OccursAt(text, sub, i)
  }

  /** `sub` appears in `text` starting at index `i`. */
  predicate OccursAt(text: string, sub: string, i: int)
  {
    0 <= i <= |text| - |sub| && text[i..i + |sub|] == sub
  }
}
