/**
 * C integers as the synchroniser uses them: the 64-bit `long int` that holds
 * every frequency, the 32-bit `int` bandwidth, their decimal rendering by
 * `sprintf("%ld")` / `"%d"`, and their parsing by `strtol(s, &end, 10)`.
 */
module CInt {

  const LONG_MIN: int := -0x8000_0000_0000_0000
  const LONG_MAX: int := 0x7FFF_FFFF_FFFF_FFFF
  const INT_MIN: int := -0x8000_0000
  const INT_MAX: int := 0x7FFF_FFFF

  /** A C `long int` (LP64). */
  type Long = x: int | LONG_MIN <= x <= LONG_MAX

  /** A C `int`. */
  type Int = x: int | INT_MIN <= x <= INT_MAX

  predicate IsDigit(c: char) { '0' <= c <= '9' }

  predicate AllDigits(s: string) { forall i :: 0 <= i < |s| ==> IsDigit(s[i]) }

  function DigitValue(c: char): (d: nat)
    requires IsDigit(c)
    ensures d < 10
  {
    (c as int) - ('0' as int)
  }

  function DigitChar(d: nat): (c: char)
    requires d < 10
    ensures IsDigit(c) && DigitValue(c) == d
  {
    (('0' as int) + d) as char
  }

  function Pow10(k: nat): (p: nat)
    ensures p >= 1
  {
    if k == 0 then 1 else 10 * Pow10(k - 1)
  }

  /** The digits of `n`, most significant first, with no leading zero. */
  function Digits(n: nat): (s: string)
    ensures |s| >= 1 && AllDigits(s)
    ensures s[0] == '0' <==> n == 0
    ensures n == 0 ==> s == "0"
    decreases n
  {
    if n < 10 then [DigitChar(n)] else Digits(n / 10) + [DigitChar(n % 10)]
  }

  /** What `sprintf("%ld")` and `sprintf("%d")` produce for `x`. */
  function Decimal(x: int): (s: string)
    ensures |s| >= 1
    ensures IsDigit(s[0]) || s[0] == '-'
    ensures x < 0 <==> s[0] == '-'
    ensures AllDigits(s[1..])
    ensures '\n' !in s && '\0' !in s
    ensures x < 0 ==> |s| >= 2 && s[1] != '0'
    ensures x >= 0 ==> (s[0] == '0' <==> x == 0) && (x == 0 ==> s == "0")
  {
    if x < 0 then "-" + Digits(-x) else Digits(x)
  }

  /** The value of a digit string read most significant digit first, as strtol accumulates it. */
  function DigitsValue(s: string): nat
    requires AllDigits(s)
  {
    if s == [] then 0 else DigitsValue(s[..|s| - 1]) * 10 + DigitValue(s[|s| - 1])
  }

  /** `isspace` in the C locale. */
  predicate IsSpace(c: char) {
    c == ' ' || c == '\t' || c == '\n' || c == '\U{000B}' || c == '\U{000C}' || c == '\r'
  }

  /** The input after the white space strtol skips. */
  function SkipSpace(s: string): (t: string)
    ensures |t| <= |s| && t == s[|s| - |t|..]
    ensures t == [] || !IsSpace(t[0])
  {
    if s != [] && IsSpace(s[0]) then SkipSpace(s[1..]) else s
  }

  /** The longest prefix of `s` made of digits: the part strtol converts. */
  function LeadingDigits(s: string): (d: string)
    ensures d <= s && AllDigits(d)
    ensures |d| == |s| || !IsDigit(s[|d|])
  {
    if s != [] && IsDigit(s[0]) then [s[0]] + LeadingDigits(s[1..]) else []
  }

  /** The magnitude clamped into the range of `long`: strtol's ERANGE result. */
  function Clamp(negative: bool, v: nat): (r: Long)
    ensures negative ==> r <= 0
    ensures !negative ==> r >= 0
  {
    if negative then (if v > -LONG_MIN then LONG_MIN else 0 - v)
    else (if v > LONG_MAX then LONG_MAX else v)
  }

  /**
   * `strtol(s, &end, 10)`: skip white space, take an optional sign, convert the
   * longest run of digits (none gives 0), saturate at LONG_MIN / LONG_MAX.
   */
  function Strtol(s: string): (r: Long)
    ensures r < 0 ==> SkipSpace(s) != [] && SkipSpace(s)[0] == '-'
    ensures SkipSpace(s) != [] && SkipSpace(s)[0] == '-' ==> r <= 0
  {
    var t := SkipSpace(s);
    var negative := t != [] && t[0] == '-';
    var u := if t != [] && (t[0] == '-' || t[0] == '+') then t[1..] else t;
    Clamp(negative, DigitsValue(LeadingDigits(u)))
  }

  lemma {:induction false} DigitsValueOfDigits(n: nat)
    ensures DigitsValue(Digits(n)) == n
    decreases n
  {
    if n >= 10 {
      var s := Digits(n);
      assert s[..|s| - 1] == Digits(n / 10);
      DigitsValueOfDigits(n / 10);
    }
  }

  lemma {:induction false} LeadingDigitsOfDigitRun(d: string, rest: string)
    requires AllDigits(d)
    requires rest == [] || !IsDigit(rest[0])
    ensures LeadingDigits(d + rest) == d
    decreases |d|
  {
    if d == [] {
      assert d + rest == rest;
    } else {
      assert (d + rest)[1..] == d[1..] + rest;
      LeadingDigitsOfDigitRun(d[1..], rest);
    }
  }

  /** Digits(n) has at most k digits when n < 10^k. */
  lemma {:induction false} DigitsLength(n: nat, k: nat)
    requires k >= 1 && n < Pow10(k)
    ensures |Digits(n)| <= k
    decreases n
  {
    if n >= 10 {
      assert Pow10(1) == 10;
      assert n / 10 < Pow10(k - 1);
      DigitsLength(n / 10, k - 1);
    }
  }

  lemma {:induction false} Pow10Add(a: nat, b: nat)
    ensures Pow10(a + b) == Pow10(a) * Pow10(b)
    decreases a
  {
    if a > 0 {
      Pow10Add(a - 1, b);
    }
  }

  /** A `long` prints in at most 20 characters (19 digits and a sign). */
  lemma DecimalLongLength(x: Long)
    ensures |Decimal(x)| <= 20
  {
    assert Pow10(2) == 100;
    Pow10Add(2, 2);
    Pow10Add(4, 4);
    Pow10Add(8, 8);
    Pow10Add(16, 2);
    Pow10Add(18, 1);
    assert Pow10(19) == 10_000_000_000_000_000_000;
    var m: nat := if x < 0 then 0 - x else x;
    DigitsLength(m, 19);
  }

  /** strtol's view of a string that starts with neither white space nor a sign. */
  lemma StrtolUnsigned(s: string)
    requires s != [] && IsDigit(s[0])
    ensures Strtol(s) == Clamp(false, DigitsValue(LeadingDigits(s)))
  {
    assert !IsSpace(s[0]);
    assert SkipSpace(s) == s;
    assert s[0] != '-' && s[0] != '+';
  }

  /** strtol's view of a string that starts with a minus sign. */
  lemma StrtolNegative(s: string)
    requires s != [] && s[0] == '-'
    ensures Strtol(s) == Clamp(true, DigitsValue(LeadingDigits(s[1..])))
  {
    assert !IsSpace(s[0]);
    assert SkipSpace(s) == s;
  }

  /** The digits of m followed by a non-digit convert to m. */
  lemma DigitRunValue(m: nat, rest: string)
    requires rest == [] || !IsDigit(rest[0])
    ensures DigitsValue(LeadingDigits(Digits(m) + rest)) == m
  {
    LeadingDigitsOfDigitRun(Digits(m), rest);
    DigitsValueOfDigits(m);
  }

  /** Round trip: strtol reads back what `%ld` printed, whatever non-digit follows it. */
  lemma StrtolOfDecimal(x: Long, rest: string)
    requires rest == [] || !IsDigit(rest[0])
    ensures Strtol(Decimal(x) + rest) == x
  {
    if x < 0 {
      var m: nat := 0 - x;
      var s := "-" + (Digits(m) + rest);
      assert Decimal(x) + rest == s;
      assert s[1..] == Digits(m) + rest;
      DigitRunValue(m, rest);
      StrtolNegative(s);
    } else {
      var s := Digits(x) + rest;
      assert Decimal(x) + rest == s;
      DigitRunValue(x, rest);
      StrtolUnsigned(s);
    }
  }

  /** strtol returns 0 when no digit follows the white space and the optional sign. */
  lemma StrtolWithoutDigits(s: string)
    requires var t := SkipSpace(s);
             t == [] || (!IsDigit(t[0]) && ((t[0] != '-' && t[0] != '+') || |t| == 1 || !IsDigit(t[1])))
    ensures Strtol(s) == 0
  {
  }
}
