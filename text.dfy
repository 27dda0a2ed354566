/**
 * Decimal text as the storefront's browser runtime produces and reads it:
 * `Number.prototype.toString` on integers, `parseInt(s)` with no radix
 * (base ten, or sixteen behind "0x") and `String.prototype.padStart`.
 */
module Text {
  import opened Wrappers

  predicate IsDigit(c: char) {
    '0' <= c <= '9'
  }

  predicate AllDigits(s: string) {
    forall i :: 0 <= i < |s| ==> IsDigit(s[i])
  }

  function DigitChar(d: nat): (c: char)
    requires d < 10
    ensures IsDigit(c) && c as int - '0' as int == d
  {
    ('0' as int + d) as char
  }

  function DigitValue(c: char): (d: nat)
    requires IsDigit(c)
    ensures d < 10 && DigitChar(d) == c
  {
    c as int - '0' as int
  }

  /** Decimal digits of `n`, most significant first, without leading zeros. */
  function NatToString(n: nat): (s: string)
    ensures |s| >= 1 && AllDigits(s)
    ensures s[0] == '0' ==> n == 0
    decreases n
  {
    if n < 10 then [DigitChar(n)] else NatToString(n / 10) + [DigitChar(n % 10)]
  }

  /** `n.toString()` for an integer number. */
  function IntToString(n: int): (s: string)
    ensures |s| >= 1
    ensures n >= 0 ==> s == NatToString(n)
    ensures n < 0 ==> s == "-" + NatToString(-n)
  {
    if n < 0 then "-" + NatToString(-n) else NatToString(n)
  }

  /** Value of a run of decimal digits, most significant first. */
  function DigitsValue(s: string): nat
    requires AllDigits(s)
    decreases |s|
  {
    if s == [] then 0 else DigitsValue(s[..|s| - 1]) * 10 + DigitValue(s[|s| - 1])
  }

  /** Length of the longest prefix of `s` made of decimal digits. */
  function DigitRun(s: string): (k: nat)
    ensures k <= |s|
    decreases |s|
  {
    if s == [] || !IsDigit(s[0]) then 0 else 1 + DigitRun(s[1..])
  }

  /** The run is made of digits and stops at the first character that is not one. */
  lemma {:induction false} DigitRunDigits(s: string)
    ensures AllDigits(s[..DigitRun(s)])
    ensures DigitRun(s) < |s| ==> !IsDigit(s[DigitRun(s)])
    decreases |s|
  {
    if s != [] && IsDigit(s[0]) {
      DigitRunDigits(s[1..]);
      assert s[..DigitRun(s)] == [s[0]] + s[1..][..DigitRun(s[1..])];
    }
  }

  /**
   * The white space `parseInt` skips: tab, vertical tab, form feed, space,
   * no-break space, the byte order mark, the other space separators
   * (U+1680, U+2000 to U+200A, U+202F, U+205F, U+3000) and the line
   * terminators (line feed, carriage return, U+2028, U+2029).
   */
  predicate IsSpace(c: char) {
    var n := c as int;
    n == 0x09 || n == 0x0B || n == 0x0C || n == 0x20 || n == 0xA0 || n == 0xFEFF ||
    n == 0x1680 || 0x2000 <= n <= 0x200A || n == 0x202F || n == 0x205F || n == 0x3000 ||
    n == 0x0A || n == 0x0D || n == 0x2028 || n == 0x2029
  }

  function SkipSpaces(s: string): (t: string)
    ensures t == [] || !IsSpace(t[0])
    decreases |s|
  {
    if s != [] && IsSpace(s[0]) then SkipSpaces(s[1..]) else s
  }

  /**
   * `parseInt(s)` with no radix: leading white space is skipped, one
   * optional sign is read, then a "0x" or "0X" prefix switches to base
   * sixteen; the longest run of digits of the base is read and anything
   * after it is ignored. None stands for NaN (no digit where one was
   * expected).
   */
  function ParseInt(s: string): Option<int> {
    ParseSigned(SkipSpaces(s))
  }

  /** `parseInt` after the white space: an optional sign, then the number. */
  function ParseSigned(t: string): Option<int> {
    if |t| > 0 && t[0] == '-' then Negated(ParseRadix(t[1..]))
    else if |t| > 0 && t[0] == '+' then ParseRadix(t[1..])
    else ParseRadix(t)
  }

  /** The text after the sign starts with "0x" or "0X". */
  predicate HexPrefixed(t: string) {
    |t| >= 2 && t[0] == '0' && (t[1] == 'x' || t[1] == 'X')
  }

  /** `parseInt` after the sign: base sixteen behind a "0x" prefix, base ten otherwise. */
  function ParseRadix(t: string): (r: Option<int>)
    ensures r.Some? ==> r.value >= 0
  {
    if HexPrefixed(t) then ParseHex(t[2..]) else ParseUnsigned(t)
  }

  predicate IsHexDigit(c: char) {
    IsDigit(c) || 'a' <= c <= 'f' || 'A' <= c <= 'F'
  }

  function HexDigitValue(c: char): (d: nat)
    requires IsHexDigit(c)
    ensures d < 16
  {
    if IsDigit(c) then DigitValue(c)
    else if 'a' <= c <= 'f' then c as int - 'a' as int + 10
    else c as int - 'A' as int + 10
  }

  /** The value of `acc` followed by the hexadecimal digit run at the start of `s`. */
  function HexRunValue(s: string, acc: nat): nat
    decreases |s|
  {
    if s == [] || !IsHexDigit(s[0]) then acc else HexRunValue(s[1..], acc * 16 + HexDigitValue(s[0]))
  }

  /** The value of the hexadecimal digit run at the start of `s`; None when there is none. */
  function ParseHex(s: string): (r: Option<int>)
    ensures r.Some? ==> r.value >= 0
    ensures r.None? <==> s == [] || !IsHexDigit(s[0])
  {
    if s == [] || !IsHexDigit(s[0]) then None else Some(HexRunValue(s, 0))
  }

  function Negated(r: Option<int>): Option<int> {
    match r
    case None => None
    case Some(v) => Some(-v)
  }

  /** The value of the digit run at the start of `s`; None when there is none. */
  function ParseUnsigned(s: string): (r: Option<int>)
    ensures r.Some? ==> r.value >= 0
  {
    var k := DigitRun(s);
    if k == 0 then None
    else
      DigitRunDigits(s);
      Some(DigitsValue(s[..k]))
  }

  /** A run of `n` characters '0'. */
  function Zeros(n: nat): (z: string)
    ensures |z| == n && AllDigits(z)
  {
    seq(n, _ => '0')
  }

  /** `s.padStart(width, '0')`. */
  function PadZeros(s: string, width: nat): (r: string)
    ensures |s| >= width ==> r == s
    ensures |s| < width ==> |r| == width
    ensures r[|r| - |s|..] == s
    ensures forall i :: 0 <= i < |r| - |s| ==> r[i] == '0'
  {
    if |s| >= width then s else Zeros(width - |s|) + s
  }

  lemma {:induction false} DigitsValueOfNatToString(n: nat)
    ensures DigitsValue(NatToString(n)) == n
    decreases n
  {
    var s := NatToString(n);
    if n >= 10 {
      DigitsValueOfNatToString(n / 10);
      assert s[..|s| - 1] == NatToString(n / 10);
    }
  }

  lemma {:induction false} LeadingZeroIgnored(s: string)
    requires AllDigits(s)
    ensures DigitsValue(['0'] + s) == DigitsValue(s)
    decreases |s|
  {
    if s != [] {
      var t := ['0'] + s;
      assert t[..|t| - 1] == ['0'] + s[..|s| - 1];
      LeadingZeroIgnored(s[..|s| - 1]);
    }
  }

  lemma {:induction false} LeadingZerosIgnored(n: nat, s: string)
    requires AllDigits(s)
    ensures DigitsValue(Zeros(n) + s) == DigitsValue(s)
    decreases n
  {
    if n > 0 {
      var rest := Zeros(n - 1) + s;
      assert Zeros(n) + s == ['0'] + rest;
      LeadingZeroIgnored(rest);
      LeadingZerosIgnored(n - 1, s);
    } else {
      assert Zeros(n) + s == s;
    }
  }

  lemma {:induction false} DigitRunOfDigits(s: string)
    requires AllDigits(s)
    ensures DigitRun(s) == |s|
    decreases |s|
  {
    if s != [] {
      DigitRunOfDigits(s[1..]);
    }
  }

  lemma ParseUnsignedOfDigits(s: string)
    requires |s| >= 1 && AllDigits(s)
    ensures ParseUnsigned(s) == Some(DigitsValue(s))
  {
    DigitRunOfDigits(s);
    assert s[..|s|] == s;
  }

  /** Decimal digits never start with the hexadecimal prefix. */
  lemma DigitsNotHexPrefixed(s: string)
    requires AllDigits(s)
    ensures !HexPrefixed(s)
  {
    if |s| >= 2 {
      assert IsDigit(s[1]);
    }
  }

  /** Text that starts with a decimal digit run, and not with "0x", is read by `parseInt` as that run. */
  lemma ParsePlain(r: string, v: int)
    requires ParseUnsigned(r) == Some(v) && !HexPrefixed(r)
    ensures ParseInt(r) == Some(v)
  {
    assert IsDigit(r[0]);
    assert !IsSpace(r[0]);
    assert SkipSpaces(r) == r;
  }

  /** A minus sign negates what the text after it reads as. */
  lemma ParseMinus(r: string, v: int)
    requires ParseUnsigned(r) == Some(v) && !HexPrefixed(r)
    ensures ParseInt("-" + r) == Some(-v)
  {
    var t := "-" + r;
    assert t[0] == '-' && t[1..] == r;
    assert !IsSpace(t[0]);
    assert SkipSpaces(t) == t;
  }

  /** The digit run of a non-negative integer's text is the whole text, worth the integer. */
  lemma ParseUnsignedOfNatToString(n: nat)
    ensures ParseUnsigned(NatToString(n)) == Some(n)
  {
    DigitsValueOfNatToString(n);
    ParseUnsignedOfDigits(NatToString(n));
  }

  /** `parseInt(String(n)) == n`: integer text round-trips. */
  lemma ParseIntOfIntToString(n: int)
    ensures ParseInt(IntToString(n)) == Some(n)
  {
    if n < 0 {
      ParseUnsignedOfNatToString(-n);
      DigitsNotHexPrefixed(NatToString(-n));
      ParseMinus(NatToString(-n), -n);
    } else {
      ParseUnsignedOfNatToString(n);
      DigitsNotHexPrefixed(NatToString(n));
      ParsePlain(NatToString(n), n);
    }
  }

  /** Distinct integers have distinct decimal text. */
  lemma IntToStringInjective(a: int, b: int)
    requires IntToString(a) == IntToString(b)
    ensures a == b
  {
    ParseIntOfIntToString(a);
    ParseIntOfIntToString(b);
  }

  lemma AllDigitsConcat(a: string, b: string)
    requires AllDigits(a) && AllDigits(b)
    ensures AllDigits(a + b)
  {
    forall i | 0 <= i < |a + b| ensures IsDigit((a + b)[i]) {
      if i >= |a| {
        assert (a + b)[i] == b[i - |a|];
      }
    }
  }

  /** `padStart` with zeros puts a run of zeros before the text. */
  lemma PadZerosIsZerosPlus(s: string, width: nat)
    ensures PadZeros(s, width) == Zeros(|PadZeros(s, width)| - |s|) + s
  {
    if |s| >= width {
      assert Zeros(0) + s == s;
    }
  }

  /** Zeros before a non-negative integer's text do not change the value of the digit run. */
  lemma ParseUnsignedOfZerosPlus(n: nat, z: nat)
    ensures ParseUnsigned(Zeros(z) + NatToString(n)) == Some(n)
  {
    var s := NatToString(n);
    AllDigitsConcat(Zeros(z), s);
    LeadingZerosIgnored(z, s);
    DigitsValueOfNatToString(n);
    ParseUnsignedOfDigits(Zeros(z) + s);
  }

  /** Zero-padding a non-negative integer's text does not change what `parseInt` reads. */
  lemma ParseIntOfPadded(n: nat, width: nat)
    ensures ParseInt(PadZeros(NatToString(n), width)) == Some(n)
  {
    var p := PadZeros(NatToString(n), width);
    PadZerosIsZerosPlus(NatToString(n), width);
    ParseUnsignedOfZerosPlus(n, |p| - |NatToString(n)|);
    AllDigitsConcat(Zeros(|p| - |NatToString(n)|), NatToString(n));
    DigitsNotHexPrefixed(p);
    ParsePlain(p, n);
  }

  /**
   * Without a radix, `parseInt` reads "0x" and "0X" as base sixteen, after
   * white space and a sign, and finds no number in "0x" alone.
   */
  lemma ParseHexExamples()
    ensures ParseInt("0x1A") == Some(26)
    ensures ParseInt(" -0Xff") == Some(-255)
    ensures ParseInt("0x2") == Some(2)
    ensures ParseInt("0x") == None
    ensures ParseInt("0xg") == None
  {
    assert SkipSpaces(" -0Xff") == "-0Xff";
    assert "-0Xff"[1..] == "0Xff" && "0Xff"[2..] == "ff";
    assert HexRunValue("ff", 0) == HexRunValue("f", 15) == 255;
    assert HexRunValue("1A", 0) == HexRunValue("A", 1) == 26;
    assert HexRunValue("2", 0) == 2;
  }

  /** A number below 10^k has at most k digits. */
  lemma {:induction false} NatToStringLength(n: nat, k: nat, bound: nat)
    requires k >= 1 && bound == Pow10(k) && n < bound
    ensures |NatToString(n)| <= k
    decreases k
  {
    if n >= 10 {
      assert k >= 2 by {
        assert Pow10(1) == 10 * Pow10(0);
      }
      assert n / 10 < Pow10(k - 1);
      NatToStringLength(n / 10, k - 1, Pow10(k - 1));
    }
  }

  function Pow10(k: nat): (p: nat)
    ensures p >= 1
  {
    if k == 0 then 1 else 10 * Pow10(k - 1)
  }
}
