/**
 Python's base-10 conversions between integers and text: `int(s)`, used on every
 page number the user writes, and `str(n)`, used for the page markers.
 */
module PyInt {
  import opened Wrappers
  import opened PyText

  function DigitValue(c: char): (d: nat)
    requires IsAsciiDigit(c)
    ensures d < 10
  {
    c as int - '0' as int
  }

  function DigitChar(d: nat): (c: char)
    requires d < 10
    ensures IsAsciiDigit(c) && DigitValue(c) == d
  {
    (d + '0' as int) as char
  }

  /** The value of a run of decimal digits; leading zeros are allowed. */
  function DigitsValue(s: string): nat
    requires AllDigits(s)
    decreases |s|
  {
    if |s| == 0 then 0 else 10 * DigitsValue(s[..|s| - 1]) + DigitValue(s[|s| - 1])
  }

  /**
   CPython's default `sys.int_info.default_max_str_digits`: since Python 3.11
   (and 3.7.14, 3.8.14, 3.9.14, 3.10.7) `int()` raises `ValueError` on a decimal numeral of more digits than this,
   leading zeros included (the sign and surrounding whitespace do not count).
   */
  const MaxStrDigits: int := 4300

  /** `str(n)` has at most `MaxStrDigits` digits, so `int` can read it back. */
  predicate WithinDigitLimit(n: int) {
    |NatStr(if n < 0 then -n else n)| <= MaxStrDigits
  }

  /**
   `int(s)`: surrounding whitespace (the narrower class `IsIntSpace`) is
   ignored, then an optional sign, then one to `MaxStrDigits` decimal digits;
   anything else is the `ValueError` case, `None`. A negative result needs a minus sign
   in the text.
   */
  function ParseInt(s: string): (r: Option<int>)
    ensures r.Some? && r.value < 0 ==> '-' in s
  {
    ParseSigned(StripBlank(s, IsIntSpace))
  }

  /** The sign-and-digits grammar `int` applies once whitespace is stripped. */
  function ParseSigned(t: string): Option<int>
  {
    if |t| > 0 && (t[0] == '+' || t[0] == '-') then
      var digits := t[1..];
      if IsDigitString(digits) && |digits| <= MaxStrDigits then
        var v: int := DigitsValue(digits);
        Some(if t[0] == '-' then -v else v)
      else None
    else if IsDigitString(t) && |t| <= MaxStrDigits then Some(DigitsValue(t))
    else None
  }

  /** `str(n)` for `n >= 0`: the shortest decimal spelling. */
  function NatStr(n: nat): (r: string)
    ensures IsDigitString(r)
    ensures DigitsValue(r) == n
    ensures n > 0 ==> r[0] != '0'
    decreases n
  {
    if n < 10 then [DigitChar(n)]
    else
      var prefix := NatStr(n / 10);
      var r := prefix + [DigitChar(n % 10)];
      assert r[..|r| - 1] == prefix;
      r
  }

  /** `str(n)` */
  function Str(n: int): (r: string)
    ensures |r| > 0 && Unpadded(r, IsSpace) && Unpadded(r, IsIntSpace)
    ensures ',' !in r
    ensures n >= 0 ==> '-' !in r
  {
    if n < 0 then "-" + NatStr(-n) else NatStr(n)
  }

  /** A natural number's decimal spelling is never longer than the number plus one. */
  lemma {:induction false} NatStrLength(n: nat)
    ensures |NatStr(n)| <= n + 1
    decreases n
  {
    if n >= 10 {
      NatStrLength(n / 10);
    }
  }

  /** Every number of smaller magnitude than the digit limit is within it. */
  lemma SmallWithinLimit(n: int)
    requires -MaxStrDigits < n < MaxStrDigits
    ensures WithinDigitLimit(n)
  {
    NatStrLength(if n < 0 then -n else n);
  }

  /** `int(str(n)) == n` for every integer within the digit limit. */
  lemma ParseIntStr(n: int)
    requires WithinDigitLimit(n)
    ensures ParseInt(Str(n)) == Some(n)
  {
    StripUnpadded(Str(n), IsIntSpace);
    if n < 0 {
      assert Str(n)[1..] == NatStr(-n);
    }
  }

  /** `int` ignores whitespace of its own class after the number. */
  lemma ParseIntTrailing(n: int, after: string)
    requires WithinDigitLimit(n) && AllBlank(after, IsIntSpace)
    ensures ParseInt(Str(n) + after) == Some(n)
  {
    var x := Str(n);
    assert (x + after)[0] == x[0];
    assert TrimStart(x + after, IsIntSpace) == x + after;
    TrimEndBlanks(x, after, IsIntSpace);
    ParseIntStr(n);
    StripUnpadded(x, IsIntSpace);
  }

  /** `int` ignores whitespace of its own class before the number. */
  lemma ParseIntLeading(before: string, n: int)
    requires WithinDigitLimit(n) && AllBlank(before, IsIntSpace)
    ensures ParseInt(before + Str(n)) == Some(n)
  {
    var x := Str(n);
    TrimStartBlanks(before, x, IsIntSpace);
    assert TrimEnd(x, IsIntSpace) == x;
    ParseIntStr(n);
    StripUnpadded(x, IsIntSpace);
  }

  /** `int` ignores whitespace of its own class around the number. */
  lemma ParseIntPadded(before: string, n: int, after: string)
    requires WithinDigitLimit(n)
    requires AllBlank(before, IsIntSpace) && AllBlank(after, IsIntSpace)
    ensures ParseInt(before + Str(n) + after) == Some(n)
  {
    StripPadded(before, Str(n), after, IsIntSpace);
    ParseIntStr(n);
    StripUnpadded(Str(n), IsIntSpace);
  }

  function Zeros(k: nat): (r: string)
    ensures |r| == k && AllDigits(r)
  {
    seq(k, _ => '0')
  }

  /** A leading zero does not change the value of a digit run. */
  lemma {:induction false} LeadingZero(s: string)
    requires AllDigits(s)
    ensures DigitsValue("0" + s) == DigitsValue(s)
    decreases |s|
  {
    if |s| > 0 {
      var z := "0" + s;
      assert z[..|z| - 1] == "0" + s[..|s| - 1];
      LeadingZero(s[..|s| - 1]);
    }
  }

  /** Any number of leading zeros leaves the value unchanged. */
  lemma {:induction false} LeadingZeros(k: nat, s: string)
    requires AllDigits(s)
    ensures DigitsValue(Zeros(k) + s) == DigitsValue(s)
    decreases k
  {
    if k > 0 {
      var rest := Zeros(k - 1) + s;
      assert Zeros(k) + s == "0" + rest;
      LeadingZero(rest);
      LeadingZeros(k - 1, s);
      assert DigitsValue("0" + rest) == DigitsValue(s);
    } else {
      assert Zeros(k) + s == s;
    }
  }

  /**
   Unpadded text with a non-digit anywhere is not an integer, unless that
   character is a leading sign.
   */
  lemma ParseIntRejects(s: string, k: nat)
    requires Unpadded(s, IsIntSpace) && k < |s| && !IsAsciiDigit(s[k])
    requires k == 0 ==> s[0] != '+' && s[0] != '-'
    ensures ParseInt(s) == None
  {
    StripUnpadded(s, IsIntSpace);
    if k > 0 {
      assert s[1..][k - 1] == s[k];
    }
  }

  /** The empty text, or whitespace alone, is not an integer. */
  lemma ParseIntBlank(s: string)
    requires AllBlank(s, IsIntSpace)
    ensures ParseInt(s) == None
  {
    StripAllBlank(s, IsIntSpace);
  }

  /**
   `int(s)` on a bare run of digits is its digit value, unless the run is
   longer than the digit limit, when `int` raises.
   */
  lemma ParseIntDigits(s: string)
    requires IsDigitString(s)
    ensures ParseInt(s) == if |s| <= MaxStrDigits then Some(DigitsValue(s)) else None
  {
    assert IsAsciiDigit(s[0]) && IsAsciiDigit(s[|s| - 1]);
    StripUnpadded(s, IsIntSpace);
    assert ParseInt(s) == ParseSigned(s);
  }
}
