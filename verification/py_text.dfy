/**
 The string operations of Python's `str` that the page-selection parser relies
 on: `isspace`, `isdigit`, `lower`, `strip`, `split` and `join`. Strings are
 `seq<char>`; character classes are the ASCII part of Python's Unicode classes.
 */
module PyText {

  /** `c.isspace()` for an ASCII character: space, the controls \t \n \v \f \r,
      and the four information separators U+001C..U+001F. */
  predicate IsSpace(c: char) {
    c == ' ' || 9 <= c as int <= 13 || 28 <= c as int <= 31
  }

  /** The whitespace `int()` skips around a number: space and \t \n \v \f \r,
      but not the information separators that `isspace` also accepts. */
  predicate IsIntSpace(c: char) {
    c == ' ' || 9 <= c as int <= 13
  }

  predicate IsAsciiDigit(c: char) {
    '0' <= c <= '9'
  }

  predicate AllDigits(s: string) {
    forall i :: 0 <= i < |s| ==> IsAsciiDigit(s[i])
  }

  /**
   `s.isdigit()`: at least one character, and every character a digit. Such a
   text holds neither a dash, a comma nor surrounding whitespace, so it can
   match no other page syntax.
   */
  predicate IsDigitString(s: string)
    ensures IsDigitString(s) ==> '-' !in s && ',' !in s && Unpadded(s, IsSpace)
  {
    |s| > 0 && AllDigits(s)
  }

  /** Every character of `s` is in the whitespace class `isBlank`. */
  predicate AllBlank(s: string, isBlank: char -> bool) {
    forall i :: 0 <= i < |s| ==> isBlank(s[i])
  }

  /** True when `s` neither starts nor ends with a character of the class `isBlank`. */
  predicate Unpadded(s: string, isBlank: char -> bool) {
    |s| == 0 || (!isBlank(s[0]) && !isBlank(s[|s| - 1]))
  }

  function LowerChar(c: char): char {
    if 'A' <= c <= 'Z' then (c as int + 32) as char else c
  }

  /** `s.lower()` */
  function Lower(s: string): (r: string)
    ensures |r| == |s|
    ensures forall i :: 0 <= i < |s| ==> r[i] == LowerChar(s[i])
  {
    seq(|s|, i requires 0 <= i < |s| => LowerChar(s[i]))
  }

  /**
   `s.lower() == "all"`: the token "all" in every mix of upper and lower
   case, and nothing else.
   */
  predicate IsAllToken(s: string)
    ensures IsAllToken(s) <==>
      && |s| == 3
      && (s[0] == 'a' || s[0] == 'A')
      && (s[1] == 'l' || s[1] == 'L')
      && (s[2] == 'l' || s[2] == 'L')
  {
    LowerOfThree(s);
    Lower(s) == "all"
  }

  /** A three-character text lowers character by character. */
  lemma LowerOfThree(s: string)
    ensures |s| == 3 ==> Lower(s) == [LowerChar(s[0]), LowerChar(s[1]), LowerChar(s[2])]
  {
  }

  /** The length of the longest prefix of `s` made of characters of the class `isBlank`. */
  function LeadingBlanks(s: string, isBlank: char -> bool): (n: nat)
    ensures n <= |s|
    ensures forall k :: 0 <= k < n ==> isBlank(s[k])
    ensures n == |s| || !isBlank(s[n])
    decreases |s|
  {
    if |s| > 0 && isBlank(s[0]) then
      var m := LeadingBlanks(s[1..], isBlank);
      assert forall k :: 1 <= k < m + 1 ==> s[k] == s[1..][k - 1];
      m + 1
    else 0
  }

  /** `s.lstrip()` over the whitespace class `isBlank`: drops the longest all-blank prefix. */
  function TrimStart(s: string, isBlank: char -> bool): (r: string)
    ensures |r| <= |s| && r == s[|s| - |r|..]
    ensures forall k :: 0 <= k < |s| - |r| ==> isBlank(s[k])
    ensures |r| == 0 || !isBlank(r[0])
  {
    s[LeadingBlanks(s, isBlank)..]
  }

  /** `s.rstrip()` over the whitespace class `isBlank`: drops the longest all-blank suffix. */
  function TrimEnd(s: string, isBlank: char -> bool): (r: string)
    ensures |r| <= |s| && r == s[..|r|]
    ensures forall k :: |r| <= k < |s| ==> isBlank(s[k])
    ensures |r| == 0 || !isBlank(r[|r| - 1])
    decreases |s|
  {
    if |s| > 0 && isBlank(s[|s| - 1]) then TrimEnd(s[..|s| - 1], isBlank) else s
  }

  /** The text between the leading and the trailing run of the whitespace class `isBlank`. */
  function StripBlank(s: string, isBlank: char -> bool): (r: string)
    ensures Unpadded(r, isBlank)
    ensures |r| <= |s|
    ensures |r| > 0 ==> r[0] in s
  {
    var t := TrimStart(s, isBlank);
    var r := TrimEnd(t, isBlank);
    assert |r| > 0 ==> r[0] == t[0] == s[|s| - |t|];
    r
  }

  /** `s.strip()`: the text between the leading and the trailing whitespace. */
  function Strip(s: string): (r: string)
    ensures Unpadded(r, IsSpace)
    ensures |r| <= |s|
  {
    StripBlank(s, IsSpace)
  }

  /** Blanks around an unpadded text are exactly what stripping removes. */
  lemma StripPadded(before: string, x: string, after: string, isBlank: char -> bool)
    requires AllBlank(before, isBlank) && AllBlank(after, isBlank)
    requires |x| > 0 && Unpadded(x, isBlank)
    ensures StripBlank(before + x + after, isBlank) == x
  {
    assert before + x + after == before + (x + after);
    TrimStartBlanks(before, x + after, isBlank);
    TrimEndBlanks(x, after, isBlank);
  }

  /** Left stripping removes exactly a blank prefix that ends before a non-blank. */
  lemma TrimStartBlanks(before: string, y: string, isBlank: char -> bool)
    requires AllBlank(before, isBlank) && |y| > 0 && !isBlank(y[0])
    ensures TrimStart(before + y, isBlank) == y
  {
    var s := before + y;
    var r := TrimStart(s, isBlank);
    assert s[|before|] == y[0];
    assert |s| - |r| == |before|;
  }

  /** Right stripping removes exactly a blank suffix that follows a non-blank. */
  lemma TrimEndBlanks(x: string, after: string, isBlank: char -> bool)
    requires AllBlank(after, isBlank) && |x| > 0 && !isBlank(x[|x| - 1])
    ensures TrimEnd(x + after, isBlank) == x
  {
    var s := x + after;
    var r := TrimEnd(s, isBlank);
    assert s[|x| - 1] == x[|x| - 1];
    assert |r| == |x|;
  }

  /** An unpadded text is left alone by stripping. */
  lemma StripUnpadded(x: string, isBlank: char -> bool)
    requires Unpadded(x, isBlank)
    ensures StripBlank(x, isBlank) == x
  {
    if |x| > 0 {
      StripPadded("", x, "", isBlank);
      assert "" + x + "" == x;
    }
  }

  /** Stripping text made only of blanks leaves nothing. */
  lemma StripAllBlank(s: string, isBlank: char -> bool)
    requires AllBlank(s, isBlank)
    ensures StripBlank(s, isBlank) == ""
  {
  }

  /** `s.index(c)`: the position of the first occurrence of `c`. */
  function IndexOf(s: string, c: char): (i: nat)
    requires c in s
    ensures i < |s| && s[i] == c && c !in s[..i]
  {
    if s[0] == c then 0
    else
      var j := IndexOf(s[1..], c);
      assert s[..j + 1] == [s[0]] + s[1..][..j];
      1 + j
  }

  /** `s.split(c, 1)` when `c` occurs in `s`: the text before the first `c` and the text after it. */
  function SplitOnce(s: string, c: char): (r: (string, string))
    requires c in s
    ensures s == r.0 + [c] + r.1
    ensures c !in r.0
  {
    var i := IndexOf(s, c);
    assert s == s[..i] + [c] + s[i + 1..];
    (s[..i], s[i + 1..])
  }

  /** `SplitOnce` cuts at the first separator: any other cut has the separator before it. */
  lemma SplitOnceUnique(a: string, c: char, b: string)
    requires c !in a
    ensures SplitOnce(a + [c] + b, c) == (a, b)
  {
    var s := a + [c] + b;
    var i := IndexOf(s, c);
    assert s[|a|] == c;
    assert s[..i] == a;
    assert s[i + 1..] == b;
  }

  /** `sep.join(parts)`: opens with the first piece, followed by the separator when more pieces come. */
  function Join(sep: string, parts: seq<string>): (r: string)
    ensures |parts| == 0 ==> r == ""
    ensures |parts| > 0 ==> parts[0] <= r
    ensures |parts| > 1 ==> parts[0] + sep <= r
    decreases |parts|
  {
    if |parts| == 0 then ""
    else if |parts| == 1 then parts[0]
    else parts[0] + sep + Join(sep, parts[1..])
  }

  /** `s.split(c)`: the maximal pieces between occurrences of `c`, which `Join` glues back. */
  function Split(s: string, c: char): (r: seq<string>)
    ensures |r| >= 1
    ensures forall k :: 0 <= k < |r| ==> c !in r[k]
    ensures Join([c], r) == s
    decreases |s|
  {
    if c !in s then [s]
    else
      var (head, tail) := SplitOnce(s, c);
      var rest := Split(tail, c);
      assert ([head] + rest)[1..] == rest;
      [head] + rest
  }

  /** Splitting a joined list gives the list back when no piece holds the separator. */
  lemma {:induction false} SplitJoin(parts: seq<string>, c: char)
    requires |parts| >= 1
    requires forall k :: 0 <= k < |parts| ==> c !in parts[k]
    ensures Split(Join([c], parts), c) == parts
    decreases |parts|
  {
    if |parts| == 1 {
    } else {
      var s := Join([c], parts);
      var tail := Join([c], parts[1..]);
      assert s == parts[0] + [c] + tail;
      assert s[|parts[0]|] == c;
      SplitOnceUnique(parts[0], c, tail);
      SplitJoin(parts[1..], c);
      assert Split(s, c) == [parts[0]] + Split(tail, c);
      assert parts == [parts[0]] + parts[1..];
    }
  }

  /** A list of two or more pieces joined on `c` contains `c`. */
  lemma JoinedHasSeparator(parts: seq<string>, c: char)
    requires |parts| >= 2
    ensures c in Join([c], parts)
  {
    var s := Join([c], parts);
    assert s == parts[0] + [c] + Join([c], parts[1..]);
    assert s[|parts[0]|] == c;
  }

  function TotalLength(parts: seq<string>): nat
    decreases |parts|
  {
    if |parts| == 0 then 0 else |parts[0]| + TotalLength(parts[1..])
  }

  /** A join is as long as its pieces plus one separator between each neighbouring pair. */
  lemma {:induction false} JoinLength(sep: string, parts: seq<string>)
    requires |parts| >= 1
    ensures |Join(sep, parts)| == TotalLength(parts) + |sep| * (|parts| - 1)
    decreases |parts|
  {
    if |parts| > 1 {
      JoinLength(sep, parts[1..]);
    }
  }
}
