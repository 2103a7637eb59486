/**
 Worked inputs for the page-selection parser, each derived from the general
 lemmas about its syntax.
 */
module PageRangeExamples {
  import opened Wrappers
  import opened PyText
  import opened PyInt
  import opened PageRange
  import opened PageRangeProperties

  /** `WrittenDashRange` for a range text given literally. */
  lemma DashAt(s: string, start: nat, end: int, totalPages: int, maxPages: int)
    requires s == NatStr(start) + "-" + Str(end)
    requires start < MaxStrDigits && -MaxStrDigits < end < MaxStrDigits
    ensures ParsePageRange(Some(s), totalPages, maxPages)
      == if start > end then Err(InvalidRange(s))
         else if start < 1 then Err(StartBelowOne(start))
         else if end > totalPages then Err(PageOutOfRange(end, totalPages))
         else Ok(seq(Max(0, Min(end - start + 1, maxPages)), i => start - 1 + i))
  {
    SmallWithinLimit(start);
    SmallWithinLimit(end);
    WrittenDashRange(start, end, totalPages, maxPages);
  }

  /** `WrittenListUncapped` for a comma list given literally. */
  lemma CommaAt(s: string, ns: seq<int>, totalPages: int, maxPages: int)
    requires s == Commas(ns) && 2 <= |ns| <= maxPages
    requires forall i :: 0 <= i < |ns| ==> 1 <= ns[i] <= totalPages
    requires totalPages < MaxStrDigits
    ensures ParsePageRange(Some(s), totalPages, maxPages) == Ok(ToIndices(ns))
  {
    forall i | 0 <= i < |ns|
      ensures WithinDigitLimit(ns[i])
    {
      SmallWithinLimit(ns[i]);
    }
    WrittenListUncapped(ns, totalPages, maxPages);
  }

  /** `SinglePage` for a page number given literally. */
  lemma SingleAt(s: string, zeros: nat, n: nat, totalPages: int, maxPages: int)
    requires s == Zeros(zeros) + NatStr(n) && zeros + n < MaxStrDigits
    ensures ParsePageRange(Some(s), totalPages, maxPages)
         == if 1 <= n <= totalPages then Ok([n - 1]) else Err(PageOutOfRange(n, totalPages))
  {
    NatStrLength(n);
    SinglePage(zeros, n, totalPages, maxPages);
  }

  lemma RangeSpellings()
    ensures NatStr(3) + "-" + Str(7) == "3-7"
    ensures NatStr(5) + "-" + Str(2) == "5-2"
    ensures NatStr(0) + "-" + Str(2) == "0-2"
    ensures NatStr(3) + "-" + Str(-5) == "3--5"
  {
  }

  lemma RangeContents()
    ensures seq(Max(0, Min(7 - 3 + 1, 5)), i => 3 - 1 + i) == [2, 3, 4, 5, 6]
    ensures seq(Max(0, Min(7 - 3 + 1, 3)), i => 3 - 1 + i) == [2, 3, 4]
  {
  }

  /** "3-7" selects pages 3 to 7. */
  lemma RangeThreeToSeven()
    ensures ParsePageRange(Some("3-7"), 10, 5) == Ok([2, 3, 4, 5, 6])
  {
    RangeSpellings();
    RangeContents();
    DashAt("3-7", 3, 7, 10, 5);
  }

  /** Under a cap of 3, "3-7" is cut to its first three pages without any error. */
  lemma RangeThreeToSevenCapped()
    ensures ParsePageRange(Some("3-7"), 10, 3) == Ok([2, 3, 4])
  {
    RangeSpellings();
    RangeContents();
    DashAt("3-7", 3, 7, 10, 3);
  }

  /** A reversed range is refused. */
  lemma RangeReversed()
    ensures ParsePageRange(Some("5-2"), 10, 100) == Err(InvalidRange("5-2"))
  {
    RangeSpellings();
    DashAt("5-2", 5, 2, 10, 100);
  }

  /** A range from page 0 is refused with the "pages start at 1" error. */
  lemma RangeFromZero()
    ensures ParsePageRange(Some("0-2"), 10, 100) == Err(StartBelowOne(0))
  {
    RangeSpellings();
    DashAt("0-2", 0, 2, 10, 100);
  }

  /** "3--5" splits as 3 and -5, so it is a reversed range, not a format error. */
  lemma RangeNegativeEnd()
    ensures ParsePageRange(Some("3--5"), 10, 100) == Err(InvalidRange("3--5"))
  {
    RangeSpellings();
    DashAt("3--5", 3, -5, 10, 100);
  }

  lemma ListSpellings()
    ensures Commas([2, 5, 1]) == "2,5,1"
    ensures Commas([3, 3]) == "3,3"
  {
    assert Strs([2, 5, 1]) == ["2", "5", "1"];
    assert Strs([3, 3]) == ["3", "3"];
    assert Join(",", ["2", "5", "1"]) == "2" + "," + Join(",", ["5", "1"]);
    assert Join(",", ["5", "1"]) == "5" + "," + "1";
    assert Join(",", ["3", "3"]) == "3" + "," + "3";
  }

  lemma ListContents()
    ensures ToIndices([2, 5, 1]) == [1, 4, 0]
    ensures ToIndices([3, 3]) == [2, 2]
  {
  }

  /** "2,5,1" keeps the order written. */
  lemma ListOrderKept()
    ensures ParsePageRange(Some("2,5,1"), 5, 100) == Ok([1, 4, 0])
  {
    ListSpellings();
    ListContents();
    CommaAt("2,5,1", [2, 5, 1], 5, 100);
  }

  /** "3,3" keeps the repeat. */
  lemma ListRepeatKept()
    ensures ParsePageRange(Some("3,3"), 5, 100) == Ok([2, 2])
  {
    ListSpellings();
    ListContents();
    CommaAt("3,3", [3, 3], 5, 100);
  }

  lemma SingleSpellings()
    ensures Zeros(0) + NatStr(5) == "5"
    ensures Zeros(2) + NatStr(7) == "007"
    ensures Zeros(0) + NatStr(0) == "0"
  {
  }

  /** "5" is page 5. */
  lemma SingleFive()
    ensures ParsePageRange(Some("5"), 10, 1) == Ok([4])
  {
    SingleSpellings();
    SingleAt("5", 0, 5, 10, 1);
  }

  /** "007" is page 7. */
  lemma SingleLeadingZeros()
    ensures ParsePageRange(Some("007"), 10, 1) == Ok([6])
  {
    SingleSpellings();
    SingleAt("007", 2, 7, 10, 1);
  }

  /** "0" is out of range. */
  lemma SingleZero()
    ensures ParsePageRange(Some("0"), 10, 1) == Err(PageOutOfRange(0, 10))
  {
    SingleSpellings();
    SingleAt("0", 0, 0, 10, 1);
  }

  /**
   Page 5 written with 4300 leading zeros: 4301 digit characters are past
   `int`'s limit, so the text is a format error although its value is small.
   */
  lemma SingleTooLong()
    ensures var s := Zeros(4300) + "5";
      ParsePageRange(Some(s), 10, 100) == Err(InvalidFormat(s))
  {
    assert NatStr(5) == "5";
    SinglePage(4300, 5, 10, 100);
  }

  /** A range whose end has 4301 digit characters is a format error too: `int` refuses that side. */
  lemma RangeEndTooLong()
    ensures var s := "1" + "-" + (Zeros(4300) + "5");
      ParsePageRange(Some(s), 10, 100) == Err(InvalidFormat(s))
  {
    var b := Zeros(4300) + "5";
    assert IsDigitString(b);
    ParseIntDigits(b);
    RangeSideNotNumber("1", b, 10, 100);
  }

  /** The empty string matches no syntax. */
  lemma EmptyText()
    ensures ParsePageRange(Some(""), 10, 100) == Err(InvalidFormat(""))
  {
    NoSyntaxMatches("", 10, 100);
  }

  /** A page number with a leading space is not all digits, and has no dash or comma. */
  lemma PaddedNumber()
    ensures ParsePageRange(Some(" 5"), 10, 100) == Err(InvalidFormat(" 5"))
  {
    assert !IsAsciiDigit(" 5"[0]);
    NoSyntaxMatches(" 5", 10, 100);
  }

  /**
   `RangeSideNotNumber` for a range text given literally, whose start is empty
   or has a character at position `j` that `int` cannot read.
   */
  lemma BadStartAt(s: string, a: string, b: string, j: nat, totalPages: int, maxPages: int)
    requires s == a + "-" + b
    requires '-' !in a && ',' !in a && ',' !in b
    requires || a == ""
             || (&& Unpadded(a, IsIntSpace) && j < |a| && !IsAsciiDigit(a[j])
                 && (j == 0 ==> a[0] != '+'))
    ensures ParsePageRange(Some(s), totalPages, maxPages) == Err(InvalidFormat(s))
  {
    if a == "" {
      ParseIntBlank(a);
    } else {
      ParseIntRejects(a, j);
    }
    RangeSideNotNumber(a, b, totalPages, maxPages);
  }

  /** `RangeSideNotNumber` for a range text given literally, whose end has a character at position `j` that `int` cannot read. */
  lemma BadEndAt(s: string, a: string, b: string, j: nat, totalPages: int, maxPages: int)
    requires s == a + "-" + b
    requires '-' !in a && ',' !in a && ',' !in b
    requires Unpadded(b, IsIntSpace) && j < |b| && !IsAsciiDigit(b[j])
    requires j == 0 ==> b[0] != '+' && b[0] != '-'
    ensures ParsePageRange(Some(s), totalPages, maxPages) == Err(InvalidFormat(s))
  {
    ParseIntRejects(b, j);
    RangeSideNotNumber(a, b, totalPages, maxPages);
  }

  /**
   `CommaItemNotNumber` for a comma list given literally, whose item `k` is
   empty or has a non-digit at position `j` past its first character.
   */
  lemma BadListAt(s: string, parts: seq<string>, k: nat, j: nat, totalPages: int, maxPages: int)
    requires s == Join(",", parts)
    requires |parts| >= 2 && k < |parts|
    requires forall i :: 0 <= i < |parts| ==> ',' !in parts[i]
    requires || parts[k] == ""
             || (&& Unpadded(parts[k], IsSpace) && Unpadded(parts[k], IsIntSpace)
                 && 1 <= j < |parts[k]| && !IsAsciiDigit(parts[k][j]))
    ensures ParsePageRange(Some(s), totalPages, maxPages) == Err(InvalidFormat(s))
  {
    if parts[k] != "" {
      ParseIntRejects(parts[k], j);
    }
    CommaItemNotNumber(parts, k, totalPages, maxPages);
  }

  /** "-5" splits as an empty start and 5, and the empty start does not parse. */
  lemma LeadingDash()
    ensures ParsePageRange(Some("-5"), 10, 100) == Err(InvalidFormat("-5"))
  {
    assert "" + "-" + "5" == "-5";
    BadStartAt("-5", "", "5", 0, 10, 100);
  }

  /** "1-2-3" splits as 1 and "2-3", and the second does not parse. */
  lemma DoubleRange()
    ensures ParsePageRange(Some("1-2-3"), 10, 100) == Err(InvalidFormat("1-2-3"))
  {
    assert "1" + "-" + "2-3" == "1-2-3";
    BadEndAt("1-2-3", "1", "2-3", 1, 10, 100);
  }

  /** A nested range inside a comma list is a format error. */
  lemma NestedRangeInList()
    ensures ParsePageRange(Some("1,1-3"), 10, 100) == Err(InvalidFormat("1,1-3"))
  {
    var parts := ["1", "1-3"];
    assert Join(",", parts) == "1" + "," + "1-3";
    assert ',' !in parts[0] && ',' !in parts[1];
    BadListAt("1,1-3", parts, 1, 1, 10, 100);
  }

  /** An empty item inside a comma list is a format error. */
  lemma EmptyItemInList()
    ensures ParsePageRange(Some("1,,2"), 10, 100) == Err(InvalidFormat("1,,2"))
  {
    var parts := ["1", "", "2"];
    assert Join(",", parts) == "1" + "," + ("" + "," + "2");
    assert ',' !in parts[0] && ',' !in parts[1] && ',' !in parts[2];
    BadListAt("1,,2", parts, 1, 0, 10, 100);
  }

  /** A range's start written with `int` whitespace after the number: dash- and comma-free, and read as the number. */
  lemma PaddedStart(start: nat, p: string)
    requires start < MaxStrDigits && AllBlank(p, IsIntSpace)
    ensures var a := Str(start) + p;
      '-' !in a && ',' !in a && ParseInt(a) == Some(start)
  {
    var x := Str(start);
    SmallWithinLimit(start);
    ParseIntTrailing(start, p);
    assert forall k :: 0 <= k < |x + p| ==> (x + p)[k] == if k < |x| then x[k] else p[k - |x|];
  }

  /** A range's end written with `int` whitespace before the number: comma-free, and read as the number. */
  lemma PaddedEnd(q: string, end: nat)
    requires end < MaxStrDigits && AllBlank(q, IsIntSpace)
    ensures var b := q + Str(end);
      ',' !in b && ParseInt(b) == Some(end)
  {
    var y := Str(end);
    SmallWithinLimit(end);
    ParseIntLeading(q, end);
    assert forall k :: 0 <= k < |q + y| ==> (q + y)[k] == if k < |q| then q[k] else y[k - |q|];
  }

  /** `DashRange` for a range text given literally, with `int` whitespace `p` before the dash and `q` after it. */
  lemma SpacedRangeAt(s: string, a: string, b: string, p: string, q: string, start: nat, end: nat, totalPages: int, maxPages: int)
    requires s == a + "-" + b && a == Str(start) + p && b == q + Str(end)
    requires AllBlank(p, IsIntSpace) && AllBlank(q, IsIntSpace)
    requires start < MaxStrDigits && end < MaxStrDigits
    ensures ParsePageRange(Some(s), totalPages, maxPages)
      == if start > end then Err(InvalidRange(s))
         else if start < 1 then Err(StartBelowOne(start))
         else if end > totalPages then Err(PageOutOfRange(end, totalPages))
         else Ok(seq(Max(0, Min(end - start + 1, maxPages)), i => start - 1 + i))
  {
    PaddedStart(start, p);
    PaddedEnd(q, end);
    DashRange(a, b, start, end, totalPages, maxPages);
  }

  /** `CommaListUncapped` for a comma list given literally, each number preceded by the whitespace `pads[i]`. */
  lemma PaddedListAt(s: string, pads: seq<string>, ns: seq<int>, totalPages: int, maxPages: int)
    requires |pads| == |ns| && 2 <= |ns| <= maxPages
    requires s == Join(",", seq(|ns|, i requires 0 <= i < |ns| => pads[i] + Str(ns[i])))
    requires forall i :: 0 <= i < |ns| ==> AllBlank(pads[i], IsSpace) && ',' !in pads[i]
    requires forall i :: 0 <= i < |ns| ==> 1 <= ns[i] <= totalPages
    requires totalPages < MaxStrDigits
    ensures ParsePageRange(Some(s), totalPages, maxPages) == Ok(ToIndices(ns))
  {
    var parts := seq(|ns|, i requires 0 <= i < |ns| => pads[i] + Str(ns[i]));
    forall i | 0 <= i < |ns|
      ensures ParseItem(parts[i]) == Some(ns[i]) && ',' !in parts[i]
    {
      SmallWithinLimit(ns[i]);
      ParseItemPadded(pads[i], ns[i], "");
      assert pads[i] + Str(ns[i]) + "" == parts[i];
    }
    JoinedHasSeparator(parts, ',');
    SplitJoin(parts, ',');
    ItemsRead(parts, ns);
    CommaListUncapped(s, ns, totalPages, maxPages);
  }

  /** `DashRange` for a range text given literally, whose start carries leading zeros. */
  lemma ZeroPaddedRangeAt(s: string, zeros: nat, start: nat, end: nat, totalPages: int, maxPages: int)
    requires s == Zeros(zeros) + NatStr(start) + "-" + NatStr(end)
    requires zeros + start < MaxStrDigits && end < MaxStrDigits
    ensures ParsePageRange(Some(s), totalPages, maxPages)
      == if start > end then Err(InvalidRange(s))
         else if start < 1 then Err(StartBelowOne(start))
         else if end > totalPages then Err(PageOutOfRange(end, totalPages))
         else Ok(seq(Max(0, Min(end - start + 1, maxPages)), i => start - 1 + i))
  {
    var a, b := Zeros(zeros) + NatStr(start), NatStr(end);
    NatStrLength(start);
    NatStrLength(end);
    PaddedNumberValue(zeros, start);
    PaddedNumberValue(0, end);
    assert Zeros(0) + b == b;
    DashRange(a, b, start, end, totalPages, maxPages);
  }

  lemma ZeroPaddedRangeSpelling()
    ensures Zeros(1) + NatStr(3) + "-" + NatStr(7) == "03-7"
  {
    assert Zeros(1) == "0";
  }

  /** "03-7": `int` reads "03" as 3, so this is the range 3 to 7. */
  lemma RangeWithLeadingZero()
    ensures ParsePageRange(Some("03-7"), 10, 5) == Ok([2, 3, 4, 5, 6])
  {
    ZeroPaddedRangeSpelling();
    RangeContents();
    ZeroPaddedRangeAt("03-7", 1, 3, 7, 10, 5);
  }

  lemma SpacedRangeSpelling()
    ensures Str(3) + " " == "3 " && " " + Str(7) == " 7"
    ensures "3 " + "-" + " 7" == "3 - 7"
    ensures AllBlank(" ", IsIntSpace)
  {
  }

  /** "3 - 7": `int` ignores the spaces around each side, so this is the range 3 to 7. */
  lemma RangeWithSpaces()
    ensures ParsePageRange(Some("3 - 7"), 10, 5) == Ok([2, 3, 4, 5, 6])
  {
    SpacedRangeSpelling();
    RangeContents();
    SpacedRangeAt("3 - 7", "3 ", " 7", " ", " ", 3, 7, 10, 5);
  }

  lemma SpacedListSpelling()
    ensures var pads, ns := ["", " ", " "], [1, 3, 5];
      Join(",", seq(|ns|, i requires 0 <= i < |ns| => pads[i] + Str(ns[i]))) == "1, 3, 5"
  {
    var pads, ns := ["", " ", " "], [1, 3, 5];
    assert Str(1) == "1" && Str(3) == "3" && Str(5) == "5";
    assert pads[0] + Str(ns[0]) == "1" && pads[1] + Str(ns[1]) == " 3" && pads[2] + Str(ns[2]) == " 5";
    assert seq(|ns|, i requires 0 <= i < |ns| => pads[i] + Str(ns[i])) == ["1", " 3", " 5"];
    assert Join(",", ["1", " 3", " 5"]) == "1" + "," + (" 3" + "," + " 5");
  }

  lemma SeparatorListSpelling()
    ensures var pads, ns := ["\U{1C}", ""], [3, 5];
      Join(",", seq(|ns|, i requires 0 <= i < |ns| => pads[i] + Str(ns[i]))) == "\U{1C}3,5"
  {
    var pads, ns := ["\U{1C}", ""], [3, 5];
    assert Str(3) == "3" && Str(5) == "5";
    assert pads[0] + Str(ns[0]) == "\U{1C}3" && pads[1] + Str(ns[1]) == "5";
    assert seq(|ns|, i requires 0 <= i < |ns| => pads[i] + Str(ns[i])) == ["\U{1C}3", "5"];
    assert Join(",", ["\U{1C}3", "5"]) == "\U{1C}3" + "," + "5";
  }

  lemma PaddedListContents()
    ensures ToIndices([1, 3, 5]) == [0, 2, 4]
    ensures ToIndices([3, 5]) == [2, 4]
  {
  }

  /** "1, 3, 5": each item is stripped, so spaces after the commas are accepted. */
  lemma ListWithSpaces()
    ensures ParsePageRange(Some("1, 3, 5"), 10, 100) == Ok([0, 2, 4])
  {
    SpacedListSpelling();
    PaddedListContents();
    PaddedListAt("1, 3, 5", ["", " ", " "], [1, 3, 5], 10, 100);
  }

  /** U+001C before a range's start: `int` does not skip it, so the start does not parse. */
  lemma SeparatorBeforeRange()
    ensures ParsePageRange(Some("\U{1C}3-5"), 10, 100) == Err(InvalidFormat("\U{1C}3-5"))
  {
    assert "\U{1C}3" + "-" + "5" == "\U{1C}3-5";
    BadStartAt("\U{1C}3-5", "\U{1C}3", "5", 0, 10, 100);
  }

  /** U+001C before a list item: `strip` removes it before `int` runs, so the item reads as 3. */
  lemma SeparatorBeforeListItem()
    ensures ParsePageRange(Some("\U{1C}3,5"), 10, 100) == Ok([2, 4])
  {
    SeparatorListSpelling();
    PaddedListContents();
    PaddedListAt("\U{1C}3,5", ["\U{1C}", ""], [3, 5], 10, 100);
  }
}
