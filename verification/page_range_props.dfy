/**
 What each syntax of the page-selection parser means. `AllPages`, `SinglePage`,
 `DigitsSelect`, `DashRange`, the `CommaList*` results and the rejection
 lemmas give the result of `ParsePageRange` for any text of a given shape, as a
 value independent of the parser's branches; the `Written*` lemmas specialise
 them to text built with `str`. The remaining lemmas are routing steps, each
 stated against one branch function of `PageRange` or one helper.
 */
module PageRangeProperties {
  import opened Wrappers
  import opened PyText
  import opened PyInt
  import opened PageRange

  /** The comma list a user writes for the page numbers `ns`: `",".join(str(n) for n in ns)`. */
  function Commas(ns: seq<int>): string {
    Join(",", Strs(ns))
  }

  function Strs(ns: seq<int>): (r: seq<string>)
    ensures |r| == |ns|
    ensures forall i :: 0 <= i < |r| ==> r[i] == Str(ns[i])
  {
    seq(|ns|, i requires 0 <= i < |ns| => Str(ns[i]))
  }

  /** Absent, or "all" in any case: the first `min(totalPages, maxPages)` indices, ascending from 0. */
  lemma AllPages(pages: Option<string>, totalPages: int, maxPages: int)
    requires pages.None? || IsAllToken(pages.value)
    ensures ParsePageRange(pages, totalPages, maxPages) == Ok(seq(Max(0, Min(totalPages, maxPages)), i => i))
  {
  }

  /**
   One page number, with or without leading zeros: the page itself when it is in
   the document, an out-of-range error naming it otherwise (so "0" is refused),
   and the format error when the zeros and digits together pass `int`'s limit.
   */
  lemma SinglePage(zeros: nat, n: nat, totalPages: int, maxPages: int)
    ensures var s := Zeros(zeros) + NatStr(n);
      ParsePageRange(Some(s), totalPages, maxPages)
      == if zeros + |NatStr(n)| > MaxStrDigits then Err(InvalidFormat(s))
         else if 1 <= n <= totalPages then Ok([n - 1]) else Err(PageOutOfRange(n, totalPages))
  {
    var s := Zeros(zeros) + NatStr(n);
    if zeros + |NatStr(n)| > MaxStrDigits {
      assert IsDigitString(s);
      RoutesToSinglePage(s, totalPages, maxPages);
      return;
    }
    PaddedNumberValue(zeros, n);
    DigitsSelect(Zeros(zeros) + NatStr(n), n, totalPages, maxPages);
  }

  /** Any digits that read as `n` select page `n` alone, or name it in an out-of-range error; the cap plays no part. */
  lemma DigitsSelect(s: string, n: int, totalPages: int, maxPages: int)
    requires IsDigitString(s) && ParseInt(s) == Some(n)
    ensures ParsePageRange(Some(s), totalPages, maxPages)
         == if 1 <= n <= totalPages then Ok([n - 1]) else Err(PageOutOfRange(n, totalPages))
  {
    RoutesToSinglePage(s, totalPages, maxPages);
    ParseIntDigits(s);
  }

  /**
   A page number with leading zeros is all digits and reads as the number
   itself, as long as the zeros and digits together stay within `int`'s limit.
   */
  lemma PaddedNumberValue(zeros: nat, n: nat)
    ensures IsDigitString(Zeros(zeros) + NatStr(n))
    ensures ParseInt(Zeros(zeros) + NatStr(n)) == if zeros + |NatStr(n)| <= MaxStrDigits then Some(n) else None
  {
    var s := Zeros(zeros) + NatStr(n);
    assert IsDigitString(s);
    LeadingZeros(zeros, NatStr(n));
    ParseIntDigits(s);
  }

  /** Text of digits only is read as one page number. */
  lemma RoutesToSinglePage(s: string, totalPages: int, maxPages: int)
    requires IsDigitString(s)
    ensures ParsePageRange(Some(s), totalPages, maxPages) == ParseSinglePage(s, totalPages)
  {
    assert IsAsciiDigit(s[0]);
  }

  /**
   `a-b` where `int` reads `a` as `start` and `b` as `end` (so either side may
   carry whitespace, a sign or leading zeros): the text splits at its first
   dash, so the end may carry its own minus sign. A reversed range is refused
   first, then a start of 0, then an end past the document; otherwise the
   consecutive indices from `start - 1`, at most `maxPages` of them.
   */
  lemma DashRange(a: string, b: string, start: nat, end: int, totalPages: int, maxPages: int)
    requires '-' !in a && ',' !in a && ',' !in b
    requires ParseInt(a) == Some(start) && ParseInt(b) == Some(end)
    ensures var s := a + "-" + b;
      ParsePageRange(Some(s), totalPages, maxPages)
      == if start > end then Err(InvalidRange(s))
         else if start < 1 then Err(StartBelowOne(start))
         else if end > totalPages then Err(PageOutOfRange(end, totalPages))
         else Ok(seq(Max(0, Min(end - start + 1, maxPages)), i => start - 1 + i))
  {
    RangeSelects(a, b, start, end, totalPages, maxPages);
  }

  /** `DashRange` for the range a user writes with `str`: `f"{start}-{end}"`. */
  lemma WrittenDashRange(start: nat, end: int, totalPages: int, maxPages: int)
    requires WithinDigitLimit(start) && WithinDigitLimit(end)
    ensures var s := NatStr(start) + "-" + Str(end);
      ParsePageRange(Some(s), totalPages, maxPages)
      == if start > end then Err(InvalidRange(s))
         else if start < 1 then Err(StartBelowOne(start))
         else if end > totalPages then Err(PageOutOfRange(end, totalPages))
         else Ok(seq(Max(0, Min(end - start + 1, maxPages)), i => start - 1 + i))
  {
    var a := NatStr(start);
    assert '-' !in a && ',' !in a;
    ParseIntDigits(a);
    ParseIntStr(end);
    DashRange(a, Str(end), start, end, totalPages, maxPages);
  }

  /** The range text `a-b` is cut at the right dash and both sides read back. */
  lemma RangeSelects(a: string, b: string, start: nat, end: int, totalPages: int, maxPages: int)
    requires '-' !in a && ',' !in a && ',' !in b
    requires ParseInt(a) == Some(start) && ParseInt(b) == Some(end)
    ensures var s := a + "-" + b;
      ParsePageRange(Some(s), totalPages, maxPages) == SelectRange(s, start, end, totalPages, maxPages)
  {
    var s := a + "-" + b;
    RangeTextSplits(a, b);
    RoutesToDashRange(s, totalPages, maxPages);
    RangeSidesRead(s, start, end, totalPages, maxPages);
  }

  /** Once both sides of the first dash read as numbers, the range goes on to its checks. */
  lemma RangeSidesRead(s: string, start: nat, end: int, totalPages: int, maxPages: int)
    requires '-' in s
    requires ParseInt(SplitOnce(s, '-').0) == Some(start) && ParseInt(SplitOnce(s, '-').1) == Some(end)
    ensures ParseDashRange(s, totalPages, maxPages) == SelectRange(s, start, end, totalPages, maxPages)
  {
  }

  /** Text `a-b` with no dash in `a` and no comma anywhere is read as a range cut between `a` and `b`. */
  lemma RangeTextSplits(a: string, b: string)
    requires '-' !in a && ',' !in a && ',' !in b
    ensures var s := a + "-" + b;
      '-' in s && ',' !in s && SplitOnce(s, '-') == (a, b)
  {
    var s := a + "-" + b;
    assert s == a + ['-'] + b;
    assert s[|a|] == '-';
    SplitOnceUnique(a, '-', b);
  }

  /**
   `indices` are the page numbers `ns` cut as Python's `ns[:maxPages]` cuts
   them (a negative cap drops that many from the end), each minus one, in
   the order written and with repeats kept.
   */
  predicate KeptPages(indices: seq<int>, ns: seq<int>, maxPages: int)
  {
    && |indices| == (if maxPages >= 0 then Min(maxPages, |ns|) else Max(0, |ns| + maxPages))
    && forall i :: 0 <= i < |indices| && i < |ns| ==> indices[i] == ns[i] - 1
  }

  /**
   A comma list whose items all read as numbers `ns` (each item stripped, so
   "1, 3, 5" qualifies) and are all pages of the document: the first
   `maxPages` of them (Python's `[:maxPages]`), each minus one, in the order
   written and with repeats kept.
   */
  lemma CommaListInRange(s: string, ns: seq<int>, totalPages: int, maxPages: int)
    requires ',' in s && ParseAll(Split(s, ',')) == Some(ns)
    requires forall i :: 0 <= i < |ns| ==> 1 <= ns[i] <= totalPages
    ensures var r := ParsePageRange(Some(s), totalPages, maxPages);
      r.Ok? && KeptPages(r.indices, ns, maxPages)
  {
    ListSelects(s, ns, totalPages, maxPages);
    ListedInRange(ns, totalPages, maxPages);
  }

  /** A comma list no longer than the cap is kept whole. */
  lemma CommaListUncapped(s: string, ns: seq<int>, totalPages: int, maxPages: int)
    requires ',' in s && ParseAll(Split(s, ',')) == Some(ns) && |ns| <= maxPages
    requires forall i :: 0 <= i < |ns| ==> 1 <= ns[i] <= totalPages
    ensures ParsePageRange(Some(s), totalPages, maxPages) == Ok(ToIndices(ns))
  {
    ListSelects(s, ns, totalPages, maxPages);
    ListedUncapped(ns, totalPages, maxPages);
  }

  /**
   A comma list with a number outside the document: the error names the first
   such number in the order written, even when it lies past the `maxPages` cut.
   */
  lemma CommaListOutOfRange(s: string, ns: seq<int>, k: nat, totalPages: int, maxPages: int)
    requires ',' in s && ParseAll(Split(s, ',')) == Some(ns) && k < |ns|
    requires !(1 <= ns[k] <= totalPages)
    requires forall i :: 0 <= i < k ==> 1 <= ns[i] <= totalPages
    ensures ParsePageRange(Some(s), totalPages, maxPages) == Err(PageOutOfRange(ns[k], totalPages))
  {
    ListSelects(s, ns, totalPages, maxPages);
    ListedOutOfRange(ns, k, totalPages, maxPages);
  }

  /** The range check stops at the first number outside the document, before any cut. */
  lemma ListedOutOfRange(ns: seq<int>, k: nat, totalPages: int, maxPages: int)
    requires k < |ns| && !(1 <= ns[k] <= totalPages)
    requires forall i :: 0 <= i < k ==> 1 <= ns[i] <= totalPages
    ensures SelectListed(ns, totalPages, maxPages) == Err(PageOutOfRange(ns[k], totalPages))
  {
    assert FirstOutOfRange(ns, totalPages) == k;
  }

  /** A comma list whose items read as `ns` goes on to the range check and cut of exactly `ns`. */
  lemma ListSelects(s: string, ns: seq<int>, totalPages: int, maxPages: int)
    requires ',' in s && ParseAll(Split(s, ',')) == Some(ns)
    ensures ParsePageRange(Some(s), totalPages, maxPages) == SelectListed(ns, totalPages, maxPages)
  {
    RoutesToCommaList(s, totalPages, maxPages);
  }

  /** Numbers all in the document and no more than the cap all become indices, in order. */
  lemma ListedUncapped(ns: seq<int>, totalPages: int, maxPages: int)
    requires |ns| <= maxPages
    requires forall i :: 0 <= i < |ns| ==> 1 <= ns[i] <= totalPages
    ensures SelectListed(ns, totalPages, maxPages) == Ok(ToIndices(ns))
  {
    ListedInRange(ns, totalPages, maxPages);
    var r := SelectListed(ns, totalPages, maxPages);
    assert r.indices == ToIndices(ns);
  }

  /** Numbers all in the document pass the check, and the first `maxPages` become indices in order. */
  lemma ListedInRange(ns: seq<int>, totalPages: int, maxPages: int)
    requires forall i :: 0 <= i < |ns| ==> 1 <= ns[i] <= totalPages
    ensures var r := SelectListed(ns, totalPages, maxPages);
      r.Ok? && KeptPages(r.indices, ns, maxPages)
  {
    var kept := Prefix(ns, maxPages);
    assert FirstOutOfRange(ns, totalPages) == |ns|;
    assert forall i :: 0 <= i < |kept| ==> kept[i] == ns[i];
  }

  /** `CommaListInRange` for the list a user writes with `str`: `",".join(str(n) for n in ns)`. */
  lemma WrittenListInRange(ns: seq<int>, totalPages: int, maxPages: int)
    requires forall i :: 0 <= i < |ns| ==> WithinDigitLimit(ns[i])
    requires |ns| >= 2
    requires forall i :: 0 <= i < |ns| ==> 1 <= ns[i] <= totalPages
    ensures var r := ParsePageRange(Some(Commas(ns)), totalPages, maxPages);
      r.Ok? && KeptPages(r.indices, ns, maxPages)
  {
    CommaListHasComma(ns);
    CommaListParses(ns);
    CommaListInRange(Commas(ns), ns, totalPages, maxPages);
  }

  /** `CommaListUncapped` for the list a user writes with `str`. */
  lemma WrittenListUncapped(ns: seq<int>, totalPages: int, maxPages: int)
    requires forall i :: 0 <= i < |ns| ==> WithinDigitLimit(ns[i])
    requires |ns| >= 2 && |ns| <= maxPages
    requires forall i :: 0 <= i < |ns| ==> 1 <= ns[i] <= totalPages
    ensures ParsePageRange(Some(Commas(ns)), totalPages, maxPages) == Ok(ToIndices(ns))
  {
    CommaListHasComma(ns);
    CommaListParses(ns);
    CommaListUncapped(Commas(ns), ns, totalPages, maxPages);
  }

  /** `CommaListOutOfRange` for the list a user writes with `str`. */
  lemma WrittenListOutOfRange(ns: seq<int>, k: nat, totalPages: int, maxPages: int)
    requires forall i :: 0 <= i < |ns| ==> WithinDigitLimit(ns[i])
    requires |ns| >= 2 && k < |ns|
    requires !(1 <= ns[k] <= totalPages)
    requires forall i :: 0 <= i < k ==> 1 <= ns[i] <= totalPages
    ensures ParsePageRange(Some(Commas(ns)), totalPages, maxPages) == Err(PageOutOfRange(ns[k], totalPages))
  {
    CommaListHasComma(ns);
    CommaListParses(ns);
    CommaListOutOfRange(Commas(ns), ns, k, totalPages, maxPages);
  }

  /** Each item of the comma list of `ns` parses back to its number. */
  lemma CommaListParses(ns: seq<int>)
    requires forall i :: 0 <= i < |ns| ==> WithinDigitLimit(ns[i])
    requires |ns| >= 2
    ensures ParseAll(Split(Commas(ns), ',')) == Some(ns)
  {
    SplitJoin(Strs(ns), ',');
    NumbersParse(ns);
  }

  /** The numbers written with `str` parse back, item by item. */
  lemma NumbersParse(ns: seq<int>)
    requires forall i :: 0 <= i < |ns| ==> WithinDigitLimit(ns[i])
    ensures ParseAll(Strs(ns)) == Some(ns)
  {
    var parts := Strs(ns);
    forall i | 0 <= i < |ns|
      ensures ParseItem(parts[i]) == Some(ns[i])
    {
      ParseItemStr(ns[i]);
    }
    ItemsRead(parts, ns);
  }

  /** Items that each read as the number at the same position read as the whole list. */
  lemma ItemsRead(items: seq<string>, ns: seq<int>)
    requires |items| == |ns|
    requires forall i :: 0 <= i < |ns| ==> ParseItem(items[i]) == Some(ns[i])
    ensures ParseAll(items) == Some(ns)
  {
    var parsed := ParseAll(items);
    assert parsed.Some? && |parsed.value| == |ns|;
    assert forall k :: 0 <= k < |ns| ==> parsed.value[k] == ns[k];
    assert parsed.value == ns;
  }

  /**
   A list item may carry any `isspace` whitespace around its number, since it
   is stripped before `int` sees it.
   */
  lemma ParseItemPadded(before: string, n: int, after: string)
    requires WithinDigitLimit(n)
    requires AllBlank(before, IsSpace) && AllBlank(after, IsSpace)
    ensures ParseItem(before + Str(n) + after) == Some(n)
  {
    StripPadded(before, Str(n), after, IsSpace);
    ParseIntStr(n);
  }

  /** A list item written with `str` reads back as its number. */
  lemma ParseItemStr(n: int)
    requires WithinDigitLimit(n)
    ensures ParseItem(Str(n)) == Some(n)
  {
    ParseIntStr(n);
  }

  /** A list of two or more numbers is written with a comma. */
  lemma CommaListHasComma(ns: seq<int>)
    requires |ns| >= 2
    ensures ',' in Commas(ns)
  {
    JoinedHasSeparator(Strs(ns), ',');
  }

  /** Text holding a dash or a comma is neither a page number nor the token "all". */
  lemma SeparatedIsNotDigitOrAll(s: string, c: char)
    requires c == ',' || c == '-'
    requires c in s
    ensures !IsAllToken(s) && !IsDigitString(s)
  {
    var i :| 0 <= i < |s| && s[i] == c;
    assert !IsAsciiDigit(s[i]);
  }

  /** Text holding a comma is read as a comma list. */
  lemma RoutesToCommaList(s: string, totalPages: int, maxPages: int)
    requires ',' in s
    ensures ParsePageRange(Some(s), totalPages, maxPages) == ParseCommaList(s, totalPages, maxPages)
  {
    SeparatedIsNotDigitOrAll(s, ',');
  }

  /** Text holding a dash and no comma is read as a range. */
  lemma RoutesToDashRange(s: string, totalPages: int, maxPages: int)
    requires '-' in s && ',' !in s
    ensures ParsePageRange(Some(s), totalPages, maxPages) == ParseDashRange(s, totalPages, maxPages)
  {
    SeparatedIsNotDigitOrAll(s, '-');
  }

  /** A range whose start or end is not an integer (an empty side, a second range) is a format error. */
  lemma RangeBadNumber(s: string, totalPages: int, maxPages: int)
    requires '-' in s && ',' !in s
    requires ParseInt(SplitOnce(s, '-').0).None? || ParseInt(SplitOnce(s, '-').1).None?
    ensures ParsePageRange(Some(s), totalPages, maxPages) == Err(InvalidFormat(s))
  {
    RoutesToDashRange(s, totalPages, maxPages);
  }

  /** `start-end` where one side is not an integer: a format error, whatever the other side holds. */
  lemma RangeSideNotNumber(a: string, b: string, totalPages: int, maxPages: int)
    requires '-' !in a && ',' !in a && ',' !in b
    requires ParseInt(a).None? || ParseInt(b).None?
    ensures ParsePageRange(Some(a + "-" + b), totalPages, maxPages) == Err(InvalidFormat(a + "-" + b))
  {
    RangeTextSplits(a, b);
    RangeBadNumber(a + "-" + b, totalPages, maxPages);
  }

  /** One item that does not read as a number fails the whole list of items. */
  lemma OneItemFails(items: seq<string>, k: nat)
    requires k < |items| && ParseItem(items[k]).None?
    ensures ParseAll(items) == None
  {
  }

  /** Text with a comma whose items do not all read as numbers is a format error quoting the text. */
  lemma CommaListRejected(s: string, totalPages: int, maxPages: int)
    requires ',' in s && ParseAll(Split(s, ',')) == None
    ensures ParsePageRange(Some(s), totalPages, maxPages) == Err(InvalidFormat(s))
  {
    RoutesToCommaList(s, totalPages, maxPages);
  }

  /** A comma list of pieces, one of which is not an integer: a format error for the whole text. */
  lemma CommaItemNotNumber(parts: seq<string>, k: nat, totalPages: int, maxPages: int)
    requires |parts| >= 2 && k < |parts|
    requires forall i :: 0 <= i < |parts| ==> ',' !in parts[i]
    requires ParseItem(parts[k]).None?
    ensures ParsePageRange(Some(Join(",", parts)), totalPages, maxPages) == Err(InvalidFormat(Join(",", parts)))
  {
    var s := Join(",", parts);
    JoinedHasSeparator(parts, ',');
    SplitJoin(parts, ',');
    OneItemFails(parts, k);
    CommaListRejected(s, totalPages, maxPages);
  }

  /** Text that is not "all", not digits, and has neither a dash nor a comma is refused as a format error. */
  lemma NoSyntaxMatches(s: string, totalPages: int, maxPages: int)
    requires !IsAllToken(s) && !IsDigitString(s)
    requires '-' !in s && ',' !in s
    ensures ParsePageRange(Some(s), totalPages, maxPages) == Err(InvalidFormat(s))
  {
  }
}
