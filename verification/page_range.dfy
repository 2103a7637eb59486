/**
 The page-selection parser of the `pdf_read` tool: a user string and the
 document's bounds become either 0-based page indices or an error. The four
 syntaxes are tried in a fixed order: absent or "all", a single page number,
 a `start-end` range, and a comma-separated list.
 */
module PageRange {
  import opened Wrappers
  import opened PyText
  import opened PyInt

  /** The error dictionaries the parser returns, by kind, with the values their messages quote. */
  datatype SelectionError =
    | PageOutOfRange(page: int, totalPages: int)
    | InvalidRange(pages: string)
    | StartBelowOne(start: int)
    | InvalidFormat(pages: string)

  datatype Selection = Ok(indices: seq<int>) | Err(error: SelectionError)

  /** `list(range(lo, hi))`: empty unless `lo < hi`. */
  function Range(lo: int, hi: int): (r: seq<int>)
    ensures |r| == if hi <= lo then 0 else hi - lo
    ensures forall i :: 0 <= i < |r| ==> r[i] == lo + i
  {
    if hi <= lo then [] else seq(hi - lo, i => lo + i)
  }

  /** `s[:k]`: the first `k` elements, where a negative `k` drops `-k` elements from the end. */
  function Prefix<T>(s: seq<T>, k: int): (r: seq<T>)
    ensures |r| == if k >= 0 then Min(k, |s|) else Max(0, |s| + k)
    ensures r == s[..|r|]
  {
    if k >= 0 then s[..Min(k, |s|)] else s[..Max(0, |s| + k)]
  }

  function Min(a: int, b: int): int { if a <= b then a else b }

  function Max(a: int, b: int): int { if a >= b then a else b }

  predicate InDocument(page: int, totalPages: int) {
    1 <= page <= totalPages
  }

  /** Every index names a page of the document, counted from 0. */
  predicate IndicesWithin(indices: seq<int>, totalPages: int) {
    forall i :: 0 <= i < |indices| ==> 0 <= indices[i] < totalPages
  }

  /** What a returned error promises about the values it quotes. */
  predicate WellFormedError(e: SelectionError, pages: string, totalPages: int) {
    match e
    case PageOutOfRange(page, total) => total == totalPages && !InDocument(page, totalPages)
    case InvalidRange(p) => p == pages
    case StartBelowOne(start) => start == 0
    case InvalidFormat(p) => p == pages
  }

  /**
   One list item: `int(p.strip())`. Stripping first means every `isspace`
   character around the number is dropped, including the separators `int`
   alone would refuse; blank items never parse.
   */
  function ParseItem(item: string): (r: Option<int>)
    ensures Unpadded(item, IsSpace) ==> r == ParseInt(item)
    ensures AllBlank(item, IsSpace) ==> r == None
  {
    var t := Strip(item);
    assert Unpadded(item, IsSpace) ==> t == item by {
      if Unpadded(item, IsSpace) {
        StripUnpadded(item, IsSpace);
      }
    }
    assert AllBlank(item, IsSpace) ==> t == "" by {
      if AllBlank(item, IsSpace) {
        StripAllBlank(item, IsSpace);
      }
    }
    ParseInt(t)
  }

  /** `[f(x) for x in xs]` where `f` may fail: `None` as soon as one element fails. */
  function MapAll<A, B>(f: A -> Option<B>, xs: seq<A>): (r: Option<seq<B>>)
    ensures r.Some? <==> forall k :: 0 <= k < |xs| ==> f(xs[k]).Some?
    ensures r.Some? ==> |r.value| == |xs|
    ensures r.Some? ==> forall k :: 0 <= k < |xs| ==> f(xs[k]) == Some(r.value[k])
    decreases |xs|
  {
    if |xs| == 0 then Some([])
    else
      var head := f(xs[0]);
      var tail := MapAll(f, xs[1..]);
      assert forall k :: 1 <= k < |xs| ==> xs[k] == xs[1..][k - 1];
      if head.None? || tail.None? then None
      else Some([head.value] + tail.value)
  }

  /** `[int(p.strip()) for p in items]`, or `None` when some item raises `ValueError`. */
  function ParseAll(items: seq<string>): (r: Option<seq<int>>)
    ensures r.Some? <==> forall k :: 0 <= k < |items| ==> ParseItem(items[k]).Some?
    ensures r.Some? ==> |r.value| == |items|
    ensures r.Some? ==> forall k :: 0 <= k < |items| ==> ParseItem(items[k]) == Some(r.value[k])
  {
    MapAll(ParseItem, items)
  }

  /** The position of the first number outside `[1, totalPages]`, or `|nums|` when there is none. */
  function FirstOutOfRange(nums: seq<int>, totalPages: int): (k: nat)
    ensures k <= |nums|
    ensures forall j :: 0 <= j < k ==> InDocument(nums[j], totalPages)
    ensures k < |nums| ==> !InDocument(nums[k], totalPages)
    decreases |nums|
  {
    if |nums| == 0 then 0
    else if !InDocument(nums[0], totalPages) then 0
    else 1 + FirstOutOfRange(nums[1..], totalPages)
  }

  /**
   A string of digits only: one page number. It selects that page when it is
   in the document; otherwise the error names the number, or is the format
   error when `int` refuses a numeral past its digit limit.
   */
  function ParseSinglePage(s: string, totalPages: int): (r: Selection)
    requires IsDigitString(s)
    ensures r.Ok? <==> |s| <= MaxStrDigits && InDocument(DigitsValue(s), totalPages)
    ensures r.Ok? ==> r.indices == [DigitsValue(s) - 1] && IndicesWithin(r.indices, totalPages)
    ensures r.Err? ==> r.error == if |s| <= MaxStrDigits then PageOutOfRange(DigitsValue(s), totalPages) else InvalidFormat(s)
    ensures r.Err? ==> WellFormedError(r.error, s, totalPages)
  {
    ParseIntDigits(s);
    match ParseInt(s)
    case None => Err(InvalidFormat(s))
    case Some(page) =>
      if page < 1 || page > totalPages then Err(PageOutOfRange(page, totalPages))
      else Ok([page - 1])
  }

  /** `start-end`, split at the first dash; the checks run in order and the first failure wins. */
  function ParseDashRange(s: string, totalPages: int, maxPages: int): (r: Selection)
    requires '-' in s
    ensures r.Ok? ==> IndicesWithin(r.indices, totalPages)
    ensures r.Ok? && maxPages >= 0 ==> |r.indices| <= maxPages
    ensures r.Err? ==> WellFormedError(r.error, s, totalPages)
  {
    var (startText, endText) := SplitOnce(s, '-');
    match (ParseInt(startText), ParseInt(endText))
    case (Some(start), Some(end)) =>
      SelectRange(s, start, end, totalPages, maxPages)
    case _ => Err(InvalidFormat(s))
  }

  /**
   The three checks on a parsed range, in order, then
   `list(range(start - 1, min(end, start - 1 + maxPages)))`: a reversed range
   is refused first, then a start of 0, then an end past the document;
   otherwise the consecutive indices from `start - 1`, at most `maxPages` of
   them, all inside the document.
   */
  function SelectRange(s: string, start: nat, end: int, totalPages: int, maxPages: int): (r: Selection)
    ensures r.Err? <==> start > end || start < 1 || end > totalPages
    ensures start > end ==> r == Err(InvalidRange(s))
    ensures start <= end && start < 1 ==> r == Err(StartBelowOne(start))
    ensures 1 <= start <= end && end > totalPages ==> r == Err(PageOutOfRange(end, totalPages))
    ensures r.Ok? ==> r.indices == seq(Max(0, Min(end - start + 1, maxPages)), i => start - 1 + i)
    ensures r.Ok? ==> IndicesWithin(r.indices, totalPages)
    ensures r.Ok? && maxPages >= 0 ==> |r.indices| <= maxPages
    ensures r.Err? ==> WellFormedError(r.error, s, totalPages)
  {
    if start > end then Err(InvalidRange(s))
    else if start < 1 then Err(StartBelowOne(start))
    else if end > totalPages then Err(PageOutOfRange(end, totalPages))
    else
      var indices := Range(start - 1, Min(end, start - 1 + maxPages));
      assert indices == seq(Max(0, Min(end - start + 1, maxPages)), i => start - 1 + i);
      Ok(indices)
  }

  /** A comma list: every item must parse, every value must be in range, then the first `maxPages` are kept. */
  function ParseCommaList(s: string, totalPages: int, maxPages: int): (r: Selection)
    ensures r.Ok? ==> IndicesWithin(r.indices, totalPages)
    ensures r.Ok? && maxPages >= 0 ==> |r.indices| <= maxPages
    ensures r.Err? ==> WellFormedError(r.error, s, totalPages)
  {
    var parsed := ParseAll(Split(s, ','));
    if parsed.None? then Err(InvalidFormat(s))
    else SelectListed(parsed.value, totalPages, maxPages)
  }

  /** The range check over every listed number, then `[p - 1 for p in nums[:maxPages]]`. */
  function SelectListed(nums: seq<int>, totalPages: int, maxPages: int): (r: Selection)
    ensures r.Ok? ==> IndicesWithin(r.indices, totalPages)
    ensures r.Ok? && maxPages >= 0 ==> |r.indices| <= maxPages
    ensures r.Err? ==> r.error.PageOutOfRange? && WellFormedError(r.error, "", totalPages)
  {
    var bad := FirstOutOfRange(nums, totalPages);
    if bad < |nums| then Err(PageOutOfRange(nums[bad], totalPages))
    else
      var kept := Prefix(nums, maxPages);
      assert forall i :: 0 <= i < |kept| ==> kept[i] == nums[i];
      Ok(ToIndices(kept))
  }

  /** Page numbers, counted from 1, turned into indices counted from 0. */
  function ToIndices(pageNumbers: seq<int>): (r: seq<int>)
    ensures |r| == |pageNumbers|
    ensures forall i :: 0 <= i < |r| ==> r[i] + 1 == pageNumbers[i]
  {
    seq(|pageNumbers|, i requires 0 <= i < |pageNumbers| => pageNumbers[i] - 1)
  }

  /**
   `parse_page_range(pages, total_pages, max_pages)`. Whatever the input, a
   success names only pages of the document, and never more than `maxPages`
   of them when `maxPages` is positive (a single page number ignores the cap).
   */
  function ParsePageRange(pages: Option<string>, totalPages: int, maxPages: int): (r: Selection)
    ensures pages.None? ==> r.Ok?
    ensures r.Ok? ==> IndicesWithin(r.indices, totalPages)
    ensures r.Ok? && maxPages >= 1 ==> |r.indices| <= maxPages
    ensures r.Err? ==> pages.Some? && WellFormedError(r.error, pages.value, totalPages)
  {
    if pages.None? || IsAllToken(pages.value) then
      Ok(Range(0, Min(totalPages, maxPages)))
    else
      var s := pages.value;
      if IsDigitString(s) then ParseSinglePage(s, totalPages)
      else if '-' in s && ',' !in s then ParseDashRange(s, totalPages, maxPages)
      else if ',' in s then ParseCommaList(s, totalPages, maxPages)
      else Err(InvalidFormat(s))
  }
}
