/**
 The `pdf_read` tool once its file-system checks have passed: the `max_pages`
 clamp, the encryption refusal, page selection, and the assembly of the result
 record from the text of each selected page. The PDF reader itself is
 represented by what it reports: an encryption flag and the text of each page.
 */
module PdfRead {
  import opened Wrappers
  import opened PyText
  import opened PyInt
  import opened PageRange

  /** The largest number of pages one call may extract. */
  const PageCap: int := 1000

  /** `max(1, min(max_pages, 1000))`: any request lands in `[1, PageCap]`, and one already there is kept. */
  function ClampMaxPages(requested: int): (r: int)
    ensures 1 <= r <= PageCap
    ensures 1 <= requested <= PageCap ==> r == requested
    ensures requested < 1 ==> r == 1
    ensures requested > PageCap ==> r == PageCap
  {
    Max(1, Min(requested, PageCap))
  }

  /** An opened document as the reader reports it; a page without text is given as "". */
  datatype Document = Document(encrypted: bool, pageTexts: seq<string>)

  /** The success record; `path`, `name` and `metadata` are not modelled. */
  datatype Extraction = Extraction(totalPages: nat, pagesExtracted: nat, content: string, charCount: nat)

  datatype ReadError = Encrypted | BadSelection(error: SelectionError)

  datatype ReadResult = Extracted(extraction: Extraction) | Failed(error: ReadError)

  /**
   `f"--- Page {idx + 1} ---\n"`: the 1-based page number between fixed text
   of 14 characters, nine before and five after.
   */
  function PageMarker(index: int): (m: string)
    ensures |m| == 14 + |Str(index + 1)|
    ensures m[..9] == "--- Page "
    ensures m[9..|m| - 5] == Str(index + 1)
    ensures m[|m| - 5..] == " ---\n"
  {
    var head, number, tail := "--- Page ", Str(index + 1), " ---\n";
    var m := head + number + tail;
    assert |head| == 9 && |tail| == 5;
    assert m[..9] == head;
    assert m[|m| - 5..] == tail;
    assert m[9..|m| - 5] == number;
    m
  }

  /** The number inside a page marker reads back as the 1-based page. */
  lemma MarkerNamesPage(index: int)
    requires WithinDigitLimit(index + 1)
    ensures var m := PageMarker(index); ParseInt(m[9..|m| - 5]) == Some(index + 1)
  {
    ParseIntStr(index + 1);
  }

  /** One element of `content_parts`: the marker, then the page's text. */
  function PagePart(index: int, texts: seq<string>): string
    requires 0 <= index < |texts|
  {
    PageMarker(index) + texts[index]
  }

  /** `content_parts` for the selected indices, in selection order. */
  function ContentParts(indices: seq<int>, texts: seq<string>): (parts: seq<string>)
    requires IndicesWithin(indices, |texts|)
    ensures |parts| == |indices|
    ensures forall k :: 0 <= k < |parts| ==> parts[k] == PagePart(indices[k], texts)
  {
    seq(|indices|, k requires 0 <= k < |indices| => PagePart(indices[k], texts))
  }

  /**
   `"\n\n".join(content_parts)`: empty exactly when no page is selected, and
   otherwise opening with the first selected page's marker.
   */
  function Content(indices: seq<int>, texts: seq<string>): (c: string)
    requires IndicesWithin(indices, |texts|)
    ensures |indices| == 0 <==> c == ""
    ensures |indices| > 0 ==> PageMarker(indices[0]) <= c
  {
    var parts := ContentParts(indices, texts);
    assert |indices| > 0 ==> PageMarker(indices[0]) <= parts[0];
    Join("\n\n", parts)
  }

  /**
   The loop that fills `content_parts`, one selected page at a time, and the
   join; its results agree with `Content`, and the count is the number of
   pages taken.
   */
  method AssembleContent(indices: seq<int>, texts: seq<string>) returns (content: string, count: nat)
    requires IndicesWithin(indices, |texts|)
    ensures content == Content(indices, texts)
    ensures count == |indices|
  {
    var parts: seq<string> := [];
    var k := 0;
    while k < |indices|
      invariant 0 <= k <= |indices|
      invariant |parts| == k
      invariant forall j :: 0 <= j < k ==> parts[j] == PagePart(indices[j], texts)
    {
      parts := parts + [PagePart(indices[k], texts)];
      k := k + 1;
    }
    assert parts == ContentParts(indices, texts);
    content := Join("\n\n", parts);
    count := |parts|;
  }

  /** The size of the selected pages: each one's marker and text. */
  function SelectedSize(indices: seq<int>, texts: seq<string>): nat
    requires IndicesWithin(indices, |texts|)
    decreases |indices|
  {
    if |indices| == 0 then 0
    else 14 + |Str(indices[0] + 1)| + |texts[indices[0]]| + SelectedSize(indices[1..], texts)
  }

  /**
   `char_count` from the pages alone: each selected page's marker and text,
   plus a blank-line separator between neighbouring pages; no pages, no text.
   */
  lemma {:induction false} ContentLength(indices: seq<int>, texts: seq<string>)
    requires IndicesWithin(indices, |texts|)
    ensures |Content(indices, texts)| == if |indices| == 0 then 0 else SelectedSize(indices, texts) + 2 * (|indices| - 1)
  {
    if |indices| > 0 {
      JoinLength("\n\n", ContentParts(indices, texts));
      PartsLength(indices, texts);
    }
  }

  lemma {:induction false} PartsLength(indices: seq<int>, texts: seq<string>)
    requires IndicesWithin(indices, |texts|)
    ensures TotalLength(ContentParts(indices, texts)) == SelectedSize(indices, texts)
    decreases |indices|
  {
    if |indices| > 0 {
      assert ContentParts(indices, texts)[1..] == ContentParts(indices[1..], texts);
      PartsLength(indices[1..], texts);
    }
  }

  /**
   `pdf_read` after the path checks: clamp the cap, refuse an encrypted
   document, select pages, and read only the selected pages. Every index used
   to read a page lies in the document, a success never holds more pages than
   the clamped cap, and its `char_count` is the length of its `content`.
   */
  function ReadPdf(doc: Document, pages: Option<string>, maxPages: int): (r: ReadResult)
    ensures doc.encrypted ==> r == Failed(Encrypted)
    ensures r.Extracted? ==> r.extraction.totalPages == |doc.pageTexts|
    ensures r.Extracted? ==> r.extraction.pagesExtracted <= ClampMaxPages(maxPages) <= PageCap
    ensures r.Extracted? ==> r.extraction.charCount == |r.extraction.content|
    ensures !doc.encrypted ==>
      var selection := ParsePageRange(pages, |doc.pageTexts|, ClampMaxPages(maxPages));
      && (selection.Err? ==> r == Failed(BadSelection(selection.error)))
      && (selection.Ok? ==> r.Extracted? && r.extraction.pagesExtracted == |selection.indices|)
      && (selection.Ok? ==> r.extraction.content == Content(selection.indices, doc.pageTexts))
  {
    var cap := ClampMaxPages(maxPages);
    if doc.encrypted then Failed(Encrypted)
    else
      var total := |doc.pageTexts|;
      match ParsePageRange(pages, total, cap)
      case Err(e) => Failed(BadSelection(e))
      case Ok(indices) =>
        var content := Content(indices, doc.pageTexts);
        Extracted(Extraction(total, |indices|, content, |content|))
  }

  /** With no selection, every page up to the clamped cap is read, in order. */
  lemma ReadAllPages(doc: Document, maxPages: int)
    requires !doc.encrypted
    ensures var r := ReadPdf(doc, None, maxPages);
      && r.Extracted?
      && r.extraction.pagesExtracted == Min(|doc.pageTexts|, ClampMaxPages(maxPages))
      && r.extraction.content == Content(Range(0, r.extraction.pagesExtracted), doc.pageTexts)
  {
  }

  /** The `char_count` of a successful read, computed from the selected pages alone. */
  lemma ReadCharCount(doc: Document, pages: Option<string>, maxPages: int)
    requires !doc.encrypted
    requires ParsePageRange(pages, |doc.pageTexts|, ClampMaxPages(maxPages)).Ok?
    ensures var indices := ParsePageRange(pages, |doc.pageTexts|, ClampMaxPages(maxPages)).indices;
      var r := ReadPdf(doc, pages, maxPages);
      r.Extracted? && r.extraction.charCount
        == if |indices| == 0 then 0 else SelectedSize(indices, doc.pageTexts) + 2 * (|indices| - 1)
  {
    var indices := ParsePageRange(pages, |doc.pageTexts|, ClampMaxPages(maxPages)).indices;
    ContentLength(indices, doc.pageTexts);
  }
}
