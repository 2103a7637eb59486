# Page selection and result assembly of the `pdf_read` tool

The `pdf_read` tool extracts text from a PDF file for an agent runtime. Its one
piece of real logic is `parse_page_range`: it turns the user's page selection
(absent, `"all"`, `"5"`, `"3-7"` or `"2,5,1"`) and the document's bounds into
0-based page indices or an error record. This project models that parser.
It also models the two pure steps of `pdf_read` around it:

- the clamp of `max_pages` to `[1, 1000]`;
- the assembly of `content`, `pages_extracted` and `char_count` from the text of each selected page.

It proves the tool's safety property. Every index used to read a page lies in
`[0, total_pages)`, so `reader.pages[idx]` never fails. A success never holds
more pages than the clamped cap.

Files and modules:

- `wrappers.dfy`, module `Wrappers`: the `Option` type, whose `None` stands for Python's `None` or for a conversion that raised.
- `py_text.dfy`, module `PyText`: the Python `str` operations the parser uses: `isspace`, `isdigit`, `lower`, `strip`, `split`, `split(c, 1)`, `join`. They are restricted to ASCII.
- `py_int.dfy`, module `PyInt`: `int(s)` as a partial function (`None` is the `ValueError` case, including CPython's 4300-digit limit) and `str(n)`, with their round trip.
- `page_range.dfy`, module `PageRange`: `parse_page_range` as `ParsePageRange`, with one function per branch. Errors are a datatype of kinds. Each kind carries the values its message quotes.
- `page_range_props.dfy`, module `PageRangeProperties`: what each syntax means. `AllPages`, `SinglePage`, `DigitsSelect`, `DashRange`, `CommaListInRange`, `CommaListUncapped`, `CommaListOutOfRange` and the rejection lemmas (`RangeSideNotNumber`, `CommaItemNotNumber`, `CommaListRejected`, `NoSyntaxMatches`) give the result of `ParsePageRange` for any text of a given shape, as a value independent of the parser's branches. The `Written*` lemmas specialise them to text built with `str`. The rest are routing steps, stated against one branch function of `PageRange` or one helper: `RoutesToSinglePage`, `RoutesToDashRange`, `RoutesToCommaList`, `RangeSelects`, `RangeSidesRead`, `RangeTextSplits`, `RangeBadNumber`, `ListSelects`, `ListedInRange`, `ListedUncapped`, `ListedOutOfRange` and the item lemmas.
- `page_range_examples.dfy`, module `PageRangeExamples`: worked inputs derived from those lemmas.
- `pdf_read.dfy`, module `PdfRead`: the clamp, the page markers, content assembly (as a function and as the source's loop), and `ReadPdf`. `ReadPdf` is `pdf_read` after its path checks. It runs over an abstract `Document` (encryption flag, per-page texts).

Python's integer arithmetic is unbounded, so Dafny's `int` matches it in
arithmetic. Conversion between text and integers is not unbounded: since
Python 3.11 (and the security releases 3.7.14, 3.8.14, 3.9.14 and 3.10.7),
`int()` raises `ValueError` on a numeral of more than 4300
digits, leading zeros included, and `PyInt.ParseInt` models that limit. The
parser takes any integers for `total_pages` and `max_pages`. The model
spells out Python's meaning of `range` with empty bounds (`Range`) and of `s[:k]` with a negative `k` (`Prefix`).

## Model

| member | source | states |
|---|---|---|
| PageRange.ParsePageRange | tools/src/aden_tools/tools/pdf_read_tool/pdf_read_tool.py:34-84 | Absent input always succeeds. Every index of a success lies in `[0, totalPages)`, whatever `maxPages` is. A success has at most `maxPages` indices when `maxPages >= 1`. An error names an out-of-range page truly outside `[1, totalPages]`. A "pages start at 1" error only ever reports 0. A format or range error quotes the input. |
| PageRange.ParseDashRange | tools/src/aden_tools/tools/pdf_read_tool/pdf_read_tool.py:60-71 | A dash range that succeeds stays inside the document and within a non-negative cap. Its errors satisfy the same promises. |
| PageRange.SelectRange | tools/src/aden_tools/tools/pdf_read_tool/pdf_read_tool.py:64-71 | The checks in the source's order: a reversed range (`start > end`) is an invalid-range error quoting the text, otherwise a start of 0 is the "pages start at 1" error, otherwise an end past the document is an out-of-range error naming the end; it fails exactly when one of the three holds. A success is the run of consecutive indices from `start-1`, `min(end-start+1, maxPages)` of them (none for a non-positive cap), all inside the document. |
| PageRange.ParseCommaList | tools/src/aden_tools/tools/pdf_read_tool/pdf_read_tool.py:73-79 | A comma list that succeeds stays inside the document and within a non-negative cap. |
| PageRange.SelectListed | tools/src/aden_tools/tools/pdf_read_tool/pdf_read_tool.py:75-79 | After the check of every value, the kept indices lie inside the document and number at most a non-negative cap. The only possible error is an out-of-range page. |
| PageRange.ParseAll | tools/src/aden_tools/tools/pdf_read_tool/pdf_read_tool.py:74 | The item list parses exactly when every stripped item parses. The result then has one value per item, and each value is that item's `int`. |
| PageRange.ParseItem | tools/src/aden_tools/tools/pdf_read_tool/pdf_read_tool.py:74 | `int(p.strip())`: on an item with no `isspace` character at either end it agrees with `int` alone, and an item of whitespace only never parses. |
| PageRange.FirstOutOfRange | tools/src/aden_tools/tools/pdf_read_tool/pdf_read_tool.py:75-77 | The position of the first value outside `[1, totalPages]`: all values before it are in range, and the one there is not. |
| PageRange.MapAll | tools/src/aden_tools/tools/pdf_read_tool/pdf_read_tool.py:74 | A list comprehension whose element step may raise: it succeeds exactly when every element does, with one result per element. |
| PageRange.Prefix | tools/src/aden_tools/tools/pdf_read_tool/pdf_read_tool.py:79 | Python's `s[:k]`: a prefix of `s` of length `min(k, \|s\|)`, or `max(0, \|s\|+k)` for negative `k`. |
| PageRange.Range | tools/src/aden_tools/tools/pdf_read_tool/pdf_read_tool.py:51 | `list(range(lo, hi))`: empty unless `lo < hi`, otherwise `hi - lo` consecutive integers from `lo`. |
| PageRange.ToIndices | tools/src/aden_tools/tools/pdf_read_tool/pdf_read_tool.py:79 | `[p - 1 for p in ...]`: one index per page number, in the same order, each one less than its page number. |
| PageRange.ParseSinglePage | tools/src/aden_tools/tools/pdf_read_tool/pdf_read_tool.py:54-58 | A digit string succeeds exactly when it has at most 4300 characters and its value is a page of the document, and then selects that page alone. Otherwise the error names the value as out of range, or, past 4300 characters, is the format error quoting the text. |
| PageRangeProperties.AllPages | tools/src/aden_tools/tools/pdf_read_tool/pdf_read_tool.py:50-51 | Absent or "all" in any case selects exactly `0 .. min(totalPages, maxPages)-1` ascending. It is empty when that minimum is not positive. |
| PageRangeProperties.SinglePage | tools/src/aden_tools/tools/pdf_read_tool/pdf_read_tool.py:54-58 | Any number of leading zeros, then `str(n)`: the format error when zeros and digits together exceed 4300 characters, else `[n-1]` when `1 <= n <= totalPages`, else an out-of-range error naming `n`. This covers "0". |
| PageRangeProperties.DigitsSelect | tools/src/aden_tools/tools/pdf_read_tool/pdf_read_tool.py:53-58 | Any digit text that `int` reads as `n` (so at most 4300 characters) selects `[n-1]` when `n` is a page of the document, and otherwise fails naming `n`. The cap plays no part. |
| PageRangeProperties.DashRange | tools/src/aden_tools/tools/pdf_read_tool/pdf_read_tool.py:60-71 | For any `a-b` with no dash in `a`, no comma, and both sides read by `int` (whitespace, sign and leading zeros allowed), the first failure wins: reversed range, then start 0, then end past the document. Otherwise the result is the consecutive indices from `start-1`, of length `min(end-start+1, maxPages)`. The end may carry its own minus sign. |
| PageRangeProperties.WrittenDashRange | tools/src/aden_tools/tools/pdf_read_tool/pdf_read_tool.py:60-71 | `DashRange` for the text `f"{start}-{end}"`, for numbers of at most 4300 digits. |
| PageRangeProperties.CommaListInRange | tools/src/aden_tools/tools/pdf_read_tool/pdf_read_tool.py:73-79 | For any text with a comma whose stripped items read as `ns`, all pages of the document: success, keeping the first `maxPages` of them (Python's cut, so a negative cap drops from the end), each minus one, in the order written, repeats kept. |
| PageRangeProperties.CommaListUncapped | tools/src/aden_tools/tools/pdf_read_tool/pdf_read_tool.py:73-79 | For any such text with no more numbers than the cap: exactly `[n - 1 for n in ns]`. |
| PageRangeProperties.CommaListOutOfRange | tools/src/aden_tools/tools/pdf_read_tool/pdf_read_tool.py:75-77 | For any text with a comma whose items read as `ns`: the error names the first number outside the document in the order written, even when it lies beyond the cap. |
| PageRangeProperties.WrittenListInRange | tools/src/aden_tools/tools/pdf_read_tool/pdf_read_tool.py:73-79 | `CommaListInRange` for the text `",".join(str(n) for n in ns)` with two or more numbers, each of at most 4300 digits. |
| PageRangeProperties.WrittenListUncapped | tools/src/aden_tools/tools/pdf_read_tool/pdf_read_tool.py:73-79 | `CommaListUncapped` for the text `",".join(str(n) for n in ns)`, each number of at most 4300 digits. |
| PageRangeProperties.WrittenListOutOfRange | tools/src/aden_tools/tools/pdf_read_tool/pdf_read_tool.py:75-77 | `CommaListOutOfRange` for the text `",".join(str(n) for n in ns)`, each number of at most 4300 digits. |
| PageRangeProperties.RangeSideNotNumber | tools/src/aden_tools/tools/pdf_read_tool/pdf_read_tool.py:60-62 | `a-b` where `a` or `b` is not an integer is a format error quoting the whole text, whatever the other side holds. |
| PageRangeProperties.CommaItemNotNumber | tools/src/aden_tools/tools/pdf_read_tool/pdf_read_tool.py:73-74 | Comma-free pieces joined with commas, one of which does not parse after stripping, give a format error quoting the whole text. |
| PageRangeProperties.CommaListRejected | tools/src/aden_tools/tools/pdf_read_tool/pdf_read_tool.py:73-74 | Any text with a comma whose items do not all parse is a format error quoting the text. |
| PageRangeProperties.NoSyntaxMatches | tools/src/aden_tools/tools/pdf_read_tool/pdf_read_tool.py:81 | Text that is not "all", not all digits, and has neither dash nor comma is a format error. |
| PageRangeProperties.RoutesToSinglePage | tools/src/aden_tools/tools/pdf_read_tool/pdf_read_tool.py:53-58 | Routing step: any text of digits only is read by the single-page branch, before the range and list tests. |
| PageRangeProperties.PaddedNumberValue | tools/src/aden_tools/tools/pdf_read_tool/pdf_read_tool.py:54-55 | Leading zeros then `str(n)` is a digit string; `int` reads it as `n` when it has at most 4300 characters and raises otherwise. |
| PageRangeProperties.RangeSelects | tools/src/aden_tools/tools/pdf_read_tool/pdf_read_tool.py:60-62 | Routing step: `a-b` reaches the range checks with `int(a)` and `int(b)` as start and end. |
| PageRangeProperties.RangeTextSplits | tools/src/aden_tools/tools/pdf_read_tool/pdf_read_tool.py:60-61 | Routing step: `a-b` with a dash-free, comma-free `a` and a comma-free `b` takes the range branch and is cut into exactly `a` and `b`. |
| PageRangeProperties.RangeBadNumber | tools/src/aden_tools/tools/pdf_read_tool/pdf_read_tool.py:60-62 | Routing step: a range whose start or end text is not an integer gives a format error quoting the input. |
| PageRangeProperties.ListSelects | tools/src/aden_tools/tools/pdf_read_tool/pdf_read_tool.py:73-74 | Routing step: a text with a comma whose items read as `ns` reaches the range check and cut of exactly `ns`. |
| PageRangeProperties.ListedInRange | tools/src/aden_tools/tools/pdf_read_tool/pdf_read_tool.py:75-79 | Numbers all in the document pass the check, and the first `maxPages` of them become indices in order. |
| PageRangeProperties.ListedUncapped | tools/src/aden_tools/tools/pdf_read_tool/pdf_read_tool.py:75-79 | Numbers all in the document and no more than the cap become exactly `[n - 1 for n in ns]`. |
| PageRangeProperties.ListedOutOfRange | tools/src/aden_tools/tools/pdf_read_tool/pdf_read_tool.py:75-77 | The check stops at the first number outside the document, before any cut. |
| PageRangeProperties.NumbersParse | tools/src/aden_tools/tools/pdf_read_tool/pdf_read_tool.py:74 | The items `str(n)` for `n` in `ns`, each stripped and converted, give back exactly `ns` when every number has at most 4300 digits. |
| PageRangeProperties.ItemsRead | tools/src/aden_tools/tools/pdf_read_tool/pdf_read_tool.py:74 | Items that each read as the number at the same position read as the whole list. |
| PageRangeProperties.ParseItemPadded | tools/src/aden_tools/tools/pdf_read_tool/pdf_read_tool.py:74 | `int(p.strip())` ignores any `isspace` characters around `str(n)`, including the separators `int` alone refuses, for `n` of at most 4300 digits. |
| PageRangeProperties.ParseItemStr | tools/src/aden_tools/tools/pdf_read_tool/pdf_read_tool.py:74 | `int(str(n).strip()) == n` for `n` of at most 4300 digits. |
| PageRangeProperties.OneItemFails | tools/src/aden_tools/tools/pdf_read_tool/pdf_read_tool.py:74 | One item that does not parse makes the whole comprehension raise. |
| PageRangeProperties.CommaListHasComma | tools/src/aden_tools/tools/pdf_read_tool/pdf_read_tool.py:73 | A list of two or more numbers written with commas contains a comma, so it reaches the comma test. |
| PageRangeProperties.CommaListParses | tools/src/aden_tools/tools/pdf_read_tool/pdf_read_tool.py:74 | The items of `",".join(str(n) for n in ns)` parse back to exactly `ns`, each number having at most 4300 digits. |
| PageRangeProperties.RoutesToCommaList | tools/src/aden_tools/tools/pdf_read_tool/pdf_read_tool.py:53-73 | Routing step: any text holding a comma is read as a comma list, whatever else it holds. |
| PageRangeProperties.RoutesToDashRange | tools/src/aden_tools/tools/pdf_read_tool/pdf_read_tool.py:53-60 | Routing step: any text holding a dash and no comma is read as a range. |
| PageRangeProperties.SeparatedIsNotDigitOrAll | tools/src/aden_tools/tools/pdf_read_tool/pdf_read_tool.py:50-54 | Text holding a dash or a comma is neither all digits nor any spelling of "all". |
| PageRangeExamples.RangeThreeToSeven | tools/src/aden_tools/tools/pdf_read_tool/pdf_read_tool.py:71 | "3-7" on 10 pages with cap 5 gives `[2,3,4,5,6]`. |
| PageRangeExamples.RangeThreeToSevenCapped | tools/src/aden_tools/tools/pdf_read_tool/pdf_read_tool.py:71 | "3-7" with cap 3 is silently cut to `[2,3,4]`. |
| PageRangeExamples.RangeWithSpaces | tools/src/aden_tools/tools/pdf_read_tool/pdf_read_tool.py:61-71 | "3 - 7" on 10 pages with cap 5 gives `[2,3,4,5,6]`: `int` skips the spaces. |
| PageRangeExamples.RangeWithLeadingZero | tools/src/aden_tools/tools/pdf_read_tool/pdf_read_tool.py:61-71 | "03-7" on 10 pages with cap 5 gives `[2,3,4,5,6]`. |
| PageRangeExamples.RangeReversed | tools/src/aden_tools/tools/pdf_read_tool/pdf_read_tool.py:64-65 | "5-2" is an invalid range. |
| PageRangeExamples.RangeFromZero | tools/src/aden_tools/tools/pdf_read_tool/pdf_read_tool.py:66-67 | "0-2" gives the "pages start at 1" error with 0. |
| PageRangeExamples.RangeNegativeEnd | tools/src/aden_tools/tools/pdf_read_tool/pdf_read_tool.py:61-65 | "3--5" splits as 3 and -5, so it is an invalid range. |
| PageRangeExamples.ListOrderKept | tools/src/aden_tools/tools/pdf_read_tool/pdf_read_tool.py:79 | "2,5,1" gives `[1,4,0]`, not sorted. |
| PageRangeExamples.ListRepeatKept | tools/src/aden_tools/tools/pdf_read_tool/pdf_read_tool.py:79 | "3,3" gives `[2,2]`, not deduplicated. |
| PageRangeExamples.ListWithSpaces | tools/src/aden_tools/tools/pdf_read_tool/pdf_read_tool.py:74-79 | "1, 3, 5" gives `[0,2,4]`: each item is stripped. |
| PageRangeExamples.SeparatorBeforeRange | tools/src/aden_tools/tools/pdf_read_tool/pdf_read_tool.py:61-62 | "\x1c3-5" is a format error: `int` does not skip U+001C. |
| PageRangeExamples.SeparatorBeforeListItem | tools/src/aden_tools/tools/pdf_read_tool/pdf_read_tool.py:74-79 | "\x1c3,5" gives `[2,4]`: `strip` removes U+001C before `int` runs. |
| PageRangeExamples.SingleFive | tools/src/aden_tools/tools/pdf_read_tool/pdf_read_tool.py:54-58 | "5" gives `[4]`. |
| PageRangeExamples.SingleLeadingZeros | tools/src/aden_tools/tools/pdf_read_tool/pdf_read_tool.py:54-58 | "007" gives `[6]`. |
| PageRangeExamples.SingleZero | tools/src/aden_tools/tools/pdf_read_tool/pdf_read_tool.py:56-57 | "0" is out of range. |
| PageRangeExamples.SingleTooLong | tools/src/aden_tools/tools/pdf_read_tool/pdf_read_tool.py:54-55 | 4300 zeros then "5" is a format error: `int` refuses 4301 digit characters although the value is 5. |
| PageRangeExamples.RangeEndTooLong | tools/src/aden_tools/tools/pdf_read_tool/pdf_read_tool.py:61-62 | "1-" then an end of 4301 digit characters is a format error: `int` refuses that side. |
| PageRangeExamples.EmptyText | tools/src/aden_tools/tools/pdf_read_tool/pdf_read_tool.py:81 | "" is a format error. |
| PageRangeExamples.PaddedNumber | tools/src/aden_tools/tools/pdf_read_tool/pdf_read_tool.py:81 | " 5" is a format error. |
| PageRangeExamples.LeadingDash | tools/src/aden_tools/tools/pdf_read_tool/pdf_read_tool.py:61-62 | "-5" is a format error, because its start text is empty. |
| PageRangeExamples.DoubleRange | tools/src/aden_tools/tools/pdf_read_tool/pdf_read_tool.py:61-62 | "1-2-3" is a format error, because "2-3" is not an integer. |
| PageRangeExamples.NestedRangeInList | tools/src/aden_tools/tools/pdf_read_tool/pdf_read_tool.py:74 | "1,1-3" is a format error. |
| PageRangeExamples.EmptyItemInList | tools/src/aden_tools/tools/pdf_read_tool/pdf_read_tool.py:74 | "1,,2" is a format error. |
| PyText.IsDigitString | tools/src/aden_tools/tools/pdf_read_tool/pdf_read_tool.py:54 | `isdigit` holds only for text with no dash, comma or surrounding whitespace, so a digit string matches no other syntax. |
| PyText.Lower | tools/src/aden_tools/tools/pdf_read_tool/pdf_read_tool.py:50 | `lower` keeps the length and lowers each character on its own. |
| PyText.IsAllToken | tools/src/aden_tools/tools/pdf_read_tool/pdf_read_tool.py:50 | `pages.lower() == "all"` holds exactly for the eight case mixes of "all". |
| PyText.LeadingBlanks | tools/src/aden_tools/tools/pdf_read_tool/pdf_read_tool.py:74 | The length of the whitespace run `lstrip` removes: every character before it is whitespace, and the one there is not. |
| PyText.TrimStart | tools/src/aden_tools/tools/pdf_read_tool/pdf_read_tool.py:74 | `lstrip` removes a prefix made only of whitespace and stops at a non-space. |
| PyText.TrimEnd | tools/src/aden_tools/tools/pdf_read_tool/pdf_read_tool.py:74 | `rstrip` removes a suffix made only of whitespace and stops after a non-space. |
| PyText.StripBlank | tools/src/aden_tools/tools/pdf_read_tool/pdf_read_tool.py:74 | Stripping by a whitespace class leaves text that neither starts nor ends with it and is no longer than the input. |
| PyText.Strip | tools/src/aden_tools/tools/pdf_read_tool/pdf_read_tool.py:74 | `strip` leaves text that neither starts nor ends with `isspace` whitespace and is no longer than the input. |
| PyText.StripPadded | tools/src/aden_tools/tools/pdf_read_tool/pdf_read_tool.py:74 | Stripping removes exactly the whitespace around an unpadded text. |
| PyText.TrimStartBlanks | tools/src/aden_tools/tools/pdf_read_tool/pdf_read_tool.py:74 | `lstrip` on whitespace followed by a non-space removes exactly that whitespace. |
| PyText.TrimEndBlanks | tools/src/aden_tools/tools/pdf_read_tool/pdf_read_tool.py:74 | `rstrip` on a text ending in a non-space, then whitespace, removes exactly that whitespace. |
| PyText.StripUnpadded | tools/src/aden_tools/tools/pdf_read_tool/pdf_read_tool.py:74 | Stripping leaves unpadded text unchanged. |
| PyText.StripAllBlank | tools/src/aden_tools/tools/pdf_read_tool/pdf_read_tool.py:74 | Stripping whitespace-only text leaves nothing. |
| PyText.Split | tools/src/aden_tools/tools/pdf_read_tool/pdf_read_tool.py:74 | `split(",")` gives at least one piece, none holding a comma, and joining them on commas rebuilds the input. |
| PyText.SplitJoin | tools/src/aden_tools/tools/pdf_read_tool/pdf_read_tool.py:74 | Splitting a comma-joined list of comma-free pieces gives the pieces back. |
| PyText.SplitOnce | tools/src/aden_tools/tools/pdf_read_tool/pdf_read_tool.py:61 | `split("-", 1)` gives a dash-free text before the first dash and the rest after it. |
| PyText.SplitOnceUnique | tools/src/aden_tools/tools/pdf_read_tool/pdf_read_tool.py:61 | The cut is at the first dash: `a + "-" + b` with dash-free `a` splits into `(a, b)`. |
| PyText.IndexOf | tools/src/aden_tools/tools/pdf_read_tool/pdf_read_tool.py:61 | The first occurrence: the character is there and not before. |
| PyText.Join | tools/src/aden_tools/tools/pdf_read_tool/pdf_read_tool.py:150 | `sep.join(parts)` is empty for no parts and otherwise opens with the first part, followed by the separator when more parts come. |
| PyText.JoinedHasSeparator | tools/src/aden_tools/tools/pdf_read_tool/pdf_read_tool.py:73 | Two or more pieces joined on a character contain that character. |
| PyText.JoinLength | tools/src/aden_tools/tools/pdf_read_tool/pdf_read_tool.py:150 | A join's length is the pieces' total plus one separator between each neighbouring pair. |
| PyInt.ParseInt | tools/src/aden_tools/tools/pdf_read_tool/pdf_read_tool.py:62 | `int(s)`: a negative result needs a minus sign in the text, so a range's start, read from text before the first dash, is never negative. |
| PyInt.ParseIntStr | tools/src/aden_tools/tools/pdf_read_tool/pdf_read_tool.py:62 | `int(str(n)) == n` for every integer `n` whose `str` has at most 4300 digits. |
| PyInt.ParseIntTrailing | tools/src/aden_tools/tools/pdf_read_tool/pdf_read_tool.py:62 | `int` ignores its own whitespace after a number of at most 4300 digits, as in the start of "3 - 7". |
| PyInt.ParseIntLeading | tools/src/aden_tools/tools/pdf_read_tool/pdf_read_tool.py:62 | `int` ignores its own whitespace before a number of at most 4300 digits, as in the end of "3 - 7". |
| PyInt.ParseIntPadded | tools/src/aden_tools/tools/pdf_read_tool/pdf_read_tool.py:62 | `int` ignores its own whitespace (space and \t \n \v \f \r) around a number of at most 4300 digits. |
| PyInt.ParseIntDigits | tools/src/aden_tools/tools/pdf_read_tool/pdf_read_tool.py:54-55 | `int` of a digit string is the value of its digits when it has at most 4300 characters, and raises `ValueError` when it has more, leading zeros counted. |
| PyInt.ParseIntRejects | tools/src/aden_tools/tools/pdf_read_tool/pdf_read_tool.py:62 | Text with no `int` whitespace at either end and a non-digit anywhere except a leading sign raises `ValueError`, as in "2-3". |
| PyInt.ParseIntBlank | tools/src/aden_tools/tools/pdf_read_tool/pdf_read_tool.py:62 | `int` of an empty or all-whitespace text raises `ValueError`. |
| PyInt.LeadingZero | tools/src/aden_tools/tools/pdf_read_tool/pdf_read_tool.py:54-55 | One leading zero does not change a digit string's value. |
| PyInt.LeadingZeros | tools/src/aden_tools/tools/pdf_read_tool/pdf_read_tool.py:54-55 | Leading zeros do not change a digit string's value. |
| PyInt.NatStr | tools/src/aden_tools/tools/pdf_read_tool/pdf_read_tool.py:148 | `str(n)` for `n >= 0` is digits only, has the value `n`, and has no leading zero. |
| PyInt.Str | tools/src/aden_tools/tools/pdf_read_tool/pdf_read_tool.py:148 | `str(n)` is non-empty, starts and ends without whitespace of either class, is comma-free, and has no minus sign when `n >= 0`. |
| PdfRead.ClampMaxPages | tools/src/aden_tools/tools/pdf_read_tool/pdf_read_tool.py:132 | The clamp always lands in `[1, 1000]`. It is the identity inside that interval, 1 below it and 1000 above it. |
| PdfRead.PageMarker | tools/src/aden_tools/tools/pdf_read_tool/pdf_read_tool.py:148 | A page marker is `"--- Page "`, then `str(idx+1)`, then `" ---\n"`: 14 characters plus the number. |
| PdfRead.MarkerNamesPage | tools/src/aden_tools/tools/pdf_read_tool/pdf_read_tool.py:148 | The number inside a marker reads back as `idx+1`, for a page number of at most 4300 digits. |
| PdfRead.ContentParts | tools/src/aden_tools/tools/pdf_read_tool/pdf_read_tool.py:145-148 | One part per selected index, in selection order, each the marker of that page followed by its text. |
| PdfRead.Content | tools/src/aden_tools/tools/pdf_read_tool/pdf_read_tool.py:150 | Content is empty exactly when no page is selected, and otherwise starts with the first selected page's marker. |
| PdfRead.AssembleContent | tools/src/aden_tools/tools/pdf_read_tool/pdf_read_tool.py:145-150 | The loop over selected pages builds the same content as the join of all page parts, and counts one part per index. |
| PdfRead.PartsLength | tools/src/aden_tools/tools/pdf_read_tool/pdf_read_tool.py:145-148 | The parts' total length is the sum over selected pages of marker and text lengths. |
| PdfRead.ContentLength | tools/src/aden_tools/tools/pdf_read_tool/pdf_read_tool.py:145-158 | `char_count` equals the sum over selected pages of marker and text lengths, plus 2 per separator. It is 0 with no pages. |
| PdfRead.ReadPdf | tools/src/aden_tools/tools/pdf_read_tool/pdf_read_tool.py:132-159 | Encrypted documents fail with `Encrypted`. Selection errors are returned unchanged. A successful selection always yields a result whose `content` is the page parts of the selected indices joined by blank lines, with `pages_extracted` equal to the number of indices, at most the clamped cap (so at most 1000). `total_pages` is the page count and `char_count == \|content\|`. |
| PdfRead.ReadAllPages | tools/src/aden_tools/tools/pdf_read_tool/pdf_read_tool.py:132-159 | With no selection, the read takes the first `min(total_pages, clamped max_pages)` pages in order. |
| PdfRead.ReadCharCount | tools/src/aden_tools/tools/pdf_read_tool/pdf_read_tool.py:145-158 | The `char_count` of a successful read, computed from the selected pages alone. |

## Left out

- File-system checks (lines 123-130): `Path.resolve`, `exists`, `is_file` and the `.pdf` suffix test are I/O on the host. The `path` and `name` fields that come from them are also left out.
- The PDF reader (lines 134-147) is a foreign library. `PdfReader`, `is_encrypted`, `len(reader.pages)` and `extract_text()` become the `Document` input: an encryption flag and one text per page. A page for which `extract_text()` returns `None` is given as `""`, which is what `or ""` produces.
- Metadata (lines 161-171): copying pypdf's metadata dictionary and `str()` of its date objects is plumbing over foreign values.
- The `PermissionError` and generic `Exception` handlers (lines 175-178): they only turn OS and library failures into error records. No failure of `reader.pages[idx]` needs such a handler, because `ReadPdf` proves every index is in range.
- `register_tools` and the `@mcp.tool()` registration are host wiring.
- Unicode: characters are ASCII. `str.isspace` is space, \t \n \v \f \r and U+001C..U+001F (`IsSpace`). `int()` skips only space and \t \n \v \f \r (`IsIntSpace`), then reads a sign and ASCII digits. Python also accepts other Unicode digits and whitespace (U+0085, U+00A0 and others), and underscores between digits in `int()`. `lower()` is ASCII lowering. That is exact for the "all" test, since no other character lowers to `a` or `l`.
- PyInt.Str: `str(n)` also raises past 4300 digits, and the model's `Str` does not. No integer the source turns into text reaches that limit. Each is one of three kinds:
  - a page number `idx + 1 <= total_pages` (line 148);
  - the page count `total_pages`, the length of the reader's page list and so far below 10^4300 (lines 57, 69, 77);
  - a value `int()` has just read from at most 4300 digits (`page_num`, `start`, `end`, `p` at lines 57, 67, 69, 77).

  Error messages are not modelled as text anyway (see the last line of this section). The lemmas that read `Str(n)` back require `WithinDigitLimit(n)`.
- The digit limit is CPython's default. `sys.set_int_max_str_digits`, `PYTHONINTMAXSTRDIGITS` and `-X int_max_str_digits` can change or disable it, and releases before 3.7.14, 3.8.14, 3.9.14 and 3.10.7 have none. The model fixes it at 4300.
- Message text: errors are kinds with the values their messages quote, not f-strings. The two "Invalid page format" messages, with and without the exception text (lines 81 and 84), are one kind, `InvalidFormat`.

## Behaviour worth knowing

- A range's start below 1 gives "Page numbers start at 1, got {start}" (line 67), its own kind `StartBelowOne`. The start is read from the text before the first dash, which holds no minus sign, so this message only ever reports 0 ("0-2").
- A range is cut at its first dash only (line 61), and each side goes to `int` unstripped (line 62): "3--5" is the reversed range 3 to -5, "1-2-3" is a format error, "3 - 7" and "03-7" are the range 3 to 7, and a U+001C before the start is a format error.
- `int` refuses a numeral of more than 4300 digits, leading zeros included (lines 55, 62 and 74), and the `ValueError` becomes the format error of line 84. So 4300 zeros followed by "5" is a format error, although "005" selects page 5.
- A range's cap keeps `range(start - 1, min(end, start - 1 + max_pages))` (line 71): the run is cut silently, with no error.
- The single-page branch (lines 54-58) ignores `max_pages`, so a success holds at most `max_pages` indices only when `max_pages >= 1`; the clamp on line 132 guarantees that.
- Comma-list items are stripped with `isspace` before `int` (line 74), so "1, 3, 5" and a U+001C before an item are accepted. Every number is range-checked before the cut `[:max_pages]` (lines 75-79), so an out-of-range number beyond the cap still fails the request. Repeats and order are kept, so `pages_extracted` may exceed `total_pages` ("1,1,1" on a one-page document); it never exceeds the clamped `max_pages`.
- `content` is the blank-line join of one part per selected index, each the page's marker followed by its text (lines 145-150). A page's own text may contain a line that looks like a marker, so markers cannot be counted back out of `content`. `ContentLength` gives its length from the pages alone.
