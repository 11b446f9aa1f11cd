# hl-logs in Dafny

A verified model of the logic inside `src/hl-logs.tsx`, the React log viewer
`HighlightJsLog` from react-highlightjs-logs:

- `JsString`: the JavaScript string primitives the component relies on. These are
  `substring` (clamps both bounds and swaps them when reversed), `trim`, and the
  decimal rendering `${n}`.
- `LineStore`: the line store of `LogBlock`. The raw text is split on `'\n'` and
  each line is numbered `i + 1`.
- `MatchIndices`: the `reduce` that flattens a search hit's matches into one list
  of inclusive `[start, end]` ranges.
- `Highlight`: `Highlighter`, the loop that cuts a line into dimmed gaps, bold
  matches and a plain tail.
- `LineNumbers`: `padLeadingZeros` and the `LineNumber` label.
- `Ingestion`: the `HighlightJsLog` state. Its fields are `data`, `isLoading`,
  `fullScreen`, and `listening` (whether a websocket message handler is installed). Its handlers cover the `text` prop, the one-shot GET of `url`, the
  websocket stream, the full-screen button and the Escape key.
- `LogView`: the `LogBlock` search-box state (`showAll`, `searchText`). It also
  covers the choice of listed items, how `FilterdHighlightIt` and `InlineSearch`
  draw a listed line, and the line-number labels of the listed items.

The transport is outside the model: axios, the websocket, and the search
collaborator `useSearch`. Each handler takes what the transport produced as a
parameter. Search hits arrive as entries of the document together with their
matches.

When `formatMessage` throws on a websocket message, the handler replaces the
whole document with the text `'Something went wrong! Please try again.'`,
single quotes included, and leaves `isLoading` as it was
(src/hl-logs.tsx:126). A fault on the first message therefore leaves the
loading view up. `Ingestion.HighlightJsLog.OnMessage` does the same.

Only an exception thrown by the websocket constructor is handled
(src/hl-logs.tsx:102-113): loading ends and the error document is shown. The
socket's error and close handlers are commented out (src/hl-logs.tsx:115-117).
A connection that fails after the constructor returns, such as a server that is
down or a refused handshake, therefore runs no handler. `isLoading` stays true
and the loading view stays up until a message arrives. In the model this is
`OpenStream(Constructed)` followed by no `OnMessage`, which leaves `isLoading`
true.

## Model

| member | source | states |
|---|---|---|
| `JsString.Substring` | src/hl-logs.tsx:271-288 | `substring` never fails; for in-range bounds it is exactly the slice between them, `s[a..b]` when ordered and `s[b..a]` when swapped, and it is never longer than `s` |
| `JsString.TrimCharacterization` | src/hl-logs.tsx:83 | `trim` keeps exactly the stretch between the first and the last non-white-space character; everything removed before and after it is white space |
| `JsString.TrimIdempotent` | src/hl-logs.tsx:83 | trimming a trimmed text changes nothing |
| `JsString.Decimal` | src/hl-logs.tsx:408 | `${n}` is a non-empty run of digits without a leading zero (except for 0), one digit exactly when n < 10 |
| `JsString.DecimalValue` | src/hl-logs.tsx:408 | reading the decimal rendering back gives the number |
| `JsString.DecimalLengthMonotone` | src/hl-logs.tsx:497-500 | a larger number never has fewer digits |
| `LineStore.Split` | src/hl-logs.tsx:555 | `split('\n')` never yields an empty list |
| `LineStore.Lines` | src/hl-logs.tsx:554-556 | one line more than there are line breaks, numbered `i + 1` in order, no line containing a break |
| `LineStore.SplitCount` | src/hl-logs.tsx:555 | there are exactly (number of `'\n'`) + 1 lines |
| `LineStore.SplitAppend` | src/hl-logs.tsx:555 | splitting `a + "\n" + b` gives the lines of `a` followed by the lines of `b` |
| `LineStore.JoinSplit` | src/hl-logs.tsx:555 | joining the lines with `'\n'` gives the raw text back |
| `LineStore.SplitJoin` | src/hl-logs.tsx:555 | splitting a join of break-free lines gives those lines back |
| `LineStore.LinesRoundTrip` | src/hl-logs.tsx:554-556 | the store is never empty, its texts join back to the data, and `""` is one empty line numbered 1 |
| `MatchIndices.Reduce` | src/hl-logs.tsx:385-391 | the left fold that spreads each match's `indices` after the accumulator equals the accumulator followed by the in-order concatenation |
| `MatchIndices.MatchRanges` | src/hl-logs.tsx:319-321 | the fold started from `[]` is the in-order concatenation of all `indices`, and no matches give no ranges |
| `MatchIndices.FlattenLength` | src/hl-logs.tsx:385-391 | the flattened list's length is the sum of the matches' lengths |
| `MatchIndices.FlattenAppend` | src/hl-logs.tsx:385-391 | flattening distributes over concatenation of match lists |
| `MatchIndices.FlattenMembers` | src/hl-logs.tsx:385-391 | a range is in the flattened list exactly when some match lists it |
| `Highlight.Highlighter` | src/hl-logs.tsx:261-292 | the loop pushes exactly the segments of the cut specification. With no ranges it pushes one plain segment holding the line, or nothing for an empty line. With ascending, disjoint ranges inside the line, the segment texts spell the line |
| `Highlight.NoRanges` | src/hl-logs.tsx:287-288 | no ranges: the tail is the whole line, and it is omitted when the line is empty |
| `Highlight.TextUpTo` | src/hl-logs.tsx:264-285 | after the first i well-formed ranges the segments spell the line up to the cursor `lastIndex` |
| `Highlight.RoundTrip` | src/hl-logs.tsx:261-292 | for well-formed ranges the concatenated segment texts are the line |
| `Highlight.BoldsUpTo` | src/hl-logs.tsx:264-285 | the first i ranges give one bold text per range, in order |
| `Highlight.BoldPerRange` | src/hl-logs.tsx:276-283 | for any ranges, exactly one bold segment per range, in range order, holding `value.substring(start, end + 1)` |
| `Highlight.BoldSlices` | src/hl-logs.tsx:276-283 | for ranges inside the line, in any order and possibly overlapping, the i-th bold segment is the inclusive slice `value[start..end]` |
| `Highlight.CutsInside` | src/hl-logs.tsx:265-285 | for ranges inside the line, in any order, the cursor stays inside the line and every cut joins two different positions of the line |
| `Highlight.NoEmptySegments` | src/hl-logs.tsx:266-288 | for ranges inside the line, in any order, no emitted segment is empty: gaps only when `lastIndex !== start`, the tail only when `lastIndex !== value.length`, and each range covers a character |
| `Highlight.ShapeUpTo` | src/hl-logs.tsx:265-285 | the first i ranges give at most 2i cuts, none of them plain |
| `Highlight.Shape` | src/hl-logs.tsx:261-292 | at most 2·(number of ranges)+1 segments, and a plain segment can only come last |
| `LineNumbers.ZeroPadded` | src/hl-logs.tsx:407-411 | the padded text has length max(size, digits of num), is '0's followed by `${num}`, and equals `${num}` when that is already long enough |
| `LineNumbers.PadLeadingZeros` | src/hl-logs.tsx:407-411 | the `while` loop that prepends '0' computes exactly that padded text |
| `LineNumbers.PaddedValue` | src/hl-logs.tsx:407-411 | the padded text is all digits and still denotes num |
| `LineNumbers.PaddedInjective` | src/hl-logs.tsx:407-411 | different numbers padded to one width give different labels |
| `LineNumbers.LabelAligned` | src/hl-logs.tsx:497-500 | every line number up to `lines` gets a label exactly as wide as `lines` has digits |
| `Ingestion.ModeOf` | src/hl-logs.tsx:74-101 | the GET runs exactly when there is a URL and no websocket, the stream exactly when there is a URL and a websocket, and never both |
| `Ingestion.HighlightJsLog.constructor` | src/hl-logs.tsx:65-68 | initial state: the `text` prop, not loading, not full screen |
| `Ingestion.HighlightJsLog.View` | src/hl-logs.tsx:167-176 | the loading view exactly while loading, otherwise the document |
| `Ingestion.HighlightJsLog.TextChanged` | src/hl-logs.tsx:70-72 | a new `text` prop replaces the document |
| `Ingestion.HighlightJsLog.StartFetch` | src/hl-logs.tsx:74-77 | loading starts exactly in one-shot mode; otherwise nothing changes |
| `Ingestion.HighlightJsLog.FinishFetch` | src/hl-logs.tsx:78-93 | the document becomes the trimmed body or the error document, and loading ends on both paths |
| `Ingestion.HighlightJsLog.OpenStream` | src/hl-logs.tsx:97-113 | only in live mode: loading starts; a socket constructor that throws ends loading and shows the error document; a constructed socket leaves loading on and installs the message handler |
| `Ingestion.HighlightJsLog.OnMessage` | src/hl-logs.tsx:118-127 | a formatted message is appended as a new line when non-empty and ends loading; a fault replaces the document by the fault text and leaves loading as it was |
| `Ingestion.HighlightJsLog.ToggleFullScreen` | src/hl-logs.tsx:186 | the button flips full-screen mode |
| `Ingestion.HighlightJsLog.KeyDown` | src/hl-logs.tsx:131-137 | Escape always leaves full-screen mode; other keys change nothing |
| `Ingestion.FourPartLines` | src/hl-logs.tsx:85-89 | splitting text, two more texts and a last text joined by breaks gives the lines of each part in turn, and a break-free last text is the last line |
| `Ingestion.MiddleLines` | src/hl-logs.tsx:85-89 | with break-free middle texts, each is exactly one line between the first and last texts' lines |
| `Ingestion.ErrorDocumentLines` | src/hl-logs.tsx:107-112 | the error document's lines are the message's lines, then exactly the two guidance lines, then the URL's lines; a break-free URL is the last line |
| `Ingestion.AppendedLines` | src/hl-logs.tsx:122 | a non-empty message adds its lines after the existing ones, which keep their texts and numbers; an empty one changes nothing |
| `Ingestion.TwoMessages` | src/hl-logs.tsx:118-124 | two messages are appended as lines in arrival order |
| `LogView.LogBlock.constructor` | src/hl-logs.tsx:558-570 | a new block lists search hits for an empty search text |
| `LogView.LogBlock.ToggleShowAll` | src/hl-logs.tsx:596-611 | submitting the form or clicking the icon flips `showAll` |
| `LogView.LogBlock.SetSearchText` | src/hl-logs.tsx:605 | typing sets the search text |
| `LogView.LogBlock.Items` | src/hl-logs.tsx:636 | the listed items are all lines of the document when `showAll`, else exactly the search hits |
| `LogView.DrawLine` | src/hl-logs.tsx:380-398 | a line with matches is drawn as the highlighter's segments over the flattened ranges; without matches it is drawn whole |
| `LogView.FilteredLine` | src/hl-logs.tsx:350-404 | with the chosen matches (the inline search's with `showAll`, else the hit's): none means the line is drawn whole; ascending, disjoint ranges inside the line mean it shows its own text in full; a highlighted line's bold texts are the chosen ranges' texts, in order |
| `LogView.DrawnBolds` | src/hl-logs.tsx:380-391 | a line drawn with matches has one bold segment per range of all its matches, holding that range's text, in order |
| `LogView.DisplayedFromLines` | src/hl-logs.tsx:636 | listed items are lines of the document as numbered there; with `showAll` they are numbered 1, 2, … in order |
| `LogView.LabelsAsWritten` | src/hl-logs.tsx:645 | as written, one label per listed item; each is all digits, reads back as the item's line number, and is as wide as the larger of the digit counts of the number of search hits and of the line number |
| `LogView.Labels` | src/hl-logs.tsx:497-500 | one label per listed item; each is all digits, reads back as the item's line number, and is as wide as the larger of the digit counts of the number of document lines and of the line number |
| `LogView.AsWrittenMisaligned` | src/hl-logs.tsx:645 | as written, in any document of ten or more lines, search hits at lines 1 and 10 get labels of different widths, whether or not every line is listed |
| `LogView.LabelsAligned` | src/hl-logs.tsx:497-500 | with the document's line count as the width, every listed label has the same width and distinct lines get distinct labels |

## Left out

- React rendering and hook scheduling are not modelled. This covers JSX, class names, styles, font-size arithmetic and `key` props. Each effect and handler is a method, run in the order the caller chooses.
- `hljs.highlight`, `Anser.ansiToText` and `Anser.ansiToHtml` are foreign libraries. They colour a text or strip ANSI codes after the model's segments are fixed. Segments carry the text handed to them.
- `useSearch` and Fuse are not modelled: the search result and the inline search's matches are parameters. `DisplayedFromLines` and `LabelsAligned` assume what the search is evidently meant to return: lines of the document, numbered as there. `searchThreshold`, `keys` and `remainOrder` are not modelled.
- `parseError` is not modelled: the error message is a parameter.
- The axios request and the websocket are not modelled: their results (`FetchOutcome`, `Construction`, `Formatting`) are parameters. A response body is taken to be a string; the source's `|| ''` maps a missing body to "". A non-string body would make `trim` throw inside the `try`, and that case is not modelled.
- Unmounting and the race between the `text` prop effect and a pending GET are not modelled.
- `ViewportList` virtualisation is not modelled: every listed item is considered rendered.
- DOM side effects are not modelled. These are the page `overflow-y` style, the keydown listener registration, and `scrollTo` for follow mode.
- The keydown listener is removed with a fresh function reference, so it stays attached after full-screen mode ends. This affects only event propagation, which is outside the model; the effect on `fullScreen` is the same.
- Indices count characters, whereas JavaScript strings count UTF-16 code units. Unicode white space outside the listed code points is not modelled.
- `LineNumber`'s first render pads line 1 before its effect runs. That transient label is not modelled; `LineNumbers.Label` is the label after the effect.
- `Ingestion.HighlightJsLog.OnMessage`: only a string result of `formatMessage` is modelled. Without a `formatMessage` the source appends the event object itself, and that is not modelled.

## Findings

| source | as written | input that shows it | evidently intended | confidence | as-written member | corrected member |
|---|---|---|---|---|---|---|
| src/hl-logs.tsx:645 | each `LineNumber` is padded to the digit count of `searchResult.length`, but the labels show line numbers of the whole document | a document of ten or more lines whose search hits are lines 1 and 10: two hits give width 1, so the labels are "1" and "10"; listing every line shows the same misalignment | pad to the digit count of the number of lines in the document, so every label has the same width | medium, not executed | `LogView.AsWrittenMisaligned` | `LogView.LabelsAligned` |
