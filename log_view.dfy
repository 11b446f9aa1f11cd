/**
 * `LogBlock` and the per-line components under it (src/hl-logs.tsx): the
 * search box state, which items are listed, how each listed line is drawn
 * (whole, or cut into segments at its match ranges) and the line-number label
 * in front of it. The search itself is a collaborator outside the model:
 * its hits arrive as entries of the document with their matches.
 */
module LogView {
  import opened JsString
  import opened LineStore
  import opened MatchIndices
  import opened Highlight
  import opened LineNumbers

  /** The search-box state of a `LogBlock`. */
  class LogBlock {
    /** Whether every line is listed, rather than only the search hits. */
    var showAll: bool
    var searchText: string

    /** A new block lists the search hits of an empty search. */
    constructor ()
      ensures !showAll && searchText == ""
    {
      showAll := false;
      searchText := "";
    }

    /** Submitting the search form, or clicking the list icon, flips `showAll`. */
    method ToggleShowAll()
      modifies this`showAll
      ensures showAll == !old(showAll)
    {
      showAll := !showAll;
    }

    /** Typing in the search box. */
    method SetSearchText(text: string)
      modifies this`searchText
      ensures searchText == text
    {
      searchText := text;
    }

    /** The listed items for the current state: every line, or only the search hits. */
    function Items(data: string, searchResult: seq<Entry>): (r: seq<Entry>)
      reads this
      ensures showAll ==> r == Lines(data)
      ensures !showAll ==> r == searchResult
    {
      Displayed(showAll, Lines(data), searchResult)
    }
  }

  /** The items listed: every line when `showAll`, else the search hits. */
  function Displayed(showAll: bool, lines: seq<Entry>, searchResult: seq<Entry>): seq<Entry> {
    if showAll then lines else searchResult
  }

  /** How one listed line is drawn: as one highlighted text, or as segments. */
  datatype LineView = Whole(text: string) | Highlighted(parts: seq<Segment>)

  /** The text a line view shows, in order. */
  function ViewText(v: LineView): string {
    match v
    case Whole(t) => t
    case Highlighted(parts) => Text(parts)
  }

  /**
   * A line with its matches: with at least one match, the segments of the
   * flattened ranges; with none, the whole line.
   */
  function DrawLine(text: string, matches: seq<Match>): (v: LineView)
    ensures matches == [] ==> v == Whole(text)
    ensures matches != [] ==> v == Highlighted(Partition(text, Flatten(matches)))
  {
    if |matches| > 0 then Highlighted(Partition(text, MatchRanges(matches))) else Whole(text)
  }

  /**
   * `FilterdHighlightIt`: when every line is listed, the line is searched on
   * its own and drawn with the matches of that search (`InlineSearch`; no hit
   * counts as no matches); otherwise it is drawn with the matches its search
   * hit carries. Without chosen matches the line is drawn whole; with ranges
   * inside it, ascending and disjoint, it shows its own text in full; and its
   * bold segments are the chosen ranges' texts, in order.
   */
  function FilteredLine(showAll: bool, item: Entry, inlineMatches: seq<Match>): (v: LineView)
    ensures var chosen := if showAll then inlineMatches else item.matches;
      && (chosen == [] ==> v == Whole(item.line))
      && (WellFormed(Flatten(chosen), |item.line|) ==> ViewText(v) == item.line)
      && (v.Highlighted? ==> BoldTexts(v.parts) == MatchedTexts(item.line, Flatten(chosen)))
  {
    var chosen := if showAll then inlineMatches else item.matches;
    var v := DrawLine(item.line, chosen);
    ShownText(item.line, chosen);
    if chosen != [] then
      BoldPerRange(item.line, Flatten(chosen));
      v
    else v
  }

  /** A line drawn with ranges inside it, ascending and disjoint, shows its own text. */
  lemma ShownText(text: string, matches: seq<Match>)
    ensures WellFormed(Flatten(matches), |text|) ==> ViewText(DrawLine(text, matches)) == text
  {
    if matches != [] && WellFormed(Flatten(matches), |text|) {
      RoundTrip(text, Flatten(matches));
    }
  }

  /**
   * A line drawn with matches has exactly one bold segment per range of all
   * its matches, holding that range's text, in order.
   */
  lemma DrawnBolds(text: string, matches: seq<Match>)
    requires matches != []
    ensures DrawLine(text, matches).Highlighted?
    ensures BoldTexts(DrawLine(text, matches).parts) == MatchedTexts(text, Flatten(matches))
    ensures |BoldTexts(DrawLine(text, matches).parts)| == TotalIndices(matches)
  {
    BoldPerRange(text, Flatten(matches));
    FlattenLength(matches);
  }

  /**
   * The listed items are lines of the document as numbered there, provided
   * the search hits are; when every line is listed they are numbered 1, 2, …
   * in order.
   */
  lemma DisplayedFromLines(showAll: bool, data: string, searchResult: seq<Entry>)
    requires FromLines(searchResult, Lines(data))
    ensures FromLines(Displayed(showAll, Lines(data), searchResult), Lines(data))
    ensures showAll ==> forall i :: 0 <= i < |Displayed(showAll, Lines(data), searchResult)| ==>
      Displayed(showAll, Lines(data), searchResult)[i].lineNumber == i + 1
  {
    var lines := Lines(data);
    if showAll {
      forall k | 0 <= k < |lines|
        ensures 1 <= lines[k].lineNumber <= |lines| && lines[lines[k].lineNumber - 1].line == lines[k].line
      {
        assert lines[k].lineNumber == k + 1;
      }
    }
  }

  /**
   * The labels as written: `LogBlock` hands each `LineNumber` the number of
   * search hits as its `lines` count, whatever is listed. Each label reads
   * as its item's line number, padded to the digit count of the number of
   * hits.
   */
  function LabelsAsWritten(showAll: bool, data: string, searchResult: seq<Entry>): (r: seq<string>)
    ensures |r| == |Displayed(showAll, Lines(data), searchResult)|
    ensures forall k :: 0 <= k < |r| ==>
      && (forall i :: 0 <= i < |r[k]| ==> IsDigit(r[k][i]))
      && DigitsValue(r[k]) == Displayed(showAll, Lines(data), searchResult)[k].lineNumber
      && |r[k]| == Max(|Decimal(|searchResult|)|, |Decimal(Displayed(showAll, Lines(data), searchResult)[k].lineNumber)|)
  {
    var items := Displayed(showAll, Lines(data), searchResult);
    LabelsOf(items, |searchResult|)
  }

  /**
   * The labels with the count of the document's lines as the `lines` count:
   * each reads as its item's line number, padded to the digit count of the
   * number of lines.
   */
  function Labels(showAll: bool, data: string, searchResult: seq<Entry>): (r: seq<string>)
    ensures |r| == |Displayed(showAll, Lines(data), searchResult)|
    ensures forall k :: 0 <= k < |r| ==>
      && (forall i :: 0 <= i < |r[k]| ==> IsDigit(r[k][i]))
      && DigitsValue(r[k]) == Displayed(showAll, Lines(data), searchResult)[k].lineNumber
      && |r[k]| == Max(|Decimal(|Lines(data)|)|, |Decimal(Displayed(showAll, Lines(data), searchResult)[k].lineNumber)|)
  {
    var items := Displayed(showAll, Lines(data), searchResult);
    LabelsOf(items, |Lines(data)|)
  }

  /** The `LineNumber` label of each item among `lines` lines. */
  function LabelsOf(items: seq<Entry>, lines: nat): (r: seq<string>)
    ensures |r| == |items|
    ensures forall k :: 0 <= k < |r| ==>
      && r[k] == Label(items[k].lineNumber, lines)
      && (forall i :: 0 <= i < |r[k]| ==> IsDigit(r[k][i]))
      && DigitsValue(r[k]) == items[k].lineNumber
      && |r[k]| == Max(|Decimal(lines)|, |Decimal(items[k].lineNumber)|)
  {
    var r := seq(|items|, k requires 0 <= k < |items| => Label(items[k].lineNumber, lines));
    assert forall k :: 0 <= k < |r| ==>
      (forall i :: 0 <= i < |r[k]| ==> IsDigit(r[k][i])) && DigitsValue(r[k]) == items[k].lineNumber
    by {
      forall k | 0 <= k < |r|
        ensures (forall i :: 0 <= i < |r[k]| ==> IsDigit(r[k][i])) && DigitsValue(r[k]) == items[k].lineNumber
      {
        PaddedValue(items[k].lineNumber, |Decimal(lines)|);
      }
    }
    r
  }

  /**
   * As written, labels do not line up: in any document of ten or more lines,
   * a search whose hits are lines 1 and 10 labels them "1" and "10", since
   * two hits give a width of one digit; listing every line misaligns them too.
   */
  lemma AsWrittenMisaligned(data: string, showAll: bool)
    requires Breaks(data) >= 9
    ensures var lines := Lines(data);
      var hits := [lines[0], lines[9]];
      && FromLines(hits, lines)
      && |LabelsAsWritten(showAll, data, hits)| >= 2
      && |LabelsAsWritten(showAll, data, hits)[0]| == 1
      && |LabelsAsWritten(showAll, data, hits)[if showAll then 9 else 1]| == 2
  {
    var lines := Lines(data);
    var hits := [lines[0], lines[9]];
    var last := if showAll then 9 else 1;
    FirstAndTenth(data);
    SmallWidths();
    LabelWidth(showAll, data, hits, 0, 1);
    LabelWidth(showAll, data, hits, last, 10);
  }

  /** Lines 1 and 10 of a document of ten or more lines are lines of that document, numbered as there. */
  lemma FirstAndTenth(data: string)
    requires Breaks(data) >= 9
    ensures FromLines([Lines(data)[0], Lines(data)[9]], Lines(data))
    ensures Lines(data)[0].lineNumber == 1 && Lines(data)[9].lineNumber == 10
  {
    var lines := Lines(data);
    var hits := [lines[0], lines[9]];
    assert hits[0] == lines[0] && hits[1] == lines[9];
  }

  /** One and two have one digit, ten has two. */
  lemma SmallWidths()
    ensures |Decimal(1)| == 1 && |Decimal(2)| == 1 && |Decimal(10)| == 2
  {
    assert Decimal(10) == Decimal(1) + [DigitChar(0)];
  }

  /** The as-written label of a listed item with line number `n`, among two hits, is as wide as `n` has digits. */
  lemma LabelWidth(showAll: bool, data: string, hits: seq<Entry>, k: nat, n: nat)
    requires |hits| == 2 && k < |Displayed(showAll, Lines(data), hits)|
    requires Displayed(showAll, Lines(data), hits)[k].lineNumber == n && |Decimal(2)| <= |Decimal(n)|
    ensures |LabelsAsWritten(showAll, data, hits)[k]| == |Decimal(n)|
  {
  }

  /**
   * With the document's line count as the width, every label of a listed
   * item, whether every line or the search hits are listed, is exactly as
   * wide as the number of lines has digits, and distinct line numbers get
   * distinct labels.
   */
  lemma LabelsAligned(showAll: bool, data: string, searchResult: seq<Entry>)
    requires FromLines(searchResult, Lines(data))
    ensures forall k :: 0 <= k < |Labels(showAll, data, searchResult)| ==>
      |Labels(showAll, data, searchResult)[k]| == |Decimal(|Lines(data)|)|
    ensures forall j, k ::
      && 0 <= j < k < |Labels(showAll, data, searchResult)|
      && Displayed(showAll, Lines(data), searchResult)[j].lineNumber != Displayed(showAll, Lines(data), searchResult)[k].lineNumber
      ==> Labels(showAll, data, searchResult)[j] != Labels(showAll, data, searchResult)[k]
  {
    var items := Displayed(showAll, Lines(data), searchResult);
    var n := |Lines(data)|;
    DisplayedFromLines(showAll, data, searchResult);
    forall k | 0 <= k < |items|
      ensures |Labels(showAll, data, searchResult)[k]| == |Decimal(n)|
    {
      LabelAligned(items[k].lineNumber, n);
    }
  }
}
