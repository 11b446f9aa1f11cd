/**
 * `Highlighter` (src/hl-logs.tsx): cuts a line into segments at the match
 * ranges. Walking the ranges in order with a cursor `lastIndex`, it emits
 * the text between the cursor and the range start as a dimmed segment (only
 * when the cursor is not already at the start), the range itself as a bold
 * segment, and after the last range whatever is left as a plain segment
 * (only when the cursor is not at the end of the line). All cuts use
 * `substring`, so any ranges are accepted.
 */
module Highlight {
  import opened JsString
  import opened LineStore

  /**
   * An emitted part. `Dim` (opacity 0.7) and `Bold` parts are each passed to
   * the syntax highlighter on their own; the `Plain` tail is emitted as text.
   */
  datatype Segment = Dim(text: string) | Bold(text: string) | Plain(text: string)

  /** Every range lies inside a line of length `n`, in any order, overlapping or not. */
  predicate InLine(ranges: seq<Range>, n: int) {
    forall i :: 0 <= i < |ranges| ==> 0 <= ranges[i].start <= ranges[i].end < n
  }

  /** Ranges as the search delivers them: inside the line, ascending and disjoint. */
  predicate WellFormed(ranges: seq<Range>, n: int) {
    && InLine(ranges, n)
    && (forall i, j :: 0 <= i < j < |ranges| ==> ranges[i].end < ranges[j].start)
  }

  /** Where the cursor stands once the first `i` ranges are done: just past the last of them. */
  function Cursor(ranges: seq<Range>, i: nat): int
    requires i <= |ranges|
  {
    if i == 0 then 0 else ranges[i - 1].end + 1
  }

  /**
   * A `substring` call the walk makes, by its arguments and the kind of
   * segment it feeds: `value.substring(from, to)`.
   */
  datatype Cut = DimCut(from: int, to: int) | BoldCut(from: int, to: int) | PlainCut(from: int, to: int)

  /** The segment a cut produces from the line. */
  function Piece(value: string, c: Cut): Segment
  {
    match c
    case DimCut(a, b) => Dim(Substring(value, a, b))
    case BoldCut(a, b) => Bold(Substring(value, a, b))
    case PlainCut(a, b) => Plain(Substring(value, a, b))
  }

  /** The segments a run of cuts produces, in order. */
  function Render(value: string, cuts: seq<Cut>): (r: seq<Segment>)
    ensures |r| == |cuts|
    ensures forall k :: 0 <= k < |cuts| ==> r[k] == Piece(value, cuts[k])
  {
    seq(|cuts|, k requires 0 <= k < |cuts| => Piece(value, cuts[k]))
  }

  /** The dimmed gap before a range starting at `start`, from cursor `last`. */
  function GapCuts(last: int, start: int): seq<Cut> {
    if last != start then [DimCut(last, start)] else []
  }

  /** What the walk cuts for one range from cursor `last`: the gap, if any, then the range. */
  function StepCuts(last: int, r: Range): seq<Cut> {
    GapCuts(last, r.start) + [BoldCut(r.start, r.end + 1)]
  }

  /** The plain tail after the last range, from cursor `last`, in a line of length `n`. */
  function TailCuts(last: int, n: int): seq<Cut> {
    if last != n then [PlainCut(last, n)] else []
  }

  /** The cuts made while walking the first `i` ranges. */
  function CutsUpTo(ranges: seq<Range>, i: nat): seq<Cut>
    requires i <= |ranges|
  {
    if i == 0 then [] else CutsUpTo(ranges, i - 1) + StepCuts(Cursor(ranges, i - 1), ranges[i - 1])
  }

  /** The cuts of the whole walk over a line of length `n`: every range, then the tail. */
  function Cuts(ranges: seq<Range>, n: int): seq<Cut> {
    CutsUpTo(ranges, |ranges|) + TailCuts(Cursor(ranges, |ranges|), n)
  }

  /** The segments of the whole walk. */
  function Partition(value: string, ranges: seq<Range>): seq<Segment> {
    Render(value, Cuts(ranges, |value|))
  }

  /** The segment texts, concatenated in order. */
  function Text(parts: seq<Segment>): string {
    if parts == [] then [] else parts[0].text + Text(parts[1..])
  }

  /** The texts of the bold segments, in order. */
  function BoldTexts(parts: seq<Segment>): seq<string> {
    if parts == [] then []
    else (if parts[0].Bold? then [parts[0].text] else []) + BoldTexts(parts[1..])
  }

  /** Reference definition: `value.substring(start, end + 1)` for each range, in order. */
  function MatchedTexts(value: string, ranges: seq<Range>): seq<string> {
    seq(|ranges|, k requires 0 <= k < |ranges| => Substring(value, ranges[k].start, ranges[k].end + 1))
  }

  /**
   * The component itself: a loop over `indices` that moves the cursor and
   * pushes segments. With no ranges the line is one plain segment, or
   * nothing at all when the line is empty; with well-formed ranges the
   * segments spell the line.
   */
  method Highlighter(value: string, indices: seq<Range>) returns (parts: seq<Segment>)
    ensures parts == Partition(value, indices)
    ensures indices == [] ==> parts == (if value == "" then [] else [Plain(value)])
    ensures WellFormed(indices, |value|) ==> Text(parts) == value
  {
    var lastIndex := 0;
    parts := [];
    var i := 0;
    while i < |indices|
      invariant 0 <= i <= |indices|
      invariant lastIndex == Cursor(indices, i)
      invariant parts == Render(value, CutsUpTo(indices, i))
    {
      var start, end := indices[i].start, indices[i].end;
      RenderNext(value, indices, i);
      if lastIndex != start {
        parts := parts + [Dim(Substring(value, lastIndex, start))];
      }
      parts := parts + [Bold(Substring(value, start, end + 1))];
      lastIndex := end + 1;
      i := i + 1;
    }
    RenderAppend(value, CutsUpTo(indices, i), TailCuts(lastIndex, |value|));
    RenderTail(value, lastIndex);
    if lastIndex != |value| {
      parts := parts + [Plain(Substring(value, lastIndex, |value|))];
    }
    NoRanges(value);
    if WellFormed(indices, |value|) {
      RoundTrip(value, indices);
    }
  }

  /** Rendering two runs of cuts is rendering each, in order. */
  lemma RenderAppend(value: string, a: seq<Cut>, b: seq<Cut>)
    ensures Render(value, a + b) == Render(value, a) + Render(value, b)
  {
  }

  /** The segments of one range's cuts: the dimmed gap when the cursor is short of the start, then the bold range. */
  lemma RenderStep(value: string, last: int, r: Range)
    ensures Render(value, StepCuts(last, r))
      == (if last != r.start then [Dim(Substring(value, last, r.start))] else [])
         + [Bold(Substring(value, r.start, r.end + 1))]
  {
  }

  /** The segments of the first `i + 1` ranges: those of the first `i`, the gap if any, then the bold range. */
  lemma RenderNext(value: string, ranges: seq<Range>, i: nat)
    requires i < |ranges|
    ensures var last, r := Cursor(ranges, i), ranges[i];
      Render(value, CutsUpTo(ranges, i + 1))
      == Render(value, CutsUpTo(ranges, i))
         + (if last != r.start then [Dim(Substring(value, last, r.start))] else [])
         + [Bold(Substring(value, r.start, r.end + 1))]
  {
    RenderAppend(value, CutsUpTo(ranges, i), StepCuts(Cursor(ranges, i), ranges[i]));
    RenderStep(value, Cursor(ranges, i), ranges[i]);
  }

  /** The segments of the tail cut: the rest of the line as plain text, unless the cursor is at its end. */
  lemma RenderTail(value: string, last: int)
    ensures Render(value, TailCuts(last, |value|))
      == (if last != |value| then [Plain(Substring(value, last, |value|))] else [])
  {
  }

  /** With no ranges the whole line is one plain segment; an empty line gives no segment. */
  lemma NoRanges(value: string)
    ensures Partition(value, []) == (if value == "" then [] else [Plain(value)])
  {
    assert value[0..|value|] == value;
  }

  lemma {:induction false} TextAppend(a: seq<Segment>, b: seq<Segment>)
    ensures Text(a + b) == Text(a) + Text(b)
  {
    if a == [] {
      assert a + b == b;
    } else {
      assert (a + b)[1..] == a[1..] + b;
      TextAppend(a[1..], b);
    }
  }

  lemma {:induction false} BoldTextsAppend(a: seq<Segment>, b: seq<Segment>)
    ensures BoldTexts(a + b) == BoldTexts(a) + BoldTexts(b)
  {
    if a == [] {
      assert a + b == b;
    } else {
      assert (a + b)[1..] == a[1..] + b;
      BoldTextsAppend(a[1..], b);
    }
  }

  /** For well-formed ranges the cursor never passes the next range's start. */
  lemma CursorBeforeNext(ranges: seq<Range>, n: int, i: nat)
    requires WellFormed(ranges, n) && i < |ranges|
    ensures 0 <= Cursor(ranges, i) <= ranges[i].start
  {
    if i > 0 {
      assert ranges[i - 1].end < ranges[i].start;
    }
  }

  /** One range's segments, from a cursor at or before it, spell the line up to the range's end. */
  lemma TextOfStep(value: string, last: int, r: Range)
    requires 0 <= last <= r.start <= r.end < |value|
    ensures Text(Render(value, StepCuts(last, r))) == value[last..r.end + 1]
  {
    var gap: seq<Segment> := if last != r.start then [Dim(Substring(value, last, r.start))] else [];
    var bold := Bold(Substring(value, r.start, r.end + 1));
    RenderStep(value, last, r);
    TextAppend(gap, [bold]);
    assert Text([bold]) == value[r.start..r.end + 1];
    assert Text(gap) == value[last..r.start];
    assert value[last..r.start] + value[r.start..r.end + 1] == value[last..r.end + 1];
  }

  /** Spelling the line up to a cursor, then cutting one more range after it, spells the line up to that range's end. */
  lemma TextExtend(value: string, before: seq<Cut>, last: int, r: Range)
    requires 0 <= last <= r.start <= r.end < |value|
    requires Text(Render(value, before)) == value[..last]
    ensures Text(Render(value, before + StepCuts(last, r))) == value[..r.end + 1]
  {
    var step := StepCuts(last, r);
    RenderAppend(value, before, step);
    TextAppend(Render(value, before), Render(value, step));
    TextOfStep(value, last, r);
    SliceJoin(value, 0, last, r.end + 1);
  }

  /** After the first `i` well-formed ranges, the segments spell the line up to the cursor. */
  lemma {:induction false} TextUpTo(value: string, ranges: seq<Range>, i: nat)
    requires WellFormed(ranges, |value|) && i <= |ranges|
    ensures 0 <= Cursor(ranges, i) <= |value|
    ensures Text(Render(value, CutsUpTo(ranges, i))) == value[..Cursor(ranges, i)]
  {
    if i > 0 {
      TextUpTo(value, ranges, i - 1);
      CursorBeforeNext(ranges, |value|, i - 1);
      assert ranges[i - 1].end < |value|;
      TextExtend(value, CutsUpTo(ranges, i - 1), Cursor(ranges, i - 1), ranges[i - 1]);
    }
  }

  /** Adjacent slices join into one. */
  lemma SliceJoin(s: string, a: int, b: int, c: int)
    requires 0 <= a <= b <= c <= |s|
    ensures s[a..b] + s[b..c] == s[a..c]
  {
  }

  /**
   * Round trip: for ranges inside the line, ascending and disjoint, the
   * segment texts concatenated in order are the line.
   */
  lemma RoundTrip(value: string, ranges: seq<Range>)
    requires WellFormed(ranges, |value|)
    ensures Text(Partition(value, ranges)) == value
  {
    var c := Cursor(ranges, |ranges|);
    var before := CutsUpTo(ranges, |ranges|);
    TextUpTo(value, ranges, |ranges|);
    RenderAppend(value, before, TailCuts(c, |value|));
    TextAppend(Render(value, before), Render(value, TailCuts(c, |value|)));
    RenderTail(value, c);
    assert Text(Render(value, TailCuts(c, |value|))) == value[c..];
    assert value[..c] + value[c..] == value;
  }

  /** The reference texts of a prefix of the ranges grow by one text per range. */
  lemma MatchedTextsSnoc(value: string, ranges: seq<Range>, i: nat)
    requires 0 < i <= |ranges|
    ensures MatchedTexts(value, ranges[..i])
      == MatchedTexts(value, ranges[..i - 1]) + [Substring(value, ranges[i - 1].start, ranges[i - 1].end + 1)]
  {
  }

  /** One range's segments hold exactly one bold text: the range's substring. */
  lemma BoldTextsOfStep(value: string, last: int, r: Range)
    ensures BoldTexts(Render(value, StepCuts(last, r))) == [Substring(value, r.start, r.end + 1)]
  {
    var gap: seq<Segment> := if last != r.start then [Dim(Substring(value, last, r.start))] else [];
    var bold := Bold(Substring(value, r.start, r.end + 1));
    RenderStep(value, last, r);
    BoldTextsAppend(gap, [bold]);
    assert BoldTexts(gap) == [] by {
      if gap != [] {
        assert BoldTexts(gap) == BoldTexts([]);
      }
    }
    assert BoldTexts([bold]) == [bold.text];
  }

  /** Cutting one more range adds that range's substring after the bold texts so far. */
  lemma BoldsExtend(value: string, before: seq<Cut>, last: int, r: Range, done: seq<string>)
    requires BoldTexts(Render(value, before)) == done
    ensures BoldTexts(Render(value, before + StepCuts(last, r))) == done + [Substring(value, r.start, r.end + 1)]
  {
    var step := StepCuts(last, r);
    RenderAppend(value, before, step);
    BoldTextsAppend(Render(value, before), Render(value, step));
    BoldTextsOfStep(value, last, r);
  }

  /** Walking the first `i` ranges yields one bold text per range, in order. */
  lemma {:induction false} BoldsUpTo(value: string, ranges: seq<Range>, i: nat)
    requires i <= |ranges|
    ensures BoldTexts(Render(value, CutsUpTo(ranges, i))) == MatchedTexts(value, ranges[..i])
  {
    if i > 0 {
      BoldsUpTo(value, ranges, i - 1);
      BoldsExtend(value, CutsUpTo(ranges, i - 1), Cursor(ranges, i - 1), ranges[i - 1], MatchedTexts(value, ranges[..i - 1]));
      MatchedTextsSnoc(value, ranges, i);
    }
  }

  /**
   * Whatever the ranges, there is exactly one bold segment per range, in
   * range order, holding `value.substring(start, end + 1)`.
   */
  lemma BoldPerRange(value: string, ranges: seq<Range>)
    ensures BoldTexts(Partition(value, ranges)) == MatchedTexts(value, ranges)
  {
    var c := Cursor(ranges, |ranges|);
    var before := CutsUpTo(ranges, |ranges|);
    var tail := Render(value, TailCuts(c, |value|));
    BoldsUpTo(value, ranges, |ranges|);
    RenderAppend(value, before, TailCuts(c, |value|));
    BoldTextsAppend(Render(value, before), tail);
    assert BoldTexts(tail) == [] by {
      if tail != [] {
        assert BoldTexts(tail) == BoldTexts([]);
      }
    }
    assert ranges[..|ranges|] == ranges;
  }

  /**
   * For ranges inside the line, in any order and possibly overlapping, the
   * i-th bold segment is the inclusive slice `value[start..end]`.
   */
  lemma BoldSlices(value: string, ranges: seq<Range>)
    requires InLine(ranges, |value|)
    ensures |BoldTexts(Partition(value, ranges))| == |ranges|
    ensures forall i :: 0 <= i < |ranges| ==>
      BoldTexts(Partition(value, ranges))[i] == value[ranges[i].start..ranges[i].end + 1]
  {
    BoldPerRange(value, ranges);
    forall i | 0 <= i < |ranges|
      ensures MatchedTexts(value, ranges)[i] == value[ranges[i].start..ranges[i].end + 1]
    {
      MatchedSlice(value, ranges, i);
    }
  }

  /** The matched text of a range inside the line is its inclusive slice. */
  lemma MatchedSlice(value: string, ranges: seq<Range>, i: nat)
    requires i < |ranges| && 0 <= ranges[i].start <= ranges[i].end < |value|
    ensures MatchedTexts(value, ranges)[i] == value[ranges[i].start..ranges[i].end + 1]
  {
    assert MatchedTexts(value, ranges)[i] == Substring(value, ranges[i].start, ranges[i].end + 1);
  }

  /**
   * For ranges inside the line, in any order, the cursor stays inside the
   * line and every cut of the first `i` ranges joins two different positions
   * of the line.
   */
  lemma {:induction false} CutsInside(ranges: seq<Range>, n: nat, i: nat)
    requires InLine(ranges, n) && i <= |ranges|
    ensures 0 <= Cursor(ranges, i) <= n
    ensures forall k :: 0 <= k < |CutsUpTo(ranges, i)| ==>
      && 0 <= CutsUpTo(ranges, i)[k].from <= n
      && 0 <= CutsUpTo(ranges, i)[k].to <= n
      && CutsUpTo(ranges, i)[k].from != CutsUpTo(ranges, i)[k].to
  {
    if i > 0 {
      var before := CutsUpTo(ranges, i - 1);
      var step := StepCuts(Cursor(ranges, i - 1), ranges[i - 1]);
      CutsInside(ranges, n, i - 1);
      assert 0 <= ranges[i - 1].start <= ranges[i - 1].end < n;
      assert CutsUpTo(ranges, i) == before + step;
      assert forall k :: 0 <= k < |step| ==> 0 <= step[k].from <= n && 0 <= step[k].to <= n && step[k].from != step[k].to;
    }
  }

  /** A `substring` between two different positions of the line is never empty, whichever comes first. */
  lemma SubstringBetween(value: string, a: int, b: int)
    requires 0 <= a <= |value| && 0 <= b <= |value| && a != b
    ensures Substring(value, a, b) != ""
  {
    if a < b {
      assert |value[a..b]| > 0;
    } else {
      assert |value[b..a]| > 0;
    }
  }

  /**
   * For ranges inside the line, in any order, no segment is empty: a gap is
   * emitted only when the cursor is not at the range start, a tail only when
   * it is not at the line's end, and every range covers at least one
   * character.
   */
  lemma NoEmptySegments(value: string, ranges: seq<Range>)
    requires InLine(ranges, |value|)
    ensures forall k :: 0 <= k < |Partition(value, ranges)| ==> Partition(value, ranges)[k].text != ""
  {
    var cuts := Cuts(ranges, |value|);
    CutsInside(ranges, |value|, |ranges|);
    assert forall k :: 0 <= k < |cuts| ==> 0 <= cuts[k].from <= |value| && 0 <= cuts[k].to <= |value| && cuts[k].from != cuts[k].to;
    forall k | 0 <= k < |cuts|
      ensures Partition(value, ranges)[k].text != ""
    {
      SubstringBetween(value, cuts[k].from, cuts[k].to);
      assert Partition(value, ranges)[k].text == Substring(value, cuts[k].from, cuts[k].to);
    }
  }

  /** The first `i` ranges give at most two cuts each, none of them for a plain segment. */
  lemma {:induction false} ShapeUpTo(ranges: seq<Range>, i: nat)
    requires i <= |ranges|
    ensures |CutsUpTo(ranges, i)| <= 2 * i
    ensures forall k :: 0 <= k < |CutsUpTo(ranges, i)| ==> !CutsUpTo(ranges, i)[k].PlainCut?
  {
    if i > 0 {
      ShapeUpTo(ranges, i - 1);
    }
  }

  /**
   * Shape of the output for any ranges: at most one gap per range plus the
   * bold segment and one tail, and a plain segment can only be the last one.
   */
  lemma Shape(value: string, ranges: seq<Range>)
    ensures |Partition(value, ranges)| <= 2 * |ranges| + 1
    ensures forall k :: 0 <= k < |Partition(value, ranges)| - 1 ==> !Partition(value, ranges)[k].Plain?
  {
    ShapeUpTo(ranges, |ranges|);
  }
}
