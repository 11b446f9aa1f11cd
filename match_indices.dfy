/**
 * The `reduce` that turns a search hit's matches into one range list for
 * the highlighter (`InlineSearch` and `FilterdHighlightIt`,
 * src/hl-logs.tsx): starting from `[]`, each match's `indices` are spread
 * after the accumulator.
 */
module MatchIndices {
  import opened LineStore

  /** Reference definition: the matches' index lists, concatenated in order. */
  function Flatten(ms: seq<Match>): seq<Range> {
    if ms == [] then [] else ms[0].indices + Flatten(ms[1..])
  }

  /** Total number of ranges over all matches. */
  function TotalIndices(ms: seq<Match>): nat {
    if ms == [] then 0 else |ms[0].indices| + TotalIndices(ms[1..])
  }

  /** `ms.reduce((acc, curr) => [...acc, ...curr.indices], acc)`: a left fold. */
  function Reduce(acc: seq<Range>, ms: seq<Match>): (r: seq<Range>)
    ensures r == acc + Flatten(ms)
    decreases |ms|
  {
    if ms == [] then acc
    else
      assert acc + ms[0].indices + Flatten(ms[1..]) == acc + Flatten(ms);
      Reduce(acc + ms[0].indices, ms[1..])
  }

  /** The range list handed to the highlighter: the fold started from `[]`. */
  function MatchRanges(ms: seq<Match>): (r: seq<Range>)
    ensures r == Flatten(ms)
    ensures ms == [] ==> r == []
  {
    Reduce([], ms)
  }

  /** Flattening keeps every range: the length is the sum of the matches' lengths. */
  lemma {:induction false} FlattenLength(ms: seq<Match>)
    ensures |Flatten(ms)| == TotalIndices(ms)
  {
    if ms != [] {
      FlattenLength(ms[1..]);
    }
  }

  /** Flattening two runs of matches is flattening each, in order. */
  lemma {:induction false} FlattenAppend(a: seq<Match>, b: seq<Match>)
    ensures Flatten(a + b) == Flatten(a) + Flatten(b)
  {
    if a == [] {
      assert a + b == b;
    } else {
      assert (a + b)[1..] == a[1..] + b;
      FlattenAppend(a[1..], b);
    }
  }

  /** A range is in the flattened list exactly when some match lists it. */
  lemma {:induction false} FlattenMembers(ms: seq<Match>, x: Range)
    ensures x in Flatten(ms) <==> exists k :: 0 <= k < |ms| && x in ms[k].indices
  {
    if ms != [] {
      FlattenMembers(ms[1..], x);
      if x in Flatten(ms[1..]) {
        var k :| 0 <= k < |ms[1..]| && x in ms[1..][k].indices;
        assert x in ms[k + 1].indices;
      }
      if exists k :: 0 <= k < |ms| && x in ms[k].indices {
        var k :| 0 <= k < |ms| && x in ms[k].indices;
        if k > 0 {
          assert x in ms[1..][k - 1].indices;
        }
      }
    }
  }
}
