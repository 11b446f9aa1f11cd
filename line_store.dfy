/**
 * The document the viewer shows: the raw text split on '\n' into lines,
 * each numbered by its position (`LogBlock`, src/hl-logs.tsx). The entry
 * record also carries what the search collaborator attaches to a line: its
 * Fuse-style matches, each a list of inclusive character ranges.
 */
module LineStore {

  /** An inclusive character range `[start, end]` (a Fuse `RangeTuple`). */
  datatype Range = Range(start: int, end: int)

  /** One match of a search hit; only its `indices` are used by the viewer. */
  datatype Match = Match(indices: seq<Range>)

  /**
   * A displayed item: `{ line, lineNumber }`, plus `searchInf.matches` when it
   * comes from the search result (a missing `matches` is the empty sequence).
   */
  datatype Entry = Entry(line: string, lineNumber: nat, matches: seq<Match>)

  /** `s.split('\n')`: always at least one piece; "" gives [""]. */
  function Split(s: string): (r: seq<string>)
    ensures |r| >= 1
  {
    if s == [] then [[]]
    else
      var rest := Split(s[1..]);
      if s[0] == '\n' then [[]] + rest else [[s[0]] + rest[0]] + rest[1..]
  }

  /** `parts.join('\n')`. */
  function Join(parts: seq<string>): string
    requires |parts| >= 1
  {
    if |parts| == 1 then parts[0] else parts[0] + "\n" + Join(parts[1..])
  }

  /** Number of line breaks in `s`. */
  function Breaks(s: string): nat {
    if s == [] then 0 else (if s[0] == '\n' then 1 else 0) + Breaks(s[1..])
  }

  /** The line store: `data.split('\n').map((line, i) => ({ line, lineNumber: i + 1 }))`. */
  function Lines(data: string): (r: seq<Entry>)
    ensures |r| == Breaks(data) + 1
    ensures forall i :: 0 <= i < |r| ==> r[i].lineNumber == i + 1 && r[i].matches == []
    ensures forall i :: 0 <= i < |r| ==> '\n' !in r[i].line
  {
    SplitCount(data);
    SplitNoBreaks(data);
    var parts := Split(data);
    seq(|parts|, i requires 0 <= i < |parts| => Entry(parts[i], i + 1, []))
  }

  /** The texts of a sequence of entries, in order. */
  function Texts(entries: seq<Entry>): (r: seq<string>)
    ensures |r| == |entries|
    ensures forall i :: 0 <= i < |r| ==> r[i] == entries[i].line
  {
    seq(|entries|, i requires 0 <= i < |entries| => entries[i].line)
  }

  /** There is one more line than there are line breaks. */
  lemma {:induction false} SplitCount(s: string)
    ensures |Split(s)| == Breaks(s) + 1
  {
    if s != [] {
      SplitCount(s[1..]);
    }
  }

  /** No line contains a line break. */
  lemma {:induction false} SplitNoBreaks(s: string)
    ensures forall i :: 0 <= i < |Split(s)| ==> '\n' !in Split(s)[i]
  {
    if s != [] {
      SplitNoBreaks(s[1..]);
    }
  }

  /** A text without line breaks is a single line. */
  lemma {:induction false} SplitSingle(s: string)
    requires '\n' !in s
    ensures Split(s) == [s]
  {
    if s != [] {
      SplitSingle(s[1..]);
      assert [s[0]] + s[1..] == s;
    }
  }

  /** Splitting at one line break: the lines before it, then the lines after it. */
  lemma {:induction false} SplitAppend(a: string, b: string)
    ensures Split(a + "\n" + b) == Split(a) + Split(b)
  {
    if a == [] {
      assert a + "\n" + b == "\n" + b;
      assert ("\n" + b)[1..] == b;
    } else {
      var t := a[1..] + "\n" + b;
      assert a + "\n" + b == [a[0]] + t;
      assert ([a[0]] + t)[1..] == t;
      SplitAppend(a[1..], b);
    }
  }

  /** Prefixing the first piece with a character prefixes the join with it. */
  lemma JoinPrefixFirst(c: char, parts: seq<string>)
    requires |parts| >= 1
    ensures Join([[c] + parts[0]] + parts[1..]) == [c] + Join(parts)
  {
    var ps := [[c] + parts[0]] + parts[1..];
    if |parts| > 1 {
      assert ps[1..] == parts[1..];
    }
  }

  /** Joining the lines with '\n' gives back the raw text. */
  lemma {:induction false} JoinSplit(s: string)
    ensures Join(Split(s)) == s
  {
    if s != [] {
      var rest := Split(s[1..]);
      JoinSplit(s[1..]);
      if s[0] == '\n' {
        assert ([[]] + rest)[1..] == rest;
      } else {
        JoinPrefixFirst(s[0], rest);
      }
      assert [s[0]] + s[1..] == s;
    }
  }

  /** Splitting a join of break-free pieces gives back the pieces. */
  lemma {:induction false} SplitJoin(parts: seq<string>)
    requires |parts| >= 1
    requires forall i :: 0 <= i < |parts| ==> '\n' !in parts[i]
    ensures Split(Join(parts)) == parts
  {
    SplitSingle(parts[0]);
    if |parts| > 1 {
      SplitAppend(parts[0], Join(parts[1..]));
      SplitJoin(parts[1..]);
    }
  }

  /**
   * The line store never yields zero lines, numbers them 1, 2, … in order,
   * and its texts joined with '\n' are the raw text again; "" is one empty line.
   */
  lemma LinesRoundTrip(data: string)
    ensures |Lines(data)| >= 1
    ensures Join(Texts(Lines(data))) == data
    ensures data == "" ==> Lines(data) == [Entry("", 1, [])]
  {
    assert Texts(Lines(data)) == Split(data);
    JoinSplit(data);
  }

  /** The items a search over `lines` may return: lines of the document, as numbered there. */
  predicate FromLines(items: seq<Entry>, lines: seq<Entry>) {
    forall k :: 0 <= k < |items| ==>
      1 <= items[k].lineNumber <= |lines| && lines[items[k].lineNumber - 1].line == items[k].line
  }
}
