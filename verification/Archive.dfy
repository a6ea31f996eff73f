/**
  The two archive checkers of src/btc15/research_archive.py: the expected-sequence
  loop of `report` and the rebuild of interval coverage. A segment is a list of
  lines; reading an unreadable one abandons the rest of its segment.
 */
module Archive {
  import opened Wrappers
  import opened Recorder

  /** `missing` is a gap marker's own `last_missing_seq`; its `dropped_records` is derived from it. */
  datatype Line = Recorded(number: int) | Marker(number: int, missing: int) | Unreadable

  datatype Problem =
    | Discontinuity(expected: int, actual: int)
    | UnreadableSegment(segment: nat)
    | UnverifiedTail(retained: int)

  function LineOf(r: Record): Line {
    match r
    case Event(n) => Recorded(n)
    case Gap(first, last) => Marker(first, last)
  }

  function LinesOf(records: seq<Record>): seq<Line> {
    seq(|records|, i requires 0 <= i < |records| => LineOf(records[i]))
  }

  function Flatten(segments: seq<seq<Line>>): seq<Line> {
    if segments == [] then [] else Flatten(segments[..|segments| - 1]) + segments[|segments| - 1]
  }

  /** What the recorder promises of its markers: at least one number is missing. */
  predicate Genuine(lines: seq<Line>) {
    forall i | 0 <= i < |lines| && lines[i].Marker? :: lines[i].number <= lines[i].missing
  }

  /** `expected` after one readable line. */
  function Following(line: Line): int
    requires !line.Unreadable?
  {
    if line.Marker? then line.missing + 1 else line.number + 1
  }

  /** Where the chain of line numbers breaks nowhere, the number expected next. */
  function Chain(lines: seq<Line>, expected: int): Option<int>
    decreases |lines|
  {
    if lines == [] then Some(expected)
    else if lines[0].Unreadable? || lines[0].number != expected then None
    else Chain(lines[1..], Following(lines[0]))
  }

  /** The reference meaning: the lines cover `from` .. `next - 1` in order, each number once. */
  predicate Covers(lines: seq<Line>, from: int, next: int)
    decreases |lines|
  {
    if lines == [] then from == next
    else match lines[0]
      case Recorded(n) => n == from && Covers(lines[1..], n + 1, next)
      case Marker(n, missing) => n == from && n <= missing && Covers(lines[1..], missing + 1, next)
      case Unreadable => false
  }

  lemma {:induction false} ChainIsCover(lines: seq<Line>, from: int, next: int)
    requires Genuine(lines)
    ensures Chain(lines, from) == Some(next) <==> Covers(lines, from, next)
    decreases |lines|
  {
    if lines != [] && !lines[0].Unreadable? {
      assert lines[0].Marker? ==> lines[0].number <= lines[0].missing;
      assert Genuine(lines[1..]);
      ChainIsCover(lines[1..], Following(lines[0]), next);
    }
  }

  lemma {:induction false} ChainExtends(lines: seq<Line>, line: Line, from: int)
    ensures Chain(lines + [line], from) ==
            if Chain(lines, from).None? || line.Unreadable? || line.number != Chain(lines, from).value then None
            else Some(Following(line))
    decreases |lines|
  {
    if lines == [] {
      assert lines + [line] == [line];
      assert [line][1..] == [];
    } else {
      assert (lines + [line])[1..] == lines[1..] + [line];
      if !lines[0].Unreadable? {
        ChainExtends(lines[1..], line, Following(lines[0]));
      }
    }
  }

  lemma {:induction false} ChainAppends(a: seq<Line>, b: seq<Line>, from: int)
    ensures Chain(a + b, from) == if Chain(a, from).None? then None else Chain(b, Chain(a, from).value)
    decreases |a|
  {
    if a == [] {
      assert a + b == b;
    } else {
      assert (a + b)[1..] == a[1..] + b;
      if !a[0].Unreadable? {
        ChainAppends(a[1..], b, Following(a[0]));
      }
    }
  }

  /** One segment of `report`. */
  method ReportSegment(lines: seq<Line>, index: nat, start: int) returns (expected: int, problems: seq<Problem>)
    ensures problems == [] <==> Chain(lines, start).Some?
    ensures Chain(lines, start).Some? ==> Chain(lines, start) == Some(expected)
  {
    expected, problems := start, [];
    for i := 0 to |lines|
      invariant problems == [] <==> Chain(lines[..i], start).Some?
      invariant problems == [] ==> Chain(lines[..i], start) == Some(expected)
    {
      var line := lines[i];
      assert lines[..i + 1] == lines[..i] + [line];
      ChainExtends(lines[..i], line, start);
      if line.Unreadable? {
        assert lines == (lines[..i] + [line]) + lines[i + 1..];
        ChainAppends(lines[..i] + [line], lines[i + 1..], start);
        return expected, problems + [UnreadableSegment(index)];
      }
      if line.number != expected {
        problems := problems + [Discontinuity(expected, line.number)];
      }
      expected := line.number + 1;
      if line.Marker? {
        expected := line.missing + 1;
      }
    }
    assert lines[..|lines|] == lines;
  }

  /**
    `report`: no problem exactly when the retained lines cover 1 .. last_capture_seq
    in order. `status` is the published high water, absent when status.json is.
   */
  method Report(segments: seq<seq<Line>>, status: Option<int>) returns (problems: seq<Problem>)
    ensures problems == [] <==> status.Some? && Chain(Flatten(segments), 1) == Some(status.value + 1)
    ensures Genuine(Flatten(segments)) ==>
              (problems == [] <==> status.Some? && Covers(Flatten(segments), 1, status.value + 1))
  {
    problems := [];
    var expected := 1;
    for i := 0 to |segments|
      invariant problems == [] <==> Chain(Flatten(segments[..i]), 1).Some?
      invariant problems == [] ==> Chain(Flatten(segments[..i]), 1) == Some(expected)
    {
      assert segments[..i + 1][..i] == segments[..i];
      ChainAppends(Flatten(segments[..i]), segments[i], 1);
      var next, found := ReportSegment(segments[i], i, expected);
      problems := problems + found;
      expected := next;
    }
    assert segments[..|segments|] == segments;
    if status != Some(expected - 1) {
      problems := problems + [UnverifiedTail(expected - 1)];
    }
    if status.Some? && Genuine(Flatten(segments)) {
      ChainIsCover(Flatten(segments), 1, status.value + 1);
    }
  }

  /** `report` does not compare a marker's two ends: a marker pointing backwards hides a duplicate. */
  lemma BackwardMarkerIsAccepted()
    ensures var lines := [Recorded(1), Marker(2, 0), Recorded(1)];
            Chain(lines, 1) == Some(2) && !Covers(lines, 1, 2)
  {
    var lines := [Recorded(1), Marker(2, 0), Recorded(1)];
    assert lines[1..] == [Marker(2, 0), Recorded(1)];
    assert lines[1..][1..] == [Recorded(1)];
    assert lines[1..][1..][1..] == [];
  }

  // ---- Coverage rebuild ----------------------------------------------------

  /** What one pass accumulates: next number, records observed, numbers counted missing, gap count, errors. */
  datatype Tally = Tally(expected: int, observed: int, missing: int, gaps: int, errors: int)

  const NoTally := Tally(1, 0, 0, 0, 0)

  function RebuildLine(t: Tally, line: Line): Tally
    requires !line.Unreadable? && line.number >= t.expected
  {
    var t1 := if line.number > t.expected then t.(missing := t.missing + line.number - t.expected, gaps := t.gaps + 1) else t;
    if line.Marker? then
      t1.(expected := line.missing + 1, missing := t1.missing + line.missing - line.number + 1, gaps := t1.gaps + 1)
    else t1.(expected := line.number + 1, observed := t1.observed + 1)
  }

  /** A reversed or unreadable line ends its segment with one error. */
  function RebuildLines(t: Tally, lines: seq<Line>): Tally
    decreases |lines|
  {
    if lines == [] then t
    else if lines[0].Unreadable? || lines[0].number < t.expected then t.(errors := t.errors + 1)
    else RebuildLines(RebuildLine(t, lines[0]), lines[1..])
  }

  function RebuildAll(segments: seq<seq<Line>>): Tally {
    if segments == [] then NoTally
    else RebuildLines(RebuildAll(segments[..|segments| - 1]), segments[|segments| - 1])
  }

  function WithTail(t: Tally, highWater: int): Tally {
    if highWater >= t.expected then t.(missing := t.missing + highWater - t.expected + 1, gaps := t.gaps + 1) else t
  }

  method RebuildSegment(start: Tally, lines: seq<Line>) returns (t: Tally)
    ensures t == RebuildLines(start, lines)
  {
    t := start;
    var i := 0;
    while i < |lines|
      invariant 0 <= i <= |lines| && RebuildLines(t, lines[i..]) == RebuildLines(start, lines)
    {
      var line := lines[i];
      if line.Unreadable? {
        return t.(errors := t.errors + 1);
      }
      if line.number > t.expected {
        t := t.(missing := t.missing + line.number - t.expected, gaps := t.gaps + 1, expected := line.number);
      } else if line.number < t.expected {
        return t.(errors := t.errors + 1);
      }
      if line.Marker? {
        t := t.(missing := t.missing + line.missing - line.number + 1, gaps := t.gaps + 1, expected := line.missing + 1);
      } else {
        t := t.(observed := t.observed + 1, expected := line.number + 1);
      }
      i := i + 1;
    }
  }

  /** `rebuild_session_coverage`: the dropped total and whether the capture is called complete. */
  method Rebuild(segments: seq<seq<Line>>, status: Option<int>) returns (t: Tally, complete: bool)
    ensures t == WithTail(RebuildAll(segments), status.GetOr(RebuildAll(segments).expected - 1))
    ensures complete <==> t.gaps == 0 && t.errors == 0
  {
    t := NoTally;
    for i := 0 to |segments|
      invariant t == RebuildAll(segments[..i])
    {
      assert segments[..i + 1][..i] == segments[..i];
      t := RebuildSegment(t, segments[i]);
    }
    assert segments[..|segments|] == segments;
    var highWater := status.GetOr(t.expected - 1);
    if highWater >= t.expected {
      t := t.(missing := t.missing + highWater - t.expected + 1, gaps := t.gaps + 1);
    }
    complete := t.gaps == 0 && t.errors == 0;
  }

  /** Nothing is counted twice or forgotten, whatever the lines say. */
  predicate Balanced(t: Tally) {
    t.observed + t.missing == t.expected - 1
  }

  lemma {:induction false} RebuildLinesBalances(t: Tally, lines: seq<Line>)
    requires Balanced(t) && t.gaps >= 0 && t.errors >= 0 && t.observed >= 0
    ensures Balanced(RebuildLines(t, lines))
    ensures RebuildLines(t, lines).gaps >= t.gaps && RebuildLines(t, lines).errors >= t.errors
    ensures RebuildLines(t, lines).observed >= 0
    decreases |lines|
  {
    if lines != [] && !lines[0].Unreadable? && lines[0].number >= t.expected {
      RebuildLinesBalances(RebuildLine(t, lines[0]), lines[1..]);
    }
  }

  lemma {:induction false} RebuildAllBalances(segments: seq<seq<Line>>)
    ensures Balanced(RebuildAll(segments)) && RebuildAll(segments).gaps >= 0 && RebuildAll(segments).errors >= 0
    ensures RebuildAll(segments).observed >= 0
    decreases |segments|
  {
    if segments != [] {
      RebuildAllBalances(segments[..|segments| - 1]);
      RebuildLinesBalances(RebuildAll(segments[..|segments| - 1]), segments[|segments| - 1]);
    }
  }

  /** What the archive must account for: the published number, or the last one its segments reach if those are newer than the status. */
  function Reached(segments: seq<seq<Line>>, highWater: int): int {
    var last := RebuildAll(segments).expected - 1;
    if last < highWater then highWater else last
  }

  /**
    The loss account is exact: records observed plus numbers reported dropped are the
    published high water, or what the segments reach where the status is older than they are.
   */
  lemma RebuiltLossIsExact(segments: seq<seq<Line>>, highWater: int)
    ensures var t := WithTail(RebuildAll(segments), highWater); t.observed + t.missing == Reached(segments, highWater)
  {
    RebuildAllBalances(segments);
  }

  /** The whole captured range, with no marker at all. */
  predicate Complete(lines: seq<Line>, highWater: int) {
    && |lines| == highWater
    && forall i | 0 <= i < |lines| :: lines[i] == Recorded(i + 1)
  }

  lemma {:induction false} RebuildLinesClean(t: Tally, lines: seq<Line>)
    requires Balanced(t) && t.gaps >= 0 && t.errors >= 0 && t.observed >= 0
    ensures var r := RebuildLines(t, lines);
            r.gaps == t.gaps && r.errors == t.errors <==> forall i | 0 <= i < |lines| :: lines[i] == Recorded(t.expected + i)
    ensures (forall i | 0 <= i < |lines| :: lines[i] == Recorded(t.expected + i)) ==>
              RebuildLines(t, lines).expected == t.expected + |lines|
    decreases |lines|
  {
    if lines != [] && !lines[0].Unreadable? && lines[0].number >= t.expected {
      var t1 := RebuildLine(t, lines[0]);
      RebuildLinesClean(t1, lines[1..]);
      RebuildLinesBalances(t1, lines[1..]);
      assert forall i | 0 <= i < |lines| - 1 :: lines[1..][i] == lines[i + 1];
      if lines[0] == Recorded(t.expected) {
        assert forall i | 1 <= i < |lines| :: lines[i] == lines[1..][i - 1];
      }
    }
  }

  lemma {:induction false} RebuildAllClean(segments: seq<seq<Line>>)
    ensures var t := RebuildAll(segments);
            t.gaps == 0 && t.errors == 0 <==> Complete(Flatten(segments), |Flatten(segments)|)
    ensures Complete(Flatten(segments), |Flatten(segments)|) ==> RebuildAll(segments).expected == |Flatten(segments)| + 1
    decreases |segments|
  {
    if segments != [] {
      var rest, last := segments[..|segments| - 1], segments[|segments| - 1];
      var t, lines := RebuildAll(rest), Flatten(rest);
      RebuildAllClean(rest);
      RebuildAllBalances(rest);
      RebuildLinesBalances(t, last);
      RebuildLinesClean(t, last);
      assert forall i | 0 <= i < |lines| :: Flatten(segments)[i] == lines[i];
      assert forall i | 0 <= i < |last| :: Flatten(segments)[|lines| + i] == last[i];
      if Complete(lines, |lines|) {
        assert t.expected == |lines| + 1;
      }
    }
  }

  /** `capture_complete` says exactly that every number the archive must account for is there, in order. */
  lemma CompleteIffEveryRecordRetained(segments: seq<seq<Line>>, highWater: int)
    ensures var t := WithTail(RebuildAll(segments), highWater);
            t.gaps == 0 && t.errors == 0 <==> Complete(Flatten(segments), Reached(segments, highWater))
  {
    RebuildAllClean(segments);
    RebuildAllBalances(segments);
  }

  // ---- The recorder's own archives -----------------------------------------

  lemma {:induction false} TilesAreCovered(records: seq<Record>, from: int, next: int)
    ensures Tiles(records, from, next) <==> Covers(LinesOf(records), from, next)
    decreases |records|
  {
    if records != [] {
      assert LinesOf(records)[1..] == LinesOf(records[1..]);
      match records[0]
      case Event(n) => TilesAreCovered(records[1..], n + 1, next);
      case Gap(_, last) => TilesAreCovered(records[1..], last + 1, next);
    }
  }

  lemma {:induction false} TiledMarkersAreGenuine(records: seq<Record>, from: int, next: int)
    requires Tiles(records, from, next)
    ensures Genuine(LinesOf(records))
    decreases |records|
  {
    if records != [] {
      var from' := match records[0] case Event(n) => n + 1 case Gap(_, last) => last + 1;
      TiledMarkersAreGenuine(records[1..], from', next);
      var lines := LinesOf(records);
      assert forall i | 1 <= i < |lines| :: lines[i] == LinesOf(records[1..])[i - 1];
    }
  }

  /**
    Recorder and checker together: on what a reader finds of any published archive, however
    it was closed, `report` finds nothing exactly when nothing was captured after the final
    lock region, the tail was marked or empty, and the close was drained or left nothing in
    the open part file.
   */
  lemma ReportAcceptsCleanCloses(s: Log, maxBytes: nat)
    requires Inv(s, maxBytes) && s.phase == Published
    ensures Chain(LinesOf(Visible(s)), 1) == Some(s.published + 1)
       <==> && s.published == s.highWater
            && ((s.allowed && !s.failed) || s.lastWritten == s.highWater)
            && (s.drained || s.visible == |s.records|)
  {
    var reached := PrefixTiles(s.records, 1, s.lastWritten + 1, s.visible);
    TiledMarkersAreGenuine(Visible(s), 1, reached);
    ChainIsCover(LinesOf(Visible(s)), 1, s.published + 1);
    TilesAreCovered(Visible(s), 1, s.published + 1);
    PublishedRangeIsTiledIff(s, maxBytes);
  }

  /** Of a chain the checker accepts, the lines cover the range exactly when every marker points forward. */
  lemma {:induction false} AcceptedChainCoversIffGenuine(lines: seq<Line>, from: int, next: int)
    requires Chain(lines, from) == Some(next)
    ensures Covers(lines, from, next) <==> Genuine(lines)
    decreases |lines|
  {
    if lines != [] {
      AcceptedChainCoversIffGenuine(lines[1..], Following(lines[0]), next);
      assert forall i | 1 <= i < |lines| :: lines[i] == lines[1..][i - 1];
      assert Genuine(lines) <==> (lines[0].Marker? ==> lines[0].number <= lines[0].missing) && Genuine(lines[1..]) by {
        assert forall i | 0 <= i < |lines[1..]| :: lines[1..][i] == lines[i + 1];
      }
    }
  }
}
