/**
  The bounded, lossy research recorder
  (reports/recorder-simplification-20260922/research_log.before.py): any number of
  threads call `emit` and `fail` under one lock while one writer thread drains the
  queue, marks losses with gap records and finally publishes its status.
 */
module Recorder {
  import opened Wrappers

  const MAX_QUEUE_RECORDS := 8192

  datatype Item = Item(number: int, size: nat)

  /** What lies in the archive: one captured record, or a marker for lost ones. */
  datatype Record = Event(number: int) | Gap(first: int, last: int)

  datatype Phase = Looping | Exited | Finalized | Sealed | Broken | Published

  datatype Log = Log(
    captured: int,
    queue: seq<Item>,
    queuedBytes: int,
    dropped: int,
    written: int,
    inflight: Option<Item>,
    lastWritten: int,
    stopping: bool,
    allowed: bool,        // enough free disk at the last retention pass
    failed: bool,
    drained: bool,
    phase: Phase,
    highWater: int,       // capture_seq inside the final lock region
    published: int,       // last_capture_seq in status.json
    records: seq<Record>, // everything written, in order
    visible: nat)         // how many of them lie in renamed segments; the rest is the open part file

  predicate BeforeFinal(p: Phase) {
    p == Looping || p == Exited
  }

  const Start := Log(0, [], 0, 0, 0, None, 0, false, false, false, false, Looping, 0, 0, [], 0)

  // ---- Steps ---------------------------------------------------------------

  /** `size` is None when the body cannot be serialized; `sawStop` is the stop flag as `emit` read it. */
  function Emit(s: Log, maxBytes: nat, size: Option<nat>, sawStop: bool): Log {
    var s1 := s.(captured := s.captured + 1);
    if size.None? || sawStop || s.queuedBytes + size.value > maxBytes || |s.queue| >= MAX_QUEUE_RECORDS
    then s1.(dropped := s.dropped + 1)
    else s1.(queue := s.queue + [Item(s1.captured, size.value)], queuedBytes := s.queuedBytes + size.value)
  }

  function CaptureFails(s: Log): Log {
    s.(captured := s.captured + 1, dropped := s.dropped + 1)
  }

  function Take(s: Log): Log
    requires s.queue != []
  {
    s.(inflight := Some(s.queue[0]), queue := s.queue[1..], queuedBytes := s.queuedBytes - s.queue[0].size)
  }

  /** The writer's inner `gap`: mark everything after the last written number up to `last`. */
  function MarkGap(s: Log, last: int): Log {
    if last <= s.lastWritten then s
    else s.(records := s.records + [Gap(s.lastWritten + 1, last)], lastWritten := last)
  }

  function Store(s: Log, i: Item): Log {
    var s1 := MarkGap(s, i.number - 1);
    s1.(records := s1.records + [Event(i.number)], lastWritten := i.number, written := s1.written + 1, inflight := None)
  }

  /** The last part file is renamed into the archive only after a drained close without a failure. */
  function Renamed(s: Log): Log {
    if s.drained && !s.failed then s.(visible := |s.records|) else s
  }

  /** What a reader of the archive finds: the records of renamed segments. */
  function Visible(s: Log): seq<Record> {
    if s.visible <= |s.records| then s.records[..s.visible] else s.records
  }

  /** The final lock region: stop, then count whatever was never written as dropped. */
  function Finalize(s: Log): Log {
    s.(stopping := true, dropped := s.dropped + |s.queue| + (if s.inflight.Some? then 1 else 0),
       queue := [], queuedBytes := s.queuedBytes - Bytes(s.queue), inflight := None,
       highWater := s.captured, phase := Finalized)
  }

  function Bytes(queue: seq<Item>): int {
    if queue == [] then 0 else queue[0].size + Bytes(queue[1..])
  }

  datatype Step =
    | Capture(size: Option<nat>, sawStop: bool)
    | CaptureError
    | CloseRequested
    | Retention(allowed: bool)
    | Rotate
    | WriterTake
    | WriterDiscard
    | WriterStore
    | WriterCrash(gapWritten: bool)
    | WriterExit(timedOut: bool)
    | WriterFinalize
    | WriterSeal(fails: bool)
    | WriterPublish

  /** When a step can happen; `emit` may have read the stop flag before it was set, but not across the final lock region. */
  predicate Enabled(s: Log, e: Step) {
    match e
    case Capture(_, sawStop) => (sawStop ==> s.stopping) && (!BeforeFinal(s.phase) ==> sawStop)
    case CaptureError => true
    case CloseRequested => true
    case Retention(_) => s.phase == Looping && s.inflight.None?
    case Rotate => s.phase == Looping && s.inflight.None? && s.visible < |s.records|
    case WriterTake => s.phase == Looping && s.inflight.None? && s.queue != []
    case WriterDiscard => s.phase == Looping && s.inflight.Some? && !s.allowed
    case WriterStore => s.phase == Looping && s.inflight.Some? && s.allowed
    case WriterCrash(gapWritten) => s.phase == Looping && (gapWritten ==> s.inflight.Some? && s.allowed)
    case WriterExit(timedOut) => s.phase == Looping && s.inflight.None? && s.stopping && (timedOut || s.queue == [])
    case WriterFinalize => s.phase == Exited
    case WriterSeal(_) => s.phase == Finalized
    case WriterPublish => s.phase == Sealed
  }

  function Next(s: Log, maxBytes: nat, e: Step): Log
    requires Enabled(s, e)
  {
    match e
    case Capture(size, sawStop) => Emit(s, maxBytes, size, sawStop)
    case CaptureError => CaptureFails(s)
    case CloseRequested => s.(stopping := true)
    case Retention(allowed) => s.(allowed := allowed)
    case Rotate => s.(visible := |s.records|)
    case WriterTake => Take(s)
    case WriterDiscard => s.(dropped := s.dropped + 1, inflight := None)
    case WriterStore => Store(s, s.inflight.value)
    case WriterCrash(gapWritten) =>
      (if gapWritten then MarkGap(s, s.inflight.value.number - 1) else s).(failed := true, phase := Exited)
    case WriterExit(_) => s.(drained := s.queue == [], phase := Exited)
    case WriterFinalize => Finalize(s)
    case WriterSeal(fails) =>
      if fails then s.(phase := Broken)
      else Renamed(if s.allowed && !s.failed then MarkGap(s, s.highWater) else s).(phase := Sealed)
    case WriterPublish => s.(phase := Published, published := s.captured)
  }

  predicate Runs(s: Log, maxBytes: nat, run: seq<Step>)
    decreases |run|
  {
    run == [] || (Enabled(s, run[0]) && Runs(Next(s, maxBytes, run[0]), maxBytes, run[1..]))
  }

  function After(s: Log, maxBytes: nat, run: seq<Step>): Log
    requires Runs(s, maxBytes, run)
    decreases |run|
  {
    if run == [] then s else After(Next(s, maxBytes, run[0]), maxBytes, run[1..])
  }

  // ---- Tiling --------------------------------------------------------------

  /** The records cover `from` .. `next - 1` in order, each number exactly once. */
  predicate Tiles(records: seq<Record>, from: int, next: int)
    decreases |records|
  {
    if records == [] then from == next
    else match records[0]
      case Event(n) => n == from && Tiles(records[1..], n + 1, next)
      case Gap(first, last) => first == from && first <= last && Tiles(records[1..], last + 1, next)
  }

  function EventCount(records: seq<Record>): nat {
    if records == [] then 0 else (if records[0].Event? then 1 else 0) + EventCount(records[1..])
  }

  /** Numbers covered by gap markers. */
  function LostCount(records: seq<Record>): int {
    if records == [] then 0
    else (if records[0].Gap? then records[0].last - records[0].first + 1 else 0) + LostCount(records[1..])
  }

  lemma {:induction false} TilesExtend(records: seq<Record>, from: int, next: int, r: Record, after: int)
    requires Tiles(records, from, next) && Tiles([r], next, after)
    ensures Tiles(records + [r], from, after)
    decreases |records|
  {
    if records == [] {
      assert records + [r] == [r];
    } else {
      assert (records + [r])[1..] == records[1..] + [r];
      var from' := match records[0] case Event(n) => n + 1 case Gap(_, last) => last + 1;
      TilesExtend(records[1..], from', next, r, after);
    }
  }

  lemma {:induction false} TilesEndsOnce(records: seq<Record>, from: int, next: int, other: int)
    requires Tiles(records, from, next) && Tiles(records, from, other)
    ensures next == other
    decreases |records|
  {
    if records != [] {
      var from' := match records[0] case Event(n) => n + 1 case Gap(_, last) => last + 1;
      TilesEndsOnce(records[1..], from', next, other);
    }
  }

  lemma {:induction false} TilesCounts(records: seq<Record>, from: int, next: int)
    requires Tiles(records, from, next)
    ensures EventCount(records) + LostCount(records) == next - from
    decreases |records|
  {
    if records != [] {
      var from' := match records[0] case Event(n) => n + 1 case Gap(_, last) => last + 1;
      TilesCounts(records[1..], from', next);
    }
  }

  lemma {:induction false} EventCountExtend(records: seq<Record>, r: Record)
    ensures EventCount(records + [r]) == EventCount(records) + if r.Event? then 1 else 0
    decreases |records|
  {
    if records == [] {
      assert records + [r] == [r];
    } else {
      assert (records + [r])[1..] == records[1..] + [r];
      EventCountExtend(records[1..], r);
    }
  }

  // ---- What every step keeps -----------------------------------------------

  predicate Ascending(queue: seq<Item>, above: int, upTo: int) {
    && (forall i | 0 <= i < |queue| :: above < queue[i].number <= upTo)
    && (forall i, j | 0 <= i < j < |queue| :: queue[i].number < queue[j].number)
  }

  predicate Conserved(s: Log) {
    s.captured == s.written + s.dropped + |s.queue| + if s.inflight.Some? then 1 else 0
  }

  predicate Inv(s: Log, maxBytes: nat) {
    && Conserved(s)
    && 0 <= s.lastWritten <= s.captured && s.dropped >= 0
    && Tiles(s.records, 1, s.lastWritten + 1)
    && EventCount(s.records) == s.written
    && (s.inflight.Some? ==> s.lastWritten < s.inflight.value.number <= s.captured)
    && Ascending(s.queue, if s.inflight.Some? then s.inflight.value.number else s.lastWritten, s.captured)
    && s.queuedBytes == Bytes(s.queue) <= maxBytes && |s.queue| <= MAX_QUEUE_RECORDS
    && (!BeforeFinal(s.phase) ==> s.stopping && s.queue == [] && s.inflight.None? && s.highWater <= s.captured)
    && (!BeforeFinal(s.phase) ==> s.lastWritten <= s.highWater)
    && ((s.phase == Sealed || s.phase == Published) && s.allowed && !s.failed ==> s.lastWritten == s.highWater)
    && (s.phase == Published ==> s.highWater <= s.published <= s.captured)
    && s.visible <= |s.records|
    && (s.phase == Looping ==> !s.drained && !s.failed)
    && (s.drained ==> !s.failed)
    && ((s.phase == Sealed || s.phase == Published) && s.drained ==> s.visible == |s.records|)
  }

  lemma {:induction false} BytesExtend(queue: seq<Item>, i: Item)
    ensures Bytes(queue + [i]) == Bytes(queue) + i.size
    decreases |queue|
  {
    if queue == [] {
      assert queue + [i] == [i];
    } else {
      assert (queue + [i])[1..] == queue[1..] + [i];
      BytesExtend(queue[1..], i);
    }
  }

  lemma MarkGapKeeps(s: Log, last: int)
    requires s.lastWritten >= 0 && Tiles(s.records, 1, s.lastWritten + 1) && EventCount(s.records) == s.written
    ensures var s' := MarkGap(s, last);
            && Tiles(s'.records, 1, s'.lastWritten + 1) && EventCount(s'.records) == s.written
            && s'.lastWritten == (if last <= s.lastWritten then s.lastWritten else last)
            && |s.records| <= |s'.records|
            && s' == s.(records := s'.records, lastWritten := s'.lastWritten)
  {
    if last > s.lastWritten {
      var g := Gap(s.lastWritten + 1, last);
      assert [g][1..] == [];
      TilesExtend(s.records, 1, s.lastWritten + 1, g, last + 1);
      EventCountExtend(s.records, g);
    }
  }

  lemma StoreKeeps(s: Log, maxBytes: nat)
    requires Inv(s, maxBytes) && Enabled(s, WriterStore)
    ensures Inv(Next(s, maxBytes, WriterStore), maxBytes)
  {
    var i := s.inflight.value;
    MarkGapKeeps(s, i.number - 1);
    var s1 := MarkGap(s, i.number - 1);
    assert [Event(i.number)][1..] == [];
    TilesExtend(s1.records, 1, i.number, Event(i.number), i.number + 1);
    EventCountExtend(s1.records, Event(i.number));
  }

  lemma AscendingWidens(queue: seq<Item>, above: int, upTo: int, more: int)
    requires Ascending(queue, above, upTo) && upTo <= more
    ensures Ascending(queue, above, more)
  {
  }

  lemma AscendingExtends(queue: seq<Item>, above: int, upTo: int, i: Item)
    requires Ascending(queue, above, upTo) && above <= upTo < i.number
    ensures Ascending(queue + [i], above, i.number)
  {
  }

  lemma DropKeeps(s: Log, maxBytes: nat)
    requires Inv(s, maxBytes)
    ensures Inv(CaptureFails(s), maxBytes)
  {
    AscendingWidens(s.queue, if s.inflight.Some? then s.inflight.value.number else s.lastWritten, s.captured, s.captured + 1);
  }

  lemma QueueKeeps(s: Log, maxBytes: nat, size: nat)
    requires Inv(s, maxBytes) && BeforeFinal(s.phase)
    requires s.queuedBytes + size <= maxBytes && |s.queue| < MAX_QUEUE_RECORDS
    ensures Inv(s.(captured := s.captured + 1, queue := s.queue + [Item(s.captured + 1, size)],
                   queuedBytes := s.queuedBytes + size), maxBytes)
  {
    BytesExtend(s.queue, Item(s.captured + 1, size));
    AscendingExtends(s.queue, if s.inflight.Some? then s.inflight.value.number else s.lastWritten, s.captured,
                     Item(s.captured + 1, size));
  }

  lemma EmitMeans(s: Log, maxBytes: nat, size: Option<nat>, sawStop: bool)
    ensures Emit(s, maxBytes, size, sawStop) == CaptureFails(s)
         || (&& size.Some? && !sawStop && s.queuedBytes + size.value <= maxBytes && |s.queue| < MAX_QUEUE_RECORDS
             && Emit(s, maxBytes, size, sawStop)
                == s.(captured := s.captured + 1, queue := s.queue + [Item(s.captured + 1, size.value)],
                      queuedBytes := s.queuedBytes + size.value))
  {
  }

  lemma EmitKeeps(s: Log, maxBytes: nat, size: Option<nat>, sawStop: bool)
    requires Inv(s, maxBytes) && Enabled(s, Capture(size, sawStop))
    ensures Inv(Emit(s, maxBytes, size, sawStop), maxBytes)
  {
    EmitMeans(s, maxBytes, size, sawStop);
    if Emit(s, maxBytes, size, sawStop) == CaptureFails(s) {
      DropKeeps(s, maxBytes);
    } else {
      QueueKeeps(s, maxBytes, size.value);
    }
  }

  lemma TakeKeeps(s: Log, maxBytes: nat)
    requires Inv(s, maxBytes) && Enabled(s, WriterTake)
    ensures Inv(Take(s), maxBytes)
  {
  }

  lemma CrashKeeps(s: Log, maxBytes: nat, gapWritten: bool)
    requires Inv(s, maxBytes) && Enabled(s, WriterCrash(gapWritten))
    ensures Inv(Next(s, maxBytes, WriterCrash(gapWritten)), maxBytes)
  {
    if gapWritten {
      var i := s.inflight.value;
      MarkGapKeeps(s, i.number - 1);
    }
  }

  lemma DiscardKeeps(s: Log, maxBytes: nat)
    requires Inv(s, maxBytes) && Enabled(s, WriterDiscard)
    ensures Inv(Next(s, maxBytes, WriterDiscard), maxBytes)
  {
  }

  lemma FinalizeKeeps(s: Log, maxBytes: nat)
    requires Inv(s, maxBytes) && Enabled(s, WriterFinalize)
    ensures Inv(Finalize(s), maxBytes)
  {
  }

  lemma SealKeeps(s: Log, maxBytes: nat, fails: bool)
    requires Inv(s, maxBytes) && Enabled(s, WriterSeal(fails))
    ensures Inv(Next(s, maxBytes, WriterSeal(fails)), maxBytes)
  {
    MarkGapKeeps(s, s.highWater);
  }

  lemma FlagsKeep(s: Log, maxBytes: nat, e: Step)
    requires Inv(s, maxBytes) && Enabled(s, e)
    requires e.CloseRequested? || e.Retention? || e.Rotate? || e.WriterExit? || e.WriterPublish?
    ensures Inv(Next(s, maxBytes, e), maxBytes)
  {
  }

  lemma NextKeeps(s: Log, maxBytes: nat, e: Step)
    requires Inv(s, maxBytes) && Enabled(s, e)
    ensures Inv(Next(s, maxBytes, e), maxBytes)
  {
    match e
    case Capture(size, sawStop) => EmitKeeps(s, maxBytes, size, sawStop);
    case CaptureError => DropKeeps(s, maxBytes);
    case WriterTake => TakeKeeps(s, maxBytes);
    case WriterDiscard => DiscardKeeps(s, maxBytes);
    case WriterStore => StoreKeeps(s, maxBytes);
    case WriterCrash(gapWritten) => CrashKeeps(s, maxBytes, gapWritten);
    case WriterFinalize => FinalizeKeeps(s, maxBytes);
    case WriterSeal(fails) => SealKeeps(s, maxBytes, fails);
    case CloseRequested => FlagsKeep(s, maxBytes, e);
    case Retention(_) => FlagsKeep(s, maxBytes, e);
    case Rotate => FlagsKeep(s, maxBytes, e);
    case WriterExit(_) => FlagsKeep(s, maxBytes, e);
    case WriterPublish => FlagsKeep(s, maxBytes, e);
  }

  /**
    For every interleaving of captures, losses, failures and writer steps: nothing
    captured is unaccounted for, and what was written, with its gap markers, tiles
    1 .. last written in order.
   */
  lemma {:induction false} EveryRunTiles(s: Log, maxBytes: nat, run: seq<Step>)
    requires Inv(s, maxBytes) && Runs(s, maxBytes, run)
    ensures Inv(After(s, maxBytes, run), maxBytes)
    ensures Conserved(After(s, maxBytes, run))
    ensures Tiles(After(s, maxBytes, run).records, 1, After(s, maxBytes, run).lastWritten + 1)
    decreases |run|
  {
    if run != [] {
      NextKeeps(s, maxBytes, run[0]);
      EveryRunTiles(Next(s, maxBytes, run[0]), maxBytes, run[1..]);
    }
  }

  /** A prefix of a tiling tiles up to somewhere, and short of the end if anything is missing. */
  lemma {:induction false} PrefixTiles(records: seq<Record>, from: int, next: int, n: nat) returns (reached: int)
    requires Tiles(records, from, next) && n <= |records|
    ensures Tiles(records[..n], from, reached) && from <= reached <= next
    ensures n < |records| ==> reached < next
    decreases |records|
  {
    if n == 0 {
      reached := from;
      if records != [] {
        var from' := match records[0] case Event(n) => n + 1 case Gap(_, last) => last + 1;
        var _ := PrefixTiles(records[1..], from', next, 0);
      }
    } else {
      var from' := match records[0] case Event(n) => n + 1 case Gap(_, last) => last + 1;
      assert records[..n][1..] == records[1..][..n - 1];
      reached := PrefixTiles(records[1..], from', next, n - 1);
    }
  }

  /**
    After a run that ends by publishing, however it ended, what a reader finds tiles the
    whole published range exactly when nothing was captured after the final lock region,
    the tail could be marked or was not needed, and the close was drained or left nothing
    in the open part file.
   */
  lemma PublishedRangeIsTiledIff(s: Log, maxBytes: nat)
    requires Inv(s, maxBytes) && s.phase == Published
    ensures Tiles(Visible(s), 1, s.published + 1)
       <==> && s.published == s.highWater
            && ((s.allowed && !s.failed) || s.lastWritten == s.highWater)
            && (s.drained || s.visible == |s.records|)
  {
    var reached := PrefixTiles(s.records, 1, s.lastWritten + 1, s.visible);
    if s.visible == |s.records| {
      assert s.records[..s.visible] == s.records;
    }
    if Tiles(Visible(s), 1, s.published + 1) {
      TilesEndsOnce(Visible(s), 1, reached, s.published + 1);
    }
  }

  /** On a tiled close the gap markers account for exactly the records counted as dropped. */
  lemma GapsEqualDrops(s: Log, maxBytes: nat)
    requires Inv(s, maxBytes) && s.phase == Published && s.captured == s.published
    requires Tiles(Visible(s), 1, s.published + 1)
    ensures LostCount(Visible(s)) == s.dropped
  {
    PublishedRangeIsTiledIff(s, maxBytes);
    assert s.records[..s.visible] == s.records;
    TilesCounts(s.records, 1, s.lastWritten + 1);
  }

  /** One more step in front of a run. */
  lemma Prepend(s: Log, maxBytes: nat, e: Step, rest: seq<Step>)
    requires Enabled(s, e) && Runs(Next(s, maxBytes, e), maxBytes, rest)
    ensures Runs(s, maxBytes, [e] + rest)
    ensures After(s, maxBytes, [e] + rest) == After(Next(s, maxBytes, e), maxBytes, rest)
  {
    assert ([e] + rest)[1..] == rest;
  }

  /** Record 1 was captured, taken on a full disk and dropped; the queue is empty. */
  function DroppedOnFullDisk(): Log {
    Start.(captured := 1, dropped := 1)
  }

  lemma ClosesAfterTheDrop() returns (run: seq<Step>)
    ensures Runs(DroppedOnFullDisk(), 1000, run)
    ensures var s := After(DroppedOnFullDisk(), 1000, run);
            s.phase == Published && !s.failed && s.drained && s.published == 1 && s.records == []
  {
    var s6 := Next(Next(DroppedOnFullDisk(), 1000, CloseRequested), 1000, WriterExit(false));
    run := FinalizesAndPublishes(s6);
    Prepend(Next(DroppedOnFullDisk(), 1000, CloseRequested), 1000, WriterExit(false), run);
    run := [WriterExit(false)] + run;
    Prepend(DroppedOnFullDisk(), 1000, CloseRequested, run);
    run := [CloseRequested] + run;
  }

  lemma FinalizesAndPublishes(s: Log) returns (run: seq<Step>)
    requires s.phase == Exited && s.queue == [] && s.inflight.None? && !s.allowed
    ensures Runs(s, 1000, run)
    ensures After(s, 1000, run).phase == Published && After(s, 1000, run).failed == s.failed
    ensures After(s, 1000, run).drained == s.drained && After(s, 1000, run).published == s.captured
    ensures After(s, 1000, run).records == s.records
  {
    var s7 := Next(s, 1000, WriterFinalize);
    var s8 := Next(s7, 1000, WriterSeal(false));
    Prepend(s8, 1000, WriterPublish, []);
    run := [WriterPublish] + [];
    Prepend(s7, 1000, WriterSeal(false), run);
    run := [WriterSeal(false)] + run;
    Prepend(s, 1000, WriterFinalize, run);
    run := [WriterFinalize] + run;
  }

  /** Low disk at the end: the shutdown is reported clean, yet record 1 is neither present nor marked. */
  lemma LowDiskLeavesTailUnmarked() returns (run: seq<Step>)
    ensures Runs(Start, 1000, run)
    ensures var s := After(Start, 1000, run);
            s.phase == Published && !s.failed && s.drained && s.published == 1 && s.records == []
  {
    var s1 := Next(Start, 1000, Capture(Some(10), false));
    var s2 := Next(s1, 1000, Retention(false));
    var s3 := Next(s2, 1000, WriterTake);
    assert Next(s3, 1000, WriterDiscard) == DroppedOnFullDisk();
    run := ClosesAfterTheDrop();
    Prepend(s3, 1000, WriterDiscard, run);
    run := [WriterDiscard] + run;
    Prepend(s2, 1000, WriterTake, run);
    run := [WriterTake] + run;
    Prepend(s1, 1000, Retention(false), run);
    run := [Retention(false)] + run;
    Prepend(Start, 1000, Capture(Some(10), false), run);
    run := [Capture(Some(10), false)] + run;
  }

  /** A capture between the final lock region and the status file: published beyond the last marker. */
  lemma LateCaptureIsUntiled() returns (run: seq<Step>)
    ensures Runs(Start, 1000, run)
    ensures var s := After(Start, 1000, run);
            && s.phase == Published && !s.failed && s.drained && s.allowed
            && s.published == 1 && s.highWater == 0 && s.records == []
  {
    var s1 := Next(Start, 1000, Retention(true));
    var s2 := Next(s1, 1000, CloseRequested);
    var s3 := Next(s2, 1000, WriterExit(false));
    run := CapturesAfterFinal(s3);
    Prepend(s2, 1000, WriterExit(false), run);
    run := [WriterExit(false)] + run;
    Prepend(s1, 1000, CloseRequested, run);
    run := [CloseRequested] + run;
    Prepend(Start, 1000, Retention(true), run);
    run := [Retention(true)] + run;
  }

  lemma CapturesAfterFinal(s: Log) returns (run: seq<Step>)
    requires s == Start.(allowed := true, stopping := true, drained := true, phase := Exited)
    ensures Runs(s, 1000, run)
    ensures After(s, 1000, run) == s.(captured := 1, dropped := 1, phase := Published, published := 1)
  {
    var s4 := s.(phase := Finalized);
    NothingToSeal(s4);
    run := CapturesAfterSeal(s.(phase := Sealed));
    Prepend(s4, 1000, WriterSeal(false), run);
    run := [WriterSeal(false)] + run;
    NothingToFinalize(s);
    Prepend(s, 1000, WriterFinalize, run);
    run := [WriterFinalize] + run;
  }

  lemma NothingToSeal(s: Log)
    requires s.phase == Finalized && s.highWater <= s.lastWritten && s.visible == |s.records|
    ensures Next(s, 1000, WriterSeal(false)) == s.(phase := Sealed)
  {
  }

  lemma NothingToFinalize(s: Log)
    requires s.phase == Exited && s.queue == [] && s.inflight.None? && s.stopping && s.captured == s.highWater
    ensures Next(s, 1000, WriterFinalize) == s.(phase := Finalized)
  {
    assert Bytes(s.queue) == 0 && |s.queue| == 0;
  }

  lemma CapturesAfterSeal(s: Log) returns (run: seq<Step>)
    requires s == Start.(allowed := true, stopping := true, drained := true, phase := Sealed)
    ensures Runs(s, 1000, run)
    ensures After(s, 1000, run) == s.(captured := 1, dropped := 1, phase := Published, published := 1)
  {
    var s6 := Next(s, 1000, Capture(Some(10), true));
    Prepend(s6, 1000, WriterPublish, []);
    run := [WriterPublish] + [];
    Prepend(s, 1000, Capture(Some(10), true), run);
    run := [Capture(Some(10), true)] + run;
  }

  lemma UndrainedTail(s: Log) returns (run: seq<Step>)
    requires s == Start.(allowed := true, captured := 1, queue := [Item(1, 10)], queuedBytes := 10, stopping := true, phase := Exited)
    ensures Runs(s, 1000, run)
    ensures After(s, 1000, run)
         == Start.(allowed := true, stopping := true, captured := 1, dropped := 1, lastWritten := 1, highWater := 1, published := 1,
                   records := [Gap(1, 1)], phase := Published)
  {
    var s5 := Start.(allowed := true, stopping := true, captured := 1, dropped := 1, highWater := 1, phase := Finalized);
    assert [Item(1, 10)][1..] == [] && Bytes([Item(1, 10)]) == 10;
    assert Next(s, 1000, WriterFinalize) == s5;
    var s6 := s5.(records := [Gap(1, 1)], lastWritten := 1, phase := Sealed);
    assert s5.records + [Gap(1, 1)] == [Gap(1, 1)];
    assert Next(s5, 1000, WriterSeal(false)) == s6;
    Prepend(s6, 1000, WriterPublish, []);
    run := [WriterPublish] + [];
    Prepend(s5, 1000, WriterSeal(false), run);
    run := [WriterSeal(false)] + run;
    Prepend(s, 1000, WriterFinalize, run);
    run := [WriterFinalize] + run;
  }

  /** A close that runs out of time: the tail is marked, but only in a part file no reader looks at. */
  lemma UndrainedCloseHidesTheTail() returns (run: seq<Step>)
    ensures Runs(Start, 1000, run)
    ensures var s := After(Start, 1000, run);
            && s.phase == Published && !s.failed && !s.drained && s.published == s.highWater == 1
            && Tiles(s.records, 1, 2) && Visible(s) == []
  {
    var s1 := Next(Start, 1000, Retention(true));
    var s2 := Next(s1, 1000, Capture(Some(10), false));
    var s3 := Next(s2, 1000, CloseRequested);
    assert s2.queue == [Item(1, 10)];
    var s4 := Next(s3, 1000, WriterExit(true));
    run := UndrainedTail(s4);
    assert [Gap(1, 1)][1..] == [] && [Gap(1, 1)][..0] == [];
    Prepend(s3, 1000, WriterExit(true), run);
    run := [WriterExit(true)] + run;
    Prepend(s2, 1000, CloseRequested, run);
    run := [CloseRequested] + run;
    Prepend(s1, 1000, Capture(Some(10), false), run);
    run := [Capture(Some(10), false)] + run;
    Prepend(Start, 1000, Retention(true), run);
    run := [Retention(true)] + run;
  }

  // ---- The object ----------------------------------------------------------

  /** The fields of `ResearchLog` the model keeps, and its methods' steps in place. */
  class ResearchLog {
    const maxBytes: nat
    var captureSeq: int
    var queue: seq<Item>
    var queuedBytes: int
    var dropped: int
    var written: int
    var inflight: Option<Item>
    var lastWrittenSeq: int
    var stopping: bool
    var allowed: bool
    var failed: bool
    var drained: bool
    var phase: Phase
    var highWater: int
    var published: int
    var records: seq<Record>
    var visible: nat

    function View(): Log
      reads this
    {
      Log(captureSeq, queue, queuedBytes, dropped, written, inflight, lastWrittenSeq, stopping, allowed, failed,
          drained, phase, highWater, published, records, visible)
    }

    constructor (maxBytes: nat)
      ensures this.maxBytes == maxBytes && View() == Start && Inv(View(), maxBytes)
    {
      this.maxBytes := maxBytes;
      captureSeq, queue, queuedBytes, dropped, written := 0, [], 0, 0, 0;
      inflight, lastWrittenSeq := None, 0;
      stopping, allowed, failed, drained := false, false, false, false;
      phase, highWater, published, records, visible := Looping, 0, 0, [], 0;
    }

    method EmitRecord(size: Option<nat>, sawStop: bool) returns (queued: bool)
      requires Enabled(View(), Capture(size, sawStop))
      modifies this
      ensures View() == Next(old(View()), maxBytes, Capture(size, sawStop))
      ensures queued <==> queue != old(queue)
    {
      captureSeq := captureSeq + 1;
      if size.None? {
        dropped := dropped + 1;
        queued := false;
      } else if sawStop || queuedBytes + size.value > maxBytes {
        dropped := dropped + 1;
        queued := false;
      } else if |queue| >= MAX_QUEUE_RECORDS {
        dropped := dropped + 1;
        queued := false;
      } else {
        queue := queue + [Item(captureSeq, size.value)];
        queuedBytes := queuedBytes + size.value;
        queued := true;
      }
    }

    method Fail()
      modifies this
      ensures View() == Next(old(View()), maxBytes, CaptureError)
    {
      captureSeq := captureSeq + 1;
      dropped := dropped + 1;
    }

    method WriteGap(last: int)
      modifies this
      ensures View() == MarkGap(old(View()), last)
    {
      if last <= lastWrittenSeq {
        return;
      }
      var first := lastWrittenSeq + 1;
      records := records + [Gap(first, last)];
      lastWrittenSeq := last;
    }

    /** Close the part file and rename it into the archive. */
    method RotatePart()
      requires Enabled(View(), Rotate)
      modifies this`visible
      ensures View() == Next(old(View()), maxBytes, Rotate)
    {
      visible := |records|;
    }

    /** `queue.get` and the byte count that follows it. */
    method TakeNext() returns (item: Item)
      requires Enabled(View(), WriterTake)
      modifies this
      ensures View() == Next(old(View()), maxBytes, WriterTake) && inflight == Some(item)
    {
      item := queue[0];
      queue := queue[1..];
      inflight := Some(item);
      queuedBytes := queuedBytes - item.size;
    }

    method StoreTaken(item: Item)
      requires inflight == Some(item) && Enabled(View(), WriterStore)
      modifies this
      ensures View() == Next(old(View()), maxBytes, WriterStore)
    {
      WriteGap(item.number - 1);
      records := records + [Event(item.number)];
      lastWrittenSeq := item.number;
      written := written + 1;
      inflight := None;
    }

    /** One turn of the writer loop on a nonempty queue, without a failure. */
    method WriteNext()
      requires Enabled(View(), WriterTake)
      modifies this
      ensures View() == Next(Next(old(View()), maxBytes, WriterTake), maxBytes, if old(allowed) then WriterStore else WriterDiscard)
    {
      var item := TakeNext();
      if allowed {
        StoreTaken(item);
      } else {
        dropped := dropped + 1;
        inflight := None;
      }
    }

    method DropQueue()
      modifies this`queue, this`queuedBytes, this`dropped
      ensures View() == old(View()).(queue := [], dropped := old(dropped) + |old(queue)|,
                                     queuedBytes := old(queuedBytes) - Bytes(old(queue)))
    {
      while queue != []
        invariant dropped + |queue| == old(dropped) + |old(queue)|
        invariant queuedBytes - Bytes(queue) == old(queuedBytes) - Bytes(old(queue))
        decreases |queue|
      {
        queuedBytes := queuedBytes - queue[0].size;
        queue := queue[1..];
        dropped := dropped + 1;
      }
    }

    method DropTaken()
      modifies this`inflight, this`dropped
      ensures View() == old(View()).(inflight := None, dropped := old(dropped) + if old(inflight).Some? then 1 else 0)
    {
      if inflight.Some? {
        dropped := dropped + 1;
        inflight := None;
      }
    }

    /** The final lock region. */
    method FinalizeQueue()
      requires Enabled(View(), WriterFinalize)
      modifies this
      ensures View() == Next(old(View()), maxBytes, WriterFinalize)
    {
      DropTaken();
      DropQueue();
      stopping, highWater, phase := true, captureSeq, Finalized;
    }

    method SealTail()
      requires Enabled(View(), WriterSeal(false))
      modifies this
      ensures View() == Next(old(View()), maxBytes, WriterSeal(false))
    {
      if allowed && !failed {
        WriteGap(highWater);
      }
      if drained && !failed {
        visible := |records|;
      }
      phase := Sealed;
    }

    method PublishStatus() returns (lastCaptureSeq: int)
      requires Enabled(View(), WriterPublish)
      modifies this
      ensures View() == Next(old(View()), maxBytes, WriterPublish)
      ensures lastCaptureSeq == published
    {
      published := captureSeq;
      phase := Published;
      lastCaptureSeq := published;
    }
  }
}
