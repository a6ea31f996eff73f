/**
  The collector's entry gate (src/btc15/collector_recovery.py), shared by the
  receipt thread (`request`, `pressure`) and the worker (`reconnect`, `observe`,
  `check`). Lock regions are steps; what a thread does outside a region is a step
  of its own, so a request can land between the two halves of a check.
 */
module RecoveryGate {
  import opened Wrappers

  const WARNING_LAG := 0.5
  const RESUME_QUEUE_FRACTION := 0.2
  const OVERLOAD_FRACTION := 0.8
  const STALLED_STREAM_SECONDS := 10.0
  const METADATA_SECONDS := 30.0

  type Ticker = string

  datatype Config = Config(hourly: bool, referenceMaxAge: real, bookMaxAge: real, maxClockSkew: real)

  datatype Reason =
    | Stopping | WaitingForConnection | WaitingForFreshMetadata | ClockSkew | ExchangeClosed | Halted
    | WaitingForFreshReference | BacklogNotDrained | NoActiveMarket
    | MarketIntegrity(ticker: Ticker) | WaitingForSnapshot(ticker: Ticker)
    | BookInvalid(ticker: Ticker) | BookReceiveAge(ticker: Ticker) | BookSourceAge(ticker: Ticker)
    | ReferenceAge(ticker: Ticker)

  datatype Stall = ReferenceStalled | BookStalled(ticker: Ticker)

  datatype Gate = Gate(
    paused: bool,
    drain: bool,
    catchingUp: bool,
    ready: bool,
    since: real,
    connection: Option<string>,
    connectionStarted: Option<real>,
    reference: bool,
    snapshots: set<Ticker>,
    metadataAt: Option<real>,
    lag: real,
    depth: real,
    stalledSince: map<Stall, real>)

  function Startup(now: real): Gate {
    Gate(true, false, false, false, now, None, None, false, {}, None, 0.0, 0.0, map[])
  }

  function Min(x: real, y: real): real { if x <= y then x else y }

  // ---- Receipt thread ------------------------------------------------------

  function Request(g: Gate, now: real): Gate {
    if g.drain then g.(paused := true) else g.(paused := true, since := now, drain := true)
  }

  function BacklogThreshold(c: Config): real {
    Min(2.0, Min(c.referenceMaxAge, c.bookMaxAge))
  }

  /** `pressure` first publishes its reading, then enters the lock. */
  function Note(g: Gate, lag: real, depth: real): Gate {
    g.(lag := lag, depth := depth)
  }

  function Pressure(g: Gate, c: Config, lag: real, depth: real, capacity: real, now: real): Gate {
    if depth >= capacity * OVERLOAD_FRACTION then Request(g, now)
    else if lag >= BacklogThreshold(c) then
      g.(paused := true, catchingUp := true, since := if g.catchingUp || g.drain then g.since else now)
    else g
  }

  // ---- Worker --------------------------------------------------------------

  function Reconnect(g: Gate): Gate {
    g.(ready := false, connection := None, connectionStarted := None, reference := false, snapshots := {},
       metadataAt := None, stalledSince := map[], drain := false, catchingUp := false)
  }

  datatype Sighting =
    | Connected
    | Metadata(requestStarted: real)
    | ReferenceTick(acceptedAt: Option<real>)          // receipt time of the engine's newest tick
    | BookSnapshot(ticker: Ticker, sequenced: bool, listed: bool)
    | OtherInput

  datatype Observation = Observation(connection: string, received: real, valid: bool, sighting: Sighting)

  function Max(x: real, y: real): real { if x >= y then x else y }

  /** A connection resets what was seen before it; metadata counts if requested since the recovery began. */
  function Notice(g: Gate, o: Observation): Gate {
    match o.sighting
    case Connected =>
      g.(connection := Some(o.connection), connectionStarted := Some(o.received), reference := false,
         snapshots := {}, stalledSince := map[])
    case Metadata(started) =>
      if o.valid && started >= g.since then g.(metadataAt := Some(o.received)) else g
    case _ => g
  }

  function Observe(g: Gate, o: Observation): Gate {
    var g1 := Notice(g, o);
    if Some(o.connection) != g1.connection || !o.valid then g1
    else
      match o.sighting
      case ReferenceTick(accepted) =>
        if accepted.None? then g1
        else g1.(reference := && g1.connectionStarted.Some?
                              && accepted.value == o.received
                              && accepted.value >= Max(g1.since, g1.connectionStarted.value))
      case BookSnapshot(t, sequenced, listed) =>
        if !sequenced then Request(g1, o.received)
        else if listed then g1.(snapshots := g1.snapshots + {t}) else g1
      case _ => g1
  }

  datatype Market = Market(ticker: Ticker, tradable: bool, blocked: bool, valid: bool, received: real, sourceTime: real)

  datatype Tick = Tick(received: real, source: real)

  /** The engine state a check reads. */
  datatype EngineView = EngineView(
    connection: Option<string>, integrityFailed: bool, clockOk: bool, exchangeOpen: bool, halted: bool,
    healthy: bool, lastTick: Option<Tick>, markets: seq<Market>, watchlist: Option<set<Ticker>>)

  datatype Probe = Probe(
    engine: EngineView, now: real, monotonic: real, lag: real, depth: real, capacity: real,
    connected: bool, stopping: bool)

  predicate Selected(e: EngineView, m: Market) {
    m.tradable && (e.watchlist.None? || m.ticker in e.watchlist.value)
  }

  predicate Between(low: real, x: real, high: real) {
    low <= x <= high
  }

  predicate TickFresh(c: Config, t: Tick, now: real) {
    && Between(0.0, now - t.received, c.referenceMaxAge)
    && Between(-c.maxClockSkew, now - t.source, c.referenceMaxAge)
  }

  predicate ReferenceFresh(g: Gate, c: Config, p: Probe) {
    g.reference && p.engine.healthy && p.engine.lastTick.Some? && TickFresh(c, p.engine.lastTick.value, p.now)
  }

  predicate MetadataFresh(g: Gate, now: real) {
    g.metadataAt.Some? && 0.0 <= now - g.metadataAt.value <= METADATA_SECONDS
  }

  predicate Backlogged(lag: real, depth: real, capacity: real) {
    lag > WARNING_LAG || depth > capacity * RESUME_QUEUE_FRACTION
  }

  /** `freshness_rechecks` of one book. */
  function Failures(c: Config, m: Market, tick: Option<Tick>, now: real): set<Reason> {
    (if m.valid then {} else {BookInvalid(m.ticker)})
    + (if Between(0.0, now - m.received, c.bookMaxAge) then {} else {BookReceiveAge(m.ticker)})
    + (if Between(-c.maxClockSkew, now - m.sourceTime, c.bookMaxAge) then {} else {BookSourceAge(m.ticker)})
    + (if tick.Some? && TickFresh(c, tick.value, now) then {} else {ReferenceAge(m.ticker)})
  }

  predicate IdleExempt(c: Config, r: Reason) {
    c.hourly && (r.BookReceiveAge? || r.BookSourceAge?)
  }

  /** What the scan of the tradable markets accumulates. */
  datatype Scan = Scan(reasons: set<Reason>, idle: set<Reason>, stalls: set<Stall>, idleStalls: set<Stall>, usable: nat, any: bool)

  const NoScan := Scan({}, {}, {}, {}, 0, false)

  function ScanMarket(g: Gate, c: Config, p: Probe, acc: Scan, m: Market): Scan {
    if !Selected(p.engine, m) then acc
    else
      var stall := if m.blocked then {} else {BookStalled(m.ticker)};
      var acc1 := acc.(any := true, reasons := acc.reasons + if m.blocked then {MarketIntegrity(m.ticker)} else {});
      if m.ticker !in g.snapshots then
        acc1.(reasons := acc1.reasons + {WaitingForSnapshot(m.ticker)}, stalls := acc1.stalls + stall)
      else
        var failures := Failures(c, m, p.engine.lastTick, p.now);
        var idle := set r | r in failures && IdleExempt(c, r);
        var hard := failures - idle;
        acc1.(reasons := acc1.reasons + hard,
              idle := acc1.idle + idle,
              stalls := acc1.stalls + (if exists r | r in hard :: !r.ReferenceAge? then stall else {}),
              idleStalls := acc1.idleStalls + (if idle != {} then stall else {}),
              usable := acc1.usable + if failures == {} && !m.blocked then 1 else 0)
  }

  function ScanMarkets(g: Gate, c: Config, p: Probe, markets: seq<Market>): Scan {
    if markets == [] then NoScan
    else ScanMarket(g, c, p, ScanMarkets(g, c, p, markets[..|markets| - 1]), markets[|markets| - 1])
  }

  predicate Disconnected(g: Gate, p: Probe) {
    !p.connected || g.connection != p.engine.connection
  }

  function FixedReasons(g: Gate, c: Config, p: Probe): set<Reason> {
    (if p.stopping then {Stopping} else {})
    + (if Disconnected(g, p) then {WaitingForConnection} else {})
    + (if MetadataFresh(g, p.now) then {} else {WaitingForFreshMetadata})
    + (if p.engine.clockOk then {} else {ClockSkew})
    + (if p.engine.exchangeOpen then {} else {ExchangeClosed})
    + (if p.engine.halted then {Halted} else {})
    + (if ReferenceFresh(g, c, p) then {} else {WaitingForFreshReference})
    + (if Backlogged(p.lag, p.depth, p.capacity) then {BacklogNotDrained} else {})
  }

  function Reasons(g: Gate, c: Config, p: Probe): set<Reason> {
    var scan := ScanMarkets(g, c, p, p.engine.markets);
    FixedReasons(g, c, p) + scan.reasons
    + (if scan.any then {} else {NoActiveMarket})
    + (if scan.usable == 0 then scan.idle else {})
  }

  function Stalls(g: Gate, c: Config, p: Probe): set<Stall> {
    var scan := ScanMarkets(g, c, p, p.engine.markets);
    if || p.stopping || g.connection.None? || Disconnected(g, p) || !p.engine.clockOk || !p.engine.exchangeOpen
       || Backlogged(p.lag, p.depth, p.capacity)
    then {}
    else (if ReferenceFresh(g, c, p) then {} else {ReferenceStalled}) + scan.stalls
         + if scan.usable == 0 then scan.idleStalls else {}
  }

  function Restall(g: Gate, stalls: set<Stall>, monotonic: real): map<Stall, real> {
    map s | s in stalls :: if s in g.stalledSince then g.stalledSince[s] else monotonic
  }

  predicate Sustained(since: map<Stall, real>, monotonic: real) {
    exists s | s in since :: monotonic - since[s] >= STALLED_STREAM_SECONDS
  }

  /** The unlocked half of `check`: None when it returned early, else the reasons it will commit. */
  function Inspect(g: Gate, c: Config, p: Probe): (Gate, Option<set<Reason>>) {
    var g1 := if !p.stopping && g.connection.Some? && g.connection == p.engine.connection && p.engine.integrityFailed
              then Request(g, p.now) else g;
    if g1.drain then (g1.(ready := false), None)
    else
      var g2 := g1.(stalledSince := Restall(g1, Stalls(g1, c, p), p.monotonic));
      (if Sustained(g2.stalledSince, p.monotonic) then Request(g2, p.now) else g2, Some(Reasons(g1, c, p)))
  }

  /** The locked half of `check`. */
  function Commit(g: Gate, reasons: set<Reason>, capacity: real): Gate {
    if g.drain then g.(ready := false, paused := true)
    else if reasons != {} || (g.catchingUp && Backlogged(g.lag, g.depth, capacity)) then g.(ready := false, paused := true)
    else g.(ready := true, catchingUp := false, paused := false)
  }

  // ---- Two threads ---------------------------------------------------------

  datatype Event =
    | ReceiptRequest(now: real)
    | ReceiptNote(lag: real, depth: real)
    | ReceiptPressure(lag: real, depth: real, capacity: real, now: real)
    | WorkerReconnect
    | WorkerObserve(observation: Observation, passedCheck: bool)   // the drain flag was read before a request set it
    | WorkerInspect(probe: Probe)
    | WorkerCommit

  /** A witnessed observation, with the recovery start it was judged against. */
  datatype Witness = Witness(observation: Observation, since: real)

  /** The gate, a check between its halves, and what the worker applied since the last reconnect. */
  datatype System = System(gate: Gate, pending: Option<(Probe, set<Reason>)>, seen: seq<Witness>)

  function Begin(now: real): System {
    System(Startup(now), None, [])
  }

  /**
    The worker is one thread; the runner calls `reconnect` only with a drain
    requested, when the receipt thread is quiet.
   */
  predicate Allowed(s: System, e: Event) {
    match e
    case WorkerReconnect => s.pending.None? && s.gate.drain
    case WorkerObserve(_, _) => s.pending.None?
    case WorkerInspect(_) => s.pending.None?
    case WorkerCommit => s.pending.Some?
    case _ => true
  }

  function Step(s: System, c: Config, e: Event): System {
    match e
    case ReceiptRequest(now) => s.(gate := Request(s.gate, now))
    case ReceiptNote(lag, depth) => s.(gate := Note(s.gate, lag, depth))
    case ReceiptPressure(lag, depth, capacity, now) => s.(gate := Pressure(s.gate, c, lag, depth, capacity, now))
    case WorkerReconnect => s.(gate := Reconnect(s.gate), seen := [])
    case WorkerObserve(o, passed) =>
      if s.gate.drain && !passed then s
      else s.(gate := Observe(s.gate, o), seen := s.seen + [Witness(o, s.gate.since)])
    case WorkerInspect(p) =>
      var (g, reasons) := Inspect(s.gate, c, p);
      s.(gate := g, pending := if reasons.Some? then Some((p, reasons.value)) else None)
    case WorkerCommit =>
      if s.pending.None? then s
      else s.(gate := Commit(s.gate, s.pending.value.1, s.pending.value.0.capacity), pending := None)
  }

  predicate Runs(s: System, c: Config, run: seq<Event>)
    decreases |run|
  {
    run == [] || (Allowed(s, run[0]) && Runs(Step(s, c, run[0]), c, run[1..]))
  }

  function After(s: System, c: Config, run: seq<Event>): System
    decreases |run|
  {
    if run == [] then s else After(Step(s, c, run[0]), c, run[1..])
  }

  /** A pending drain or catch-up keeps entries paused; a ready gate has neither. */
  predicate GateInv(g: Gate) {
    (g.drain || g.catchingUp ==> g.paused) && (!g.paused ==> g.ready)
  }

  lemma StepKeepsGate(s: System, c: Config, e: Event)
    requires GateInv(s.gate) && Allowed(s, e)
    ensures GateInv(Step(s, c, e).gate)
  {
  }

  /** For every interleaving of the two threads. */
  lemma {:induction false} PendingRecoveryKeepsEntriesPaused(s: System, c: Config, run: seq<Event>)
    requires GateInv(s.gate) && Runs(s, c, run)
    ensures GateInv(After(s, c, run).gate)
    ensures After(s, c, run).gate.drain || After(s, c, run).gate.catchingUp ==> After(s, c, run).gate.paused
    decreases |run|
  {
    if run != [] {
      StepKeepsGate(s, c, run[0]);
      PendingRecoveryKeepsEntriesPaused(Step(s, c, run[0]), c, run[1..]);
    }
  }

  /** A requested drain lasts, and entries stay paused, until the worker reconnects. */
  lemma {:induction false} OnlyReconnectEndsADrain(s: System, c: Config, run: seq<Event>)
    requires s.gate.drain && s.gate.paused && Runs(s, c, run)
    requires forall i | 0 <= i < |run| :: !run[i].WorkerReconnect?
    ensures After(s, c, run).gate.drain && After(s, c, run).gate.paused
    decreases |run|
  {
    if run != [] {
      OnlyReconnectEndsADrain(Step(s, c, run[0]), c, run[1..]);
    }
  }

  // ---- What has to be seen before the gate opens ---------------------------

  predicate ConnectedAt(seen: seq<Witness>, i: int, connection: string) {
    && 0 <= i < |seen|
    && seen[i].observation.sighting.Connected? && seen[i].observation.connection == connection
    && forall j | i < j < |seen| :: !seen[j].observation.sighting.Connected?
  }

  /** A valid input of the current connection, after its `connected` boundary at `i`. */
  predicate OnConnection(seen: seq<Witness>, i: int, j: int, connection: string) {
    && 0 <= i < j < |seen|
    && seen[j].observation.valid && seen[j].observation.connection == connection
  }

  ghost predicate SnapshotSeen(seen: seq<Witness>, i: int, connection: string, t: Ticker) {
    exists j | OnConnection(seen, i, j, connection) ::
      var o := seen[j].observation;
      o.sighting.BookSnapshot? && o.sighting.ticker == t && o.sighting.sequenced
  }

  ghost predicate ReferenceSeen(seen: seq<Witness>, i: int, connection: string) {
    exists j | OnConnection(seen, i, j, connection) ::
      var o := seen[j].observation;
      && o.sighting.ReferenceTick? && o.sighting.acceptedAt == Some(o.received)
      && o.received >= seen[j].since && o.received >= seen[i].observation.received
  }

  ghost predicate MetadataSeen(seen: seq<Witness>, at: real) {
    exists j | 0 <= j < |seen| ::
      var o := seen[j].observation;
      o.sighting.Metadata? && o.valid && o.received == at && o.sighting.requestStarted >= seen[j].since
  }

  /** Every flag the gate relies on is backed by something seen since the last reconnect. */
  ghost predicate Backed(g: Gate, seen: seq<Witness>) {
    && (g.metadataAt.Some? ==> MetadataSeen(seen, g.metadataAt.value))
    && (g.connection.None? ==> !g.reference && g.snapshots == {})
    && (g.connection.Some? ==>
          && g.connectionStarted.Some?
          && exists i :: BackedFrom(g, seen, i))
  }

  lemma MetadataCarries(seen: seq<Witness>, w: Witness, at: real)
    requires MetadataSeen(seen, at)
    ensures MetadataSeen(seen + [w], at)
  {
    var j :| 0 <= j < |seen| && seen[j].observation.sighting.Metadata? && seen[j].observation.valid
             && seen[j].observation.received == at && seen[j].observation.sighting.requestStarted >= seen[j].since;
    assert (seen + [w])[j] == seen[j];
  }

  lemma ConnectionCarries(seen: seq<Witness>, w: Witness, i: int, connection: string)
    requires ConnectedAt(seen, i, connection) && !w.observation.sighting.Connected?
    ensures ConnectedAt(seen + [w], i, connection)
    ensures ReferenceSeen(seen, i, connection) ==> ReferenceSeen(seen + [w], i, connection)
    ensures forall t | SnapshotSeen(seen, i, connection, t) :: SnapshotSeen(seen + [w], i, connection, t)
  {
    var seen' := seen + [w];
    assert forall j | 0 <= j < |seen| :: seen'[j] == seen[j];
    if ReferenceSeen(seen, i, connection) {
      var j :| OnConnection(seen, i, j, connection) && seen[j].observation.sighting.ReferenceTick?
               && seen[j].observation.sighting.acceptedAt == Some(seen[j].observation.received)
               && seen[j].observation.received >= seen[j].since
               && seen[j].observation.received >= seen[i].observation.received;
      assert OnConnection(seen', i, j, connection);
    }
    forall t | SnapshotSeen(seen, i, connection, t)
      ensures SnapshotSeen(seen', i, connection, t)
    {
      var j :| OnConnection(seen, i, j, connection) && seen[j].observation.sighting.BookSnapshot?
               && seen[j].observation.sighting.ticker == t && seen[j].observation.sighting.sequenced;
      assert OnConnection(seen', i, j, connection);
    }
  }

  lemma ObserveKeepsMetadata(g: Gate, seen: seq<Witness>, o: Observation)
    requires g.metadataAt.Some? ==> MetadataSeen(seen, g.metadataAt.value)
    ensures var g' := Observe(g, o);
            g'.metadataAt.Some? ==> MetadataSeen(seen + [Witness(o, g.since)], g'.metadataAt.value)
  {
    var w := Witness(o, g.since);
    if Observe(g, o).metadataAt == g.metadataAt {
      if g.metadataAt.Some? {
        MetadataCarries(seen, w, g.metadataAt.value);
      }
    } else {
      assert (seen + [w])[|seen|] == w;
    }
  }

  /** The part of `Backed` about one connection boundary. */
  ghost predicate BackedFrom(g: Gate, seen: seq<Witness>, i: int)
    requires g.connection.Some?
  {
    && ConnectedAt(seen, i, g.connection.value)
    && g.connectionStarted == Some(seen[i].observation.received)
    && (g.reference ==> ReferenceSeen(seen, i, g.connection.value))
    && (forall t | t in g.snapshots :: SnapshotSeen(seen, i, g.connection.value, t))
  }

  lemma ObserveKeepsBackedFrom(g: Gate, seen: seq<Witness>, o: Observation, i: int)
    requires g.connection.Some? && BackedFrom(g, seen, i) && !o.sighting.Connected?
    ensures Observe(g, o).connection == g.connection
    ensures BackedFrom(Observe(g, o), seen + [Witness(o, g.since)], i)
  {
    ConnectionCarries(seen, Witness(o, g.since), i, g.connection.value);
    ObserveBacksNewFlags(g, seen, o, i);
  }

  lemma ObserveKeepsBacked(g: Gate, seen: seq<Witness>, o: Observation)
    requires Backed(g, seen)
    ensures Backed(Observe(g, o), seen + [Witness(o, g.since)])
  {
    var seen' := seen + [Witness(o, g.since)];
    ObserveKeepsMetadata(g, seen, o);
    if o.sighting.Connected? {
      assert ConnectedAt(seen', |seen|, o.connection);
      assert BackedFrom(Observe(g, o), seen', |seen|);
    } else if g.connection.Some? {
      var i :| BackedFrom(g, seen, i);
      ObserveKeepsBackedFrom(g, seen, o, i);
    }
  }

  lemma ObserveBacksNewFlags(g: Gate, seen: seq<Witness>, o: Observation, i: int)
    requires g.connection.Some? && g.connectionStarted.Some? && !o.sighting.Connected?
    requires ConnectedAt(seen, i, g.connection.value) && g.connectionStarted.value == seen[i].observation.received
    requires g.reference ==> ReferenceSeen(seen + [Witness(o, g.since)], i, g.connection.value)
    requires forall t | t in g.snapshots :: SnapshotSeen(seen + [Witness(o, g.since)], i, g.connection.value, t)
    ensures Observe(g, o).reference ==> ReferenceSeen(seen + [Witness(o, g.since)], i, g.connection.value)
    ensures forall t | t in Observe(g, o).snapshots :: SnapshotSeen(seen + [Witness(o, g.since)], i, g.connection.value, t)
  {
    var seen' := seen + [Witness(o, g.since)];
    assert seen'[|seen|].observation == o && seen'[i] == seen[i];
    if o.valid && o.connection == g.connection.value {
      assert OnConnection(seen', i, |seen|, g.connection.value);
    }
  }

  lemma BackedIgnores(g: Gate, g': Gate, seen: seq<Witness>)
    requires Backed(g, seen)
    requires g'.metadataAt == g.metadataAt && g'.connection == g.connection
    requires g'.connectionStarted == g.connectionStarted && g'.reference == g.reference && g'.snapshots == g.snapshots
    ensures Backed(g', seen)
  {
    if g.connection.Some? {
      var i :| BackedFrom(g, seen, i);
      assert BackedFrom(g', seen, i);
    }
  }

  /** The reasons a check carries to its locked half are still those of the current flags. */
  ghost predicate SystemInv(s: System, c: Config) {
    && GateInv(s.gate) && Backed(s.gate, s.seen)
    && (s.pending.Some? ==> s.pending.value.1 == Reasons(s.gate, c, s.pending.value.0))
  }

  lemma ScanIgnores(g: Gate, g': Gate, c: Config, p: Probe, markets: seq<Market>)
    requires g'.snapshots == g.snapshots
    ensures ScanMarkets(g', c, p, markets) == ScanMarkets(g, c, p, markets)
  {
  }

  lemma ReasonsIgnore(g: Gate, g': Gate, c: Config, p: Probe)
    requires g'.metadataAt == g.metadataAt && g'.connection == g.connection
    requires g'.reference == g.reference && g'.snapshots == g.snapshots
    ensures Reasons(g', c, p) == Reasons(g, c, p)
  {
    ScanIgnores(g, g', c, p, p.engine.markets);
  }

  lemma ReceiptKeepsSystem(s: System, c: Config, g: Gate)
    requires SystemInv(s, c) && GateInv(g)
    requires g.metadataAt == s.gate.metadataAt && g.connection == s.gate.connection
    requires g.connectionStarted == s.gate.connectionStarted
    requires g.reference == s.gate.reference && g.snapshots == s.gate.snapshots
    ensures SystemInv(s.(gate := g), c)
  {
    BackedIgnores(s.gate, g, s.seen);
    if s.pending.Some? {
      ReasonsIgnore(s.gate, g, c, s.pending.value.0);
    }
  }

  lemma InspectKeepsSystem(s: System, c: Config, p: Probe)
    requires SystemInv(s, c) && Allowed(s, WorkerInspect(p))
    ensures SystemInv(Step(s, c, WorkerInspect(p)), c)
  {
    var (g, reasons) := Inspect(s.gate, c, p);
    BackedIgnores(s.gate, g, s.seen);
    ReasonsIgnore(s.gate, g, c, p);
    var g1 := if !p.stopping && s.gate.connection.Some? && s.gate.connection == p.engine.connection && p.engine.integrityFailed
              then Request(s.gate, p.now) else s.gate;
    ReasonsIgnore(s.gate, g1, c, p);
    assert GateInv(g);
  }

  lemma StepKeepsSystem(s: System, c: Config, e: Event)
    requires SystemInv(s, c) && Allowed(s, e)
    ensures SystemInv(Step(s, c, e), c)
  {
    assert GateInv(Step(s, c, e).gate) by { StepKeepsGate(s, c, e); }
    match e
    case WorkerObserve(o, passed) =>
      if !s.gate.drain || passed {
        ObserveKeepsBacked(s.gate, s.seen, o);
      }
    case WorkerReconnect =>
    case WorkerInspect(p) =>
      InspectKeepsSystem(s, c, p);
    case _ =>
      ReceiptKeepsSystem(s, c, Step(s, c, e).gate);
  }

  // ---- The exact opening condition -----------------------------------------

  /** A selected market that blocks nothing: sequenced, unblocked, valid; idle ages are excused on hourly ladders. */
  predicate MarketReady(g: Gate, c: Config, p: Probe, m: Market) {
    && !m.blocked && m.ticker in g.snapshots && m.valid
    && p.engine.lastTick.Some? && TickFresh(c, p.engine.lastTick.value, p.now)
    && (c.hourly || (Between(0.0, p.now - m.received, c.bookMaxAge)
                     && Between(-c.maxClockSkew, p.now - m.sourceTime, c.bookMaxAge)))
  }

  predicate MarketFresh(g: Gate, c: Config, p: Probe, m: Market) {
    && MarketReady(g, c, p, m)
    && Between(0.0, p.now - m.received, c.bookMaxAge)
    && Between(-c.maxClockSkew, p.now - m.sourceTime, c.bookMaxAge)
  }

  predicate ReadyToEnter(g: Gate, c: Config, p: Probe) {
    && !p.stopping && p.connected && g.connection == p.engine.connection
    && MetadataFresh(g, p.now) && ReferenceFresh(g, c, p)
    && p.engine.clockOk && p.engine.exchangeOpen && !p.engine.halted
    && !Backlogged(p.lag, p.depth, p.capacity)
    && (forall i | 0 <= i < |p.engine.markets| && Selected(p.engine, p.engine.markets[i]) ::
          MarketReady(g, c, p, p.engine.markets[i]))
    && (exists i | 0 <= i < |p.engine.markets| && Selected(p.engine, p.engine.markets[i]) ::
          MarketFresh(g, c, p, p.engine.markets[i]))
  }

  lemma MarketReasons(g: Gate, c: Config, p: Probe, m: Market)
    requires m.ticker in g.snapshots
    ensures var f := Failures(c, m, p.engine.lastTick, p.now);
            var idle := set r | r in f && IdleExempt(c, r);
            && (!m.blocked && f - idle == {} <==> MarketReady(g, c, p, m))
            && (!m.blocked && f == {} <==> MarketFresh(g, c, p, m))
            && (f == {} <==> f - idle == {} && idle == {})
  {
    var f := Failures(c, m, p.engine.lastTick, p.now);
    var idle := set r | r in f && IdleExempt(c, r);
    var t := m.ticker;
    assert (f == {} <==> BookInvalid(t) !in f && BookReceiveAge(t) !in f && BookSourceAge(t) !in f && ReferenceAge(t) !in f);
    assert f - idle == {} ==> BookInvalid(t) !in f && ReferenceAge(t) !in f;
    if MarketReady(g, c, p, m) {
      assert f - idle == {};
    }
    if f - idle == {} && !c.hourly {
      assert idle == {};
    }
  }

  lemma {:induction false} ScanMeaning(g: Gate, c: Config, p: Probe, ms: seq<Market>)
    ensures var scan := ScanMarkets(g, c, p, ms);
            && (scan.reasons == {} <==> forall i | 0 <= i < |ms| && Selected(p.engine, ms[i]) :: MarketReady(g, c, p, ms[i]))
            && (scan.any <==> exists i :: 0 <= i < |ms| && Selected(p.engine, ms[i]))
            && (scan.usable > 0 <==> exists i :: 0 <= i < |ms| && Selected(p.engine, ms[i]) && MarketFresh(g, c, p, ms[i]))
            && (scan.reasons == {} && scan.idle == {} ==> (scan.any ==> scan.usable > 0))
    decreases |ms|
  {
    if ms != [] {
      var rest, m := ms[..|ms| - 1], ms[|ms| - 1];
      ScanMeaning(g, c, p, rest);
      assert forall i | 0 <= i < |rest| :: ms[i] == rest[i];
      if Selected(p.engine, m) && m.ticker in g.snapshots {
        MarketReasons(g, c, p, m);
      }
    }
  }

  /** A check has no reason to stay paused exactly when every listed condition holds. */
  lemma NoReasonIffReady(g: Gate, c: Config, p: Probe)
    ensures Reasons(g, c, p) == {} <==> ReadyToEnter(g, c, p)
  {
    var ms := p.engine.markets;
    var scan := ScanMarkets(g, c, p, ms);
    ScanMeaning(g, c, p, ms);
    var fixed := FixedReasons(g, c, p);
    assert fixed == {} <==>
      (&& Stopping !in fixed && WaitingForConnection !in fixed && WaitingForFreshMetadata !in fixed
       && ClockSkew !in fixed && ExchangeClosed !in fixed && Halted !in fixed
       && WaitingForFreshReference !in fixed && BacklogNotDrained !in fixed);
    assert Reasons(g, c, p) == {} <==> fixed == {} && scan.reasons == {} && scan.any && (scan.usable == 0 ==> scan.idle == {}) by {
      if Reasons(g, c, p) == {} {
        assert NoActiveMarket !in Reasons(g, c, p);
        assert fixed <= Reasons(g, c, p) && scan.reasons <= Reasons(g, c, p);
        assert scan.usable == 0 ==> scan.idle <= Reasons(g, c, p);
      }
    }
  }

  /** Fresh metadata, a reference tick and every selected snapshot, all after the last reconnect. */
  ghost predicate Evidence(g: Gate, seen: seq<Witness>, p: Probe) {
    && g.metadataAt.Some? && MetadataSeen(seen, g.metadataAt.value)
    && p.engine.connection.Some?
    && exists i | ConnectedAt(seen, i, p.engine.connection.value) ::
         && ReferenceSeen(seen, i, p.engine.connection.value)
         && forall k | 0 <= k < |p.engine.markets| && Selected(p.engine, p.engine.markets[k]) ::
              SnapshotSeen(seen, i, p.engine.connection.value, p.engine.markets[k].ticker)
  }

  lemma ObserveKeepsPaused(g: Gate, o: Observation)
    requires g.paused
    ensures Observe(g, o).paused
  {
    assert Notice(g, o).paused;
  }

  lemma InspectKeepsPaused(g: Gate, c: Config, p: Probe)
    requires g.paused
    ensures Inspect(g, c, p).0.paused
  {
  }

  lemma OnlyCommitOpens(s: System, c: Config, e: Event)
    requires s.gate.paused && !Step(s, c, e).gate.paused
    ensures e.WorkerCommit? && s.pending.Some? && s.pending.value.1 == {} && !s.gate.drain
    ensures Step(s, c, e).seen == s.seen
  {
    if e.WorkerObserve? {
      ObserveKeepsPaused(s.gate, e.observation);
    } else if e.WorkerInspect? {
      InspectKeepsPaused(s.gate, c, e.probe);
    }
  }

  lemma OpeningHasEvidence(s: System, c: Config, e: Event)
    requires SystemInv(s, c) && Allowed(s, e)
    requires s.gate.paused && !Step(s, c, e).gate.paused
    ensures e.WorkerCommit? && s.pending.Some? && !s.gate.drain
    ensures ReadyToEnter(s.gate, c, s.pending.value.0)
    ensures Evidence(s.gate, s.seen, s.pending.value.0)
    ensures Step(s, c, e).seen == s.seen
  {
    OnlyCommitOpens(s, c, e);
    var p := s.pending.value.0;
    assert ReadyToEnter(s.gate, c, p) by { NoReasonIffReady(s.gate, c, p); }
    ReadyIsEvidence(s.gate, c, s.seen, p);
  }

  lemma ReadyIsEvidence(g: Gate, c: Config, seen: seq<Witness>, p: Probe)
    requires Backed(g, seen) && ReadyToEnter(g, c, p)
    ensures Evidence(g, seen, p)
  {
    var i :| BackedFrom(g, seen, i);
    assert forall k | 0 <= k < |p.engine.markets| && Selected(p.engine, p.engine.markets[k]) ::
      MarketReady(g, c, p, p.engine.markets[k]);
  }

  predicate NotBefore(e: Event, t: real) {
    match e
    case ReceiptRequest(now) => t <= now
    case ReceiptPressure(_, _, _, now) => t <= now
    case WorkerObserve(o, _) => t <= o.received
    case WorkerInspect(p) => t <= p.now
    case _ => true
  }

  lemma ObserveSince(g: Gate, o: Observation, t: real)
    requires t <= g.since && t <= o.received
    ensures t <= Observe(g, o).since
  {
    assert Notice(g, o).since == g.since;
  }

  lemma InspectSince(g: Gate, c: Config, p: Probe, t: real)
    requires t <= g.since && t <= p.now
    ensures t <= Inspect(g, c, p).0.since
  {
  }

  lemma CommitSince(g: Gate, reasons: set<Reason>, capacity: real, t: real)
    requires t <= g.since
    ensures t <= Commit(g, reasons, capacity).since
  {
  }

  lemma SinceHolds(s: System, c: Config, e: Event, t: real)
    requires t <= s.gate.since && NotBefore(e, t)
    ensures t <= Step(s, c, e).gate.since
  {
    match e
    case WorkerObserve(o, _) => ObserveSince(s.gate, o, t);
    case WorkerInspect(p) => InspectSince(s.gate, c, p, t);
    case WorkerCommit =>
      if s.pending.Some? {
        CommitSince(s.gate, s.pending.value.1, s.pending.value.0.capacity, t);
      }
    case _ =>
  }

  lemma ReopeningFollowsRecovery(s: System, c: Config, run: seq<Event>)
    requires SystemInv(s, c) && s.gate.drain && s.gate.paused && Runs(s, c, run) && run != []
    requires forall i | 0 <= i < |run| :: NotBefore(run[i], s.gate.since)
    requires After(s, c, run[..|run| - 1]).gate.paused && !After(s, c, run).gate.paused
    ensures exists k :: 0 <= k < |run| && run[k].WorkerReconnect?
    ensures var last := After(s, c, run[..|run| - 1]);
            && last.pending.Some?
            && ReadyToEnter(last.gate, c, last.pending.value.0)
            && Evidence(last.gate, last.seen, last.pending.value.0)
            && forall i | 0 <= i < |last.seen| :: last.seen[i].since >= s.gate.since
  {
    if forall k | 0 <= k < |run| :: !run[k].WorkerReconnect? {
      OnlyReconnectEndsADrain(s, c, run);
      assert false;
    }
    var front, e := run[..|run| - 1], run[|run| - 1];
    assert run == front + [e];
    SplitRun(s, c, front, e);
    var last := After(s, c, front);
    RunKeepsSystem(s, c, front);
    OpeningHasEvidence(last, c, e);
    if forall k | 0 <= k < |front| :: !front[k].WorkerReconnect? {
      OnlyReconnectEndsADrain(s, c, front);
      assert false;
    }
    SeenSinceDrain(s, c, front, s.gate.since);
  }

  lemma {:induction false} SplitRun(s: System, c: Config, front: seq<Event>, e: Event)
    requires Runs(s, c, front + [e])
    ensures Runs(s, c, front) && Allowed(After(s, c, front), e)
    ensures After(s, c, front + [e]) == Step(After(s, c, front), c, e)
    decreases |front|
  {
    if front == [] {
      assert front + [e] == [e];
      assert After(s, c, [e]) == After(Step(s, c, e), c, []);
    } else {
      assert (front + [e])[1..] == front[1..] + [e];
      SplitRun(Step(s, c, front[0]), c, front[1..], e);
    }
  }

  lemma {:induction false} RunKeepsSystem(s: System, c: Config, run: seq<Event>)
    requires SystemInv(s, c) && Runs(s, c, run)
    ensures SystemInv(After(s, c, run), c)
    decreases |run|
  {
    if run != [] {
      StepKeepsSystem(s, c, run[0]);
      RunKeepsSystem(Step(s, c, run[0]), c, run[1..]);
    }
  }

  predicate AllSince(seen: seq<Witness>, t: real) {
    forall i | 0 <= i < |seen| :: seen[i].since >= t
  }

  lemma {:induction false} SeenSinceDrain(s: System, c: Config, run: seq<Event>, t: real)
    requires Runs(s, c, run) && t <= s.gate.since
    requires forall i | 0 <= i < |run| :: NotBefore(run[i], t)
    requires AllSince(s.seen, t) || exists k :: 0 <= k < |run| && run[k].WorkerReconnect?
    ensures AllSince(After(s, c, run).seen, t)
    decreases |run|
  {
    if run != [] {
      SinceHolds(s, c, run[0], t);
      var s' := Step(s, c, run[0]);
      if !AllSince(s'.seen, t) {
        var k :| 0 <= k < |run| && run[k].WorkerReconnect?;
        assert k != 0 && run[1..][k - 1] == run[k];
      }
      SeenSinceDrain(s', c, run[1..], t);
    }
  }

  // ---- From startup ----------------------------------------------------------

  lemma BeginKeepsSystem(now: real, c: Config)
    ensures SystemInv(Begin(now), c)
  {
  }

  /** In every state the two threads can reach, the gate opens only at the locked half of a check that found nothing missing. */
  lemma OpensOnlyWithEvidence(now: real, c: Config, run: seq<Event>, e: Event)
    requires Runs(Begin(now), c, run) && Allowed(After(Begin(now), c, run), e)
    requires After(Begin(now), c, run).gate.paused && !Step(After(Begin(now), c, run), c, e).gate.paused
    ensures var s := After(Begin(now), c, run);
      && e.WorkerCommit? && s.pending.Some? && !s.gate.drain
      && ReadyToEnter(s.gate, c, s.pending.value.0)
      && Evidence(s.gate, s.seen, s.pending.value.0)
  {
    BeginKeepsSystem(now, c);
    RunKeepsSystem(Begin(now), c, run);
    OpeningHasEvidence(After(Begin(now), c, run), c, e);
  }

  /**
    After a drain request: however the threads interleave, entries can resume only
    after a reconnect, and then on metadata requested no earlier than the drain,
    a reference tick and a sequenced snapshot of every watched tradable market,
    all seen on the engine's connection since that reconnect.
   */
  lemma ReopensOnlyAfterRecovery(now: real, c: Config, before: seq<Event>, run: seq<Event>)
    requires Runs(Begin(now), c, before) && After(Begin(now), c, before).gate.drain
    requires Runs(After(Begin(now), c, before), c, run) && run != []
    requires forall i | 0 <= i < |run| :: NotBefore(run[i], After(Begin(now), c, before).gate.since)
    requires var s := After(Begin(now), c, before);
             After(s, c, run[..|run| - 1]).gate.paused && !After(s, c, run).gate.paused
    ensures exists k :: 0 <= k < |run| && run[k].WorkerReconnect?
    ensures var s := After(Begin(now), c, before);
            var last := After(s, c, run[..|run| - 1]);
            && last.pending.Some?
            && ReadyToEnter(last.gate, c, last.pending.value.0)
            && Evidence(last.gate, last.seen, last.pending.value.0)
            && forall i | 0 <= i < |last.seen| :: last.seen[i].since >= s.gate.since
  {
    BeginKeepsSystem(now, c);
    RunKeepsSystem(Begin(now), c, before);
    ReopeningFollowsRecovery(After(Begin(now), c, before), c, run);
  }

  /** The other direction: in every reachable state a check that finds everything in place does open the gate. */
  lemma ReadyCheckOpens(now: real, c: Config, run: seq<Event>)
    requires Runs(Begin(now), c, run)
    requires var s := After(Begin(now), c, run);
      && s.pending.Some? && !s.gate.drain && ReadyToEnter(s.gate, c, s.pending.value.0)
      && (s.gate.catchingUp ==> !Backlogged(s.gate.lag, s.gate.depth, s.pending.value.0.capacity))
    ensures !Step(After(Begin(now), c, run), c, WorkerCommit).gate.paused
  {
    BeginKeepsSystem(now, c);
    RunKeepsSystem(Begin(now), c, run);
    NoReasonIffReady(After(Begin(now), c, run).gate, c, After(Begin(now), c, run).pending.value.0);
  }

  // ---- The object ----------------------------------------------------------

  /** The fields of `CollectorRecovery`; each method is one step of one thread. */
  class CollectorRecovery {
    const config: Config
    var paused: bool
    var drain: bool
    var catchingUp: bool
    var ready: bool
    var since: real
    var connection: Option<string>
    var connectionStarted: Option<real>
    var reference: bool
    var snapshots: set<Ticker>
    var metadataAt: Option<real>
    var lag: real
    var depth: real
    var stalledSince: map<Stall, real>

    function View(): Gate
      reads this
    {
      Gate(paused, drain, catchingUp, ready, since, connection, connectionStarted, reference, snapshots,
           metadataAt, lag, depth, stalledSince)
    }

    constructor (config: Config, now: real)
      ensures this.config == config && View() == Startup(now) && GateInv(View())
    {
      this.config := config;
      paused, drain, catchingUp, ready, since := true, false, false, false, now;
      connection, connectionStarted, reference, snapshots := None, None, false, {};
      metadataAt, lag, depth, stalledSince := None, 0.0, 0.0, map[];
    }

    method RequestDrain(now: real)
      modifies this
      ensures View() == Request(old(View()), now)
    {
      paused := true;
      if drain {
        return;
      }
      since := now;
      drain := true;
    }

    method NoteReading(lag: real, depth: real)
      modifies this
      ensures View() == Note(old(View()), lag, depth)
    {
      this.lag, this.depth := lag, depth;
    }

    method ApplyPressure(lag: real, depth: real, capacity: real, now: real)
      modifies this
      ensures View() == Pressure(old(View()), config, lag, depth, capacity, now)
    {
      if depth >= capacity * OVERLOAD_FRACTION {
        RequestDrain(now);
      } else if lag >= BacklogThreshold(config) {
        paused := true;
        if !catchingUp && !drain {
          since := now;
        }
        catchingUp := true;
      }
    }

    method StartGeneration()
      modifies this
      ensures View() == Reconnect(old(View()))
    {
      ready := false;
      connection, connectionStarted, reference, snapshots := None, None, false, {};
      metadataAt, stalledSince := None, map[];
      drain := false;
      catchingUp := false;
    }

    method Witnessed(o: Observation)
      modifies this
      ensures View() == Observe(old(View()), o)
    {
      if o.sighting.Connected? {
        connection, connectionStarted := Some(o.connection), Some(o.received);
        reference, snapshots, stalledSince := false, {}, map[];
      }
      if o.sighting.Metadata? && o.valid && o.sighting.requestStarted >= since {
        metadataAt := Some(o.received);
      }
      if Some(o.connection) != connection || !o.valid {
        return;
      }
      if o.sighting.ReferenceTick? && o.sighting.acceptedAt.Some? {
        var at := o.sighting.acceptedAt.value;
        reference := connectionStarted.Some? && at == o.received && at >= Max(since, connectionStarted.value);
      }
      if o.sighting.BookSnapshot? {
        if !o.sighting.sequenced {
          RequestDrain(o.received);
        } else if o.sighting.listed {
          snapshots := snapshots + {o.sighting.ticker};
        }
      }
    }

    /** One turn of the scan, for a selected market. */
    method ScanOne(p: Probe, acc: Scan, m: Market) returns (scan: Scan)
      requires Selected(p.engine, m)
      ensures scan == ScanMarket(View(), config, p, acc, m)
    {
      var (reasons, idle, stalls, idleStalls, usable) := (acc.reasons, acc.idle, acc.stalls, acc.idleStalls, acc.usable);
      var stall := if m.blocked then {} else {BookStalled(m.ticker)};
      if m.blocked {
        reasons := reasons + {MarketIntegrity(m.ticker)};
      }
      if m.ticker !in snapshots {
        return Scan(reasons + {WaitingForSnapshot(m.ticker)}, idle, stalls + stall, idleStalls, usable, true);
      }
      var failures := Failures(config, m, p.engine.lastTick, p.now);
      var excused := set r | r in failures && IdleExempt(config, r);
      var hard := failures - excused;
      return Scan(reasons + hard, idle + excused,
                  stalls + (if exists r | r in hard :: !r.ReferenceAge? then stall else {}),
                  idleStalls + (if excused != {} then stall else {}),
                  usable + (if failures == {} && !m.blocked then 1 else 0), true);
    }

    /** The scan of the tradable markets inside `check`. */
    method ScanLadder(p: Probe) returns (scan: Scan)
      ensures scan == ScanMarkets(View(), config, p, p.engine.markets)
    {
      scan := NoScan;
      ghost var g, ms := View(), p.engine.markets;
      for i := 0 to |p.engine.markets|
        invariant scan == ScanMarkets(g, config, p, ms[..i])
      {
        assert ms[..i + 1][..i] == ms[..i];
        if Selected(p.engine, p.engine.markets[i]) {
          scan := ScanOne(p, scan, p.engine.markets[i]);
        }
      }
      assert ms[..|ms|] == ms;
    }

    /** The reasons and stalls `check` collects before it takes the lock. */
    method CollectReasons(p: Probe) returns (reasons: set<Reason>, stalls: set<Stall>)
      ensures reasons == Reasons(View(), config, p) && stalls == Stalls(View(), config, p)
    {
      var scan := ScanLadder(p);
      reasons := FixedReasons(View(), config, p) + scan.reasons;
      reasons := reasons + if scan.any then {} else {NoActiveMarket};
      reasons := reasons + if scan.usable == 0 then scan.idle else {};
      stalls := if ReferenceFresh(View(), config, p) then {} else {ReferenceStalled};
      stalls := stalls + scan.stalls;
      stalls := stalls + if scan.usable == 0 then scan.idleStalls else {};
      if || p.stopping || !p.connected || connection.None? || connection != p.engine.connection
         || !p.engine.clockOk || !p.engine.exchangeOpen || Backlogged(p.lag, p.depth, p.capacity) {
        stalls := {};
      }
    }

    /** The unlocked half of `check`. */
    method InspectFreshness(p: Probe) returns (reasons: Option<set<Reason>>)
      modifies this
      ensures (View(), reasons) == Inspect(old(View()), config, p)
    {
      if !p.stopping && connection.Some? && connection == p.engine.connection && p.engine.integrityFailed {
        RequestDrain(p.now);
      }
      if drain {
        ready := false;
        return None;
      }
      var found, stalls := CollectReasons(p);
      stalledSince := Restall(View(), stalls, p.monotonic);
      if Sustained(stalledSince, p.monotonic) {
        RequestDrain(p.now);
      }
      return Some(found);
    }

    /** The locked half of `check`. */
    method CommitReasons(reasons: set<Reason>, capacity: real)
      modifies this
      ensures View() == Commit(old(View()), reasons, capacity)
    {
      if drain {
        ready, paused := false, true;
        return;
      }
      var blocked := reasons != {};
      if catchingUp && Backlogged(lag, depth, capacity) {
        blocked := true;
      }
      ready := !blocked;
      if blocked {
        paused := true;
      } else {
        catchingUp := false;
        paused := false;
      }
    }
  }
}
