/**
  Checkpoints of the paper engine: what `snapshot` writes and `restore` reads back.
  Records, claims, evidence and lifecycle states are durable on their own; the rest of
  a desk goes through the checkpoint, its consumed depth as a list of pairs.
 */
module ExecutionCheckpoint {
  import opened Wrappers
  import opened Execution
  import opened ExecutionInvariant
  import opened ExecutionEntry
  import opened ExecutionExit
  import opened ExecutionHistory

  datatype Saved = Saved(order: Option<Order>, position: Option<Position>, consumed: seq<(int, int)>, eligible: Option<int>,
                         lastEvent: Option<nat>, quarantine: Option<Quarantine>, pause: Option<Pause>, reserved: bool)

  /** `pairs` lists a dictionary, in whatever order. */
  predicate Lists(pairs: seq<(int, int)>, m: map<int, int>) {
    && (forall i, j | 0 <= i < j < |pairs| :: pairs[i].0 != pairs[j].0)
    && (forall i | 0 <= i < |pairs| :: pairs[i].0 in m && m[pairs[i].0] == pairs[i].1)
    && (forall p | p in m :: exists i :: 0 <= i < |pairs| && pairs[i].0 == p)
  }

  function FromPairs(pairs: seq<(int, int)>): map<int, int> {
    if pairs == [] then map[] else FromPairs(pairs[..|pairs| - 1])[pairs[|pairs| - 1].0 := pairs[|pairs| - 1].1]
  }

  lemma {:induction false} FromPairsAt(pairs: seq<(int, int)>, p: int)
    requires forall i, j | 0 <= i < j < |pairs| :: pairs[i].0 != pairs[j].0
    ensures p in FromPairs(pairs) <==> exists i :: 0 <= i < |pairs| && pairs[i].0 == p
    ensures forall i | 0 <= i < |pairs| && pairs[i].0 == p :: p in FromPairs(pairs) && FromPairs(pairs)[p] == pairs[i].1
    decreases |pairs|
  {
    if pairs != [] {
      var n := |pairs| - 1;
      FromPairsAt(pairs[..n], p);
      if p in FromPairs(pairs[..n]) {
        var i :| 0 <= i < |pairs[..n]| && pairs[..n][i].0 == p;
        assert pairs[i].0 == p;
      }
      if i :| 0 <= i < |pairs| && pairs[i].0 == p {
        if i < n { assert pairs[..n][i].0 == p; }
      }
    }
  }

  lemma ListedMapReturns(pairs: seq<(int, int)>, m: map<int, int>)
    requires Lists(pairs, m)
    ensures FromPairs(pairs) == m
  {
    forall p
      ensures p in FromPairs(pairs) <==> p in m
      ensures p in m ==> FromPairs(pairs)[p] == m[p]
    {
      FromPairsAt(pairs, p);
    }
  }

  function Save(d: Desk, pairs: seq<(int, int)>): Saved {
    Saved(d.order, d.position, pairs, d.eligible, d.lastEvent, d.quarantine, d.pause, d.reserved)
  }

  /** The instant of the first recorded result of an opportunity. */
  function ResultOf(h: seq<Record>, op: nat): Option<int> {
    if h == [] then None
    else
      var earlier := ResultOf(h[..|h| - 1], op);
      if earlier.Some? then earlier
      else if h[|h| - 1].TradeResult? && h[|h| - 1].position.op == op then Some(h[|h| - 1].at) else None
  }

  /** An idle order without a position may have closed before completion times were kept. */
  function Backfilled(o: Order, position: Option<Position>, h: seq<Record>): Order {
    if o.completedAt.None? && !o.active && position.None? && ResultOf(h, o.op).Some?
    then o.(completedAt := ResultOf(h, o.op)) else o
  }

  /** `restore` over the durable part of the desk. */
  function Restore(s: Saved, durable: Desk): Desk {
    durable.(order := if s.order.Some? then Some(Backfilled(s.order.value, s.position, durable.history)) else None,
             position := s.position, consumed := FromPairs(s.consumed), eligible := s.eligible, lastEvent := s.lastEvent,
             quarantine := s.quarantine, pause := s.pause, reserved := s.reserved)
  }

  /** What survives a restart without the checkpoint. */
  function Durable(d: Desk): Desk {
    EmptyDesk.(stage := d.stage, claims := d.claims, evidence := d.evidence, history := d.history)
  }

  /** An order that bought nothing shares its id with no closed trade. */
  predicate FreshOpportunity(d: Desk) {
    d.order.Some? && d.order.value.remaining == d.order.value.quantity ==> ResultOf(d.history, d.order.value.op).None?
  }

  // ---- Opportunity ids -------------------------------------------------------

  /** No order was submitted and no trade was closed under this id. */
  predicate Unused(h: seq<Record>, op: nat) {
    && (forall i | 0 <= i < |h| && h[i].Submitted? :: h[i].order.op != op)
    && (forall i | 0 <= i < |h| && h[i].TradeResult? :: h[i].position.op != op)
  }

  predicate FreshEntry(c: Config, d: Desk, e: Event) {
    e.SubmitEntry? && Accepts(c, e.shared, d, e.book, e.terms, e.tick, e.entry) ==> Unused(d.history, e.entry.op)
  }

  /** Every accepted entry of the run brings an opportunity id not used before. */
  predicate FreshEntries(c: Config, d: Desk, run: seq<Event>)
    requires Valid(c)
    decreases |run|
  {
    run == [] || (FreshEntry(c, d, run[0]) && FreshEntries(c, Step(c, d, run[0]), run[1..]))
  }

  lemma {:induction false} UnusedHasNoResult(h: seq<Record>, op: nat)
    requires Unused(h, op)
    ensures ResultOf(h, op).None?
    decreases |h|
  {
    if h != [] { UnusedHasNoResult(h[..|h| - 1], op); }
  }

  lemma {:induction false} NoResultAppended(h: seq<Record>, h': seq<Record>, kinds: set<Kind>, op: nat)
    requires Continues(h, h', kinds) && Result !in kinds
    ensures ResultOf(h', op) == ResultOf(h, op)
    decreases |h'|
  {
    if |h'| > |h| {
      assert Continues(h, h'[..|h'| - 1], kinds);
      NoResultAppended(h, h'[..|h'| - 1], kinds, op);
      assert KindOf(h'[|h'| - 1]) in kinds;
    } else {
      assert h == h';
    }
  }

  lemma SubmitKeepsFresh(c: Config, d: Desk, e: Event)
    requires Valid(c) && e.SubmitEntry? && FreshOpportunity(d) && FreshEntry(c, d, e)
    ensures FreshOpportunity(Step(c, d, e))
  {
    var s, b, m, tick, entry, d' := e.shared, e.book, e.terms, e.tick, e.entry, Step(c, d, e);
    SubmitAppends(c, s, d, b, m, tick, entry, e.gates);
    if d' != d {
      var o: Order :| o.op == entry.op && Continues(d.history + [Submitted(o)], d'.history, BUYING);
      AcceptedMeans(c, s, d, b, m, tick, entry);
      PlacedShape(c, s, d, b, entry);
      AggressiveProgresses(c, s, Placed(c, s, d, b, entry).value, b, m, tick, entry.at, e.gates);
      UnusedHasNoResult(d.history, entry.op);
      Snoc(d.history, Submitted(o));
      NoResultAppended(d.history + [Submitted(o)], d'.history, BUYING, entry.op);
    }
  }

  lemma BuyingKeepsFresh(c: Config, d: Desk, e: Event)
    requires Valid(c) && (e.MatchOrder? || e.TradePrint?) && Inv(c, d) && FreshOpportunity(d)
    ensures FreshOpportunity(Step(c, d, e))
  {
    var d' := Step(c, d, e);
    if d.order.Some? && d' != d {
      StepAppends(c, d, e);
      NoResultAppended(d.history, d'.history, Appendable(d, e), d.order.value.op);
      if e.MatchOrder? {
        AggressiveProgresses(c, e.shared, d, e.book, e.terms, e.tick, e.at, e.gates);
      } else {
        TradeProgresses(c, e.shared, d, e.traded, e.at, e.gate);
      }
    }
  }

  lemma TradeProgresses(c: Config, s: Shared, d: Desk, p: Print, at: int, gate: Gate)
    requires d.order.Some? && c.precision > 0
    ensures Progressed(d, Kept(d, Traded(c, s, d, p, at, gate)))
  {
    var r := Traded(c, s, d, p, at, gate);
    if r.Ok? && r.value != d {
      TradedMeans(c, s, d, p, at, gate);
      if RestAfterQueue(d, p) > 0 {
        FillProgresses(c, s, Queued(d, p), RestAfterQueue(d, p), d.order.value.limit, at, true, gate);
      }
    }
  }

  /** Only a market with a position records a result, and its order is then filled. */
  lemma OthersKeepFresh(c: Config, d: Desk, e: Event)
    requires Valid(c) && !e.SubmitEntry? && !e.MatchOrder? && !e.TradePrint? && Inv(c, d) && FreshOpportunity(d)
    ensures FreshOpportunity(Step(c, d, e))
  {
    var d' := Step(c, d, e);
    OthersKeepSize(c, d, e);
    if d.order.Some? && d.position.None? {
      StepAppends(c, d, e);
      NoResultAppended(d.history, d'.history, Appendable(d, e), d.order.value.op);
    }
  }

  lemma {:induction false} RunKeepsFresh(c: Config, d: Desk, run: seq<Event>)
    requires Valid(c) && Inv(c, d) && Stocked(d) && EventsOk(run) && FreshOpportunity(d) && FreshEntries(c, d, run)
    ensures FreshOpportunity(After(c, d, run))
    decreases |run|
  {
    if run != [] {
      StepKeeps(c, d, run[0]);
      if run[0].SubmitEntry? {
        SubmitKeepsFresh(c, d, run[0]);
      } else if run[0].MatchOrder? || run[0].TradePrint? {
        BuyingKeepsFresh(c, d, run[0]);
      } else {
        OthersKeepFresh(c, d, run[0]);
      }
      RunKeepsFresh(c, Step(c, d, run[0]), run[1..]);
    }
  }

  // ---- Round trips -----------------------------------------------------------

  /** Round trip: a desk of any run whose entries use fresh ids comes back from its checkpoint exactly as it was. */
  lemma RestoreReturnsTheDesk(c: Config, run: seq<Event>, pairs: seq<(int, int)>)
    requires Valid(c) && EventsOk(run) && Lists(pairs, After(c, EmptyDesk, run).consumed)
    requires FreshEntries(c, EmptyDesk, run)
    ensures var d := After(c, EmptyDesk, run); Restore(Save(d, pairs), Durable(d)) == d
  {
    InitialInv(c);
    EveryRunKeepsInv(c, EmptyDesk, run);
    RunKeepsFresh(c, EmptyDesk, run);
    ListedMapReturns(pairs, After(c, EmptyDesk, run).consumed);
  }

  /** Exactly when a restart changes a desk: an idle order that bought nothing carries the id of a closed trade. */
  lemma RestoreIsExactIff(c: Config, run: seq<Event>, pairs: seq<(int, int)>)
    requires Valid(c) && EventsOk(run) && Lists(pairs, After(c, EmptyDesk, run).consumed)
    ensures var d := After(c, EmptyDesk, run); Restore(Save(d, pairs), Durable(d)) == d <==> Working(d) || FreshOpportunity(d)
  {
    InitialInv(c);
    EveryRunKeepsInv(c, EmptyDesk, run);
    ListedMapReturns(pairs, After(c, EmptyDesk, run).consumed);
  }

  /** A committed exit survives a restart at any point: later states want what was wanted before it. */
  lemma CommittedExitsSurviveRestart(c: Config, run: seq<Event>, pairs: seq<(int, int)>, later: seq<Event>)
    requires Valid(c) && EventsOk(run) && Lists(pairs, After(c, EmptyDesk, run).consumed)
    requires FreshEntries(c, EmptyDesk, run) && Committed(c, After(c, EmptyDesk, run))
    requires var d := After(c, EmptyDesk, run); !ClosesWithin(c, Restore(Save(d, pairs), Durable(d)), later)
    ensures var d := After(c, EmptyDesk, run);
      var d' := After(c, Restore(Save(d, pairs), Durable(d)), later);
      d'.position.Some? && d'.position.value.exitReason == d.position.value.exitReason
  {
    RestoreReturnsTheDesk(c, run, pairs);
    CommittedExitsHold(c, After(c, EmptyDesk, run), later);
  }
}
