/**
  Full-size entries: under `full_position_execution` a match on its own either fills
  the whole order or fills nothing and cancels it, whatever the other threads raise
  between levels. The match inside a zero-latency submission is not protected so.
 */
module ExecutionEntry {
  import opened Wrappers
  import opened Execution
  import opened ExecutionInvariant
  import F = Fees

  /** The order is wholly filled and is the whole position. */
  predicate Whole(d: Desk) {
    && d.order.Some? && d.order.value.remaining == 0 && !d.order.value.active
    && d.position.Some? && d.position.value.bought == d.order.value.quantity
  }

  /** Nothing was bought and the order is cancelled. */
  predicate NothingBought(d: Desk, d': Desk) {
    && d'.position == d.position && !Working(d') && d.order.Some? && d'.order.Some?
    && d'.order.value.remaining == d.order.value.remaining
    && TotalBought(d'.history) == TotalBought(d.history)
  }

  /** A full-size order on which nothing has happened yet. */
  predicate Untouched(d: Desk) {
    Working(d) && d.order.value.remaining == d.order.value.quantity && d.position.None?
  }

  lemma CancelBuysNothing(c: Config, d: Desk, at: int)
    requires Inv(c, d) && d.order.Some? && Cancel(d, at).Ok?
    ensures NothingBought(d, Cancel(d, at).value)
  {
    CancelKeeps(c, d, at);
    if Working(d) {
      NeutralHistory(c, d.history, Cancelled(d.order.value.id, at));
    }
  }

  lemma AvailableNonnegative(asks: seq<Level>, limit: int, tick: int -> bool)
    ensures Available(asks, limit, tick) >= 0
  {
    if asks != [] {
      FloorLotBounds(asks[0].quantity);
      AvailableNonnegative(asks[1..], limit, tick);
    }
  }

  /** Beyond the first level above the limit nothing is available on an ascending ladder. */
  predicate Ascending(asks: seq<Level>) {
    forall i, j | 0 <= i < j < |asks| :: asks[i].price <= asks[j].price
  }

  lemma {:induction false} NothingBeyondLimit(asks: seq<Level>, limit: int, tick: int -> bool)
    requires Ascending(asks) && asks != [] && asks[0].price > limit
    ensures Available(asks, limit, tick) == 0
    decreases |asks|
  {
    if |asks| > 1 {
      assert asks[1..][0] == asks[1];
      NothingBeyondLimit(asks[1..], limit, tick);
    }
  }

  /** One level of a full-size match: blocked, or bought; the order goes on exactly while more is wanted. */
  lemma LevelFills(c: Config, s: Shared, d: Desk, lots: int, price: int, at: int, gate: Gate)
    requires Valid(c) && c.full && Inv(c, d) && Stocked(d) && Working(d) && lots > 0
    requires at >= d.order.value.eligible && d.quarantine.None? && d.pause.None?
    requires Fill(c, s, d, lots, price, at, false, gate).Ok?
    ensures var (d', status) := Fill(c, s, d, lots, price, at, false, gate).value;
      && (status == Blocked || status == Filled)
      && (status == Filled ==>
            && Inv(c, d') && Stocked(d') && d'.order.Some? && d'.quarantine.None? && d'.pause.None?
            && d'.order.value.eligible == d.order.value.eligible && d'.order.value.limit == d.order.value.limit
            && d'.order.value.remaining == d.order.value.remaining - Min(lots, d.order.value.remaining)
            && (d'.order.value.active <==> d'.order.value.remaining > 0)
            && (!d'.order.value.active ==> Whole(d')))
  {
    FillMeans(c, s, d, lots, price, at, false, gate);
    FillKeeps(c, s, d, lots, price, at, false, gate);
  }

  /** With enough on-grid depth, the level loop ends with the whole order or is interrupted: never in between. */
  lemma {:induction false} MatchIsWholeOrInterrupted(c: Config, s: Shared, d: Desk, asks: seq<Level>, tick: int -> bool, at: int,
                                                     gates: nat -> Gate, k: nat)
    requires Valid(c) && c.full && Inv(c, d) && Stocked(d) && Working(d) && Ascending(asks)
    requires forall i | 0 <= i < |asks| :: asks[i].quantity > 0
    requires at >= d.order.value.eligible && d.quarantine.None? && d.pause.None?
    requires !OffTick(asks, d.order.value.limit, tick) && Available(asks, d.order.value.limit, tick) >= d.order.value.remaining
    ensures var r := MatchLevels(c, s, d, asks, tick, at, gates, k); r.Ran? ==> Whole(r.desk)
    ensures !MatchLevels(c, s, d, asks, tick, at, gates, k).Returned?
    decreases |asks|
  {
    var o := d.order.value;
    if asks == [] {
    } else if asks[0].price > o.limit {
      NothingBeyondLimit(asks, o.limit, tick);
    } else {
      var lots := FloorLot(asks[0].quantity);
      FloorLotBounds(asks[0].quantity);
      if lots <= 0 {
        assert Ascending(asks[1..]);
        MatchIsWholeOrInterrupted(c, s, d, asks[1..], tick, at, gates, k + 1);
      } else {
        var filled := Fill(c, s, d, lots, asks[0].price, at, false, gates(k));
        if filled.Ok? {
          LevelFills(c, s, d, lots, asks[0].price, at, gates(k));
          var (d', status) := filled.value;
          if status == Filled && d'.order.value.active {
            assert Ascending(asks[1..]);
            MatchIsWholeOrInterrupted(c, s, d', asks[1..], tick, at, gates, k + 1);
          }
        }
      }
    }
  }

  lemma AsksAscend(b: Book, side: Side)
    requires Sorted(b)
    ensures Ascending(Asks(b, side)) && forall i | 0 <= i < |Asks(b, side)| :: Asks(b, side)[i].quantity > 0
  {
  }

  /** A full-size match ends whole, interrupted, cancelled with nothing bought, or not attempted. */
  lemma BodyIsWholeOrInterrupted(c: Config, s: Shared, d: Desk, b: Book, m: Terms, tick: int -> bool, at: int, gates: nat -> Gate)
    requires Valid(c) && c.full && Inv(c, d) && Stocked(d) && Untouched(d) && BookOk(b)
    ensures match AggressiveBody(c, s, d, b, m, tick, at, gates)
            case Ran(_) => false
            case Returned(d') => d' == d || Whole(d') || NothingBought(d, d')
            case Interrupted(_) => true
            case Broke(_) => true
  {
    if Cancel(d, at).Ok? { CancelBuysNothing(c, d, at); }
    var o := d.order.value;
    var asks := Asks(b, o.side);
    if at >= o.eligible && d.pause.None? && !gates(0).pending && !ExecutionBlocked(c, s, d, b, m, at)
       && !OffTick(asks, o.limit, tick) && Available(asks, o.limit, tick) >= o.remaining
    {
      AsksAscend(b, o.side);
      MatchIsWholeOrInterrupted(c, s, d, asks, tick, at, gates, 1);
    }
  }

  /**
    All or nothing: whatever rises between levels, a full-size match that does not
    raise leaves the desk as it was, the order wholly filled, or nothing bought and
    the order cancelled.
   */
  lemma FullEntryIsAllOrNothing(c: Config, s: Shared, d: Desk, b: Book, m: Terms, tick: int -> bool, at: int, gates: nat -> Gate)
    requires Valid(c) && c.full && Inv(c, d) && Stocked(d) && Untouched(d) && BookOk(b)
    ensures var r := Aggressive(c, s, d, b, m, tick, at, gates);
      r.Ok? ==> r.value == d || Whole(r.value) || NothingBought(d, r.value)
  {
    BodyIsWholeOrInterrupted(c, s, d, b, m, tick, at, gates);
    if Cancel(d, at).Ok? { CancelBuysNothing(c, d, at); }
  }

  // ---- Whole runs with a latency -------------------------------------------

  /** No full-size order is ever left partly filled. */
  predicate NeverPartial(d: Desk) {
    d.order.Some? ==> d.order.value.remaining == 0 || d.order.value.remaining == d.order.value.quantity
  }

  /** The order's size and what remains of it are unchanged. */
  predicate SameSize(d: Desk, d': Desk) {
    && (d.order.None? <==> d'.order.None?)
    && (d.order.Some? ==>
          && d'.order.value.remaining == d.order.value.remaining && d'.order.value.quantity == d.order.value.quantity
          && d'.order.value.cycle == d.order.value.cycle && d'.order.value.op == d.order.value.op
          && (d'.order.value.active ==> d.order.value.active)
          && (d.order.value.completedAt.Some? ==> d'.order.value.completedAt.Some?)
          && (d'.order.value.completedAt.Some? && d.order.value.completedAt.None? ==> d.position.Some?))
    && (d'.position.Some? ==> d.position.Some?)
  }

  lemma CancelKeepsSize(d: Desk, at: int)
    ensures Cancel(d, at).Ok? ==> SameSize(d, Cancel(d, at).value) && Cancel(d, at).value.position == d.position
  {
  }

  lemma FinishKeepsSize(d: Desk, at: int, reason: Reason, settlement: Option<Side>)
    requires d.position.Some? && Finish(d, at, reason, settlement).Ok?
    ensures SameSize(d, Finish(d, at, reason, settlement).value)
  {
  }

  lemma {:induction false} SellLevelsKeepSize(c: Config, d: Desk, bids: seq<Level>, tick: int -> bool, reason: Reason,
                                              target: Option<int>, at: int, received: int, carry: int)
    requires d.position.Some? && c.precision > 0 && SellLevels(c, d, bids, tick, reason, target, at, received, carry).Ok?
    ensures SameSize(d, SellLevels(c, d, bids, tick, reason, target, at, received, carry).value)
    decreases |bids|
  {
    if bids != [] {
      var q := Sellable(c, d, bids[0], tick, reason, target, carry);
      if q == 0 {
        SellLevelsKeepSize(c, d, bids[1..], tick, reason, target, at, received, carry);
      } else {
        var charged := F.Charge(c.precision, carry, bids[0].price, q, c.takerRate, F.Sell);
        var sold := BookSale(d, q, bids[0].price, charged.fee, reason, at, received);
        if sold.position.value.quantity == 0 {
          FinishKeepsSize(sold, at, reason, None);
        } else {
          SellLevelsKeepSize(c, sold, bids[1..], tick, reason, target, at, received, charged.carry);
        }
      }
    }
  }

  lemma ExecuteKeepsSize(c: Config, d: Desk, tick: int -> bool, q: Quote)
    requires d.position.Some? && c.precision > 0 && Execute(c, d, tick, q).Ok?
    ensures SameSize(d, Execute(c, d, tick, q).value)
  {
    var marked := d.(lastEvent := Some(q.event));
    CancelKeepsSize(marked, q.at);
    var exiting := Moved(Cancel(marked, q.at).value, Exiting).value;
    SellLevelsKeepSize(c, exiting, Bids(q.book, exiting.position.value.side), tick, q.reason, q.target, q.at, q.book.received, 0);
  }

  lemma IntendKeepsSize(c: Config, d: Desk, q: Quote)
    requires d.position.Some?
    ensures Intend(c, d, q).Ok? ==> SameSize(d, Intend(c, d, q).value)
  {
    if Intend(c, d, q).Ok? {
      var idle, limit := IntendMeans(c, d, q);
      CancelKeepsSize(d, q.at);
    }
  }

  /** Extremes and dropped intents leave the order alone. */
  lemma UpdateKeepsOrder(d: Desk, q: Quote)
    requires d.position.Some?
    ensures var current := DropChanged(Extremes(d, q.mark), q); current.order == d.order && current.position.Some?
  {
  }

  lemma SameOrderSameSize(d: Desk, current: Desk, d': Desk)
    requires current.order == d.order && d.position.Some? && current.position.Some? && SameSize(current, d')
    ensures SameSize(d, d')
  {
  }

  lemma TransactionKeepsSize(c: Config, d: Desk, tick: int -> bool, q: Quote)
    requires d.position.Some? && c.precision > 0 && Commit(c, d, tick, q).Ok?
    ensures SameSize(d, Commit(c, d, tick, q).value)
  {
    var current, d' := DropChanged(Extremes(d, q.mark), q), Commit(c, d, tick, q).value;
    UpdateKeepsOrder(d, q);
    CommitMeans(c, d, tick, q);
    if d' != current {
      IntendKeepsSize(c, current, q);
      if Execute(c, current, tick, q).Ok? {
        ExecuteKeepsSize(c, current, tick, q);
      }
    }
    SameOrderSameSize(d, current, d');
  }

  lemma CommitKeepsSize(c: Config, d: Desk, tick: int -> bool, q: Quote, warning: bool)
    requires d.position.Some? && c.precision > 0
    ensures SameSize(d, Kept(d, Apply(c, d, tick, q, warning)))
  {
    if Apply(c, d, tick, q, warning).Ok? && Apply(c, d, tick, q, warning).value != d {
      TransactionKeepsSize(c, d, tick, q);
    }
  }

  lemma MonitorKeepsSize(c: Config, d: Desk, b: Book, m: Terms, tick: int -> bool, at: int, event: nat, g: Signals)
    requires c.precision > 0
    ensures SameSize(d, Monitor(c, d, b, m, tick, at, event, g))
  {
    if !MonitorBlocked(c, d, b, m, at) {
      var pos := d.position.value;
      var bid := Bids(b, pos.side)[0].price;
      if c.full && pos.exitReason != NoReason {
        CommitKeepsSize(c, d, tick, Quote(b, Mark(pos, bid), pos.exitReason, None, at, event, true), false);
      } else if ValueReason(pos.exitReason) {
        CommitKeepsSize(c, d, tick, Quote(b, Mark(pos, bid), pos.exitReason, pos.valueLimit, at, event, true), false);
        var d' := WorkValueExit(c, d, b, m, tick, at, event, g);
        assert SameSize(d, d');
        if d'.position.Some? && Bids(b, d'.position.value.side) != [] {
          EvaluateKeepsSize(c, d', b, tick, at, event, g);
        }
      } else {
        EvaluateKeepsSize(c, d, b, tick, at, event, g);
      }
    }
  }

  lemma EvaluateKeepsSize(c: Config, d: Desk, b: Book, tick: int -> bool, at: int, event: nat, g: Signals)
    requires c.precision > 0 && d.position.Some? && Bids(b, d.position.value.side) != []
    ensures SameSize(d, Evaluate(c, d, b, tick, at, event, g))
  {
    var pos := d.position.value;
    var bid := Bids(b, pos.side)[0].price;
    var (reason, target) := Reading(pos, bid, g);
    CommitKeepsSize(c, d, tick, Quote(b, Mark(pos, bid), reason, target, at, event, g.modelAvailable || pos.exitReason != Invalidation), g.warning);
  }

  lemma SettleNowKeepsSize(d: Desk, result: Side, at: int, recovering: bool)
    requires SettleNow(d, result, at, recovering).Ok?
    ensures SameSize(d, SettleNow(d, result, at, recovering).value)
  {
    SettleNowShape(d, result, at, recovering);
    CancelKeepsSize(Claimed(d, result, at), at);
    var idle, d' := Cancel(Claimed(d, result, at), at).value, SettleNow(d, result, at, recovering).value;
    var waiting: Desk :|
      && waiting == idle.(stage := waiting.stage)
      && (if idle.position.Some?
          then Finish(PaidOut(waiting, result), at, AtSettlement, Some(result)).Ok?
               && d' == Finish(PaidOut(waiting, result), at, AtSettlement, Some(result)).value.(quarantine := None, pause := None)
          else d' == waiting.(quarantine := None, pause := None));
    if idle.position.Some? {
      FinishKeepsSize(PaidOut(waiting, result), at, AtSettlement, Some(result));
    }
  }

  lemma SettleKeepsSize(d: Desk, result: Side, at: int, close: int, ev: Evidence, review: Option<bool>)
    ensures SameSize(d, Kept(d, First(Settle(d, result, at, close, ev, review))))
  {
    var r := Settle(d, result, at, close, ev, review);
    if r.Ok? && r.value.0 != d {
      SettleMeans(d, result, at, close, ev, review);
      var idle := EvidenceMeans(d, result, at, ev);
      CancelKeepsSize(if ev.NoEvidence? then d else d.(evidence := d.evidence + {result}), at);
      var seen := WithEvidence(d, result, at, ev).value;
      assert SameSize(d, seen);
      if r.value.1 == SettledNow {
        SettleNowKeepsSize(seen, result, at, seen.quarantine.Some?);
      }
    }
  }

  /** Only submissions, matches and public trades change an order's size or fill it. */
  lemma OthersKeepSize(c: Config, d: Desk, e: Event)
    requires Valid(c) && !e.SubmitEntry? && !e.MatchOrder? && !e.TradePrint?
    ensures SameSize(d, Step(c, d, e))
  {
    if e.MonitorBook? {
      MonitorKeepsSize(c, d, e.book, e.terms, e.tick, e.at, e.quote, e.signals);
    } else if e.SettleMarket? {
      SettleKeepsSize(d, e.result, e.at, e.close, e.evidence, e.review);
    } else if e.CancelOrder? || e.Restrict? || e.PauseVenue? {
      CancelKeepsSize(d, e.at);
    }
  }

  lemma StepNeverPartial(c: Config, d: Desk, e: Event)
    requires Valid(c) && c.full && c.latency > 0 && Inv(c, d) && Stocked(d) && NeverPartial(d) && EventOk(e)
    requires e.MatchOrder? ==> BookOk(e.book)
    ensures NeverPartial(Step(c, d, e))
  {
    if e.SubmitEntry? {
      SubmitNeverPartial(c, e.shared, d, e.book, e.terms, e.tick, e.entry, e.gates);
    } else if e.MatchOrder? {
      MatchNeverPartial(c, e.shared, d, e.book, e.terms, e.tick, e.at, e.gates);
    } else if e.TradePrint? {
      TradeNeverPartial(c, d, e);
    } else {
      OthersKeepSize(c, d, e);
    }
  }

  lemma MatchNeverPartial(c: Config, s: Shared, d: Desk, b: Book, m: Terms, tick: int -> bool, at: int, gates: nat -> Gate)
    requires Valid(c) && c.full && Inv(c, d) && Stocked(d) && NeverPartial(d) && BookOk(b)
    ensures NeverPartial(Kept(d, Aggressive(c, s, d, b, m, tick, at, gates)))
  {
    if Working(d) {
      FullEntryIsAllOrNothing(c, s, d, b, m, tick, at, gates);
      AggressiveProgresses(c, s, d, b, m, tick, at, gates);
    }
  }

  /** The same order, filled no less than before. */
  predicate Progressed(d: Desk, d': Desk) {
    && d.order.Some? && d'.order.Some? && d'.order.value.op == d.order.value.op
    && d'.order.value.quantity == d.order.value.quantity && d'.order.value.remaining <= d.order.value.remaining
  }

  lemma FillProgresses(c: Config, s: Shared, d: Desk, q: int, price: int, at: int, maker: bool, gate: Gate)
    requires d.order.Some? && c.precision > 0 && Fill(c, s, d, q, price, at, maker, gate).Ok?
    ensures Progressed(d, Fill(c, s, d, q, price, at, maker, gate).value.0)
  {
    FillMeans(c, s, d, q, price, at, maker, gate);
  }

  lemma {:induction false} MatchProgresses(c: Config, s: Shared, d: Desk, asks: seq<Level>, tick: int -> bool, at: int, gates: nat -> Gate, k: nat)
    requires d.order.Some? && c.precision > 0 && Sound(MatchLevels(c, s, d, asks, tick, at, gates, k))
    ensures Progressed(d, MatchLevels(c, s, d, asks, tick, at, gates, k).desk)
    decreases |asks|
  {
    if asks == [] || asks[0].price > d.order.value.limit || !tick(asks[0].price) {
    } else if FloorLot(asks[0].quantity) <= 0 {
      MatchProgresses(c, s, d, asks[1..], tick, at, gates, k + 1);
    } else {
      var filled := Fill(c, s, d, FloorLot(asks[0].quantity), asks[0].price, at, false, gates(k));
      FillProgresses(c, s, d, FloorLot(asks[0].quantity), asks[0].price, at, false, gates(k));
      var d' := filled.value.0;
      if filled.value.1 != Blocked && d'.order.value.active {
        MatchProgresses(c, s, d', asks[1..], tick, at, gates, k + 1);
      }
    }
  }

  lemma CancelProgresses(d: Desk, at: int)
    requires d.order.Some?
    ensures Cancel(d, at).Ok? ==> Progressed(d, Cancel(d, at).value)
  {
  }

  lemma BodyProgresses(c: Config, s: Shared, d: Desk, b: Book, m: Terms, tick: int -> bool, at: int, gates: nat -> Gate)
    requires d.order.Some? && c.precision > 0 && Sound(AggressiveBody(c, s, d, b, m, tick, at, gates))
    ensures Progressed(d, AggressiveBody(c, s, d, b, m, tick, at, gates).desk)
  {
    CancelProgresses(d, at);
    var r := MatchLevels(c, s, d, Asks(b, d.order.value.side), tick, at, gates, 1);
    if Sound(r) {
      MatchProgresses(c, s, d, Asks(b, d.order.value.side), tick, at, gates, 1);
      CancelProgresses(r.desk, at);
    }
  }

  lemma AggressiveProgresses(c: Config, s: Shared, d: Desk, b: Book, m: Terms, tick: int -> bool, at: int, gates: nat -> Gate)
    requires d.order.Some? && c.precision > 0
    ensures Progressed(d, Kept(d, Aggressive(c, s, d, b, m, tick, at, gates)))
    ensures Progressed(d, Kept(d, NestedAggressive(c, s, d, b, m, tick, at, gates)))
  {
    CancelProgresses(d, at);
    var body := AggressiveBody(c, s, d, b, m, tick, at, gates);
    if Sound(body) {
      BodyProgresses(c, s, d, b, m, tick, at, gates);
      CancelProgresses(body.desk, at);
    }
  }

  lemma TradeNeverPartial(c: Config, d: Desk, e: Event)
    requires Valid(c) && c.full && NeverPartial(d) && e.TradePrint?
    ensures Step(c, d, e) == d
  {
    assert !Reaches(c, d, e.traded, e.at, e.gate);
  }

  lemma SubmitNeverPartial(c: Config, s: Shared, d: Desk, b: Book, m: Terms, tick: int -> bool, entry: Entry, gates: nat -> Gate)
    requires Valid(c) && c.latency > 0 && NeverPartial(d)
    ensures NeverPartial(Kept(d, First(Submit(c, s, d, b, m, tick, entry, gates))))
  {
    if Accepts(c, s, d, b, m, tick, entry) {
      AcceptedMeans(c, s, d, b, m, tick, entry);
      if Placed(c, s, d, b, entry).Ok? {
        PlacedShape(c, s, d, b, entry);
      }
    }
  }

  predicate MatchesOk(run: seq<Event>) {
    forall i | 0 <= i < |run| :: EventOk(run[i]) && (run[i].MatchOrder? ==> BookOk(run[i].book))
  }

  lemma {:induction false} RunNeverPartial(c: Config, d: Desk, run: seq<Event>)
    requires Valid(c) && c.full && c.latency > 0 && Inv(c, d) && Stocked(d) && NeverPartial(d) && MatchesOk(run)
    ensures NeverPartial(After(c, d, run))
    decreases |run|
  {
    if run != [] {
      StepKeeps(c, d, run[0]);
      StepNeverPartial(c, d, run[0]);
      RunNeverPartial(c, Step(c, d, run[0]), run[1..]);
    }
  }

  /** Over every run with a positive latency, full-size execution never holds a partial entry. */
  lemma FullEntriesAreNeverPartial(c: Config, run: seq<Event>)
    requires Valid(c) && c.full && c.latency > 0 && MatchesOk(run)
    ensures NeverPartial(After(c, EmptyDesk, run))
  {
    InitialInv(c);
    RunNeverPartial(c, EmptyDesk, run);
  }

  // ---- The match inside a zero-latency submission ----------------------------

  predicate Closed(g: Gate) {
    g.paused || g.pending
  }

  /** The first gate found closed lies strictly inside the match: some contracts bought, some still missing. */
  predicate Cut(asks: seq<Level>, limit: int, filled: int, quantity: int, gates: nat -> Gate, k: nat) {
    && asks != [] && asks[0].price <= limit
    && (var lots := FloorLot(asks[0].quantity);
        if lots <= 0 then Cut(asks[1..], limit, filled, quantity, gates, k + 1)
        else if Closed(gates(k)) then filled > 0
        else filled + lots < quantity && Cut(asks[1..], limit, filled + lots, quantity, gates, k + 1))
  }

  /** Nothing but a closed gate stops this order from being filled. */
  predicate Clear(c: Config, s: Shared, d: Desk, at: int) {
    && d.order.Some? && at >= d.order.value.eligible && d.quarantine.None? && d.pause.None? && PostCloseReady(c, s, at)
    && !(c.oneTrade && d.order.value.cycle > 1)
  }

  /** An order in the middle of its match. */
  predicate Midway(d: Desk) {
    && Working(d) && d.order.value.remaining > 0
    && (if d.position.None? then d.order.value.remaining == d.order.value.quantity && d.stage == Some(OrderPending)
        else 0 < d.order.value.remaining < d.order.value.quantity && d.stage == Some(PartiallyFilled))
  }

  lemma OneFill(c: Config, s: Shared, d: Desk, lots: int, price: int, at: int, gate: Gate)
    requires Valid(c) && Midway(d) && Clear(c, s, d, at) && 0 < price < ONE
    requires price <= d.order.value.limit && lots > 0 && lots % LOT == 0
    ensures var r := Fill(c, s, d, lots, price, at, false, gate);
      && r.Ok?
      && (if Closed(gate) then r.value == (d, Blocked)
          else r.value.1 == Filled && r.value.0.order.value.remaining == d.order.value.remaining - Min(lots, d.order.value.remaining)
               && r.value.0.order.value.quantity == d.order.value.quantity && r.value.0.order.value.limit == d.order.value.limit
               && (d.order.value.remaining > lots ==> Midway(r.value.0) && Clear(c, s, r.value.0, at)))
  {
  }

  lemma MatchUnfolds(c: Config, s: Shared, d: Desk, asks: seq<Level>, tick: int -> bool, at: int, gates: nat -> Gate, k: nat, d': Desk)
    requires c.full && c.precision > 0 && d.order.Some? && asks != [] && asks[0].price <= d.order.value.limit && tick(asks[0].price)
    requires FloorLot(asks[0].quantity) > 0 && d'.order.Some?
    ensures Fill(c, s, d, FloorLot(asks[0].quantity), asks[0].price, at, false, gates(k)) == Ok((d', Blocked)) ==>
              MatchLevels(c, s, d, asks, tick, at, gates, k) == Interrupted(d')
    ensures Fill(c, s, d, FloorLot(asks[0].quantity), asks[0].price, at, false, gates(k)) == Ok((d', Filled)) ==>
              MatchLevels(c, s, d, asks, tick, at, gates, k)
              == if d'.order.value.active then MatchLevels(c, s, d', asks[1..], tick, at, gates, k + 1) else Ran(d')
  {
  }

  /** How the level loop of an untroubled full-size order ends. */
  predicate CutAs(d: Desk, r: Match, cut: bool) {
    && (r.Ran? || r.Interrupted?)
    && (r.Interrupted? ==> Midway(r.desk) && r.desk.order.value.quantity == d.order.GetOr(r.desk.order.value).quantity)
    && (r.Interrupted? && r.desk.position.Some? <==> cut)
  }

  lemma {:induction false} MatchIsCutIff(c: Config, s: Shared, d: Desk, asks: seq<Level>, tick: int -> bool, at: int,
                                         gates: nat -> Gate, k: nat)
    requires Valid(c) && c.full && Midway(d) && Clear(c, s, d, at)
    requires forall i | 0 <= i < |asks| :: 0 < asks[i].price < ONE
    requires !OffTick(asks, d.order.value.limit, tick)
    ensures CutAs(d, MatchLevels(c, s, d, asks, tick, at, gates, k),
                  Cut(asks, d.order.value.limit, d.order.value.quantity - d.order.value.remaining, d.order.value.quantity, gates, k))
    decreases |asks|
  {
    var o := d.order.value;
    if asks != [] && asks[0].price <= o.limit {
      var lots := FloorLot(asks[0].quantity);
      FloorLotBounds(asks[0].quantity);
      if lots <= 0 {
        MatchIsCutIff(c, s, d, asks[1..], tick, at, gates, k + 1);
      } else {
        OneFill(c, s, d, lots, asks[0].price, at, gates(k));
        var d' := Fill(c, s, d, lots, asks[0].price, at, false, gates(k)).value.0;
        MatchUnfolds(c, s, d, asks, tick, at, gates, k, d');
        if !Closed(gates(k)) {
          FillActive(c, s, d, lots, asks[0].price, at, gates(k));
          if o.remaining > lots {
            MatchIsCutIff(c, s, d', asks[1..], tick, at, gates, k + 1);
          }
        }
      }
    }
  }

  lemma FillActive(c: Config, s: Shared, d: Desk, lots: int, price: int, at: int, gate: Gate)
    requires d.order.Some? && c.precision > 0 && Fill(c, s, d, lots, price, at, false, gate).Ok?
    requires Fill(c, s, d, lots, price, at, false, gate).value.1 == Filled
    ensures Fill(c, s, d, lots, price, at, false, gate).value.0.order.value.active <==> d.order.value.remaining > lots
  {
    FillMeans(c, s, d, lots, price, at, false, gate);
  }

  predicate PartlyFilled(d: Desk) {
    d.position.Some? && d.order.Some? && 0 < d.order.value.remaining < d.order.value.quantity
  }

  /**
    Called inside `submit`, a full-size match keeps a partial position exactly when
    the first closed gate lies strictly inside it; called on its own it never does.
   */
  lemma NestedEntryIsPartialIff(c: Config, s: Shared, d: Desk, b: Book, m: Terms, tick: int -> bool, at: int, gates: nat -> Gate)
    requires Valid(c) && c.full && Inv(c, d) && Stocked(d) && Untouched(d) && Sorted(b) && d.stage == Some(OrderPending)
    requires Clear(c, s, d, at) && !gates(0).pending && !ExecutionBlocked(c, s, d, b, m, at)
    requires var o := d.order.value; var asks := Asks(b, o.side);
             !OffTick(asks, o.limit, tick) && Available(asks, o.limit, tick) >= o.remaining
    ensures var o := d.order.value;
      var r := NestedAggressive(c, s, d, b, m, tick, at, gates);
      && r.Ok?
      && (PartlyFilled(r.value) <==> Cut(Asks(b, o.side), o.limit, 0, o.quantity, gates, 1))
      && (Aggressive(c, s, d, b, m, tick, at, gates).Ok? ==> !PartlyFilled(Aggressive(c, s, d, b, m, tick, at, gates).value))
  {
    var o := d.order.value;
    var asks := Asks(b, o.side);
    AsksAscend(b, o.side);
    assert forall i | 0 <= i < |asks| :: 0 < asks[i].price < ONE;
    MatchIsCutIff(c, s, d, asks, tick, at, gates, 1);
    MatchIsWholeOrInterrupted(c, s, d, asks, tick, at, gates, 1);
    FullEntryIsAllOrNothing(c, s, d, b, m, tick, at, gates);
    var r := MatchLevels(c, s, d, asks, tick, at, gates, 1);
    CancelMidway(r.desk, at);
  }

  lemma CancelMidway(d: Desk, at: int)
    requires d.order.Some?
    ensures Midway(d) ==> Cancel(d, at).Ok? && Cancel(d, at).value.position == d.position
                          && Cancel(d, at).value.order == Some(d.order.value.(active := false, cancelledAt := Some(at)))
    ensures Whole(d) ==> Cancel(d, at) == Ok(d)
  {
  }

  /** What a submission with no latency leaves is what the nested match leaves. */
  lemma ZeroLatencySubmitIsNested(c: Config, s: Shared, d: Desk, b: Book, m: Terms, tick: int -> bool, e: Entry, gates: nat -> Gate)
    requires Valid(c) && !c.passive && c.latency == 0 && Accepts(c, s, d, b, m, tick, e) && Placed(c, s, d, b, e).Ok?
    ensures Submit(c, s, d, b, m, tick, e, gates).Ok? <==> NestedAggressive(c, s, Placed(c, s, d, b, e).value, b, m, tick, e.at, gates).Ok?
    ensures Submit(c, s, d, b, m, tick, e, gates).Ok? ==>
              Submit(c, s, d, b, m, tick, e, gates).value.0 == NestedAggressive(c, s, Placed(c, s, d, b, e).value, b, m, tick, e.at, gates).value
  {
  }

  /** Nothing stops a freshly placed order but a closed gate. */
  lemma PlacedIsClear(c: Config, s: Shared, d: Desk, b: Book, m: Terms, tick: int -> bool, e: Entry)
    requires Valid(c) && c.latency == 0 && Inv(c, d) && Accepts(c, s, d, b, m, tick, e) && e.side.Some? && e.price.Some?
    requires Placed(c, s, d, b, e).Ok? && e.contracts > 0
    ensures var p := Placed(c, s, d, b, e).value;
      && Untouched(p) && p.stage == Some(OrderPending) && Clear(c, s, p, e.at) && Midway(p)
      && p.order.value.side == e.side.value && p.order.value.limit == e.price.value && p.order.value.quantity == e.contracts * CONTRACT
      && p.order.value.eligible == e.at
  {
    AcceptedMeans(c, s, d, b, m, tick, e);
    ClaimMeans(c, s, d, e.at);
    PlacedShape(c, s, d, b, e);
    PlacedStage(c, s, d, b, e);
  }

  lemma PlacedStage(c: Config, s: Shared, d: Desk, b: Book, e: Entry)
    requires e.side.Some? && e.price.Some? && c.queueDen > 0 && Placed(c, s, d, b, e).Ok?
    ensures Placed(c, s, d, b, e).value.stage == Some(OrderPending)
  {
  }

  /** A match that is not attempted, or refused at the outset, keeps nothing. */
  lemma RefusedMatchKeepsNothing(c: Config, s: Shared, d: Desk, b: Book, m: Terms, tick: int -> bool, at: int, gates: nat -> Gate)
    requires Valid(c) && c.full && Untouched(d) && Midway(d) && at >= d.order.value.eligible && d.pause.None?
    requires var o := d.order.value; var asks := Asks(b, o.side);
             || gates(0).pending || ExecutionBlocked(c, s, d, b, m, at)
             || OffTick(asks, o.limit, tick) || Available(asks, o.limit, tick) < o.remaining
    ensures var r := NestedAggressive(c, s, d, b, m, tick, at, gates); r.Ok? && !PartlyFilled(r.value)
  {
    CancelMidway(d, at);
  }

  /** The match inside a submission can leave part of the order behind. */
  predicate EntryIsCut(c: Config, s: Shared, d: Desk, b: Book, m: Terms, tick: int -> bool, e: Entry, gates: nat -> Gate)
    requires e.side.Some? && e.price.Some?
  {
    var asks, quantity := Asks(b, e.side.value), e.contracts * CONTRACT;
    && !gates(0).pending && !ExecutionBlocked(c, s, d, b, m, e.at)
    && !OffTick(asks, e.price.value, tick) && Available(asks, e.price.value, tick) >= quantity
    && Cut(asks, e.price.value, 0, quantity, gates, 1)
  }

  /**
    Exactly when a zero-latency full-size submission breaks its all-or-nothing promise: its
    match is attempted with depth enough, and the first closed gate lies strictly inside it.
    Every other accepted submission keeps the whole order or none of it.
   */
  lemma ZeroLatencySubmitIsPartialIff(c: Config, s: Shared, d: Desk, b: Book, m: Terms, tick: int -> bool, e: Entry, gates: nat -> Gate)
    requires Valid(c) && c.full && c.latency == 0 && Inv(c, d) && Stocked(d) && BookOk(b) && Accepts(c, s, d, b, m, tick, e)
    ensures e.side.Some? && e.price.Some?
    ensures Submit(c, s, d, b, m, tick, e, gates).Ok? <==> Placed(c, s, d, b, e).Ok?
    ensures var r := Submit(c, s, d, b, m, tick, e, gates);
            r.Ok? ==> (PartlyFilled(r.value.0) <==> EntryIsCut(c, s, d, b, m, tick, e, gates))
  {
    AcceptedMeans(c, s, d, b, m, tick, e);
    if Placed(c, s, d, b, e).Ok? {
      PlacedKeeps(c, s, d, b, e);
      PlacedMatchIsPartialIff(c, s, d, b, m, tick, e, gates);
      ZeroLatencySubmitIsNested(c, s, d, b, m, tick, e, gates);
    }
  }

  lemma PlacedMatchIsPartialIff(c: Config, s: Shared, d: Desk, b: Book, m: Terms, tick: int -> bool, e: Entry, gates: nat -> Gate)
    requires Valid(c) && c.full && c.latency == 0 && Inv(c, d) && Sorted(b) && Accepts(c, s, d, b, m, tick, e)
    requires e.side.Some? && e.price.Some? && e.contracts > 0 && Placed(c, s, d, b, e).Ok?
    requires Inv(c, Placed(c, s, d, b, e).value) && Placed(c, s, d, b, e).value.position.None?
    ensures var r := NestedAggressive(c, s, Placed(c, s, d, b, e).value, b, m, tick, e.at, gates);
            r.Ok? && (PartlyFilled(r.value) <==> EntryIsCut(c, s, d, b, m, tick, e, gates))
  {
    var placed := Placed(c, s, d, b, e).value;
    PlacedIsClear(c, s, d, b, m, tick, e);
    PlacedShape(c, s, d, b, e);
    assert ExecutionBlocked(c, s, placed, b, m, e.at) <==> ExecutionBlocked(c, s, d, b, m, e.at);
    var asks, quantity := Asks(b, e.side.value), e.contracts * CONTRACT;
    if gates(0).pending || ExecutionBlocked(c, s, placed, b, m, e.at) || OffTick(asks, e.price.value, tick)
       || Available(asks, e.price.value, tick) < quantity
    {
      RefusedMatchKeepsNothing(c, s, placed, b, m, tick, e.at, gates);
    } else {
      NestedEntryIsPartialIff(c, s, placed, b, m, tick, e.at, gates);
    }
  }

  // ---- A run that keeps a partial entry --------------------------------------

  function SplitConfig(): Config {
    Config(false, true, false, 0, 0, 0, 0, 10, 10, 15_000_000, 1, 1, 0, 0, 10_000, 2, 1, 9_999)
  }

  /** Two contracts wanted at up to 0.60; one is offered at 0.50 and one at 0.55. */
  function SplitBook(): Book {
    Book([Level(4_000, 10_000)], [Level(5_000, 10_000), Level(4_500, 10_000)], 0, 0, true)
  }

  function SplitEntry(): Entry {
    Entry(1, 0, Gate(false, false), true, false, true, true, true, true, Some(Yes), true, true, Some(6_000), true, 2)
  }

  function SplitDesk(): Desk {
    EmptyDesk.(stage := Some(TradeCandidate))
  }

  lemma FirstEntryIsPlaced(c: Config, s: Shared, d: Desk, b: Book, e: Entry)
    requires Valid(c) && e.side.Some? && e.price.Some? && d.order.None? && !d.reserved && d.stage == Some(TradeCandidate)
    ensures Placed(c, s, d, b, e).Ok? && Placed(c, s, d, b, e).value.stage == Some(OrderPending)
    ensures NewOrder(c, s, d, b, e).cycle == 1
  {
  }

  lemma SplitIsAccepted()
    ensures Accepts(SplitConfig(), Shared(None, false), SplitDesk(), SplitBook(), Terms(true, 600_000_000), p => true, SplitEntry())
  {
    var asks := Asks(SplitBook(), Yes);
    assert asks[0] == Level(5_000, 10_000);
    assert Best(asks) == Some(5_000);
  }

  lemma SplitIsCut(asks: seq<Level>, gates: nat -> Gate, tick: int -> bool)
    requires asks == [Level(5_000, 10_000), Level(5_500, 10_000)]
    requires !Closed(gates(1)) && Closed(gates(2)) && tick(5_000) && tick(5_500)
    ensures Cut(asks, 6_000, 0, 20_000, gates, 1)
    ensures Available(asks, 6_000, tick) == 20_000 && !OffTick(asks, 6_000, tick)
  {
    var rest := asks[1..];
    assert rest == [Level(5_500, 10_000)] && rest[1..] == [];
    assert Cut(rest, 6_000, 10_000, 20_000, gates, 2);
    assert Available([], 6_000, tick) == 0 && Available(rest, 6_000, tick) == 10_000;
    assert !OffTick([], 6_000, tick) && !OffTick(rest, 6_000, tick);
  }

  lemma SplitKeepsPart(c: Config, s: Shared, d: Desk, b: Book, m: Terms, tick: int -> bool, e: Entry, gates: nat -> Gate)
    requires Valid(c) && c.full && c.latency == 0 && Inv(c, d) && Stocked(d) && Sorted(b) && b.valid
    requires d.order.None? && d.position.None? && !TradeLimitReached(c, d) && d.stage == Some(TradeCandidate)
    requires d.quarantine.None? && d.pause.None? && s.lastClosed.None? && !gates(0).pending
    requires Accepts(c, s, d, b, m, tick, e) && !ExecutionBlocked(c, s, d, b, m, e.at)
    requires e.side.Some? && e.price.Some? && e.contracts > 0
    requires var asks, q := Asks(b, e.side.value), e.contracts * CONTRACT;
             Cut(asks, e.price.value, 0, q, gates, 1) && !OffTick(asks, e.price.value, tick) && Available(asks, e.price.value, tick) >= q
    ensures var r := Submit(c, s, d, b, m, tick, e, gates); r.Ok? && PartlyFilled(r.value.0)
  {
    PlacedKeeps(c, s, d, b, e);
    FirstEntryIsPlaced(c, s, d, b, e);
    PlacedShape(c, s, d, b, e);
    NestedEntryIsPartialIff(c, s, Placed(c, s, d, b, e).value, b, m, tick, e.at, gates);
    ZeroLatencySubmitIsNested(c, s, d, b, m, tick, e, gates);
  }

  /** The reference update arrives after the first of two fills: one contract of two stays bought. */
  lemma ZeroLatencyKeepsAPartialEntry()
    ensures var c, s, gates := SplitConfig(), Shared(None, false), (k: nat) => Gate(false, k >= 2);
      var r := Submit(c, s, SplitDesk(), SplitBook(), Terms(true, 600_000_000), p => true, SplitEntry(), gates);
      Configurable(c) && r.Ok? && PartlyFilled(r.value.0)
  {
    var c, s, gates := SplitConfig(), Shared(None, false), (k: nat) => Gate(false, k >= 2);
    SplitIsAccepted();
    var asks := Asks(SplitBook(), Yes);
    assert asks == [Level(5_000, 10_000), Level(5_500, 10_000)];
    SplitIsCut(asks, gates, p => true);
    InitialInv(c);
    SideFieldsKeep(c, EmptyDesk, SplitDesk());
    SplitKeepsPart(c, s, SplitDesk(), SplitBook(), Terms(true, 600_000_000), p => true, SplitEntry(), gates);
  }
}
