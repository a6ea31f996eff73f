/**
  Displayed depth is sold once: while a market's positions stay on one side, the
  quantity sold at a price never exceeds the depth first displayed there plus every
  increase shown since, whatever drops, regrowth, gaps and partial exits occur.
 */
module ExecutionDepth {
  import opened Wrappers
  import opened Execution
  import opened ExecutionInvariant
  import F = Fees

  function SoldAtPrice(h: seq<Record>, p: int): int {
    if h == [] then 0
    else SoldAtPrice(h[..|h| - 1], p) + if h[|h| - 1].SoldAt? && h[|h| - 1].price == p then h[|h| - 1].quantity else 0
  }

  /** What has been sold at `p` plus what is still on offer there. */
  function Account(d: Desk, shown: int, p: int): int {
    SoldAtPrice(d.history, p) + Max(0, shown - Consumed(d, p))
  }

  // ---- Steps that do not touch depth ----------------------------------------

  ghost predicate SameDepth(d: Desk, d': Desk) {
    d'.consumed == d.consumed && forall p :: SoldAtPrice(d'.history, p) == SoldAtPrice(d.history, p)
  }

  lemma NotedKeepsDepth(d: Desk, r: Record)
    requires !r.SoldAt?
    ensures SameDepth(d, Noted(d, r))
  {
    Snoc(d.history, r);
  }

  lemma CancelKeepsDepth(d: Desk, at: int)
    ensures Cancel(d, at).Ok? ==> SameDepth(d, Cancel(d, at).value)
  {
    if Working(d) {
      Snoc(d.history, Cancelled(d.order.value.id, at));
    }
  }

  lemma FillKeepsDepth(c: Config, s: Shared, d: Desk, q: int, price: int, at: int, maker: bool, gate: Gate)
    requires d.order.Some? && c.precision > 0 && Fill(c, s, d, q, price, at, maker, gate).Ok?
    ensures SameDepth(d, Fill(c, s, d, q, price, at, maker, gate).value.0)
  {
    FillMeans(c, s, d, q, price, at, maker, gate);
    CancelKeepsDepth(d, at);
    var (d', status) := Fill(c, s, d, q, price, at, maker, gate).value;
    if status == Filled {
      Snoc(d.history, d'.history[|d.history|]);
    }
  }

  lemma {:induction false} MatchKeepsDepth(c: Config, s: Shared, d: Desk, asks: seq<Level>, tick: int -> bool, at: int,
                                           gates: nat -> Gate, k: nat)
    requires d.order.Some? && c.precision > 0 && Sound(MatchLevels(c, s, d, asks, tick, at, gates, k))
    ensures SameDepth(d, MatchLevels(c, s, d, asks, tick, at, gates, k).desk)
    decreases |asks|
  {
    if asks == [] || asks[0].price > d.order.value.limit {
    } else if !tick(asks[0].price) {
      CancelKeepsDepth(d, at);
    } else if FloorLot(asks[0].quantity) <= 0 {
      MatchKeepsDepth(c, s, d, asks[1..], tick, at, gates, k + 1);
    } else {
      var filled := Fill(c, s, d, FloorLot(asks[0].quantity), asks[0].price, at, false, gates(k));
      FillKeepsDepth(c, s, d, FloorLot(asks[0].quantity), asks[0].price, at, false, gates(k));
      var d' := filled.value.0;
      if filled.value.1 != Blocked && d'.order.value.active {
        MatchKeepsDepth(c, s, d', asks[1..], tick, at, gates, k + 1);
      }
    }
  }

  lemma BodyKeepsDepth(c: Config, s: Shared, d: Desk, b: Book, m: Terms, tick: int -> bool, at: int, gates: nat -> Gate)
    requires c.precision > 0 && Sound(AggressiveBody(c, s, d, b, m, tick, at, gates))
    ensures SameDepth(d, AggressiveBody(c, s, d, b, m, tick, at, gates).desk)
  {
    CancelKeepsDepth(d, at);
    if Working(d) {
      var matched := MatchLevels(c, s, d, Asks(b, d.order.value.side), tick, at, gates, 1);
      if Sound(matched) {
        MatchKeepsDepth(c, s, d, Asks(b, d.order.value.side), tick, at, gates, 1);
        CancelKeepsDepth(matched.desk, at);
      }
    }
  }

  lemma AggressiveKeepsDepth(c: Config, s: Shared, d: Desk, b: Book, m: Terms, tick: int -> bool, at: int, gates: nat -> Gate)
    requires c.precision > 0
    ensures SameDepth(d, Kept(d, Aggressive(c, s, d, b, m, tick, at, gates)))
    ensures SameDepth(d, Kept(d, NestedAggressive(c, s, d, b, m, tick, at, gates)))
  {
    CancelKeepsDepth(d, at);
    var body := AggressiveBody(c, s, d, b, m, tick, at, gates);
    if Sound(body) {
      BodyKeepsDepth(c, s, d, b, m, tick, at, gates);
      CancelKeepsDepth(body.desk, at);
    }
  }

  lemma SubmitKeepsDepth(c: Config, s: Shared, d: Desk, b: Book, m: Terms, tick: int -> bool, e: Entry, gates: nat -> Gate)
    requires Valid(c)
    ensures SameDepth(d, Kept(d, First(Submit(c, s, d, b, m, tick, e, gates))))
  {
    if Accepts(c, s, d, b, m, tick, e) {
      AcceptedMeans(c, s, d, b, m, tick, e);
      if Placed(c, s, d, b, e).Ok? {
        PlacedShape(c, s, d, b, e);
        Snoc(d.history, Submitted(NewOrder(c, s, d, b, e)));
        AggressiveKeepsDepth(c, s, Placed(c, s, d, b, e).value, b, m, tick, e.at, gates);
      }
    }
  }

  lemma TradedKeepsDepth(c: Config, s: Shared, d: Desk, p: Print, at: int, gate: Gate)
    requires c.precision > 0
    ensures SameDepth(d, Kept(d, Traded(c, s, d, p, at, gate)))
  {
    var r := Traded(c, s, d, p, at, gate);
    if r.Ok? && r.value != d {
      TradedMeans(c, s, d, p, at, gate);
      var queued, rest := Queued(d, p), RestAfterQueue(d, p);
      Snoc(d.history, Printed(d.order.value.id, p.trade, p.quantity.value));
      if rest > 0 {
        FillKeepsDepth(c, s, queued, rest, d.order.value.limit, at, true, gate);
      }
    }
  }

  lemma FinishKeepsDepth(d: Desk, at: int, reason: Reason, settlement: Option<Side>)
    requires d.position.Some? && Finish(d, at, reason, settlement).Ok?
    ensures SameDepth(d, Finish(d, at, reason, settlement).value)
  {
    var pos := d.position.value;
    Snoc(d.history, TradeResult(pos, pos.proceeds - pos.cost - pos.fees, reason, settlement, at));
  }

  lemma SettleNowKeepsDepth(d: Desk, result: Side, at: int, recovering: bool)
    requires SettleNow(d, result, at, recovering).Ok?
    ensures SameDepth(d, SettleNow(d, result, at, recovering).value)
  {
    SettleNowShape(d, result, at, recovering);
    Snoc(d.history, Settled(result, at));
    CancelKeepsDepth(Claimed(d, result, at), at);
    var idle, d' := Cancel(Claimed(d, result, at), at).value, SettleNow(d, result, at, recovering).value;
    var waiting: Desk :|
      && waiting == idle.(stage := waiting.stage)
      && (if idle.position.Some?
          then Finish(PaidOut(waiting, result), at, AtSettlement, Some(result)).Ok?
               && d' == Finish(PaidOut(waiting, result), at, AtSettlement, Some(result)).value.(quarantine := None, pause := None)
          else d' == waiting.(quarantine := None, pause := None));
    if idle.position.Some? {
      FinishKeepsDepth(PaidOut(waiting, result), at, AtSettlement, Some(result));
    }
  }

  lemma SettleKeepsDepth(d: Desk, result: Side, at: int, close: int, ev: Evidence, review: Option<bool>)
    ensures SameDepth(d, Kept(d, First(Settle(d, result, at, close, ev, review))))
  {
    var r := Settle(d, result, at, close, ev, review);
    if r.Ok? && r.value.0 != d {
      SettleMeans(d, result, at, close, ev, review);
      var idle := EvidenceMeans(d, result, at, ev);
      CancelKeepsDepth(if ev.NoEvidence? then d else d.(evidence := d.evidence + {result}), at);
      var seen := WithEvidence(d, result, at, ev).value;
      assert SameDepth(d, seen);
      if r.value.1 == SettledNow {
        SettleNowKeepsDepth(seen, result, at, seen.quarantine.Some?);
      }
    }
  }

  lemma OthersKeepDepth(c: Config, d: Desk, e: Event)
    requires Valid(c) && !e.MonitorBook? && !e.ObserveBook?
    ensures SameDepth(d, Step(c, d, e))
  {
    if e.SubmitEntry? {
      SubmitKeepsDepth(c, e.shared, d, e.book, e.terms, e.tick, e.entry, e.gates);
    } else if e.MatchOrder? {
      AggressiveKeepsDepth(c, e.shared, d, e.book, e.terms, e.tick, e.at, e.gates);
    } else if e.TradePrint? {
      TradedKeepsDepth(c, e.shared, d, e.traded, e.at, e.gate);
    } else if e.SettleMarket? {
      SettleKeepsDepth(d, e.result, e.at, e.close, e.evidence, e.review);
    } else if e.CancelOrder? || e.Restrict? || e.PauseVenue? {
      CancelKeepsDepth(d, e.at);
    }
  }

  // ---- Sales ---------------------------------------------------------------

  /** A level at `p`, if there is one, shows `shown`. */
  predicate ShowsAt(levels: seq<Level>, p: int, shown: int) {
    forall i | 0 <= i < |levels| && levels[i].price == p :: levels[i].quantity == shown
  }

  lemma {:induction false} LadderShows(levels: seq<Level>, p: int)
    requires Ladder(levels)
    ensures ShowsAt(levels, p, Shown(levels, p)) && Shown(levels, p) >= 0
    decreases |levels|
  {
    if levels != [] {
      assert Ladder(levels[1..]) by {
        assert forall i | 0 <= i < |levels[1..]| :: levels[1..][i] == levels[i + 1];
      }
      LadderShows(levels[1..], p);
      forall i | 0 <= i < |levels| && levels[i].price == p ensures levels[i].quantity == Shown(levels, p) {
        if i > 0 { assert levels[i] == levels[1..][i - 1]; }
      }
    }
  }

  lemma SaleKeepsAccount(d: Desk, q: int, price: int, fee: int, reason: Reason, at: int, received: int, shown: int, p: int)
    requires d.position.Some? && q > 0 && (price == p ==> q <= shown - Consumed(d, p))
    ensures Account(BookSale(d, q, price, fee, reason, at, received), shown, p) == Account(d, shown, p)
  {
    Snoc(d.history, SoldAt(q, price, fee, reason, at, received));
  }

  lemma {:induction false} SellLevelsKeepAccount(c: Config, d: Desk, bids: seq<Level>, tick: int -> bool, reason: Reason,
                                                 target: Option<int>, at: int, received: int, carry: int, shown: int, p: int)
    requires d.position.Some? && c.precision > 0 && ShowsAt(bids, p, shown)
    requires SellLevels(c, d, bids, tick, reason, target, at, received, carry).Ok?
    ensures Account(SellLevels(c, d, bids, tick, reason, target, at, received, carry).value, shown, p) == Account(d, shown, p)
    decreases |bids|
  {
    if bids != [] {
      var q := Sellable(c, d, bids[0], tick, reason, target, carry);
      assert ShowsAt(bids[1..], p, shown);
      SellableBounds(c, d, bids[0], tick, reason, target, carry);
      if q == 0 {
        SellLevelsKeepAccount(c, d, bids[1..], tick, reason, target, at, received, carry, shown, p);
      } else {
        var charged := F.Charge(c.precision, carry, bids[0].price, q, c.takerRate, F.Sell);
        var sold := BookSale(d, q, bids[0].price, charged.fee, reason, at, received);
        SaleKeepsAccount(d, q, bids[0].price, charged.fee, reason, at, received, shown, p);
        if sold.position.value.quantity == 0 {
          FinishKeepsDepth(sold, at, reason, None);
        } else {
          SellLevelsKeepAccount(c, sold, bids[1..], tick, reason, target, at, received, charged.carry, shown, p);
        }
      }
    }
  }

  lemma ExecuteKeepsAccount(c: Config, d: Desk, tick: int -> bool, q: Quote, shown: int, p: int)
    requires d.position.Some? && c.precision > 0 && ShowsAt(Bids(q.book, d.position.value.side), p, shown)
    requires Execute(c, d, tick, q).Ok?
    ensures Account(Execute(c, d, tick, q).value, shown, p) == Account(d, shown, p)
  {
    var marked := d.(lastEvent := Some(q.event));
    CancelKeepsDepth(marked, q.at);
    CancelKeepsPosition(marked, q.at);
    var exiting := Moved(Cancel(marked, q.at).value, Exiting).value;
    var bids := Bids(q.book, exiting.position.value.side);
    SellLevelsKeepAccount(c, exiting, bids, tick, q.reason, q.target, q.at, q.book.received, 0, shown, p);
    var sold := SellLevels(c, exiting, bids, tick, q.reason, q.target, q.at, q.book.received, 0).value;
    if sold.position.Some? {
      NotedKeepsDepth(sold, Dropped(sold.position.value.exitReason, q.at));
    }
  }

  lemma CancelKeepsPosition(d: Desk, at: int)
    ensures Cancel(d, at).Ok? ==> Cancel(d, at).value.position == d.position
  {
  }

  lemma CommitKeepsAccount(c: Config, d: Desk, tick: int -> bool, q: Quote, warning: bool, shown: int, p: int)
    requires d.position.Some? && c.precision > 0 && ShowsAt(Bids(q.book, d.position.value.side), p, shown)
    ensures Account(Kept(d, Apply(c, d, tick, q, warning)), shown, p) == Account(d, shown, p)
    ensures var d' := Kept(d, Apply(c, d, tick, q, warning)); d'.position.Some? ==> d'.position.value.side == d.position.value.side
  {
    NotedKeepsDepth(Extremes(d, q.mark), Dropped(d.position.value.exitReason, q.at));
    var current := DropChanged(Extremes(d, q.mark), q);
    assert current.position.value.side == d.position.value.side;
    assert Account(current, shown, p) == Account(d, shown, p);
    if Commit(c, d, tick, q).Ok? && q.reason != NoReason {
      if current.position.value.exitReason == NoReason {
        IntendKeepsAccount(c, current, q, shown, p);
      } else if Execute(c, current, tick, q).Ok? {
        ExecuteKeepsAccount(c, current, tick, q, shown, p);
        ExecuteKeepsSide(c, current, tick, q);
      }
    }
  }

  lemma IntendKeepsAccount(c: Config, d: Desk, q: Quote, shown: int, p: int)
    requires d.position.Some?
    ensures Intend(c, d, q).Ok? ==> Account(Intend(c, d, q).value, shown, p) == Account(d, shown, p)
                                    && Intend(c, d, q).value.position.Some? && Intend(c, d, q).value.position.value.side == d.position.value.side
  {
    if Intend(c, d, q).Ok? {
      IntendShape(c, d, q);
      var base := d.(position := Some(d.position.value.(exitReason := q.reason)));
      CancelKeepsDepth(base, q.at);
      var idle := if c.full || q.reason == HardStop || ValueReason(q.reason) then Cancel(base, q.at).value else base;
      Snoc(idle.history, Intent(q.reason, q.at, q.at + c.latency));
    }
  }

  lemma {:induction false} SellLevelsKeepSide(c: Config, d: Desk, bids: seq<Level>, tick: int -> bool, reason: Reason,
                                              target: Option<int>, at: int, received: int, carry: int)
    requires d.position.Some? && c.precision > 0 && SellLevels(c, d, bids, tick, reason, target, at, received, carry).Ok?
    ensures var d' := SellLevels(c, d, bids, tick, reason, target, at, received, carry).value;
      d'.position.Some? ==> d'.position.value.side == d.position.value.side
    decreases |bids|
  {
    if bids != [] {
      var q := Sellable(c, d, bids[0], tick, reason, target, carry);
      if q == 0 {
        SellLevelsKeepSide(c, d, bids[1..], tick, reason, target, at, received, carry);
      } else {
        var charged := F.Charge(c.precision, carry, bids[0].price, q, c.takerRate, F.Sell);
        var sold := BookSale(d, q, bids[0].price, charged.fee, reason, at, received);
        if sold.position.value.quantity != 0 {
          SellLevelsKeepSide(c, sold, bids[1..], tick, reason, target, at, received, charged.carry);
        }
      }
    }
  }

  lemma ExecuteKeepsSide(c: Config, d: Desk, tick: int -> bool, q: Quote)
    requires d.position.Some? && c.precision > 0 && Execute(c, d, tick, q).Ok?
    ensures var d' := Execute(c, d, tick, q).value; d'.position.Some? ==> d'.position.value.side == d.position.value.side
  {
    var marked := d.(lastEvent := Some(q.event));
    CancelKeepsPosition(marked, q.at);
    var exiting := Moved(Cancel(marked, q.at).value, Exiting).value;
    SellLevelsKeepSide(c, exiting, Bids(q.book, exiting.position.value.side), tick, q.reason, q.target, q.at, q.book.received, 0);
  }

  lemma MonitorKeepsAccount(c: Config, d: Desk, b: Book, m: Terms, tick: int -> bool, at: int, event: nat, g: Signals, side: Side, p: int)
    requires c.precision > 0 && BookOk(b) && (d.position.Some? ==> d.position.value.side == side)
    ensures Account(Monitor(c, d, b, m, tick, at, event, g), Shown(Bids(b, side), p), p) == Account(d, Shown(Bids(b, side), p), p)
  {
    if !MonitorBlocked(c, d, b, m, at) {
      var pos, shown := d.position.value, Shown(Bids(b, side), p);
      var bid := Bids(b, pos.side)[0].price;
      LadderShows(Bids(b, side), p);
      if c.full && pos.exitReason != NoReason {
        CommitKeepsAccount(c, d, tick, Quote(b, Mark(pos, bid), pos.exitReason, None, at, event, true), false, shown, p);
      } else if ValueReason(pos.exitReason) {
        CommitKeepsAccount(c, d, tick, Quote(b, Mark(pos, bid), pos.exitReason, pos.valueLimit, at, event, true), false, shown, p);
        NotedKeepsDepth(d, Dropped(pos.exitReason, at));
        var d' := WorkValueExit(c, d, b, m, tick, at, event, g);
        assert Account(d', shown, p) == Account(d, shown, p);
        if d'.position.Some? && Bids(b, d'.position.value.side) != [] {
          EvaluateKeepsAccount(c, d', b, tick, at, event, g, shown, p);
        }
      } else {
        EvaluateKeepsAccount(c, d, b, tick, at, event, g, shown, p);
      }
    }
  }

  lemma EvaluateKeepsAccount(c: Config, d: Desk, b: Book, tick: int -> bool, at: int, event: nat, g: Signals, shown: int, p: int)
    requires c.precision > 0 && d.position.Some? && Bids(b, d.position.value.side) != [] && ShowsAt(Bids(b, d.position.value.side), p, shown)
    ensures Account(Evaluate(c, d, b, tick, at, event, g), shown, p) == Account(d, shown, p)
  {
    var pos := d.position.value;
    var bid := Bids(b, pos.side)[0].price;
    var (reason, target) := Reading(pos, bid, g);
    CommitKeepsAccount(c, d, tick, Quote(b, Mark(pos, bid), reason, target, at, event, g.modelAvailable || pos.exitReason != Invalidation),
                       g.warning, shown, p);
  }

  // ---- Displays ------------------------------------------------------------

  /** Capping consumption at what is displayed changes what is on offer not at all. */
  lemma ObserveKeepsAccount(c: Config, d: Desk, b: Book, at: int, source: int, continuous: bool, side: Side, p: int)
    requires BookOk(b) && (d.position.Some? ==> d.position.value.side == side)
    ensures Account(Observe(c, d, b, at, source, continuous), Shown(Bids(b, side), p), p) == Account(d, Shown(Bids(b, side), p), p)
  {
    if ObservationUsable(c, d, b, at, source, continuous) {
      LadderShows(Bids(b, side), p);
    }
  }

  function BookAfter(b: Book, e: Event): Book {
    if e.ObserveBook? then e.book else b
  }

  /** How much more is displayed at a price than before. */
  function Rise(b: Book, e: Event, side: Side, p: int): int {
    Max(0, Shown(Bids(BookAfter(b, e), side), p) - Shown(Bids(b, side), p))
  }

  function Rises(b: Book, run: seq<Event>, side: Side, p: int): int
    decreases |run|
  {
    if run == [] then 0 else Rise(b, run[0], side, p) + Rises(BookAfter(b, run[0]), run[1..], side, p)
  }

  /** Exits look at the book last displayed. */
  predicate OnDisplay(b: Book, e: Event) {
    (e.ObserveBook? ==> BookOk(e.book)) && (e.MonitorBook? ==> e.book == b && BookOk(b))
  }

  /** A run whose positions are all on one side. */
  predicate OneSide(c: Config, d: Desk, b: Book, run: seq<Event>, side: Side)
    requires Valid(c)
    decreases |run|
  {
    && (d.position.Some? ==> d.position.value.side == side)
    && (run == [] || (OnDisplay(b, run[0]) && OneSide(c, Step(c, d, run[0]), BookAfter(b, run[0]), run[1..], side)))
  }

  lemma StepKeepsAccount(c: Config, d: Desk, b: Book, e: Event, side: Side, p: int)
    requires Valid(c) && OnDisplay(b, e) && (d.position.Some? ==> d.position.value.side == side)
    ensures Account(Step(c, d, e), Shown(Bids(BookAfter(b, e), side), p), p) <= Account(d, Shown(Bids(b, side), p), p) + Rise(b, e, side, p)
  {
    if e.MonitorBook? {
      MonitorKeepsAccount(c, d, e.book, e.terms, e.tick, e.at, e.quote, e.signals, side, p);
    } else if e.ObserveBook? {
      ObserveKeepsAccount(c, d, e.book, e.at, e.source, e.continuous, side, p);
    } else {
      OthersKeepDepth(c, d, e);
    }
  }

  lemma {:induction false} RunKeepsAccount(c: Config, d: Desk, b: Book, run: seq<Event>, side: Side, p: int)
    requires Valid(c) && OneSide(c, d, b, run, side)
    ensures SoldAtPrice(After(c, d, run).history, p) <= Account(d, Shown(Bids(b, side), p), p) + Rises(b, run, side, p)
    decreases |run|
  {
    if run != [] {
      StepKeepsAccount(c, d, b, run[0], side, p);
      RunKeepsAccount(c, Step(c, d, run[0]), BookAfter(b, run[0]), run[1..], side, p);
    }
  }

  ghost predicate ConsumedOk(d: Desk) {
    forall p :: Consumed(d, p) >= 0
  }

  /** Sales only add to what is consumed. */
  ghost predicate Grown(d: Desk, d': Desk) {
    forall p :: Consumed(d', p) >= Consumed(d, p)
  }

  lemma {:induction false} SellLevelsGrow(c: Config, d: Desk, bids: seq<Level>, tick: int -> bool, reason: Reason,
                                          target: Option<int>, at: int, received: int, carry: int)
    requires d.position.Some? && c.precision > 0 && SellLevels(c, d, bids, tick, reason, target, at, received, carry).Ok?
    ensures Grown(d, SellLevels(c, d, bids, tick, reason, target, at, received, carry).value)
    decreases |bids|
  {
    if bids != [] {
      var q := Sellable(c, d, bids[0], tick, reason, target, carry);
      SellableBounds(c, d, bids[0], tick, reason, target, carry);
      if q == 0 {
        SellLevelsGrow(c, d, bids[1..], tick, reason, target, at, received, carry);
      } else {
        var charged := F.Charge(c.precision, carry, bids[0].price, q, c.takerRate, F.Sell);
        var sold := BookSale(d, q, bids[0].price, charged.fee, reason, at, received);
        assert Grown(d, sold);
        if sold.position.value.quantity != 0 {
          SellLevelsGrow(c, sold, bids[1..], tick, reason, target, at, received, charged.carry);
        }
      }
    }
  }

  lemma CommitGrows(c: Config, d: Desk, tick: int -> bool, q: Quote, warning: bool)
    requires d.position.Some? && c.precision > 0
    ensures Grown(d, Kept(d, Apply(c, d, tick, q, warning)))
  {
    var current := DropChanged(Extremes(d, q.mark), q);
    if Commit(c, d, tick, q).Ok? && q.reason != NoReason {
      if current.position.value.exitReason == NoReason {
        IntendShape(c, current, q);
        CancelKeepsDepth(current.(position := Some(current.position.value.(exitReason := q.reason))), q.at);
      } else if Execute(c, current, tick, q).Ok? {
        ExecuteGrows(c, current, tick, q);
      }
    }
  }

  lemma ExecuteGrows(c: Config, d: Desk, tick: int -> bool, q: Quote)
    requires d.position.Some? && c.precision > 0 && Execute(c, d, tick, q).Ok?
    ensures Grown(d, Execute(c, d, tick, q).value)
  {
    var marked := d.(lastEvent := Some(q.event));
    CancelKeepsDepth(marked, q.at);
    CancelKeepsPosition(marked, q.at);
    var exiting := Moved(Cancel(marked, q.at).value, Exiting).value;
    var bids := Bids(q.book, exiting.position.value.side);
    SellLevelsGrow(c, exiting, bids, tick, q.reason, q.target, q.at, q.book.received, 0);
    var sold := SellLevels(c, exiting, bids, tick, q.reason, q.target, q.at, q.book.received, 0).value;
    forall p ensures Consumed(Execute(c, d, tick, q).value, p) >= Consumed(d, p) {
      assert Consumed(sold, p) >= Consumed(exiting, p) == Consumed(d, p);
    }
  }

  lemma MonitorGrows(c: Config, d: Desk, b: Book, m: Terms, tick: int -> bool, at: int, event: nat, g: Signals)
    requires c.precision > 0
    ensures Grown(d, Monitor(c, d, b, m, tick, at, event, g))
  {
    if !MonitorBlocked(c, d, b, m, at) {
      var pos := d.position.value;
      var bid := Bids(b, pos.side)[0].price;
      if c.full && pos.exitReason != NoReason {
        CommitGrows(c, d, tick, Quote(b, Mark(pos, bid), pos.exitReason, None, at, event, true), false);
      } else if ValueReason(pos.exitReason) {
        CommitGrows(c, d, tick, Quote(b, Mark(pos, bid), pos.exitReason, pos.valueLimit, at, event, true), false);
        var d' := WorkValueExit(c, d, b, m, tick, at, event, g);
        assert Grown(d, d');
        if d'.position.Some? && Bids(b, d'.position.value.side) != [] {
          EvaluateGrows(c, d', b, tick, at, event, g);
        }
      } else {
        EvaluateGrows(c, d, b, tick, at, event, g);
      }
    }
  }

  lemma EvaluateGrows(c: Config, d: Desk, b: Book, tick: int -> bool, at: int, event: nat, g: Signals)
    requires c.precision > 0 && d.position.Some? && Bids(b, d.position.value.side) != []
    ensures Grown(d, Evaluate(c, d, b, tick, at, event, g))
  {
    var pos := d.position.value;
    var bid := Bids(b, pos.side)[0].price;
    var (reason, target) := Reading(pos, bid, g);
    CommitGrows(c, d, tick, Quote(b, Mark(pos, bid), reason, target, at, event, g.modelAvailable || pos.exitReason != Invalidation), g.warning);
  }

  lemma StepKeepsConsumed(c: Config, d: Desk, e: Event)
    requires Valid(c) && ConsumedOk(d) && (e.ObserveBook? ==> BookOk(e.book))
    ensures ConsumedOk(Step(c, d, e))
  {
    if e.MonitorBook? {
      MonitorGrows(c, d, e.book, e.terms, e.tick, e.at, e.quote, e.signals);
    } else if e.ObserveBook? {
      if ObservationUsable(c, d, e.book, e.at, e.source, e.continuous) {
        forall p ensures Shown(Bids(e.book, d.position.value.side), p) >= 0 {
          LadderShows(Bids(e.book, d.position.value.side), p);
        }
        forall p ensures Consumed(Step(c, d, e), p) >= 0 {
          assert Consumed(d, p) >= 0;
        }
      }
    } else {
      OthersKeepDepth(c, d, e);
      forall p ensures Consumed(Step(c, d, e), p) >= 0 {
        assert Consumed(Step(c, d, e), p) == Consumed(d, p) >= 0;
      }
    }
  }

  predicate ObservesOk(run: seq<Event>) {
    forall i | 0 <= i < |run| && run[i].ObserveBook? :: BookOk(run[i].book)
  }

  lemma {:induction false} RunKeepsConsumed(c: Config, d: Desk, run: seq<Event>)
    requires Valid(c) && ConsumedOk(d) && ObservesOk(run)
    ensures ConsumedOk(After(c, d, run))
    decreases |run|
  {
    if run != [] {
      StepKeepsConsumed(c, d, run[0]);
      RunKeepsConsumed(c, Step(c, d, run[0]), run[1..]);
    }
  }

  /**
    Displayed depth is never sold twice: after any run `before`, over any stretch `run`
    whose positions are all on one side, what is sold at a price is at most what was
    displayed there when the stretch began plus every later rise.
   */
  lemma DepthIsSoldOnce(c: Config, before: seq<Event>, b: Book, run: seq<Event>, side: Side, p: int)
    requires Valid(c) && ObservesOk(before) && Sorted(b) && OneSide(c, After(c, EmptyDesk, before), b, run, side)
    ensures var d := After(c, EmptyDesk, before);
      SoldAtPrice(After(c, d, run).history, p) - SoldAtPrice(d.history, p) <= Shown(Bids(b, side), p) + Rises(b, run, side, p)
  {
    var d := After(c, EmptyDesk, before);
    RunKeepsConsumed(c, EmptyDesk, before);
    assert Consumed(d, p) >= 0;
    LadderShows(Bids(b, side), p);
    RunKeepsAccount(c, d, b, run, side, p);
  }

  // ---- The key has no side -------------------------------------------------

  /**
    Consumption is keyed by price alone. An observation made while the other side is
    held keeps this side's account exactly when the other ladder shows at least what
    was consumed, or at least what this side still displays.
   */
  lemma OtherSideKeepsAccountIff(c: Config, d: Desk, b: Book, at: int, source: int, continuous: bool, side: Side, p: int)
    requires Sorted(b) && d.position.Some? && d.position.value.side != side && ObservationUsable(c, d, b, at, source, continuous)
    requires p in d.consumed
    ensures var other := Shown(Bids(b, d.position.value.side), p);
      Account(Observe(c, d, b, at, source, continuous), Shown(Bids(b, side), p), p) <= Account(d, Shown(Bids(b, side), p), p)
      <==> d.consumed[p] <= other || Shown(Bids(b, side), p) <= other
  {
  }

  // ---- Runs over both sides --------------------------------------------------

  function Offered(d: Desk, b: Book, side: Side, p: int): int {
    Max(0, Shown(Bids(b, side), p) - Consumed(d, p))
  }

  predicate Holding(d: Desk, side: Side) {
    d.position.Some? && d.position.value.side == side
  }

  /** What an event sells at `p` out of a position on `side`. */
  function SoldBy(c: Config, d: Desk, e: Event, side: Side, p: int): int
    requires Valid(c)
  {
    if Holding(d, side) then SoldAtPrice(Step(c, d, e).history, p) - SoldAtPrice(d.history, p) else 0
  }

  /** What an observation made while the other side is held puts back on offer. */
  function ForgottenBy(c: Config, d: Desk, e: Event, side: Side, p: int): int {
    if e.ObserveBook? && d.position.Some? && !Holding(d, side) && ObservationUsable(c, d, e.book, e.at, e.source, e.continuous) then
      var shown, other := Shown(Bids(e.book, side), p), Shown(Bids(e.book, d.position.value.side), p);
      Max(0, shown - Min(Consumed(d, p), other)) - Max(0, shown - Consumed(d, p))
    else 0
  }

  function SoldIn(c: Config, d: Desk, run: seq<Event>, side: Side, p: int): int
    requires Valid(c)
    decreases |run|
  {
    if run == [] then 0 else SoldBy(c, d, run[0], side, p) + SoldIn(c, Step(c, d, run[0]), run[1..], side, p)
  }

  function ForgottenIn(c: Config, d: Desk, run: seq<Event>, side: Side, p: int): int
    requires Valid(c)
    decreases |run|
  {
    if run == [] then 0 else ForgottenBy(c, d, run[0], side, p) + ForgottenIn(c, Step(c, d, run[0]), run[1..], side, p)
  }

  /** Every exit of the run looks at the book last displayed. */
  predicate FollowsDisplay(b: Book, run: seq<Event>)
    decreases |run|
  {
    run == [] || (OnDisplay(b, run[0]) && FollowsDisplay(BookAfter(b, run[0]), run[1..]))
  }

  lemma OtherSideObserves(c: Config, d: Desk, b: Book, e: Event, side: Side, p: int)
    requires Valid(c) && e.ObserveBook? && d.position.Some? && !Holding(d, side) && BookOk(e.book) && ConsumedOk(d)
    ensures Offered(Step(c, d, e), e.book, side, p) <= Offered(d, b, side, p) + Rise(b, e, side, p) + ForgottenBy(c, d, e, side, p)
  {
    if ObservationUsable(c, d, e.book, e.at, e.source, e.continuous) {
      LadderShows(Bids(e.book, d.position.value.side), p);
      assert Consumed(d, p) >= 0;
    }
  }

  lemma OtherSideMonitors(c: Config, d: Desk, b: Book, e: Event, side: Side, p: int)
    requires Valid(c) && e.MonitorBook?
    ensures Offered(Step(c, d, e), b, side, p) <= Offered(d, b, side, p)
  {
    MonitorGrows(c, d, e.book, e.terms, e.tick, e.at, e.quote, e.signals);
    assert Consumed(Step(c, d, e), p) >= Consumed(d, p);
  }

  /** One event: what is sold and what is left on offer come out of the offer, its rise and what was forgotten. */
  lemma StepSellsOffers(c: Config, d: Desk, b: Book, e: Event, side: Side, p: int)
    requires Valid(c) && OnDisplay(b, e) && ConsumedOk(d)
    ensures SoldBy(c, d, e, side, p) + Offered(Step(c, d, e), BookAfter(b, e), side, p)
         <= Offered(d, b, side, p) + Rise(b, e, side, p) + ForgottenBy(c, d, e, side, p)
  {
    if d.position.None? || Holding(d, side) {
      StepKeepsAccount(c, d, b, e, side, p);
      if d.position.None? { NothingSoldFlat(c, d, e, p); }
    } else if e.ObserveBook? {
      OtherSideObserves(c, d, b, e, side, p);
    } else if e.MonitorBook? {
      OtherSideMonitors(c, d, b, e, side, p);
    } else {
      OthersKeepDepth(c, d, e);
    }
  }

  lemma NothingSoldFlat(c: Config, d: Desk, e: Event, p: int)
    requires Valid(c) && d.position.None?
    ensures SoldAtPrice(Step(c, d, e).history, p) == SoldAtPrice(d.history, p)
  {
    if !e.MonitorBook? && !e.ObserveBook? {
      OthersKeepDepth(c, d, e);
    }
  }

  lemma {:induction false} RunSellsOffers(c: Config, d: Desk, b: Book, run: seq<Event>, side: Side, p: int)
    requires Valid(c) && FollowsDisplay(b, run) && ConsumedOk(d)
    ensures SoldIn(c, d, run, side, p) <= Offered(d, b, side, p) + Rises(b, run, side, p) + ForgottenIn(c, d, run, side, p)
    decreases |run|
  {
    if run != [] {
      StepSellsOffers(c, d, b, run[0], side, p);
      StepKeepsConsumed(c, d, run[0]);
      RunSellsOffers(c, Step(c, d, run[0]), BookAfter(b, run[0]), run[1..], side, p);
    }
  }

  /**
    Over every run, whatever sides its positions take: what positions on one side sell at a
    price is at most what was displayed there at the start, plus every later rise, plus what
    observations made while the other side was held put back on offer.
   */
  lemma SalesAreShownOrForgotten(c: Config, before: seq<Event>, b: Book, run: seq<Event>, side: Side, p: int)
    requires Valid(c) && ObservesOk(before) && Sorted(b) && FollowsDisplay(b, run)
    ensures var d := After(c, EmptyDesk, before);
      SoldIn(c, d, run, side, p) <= Shown(Bids(b, side), p) + Rises(b, run, side, p) + ForgottenIn(c, d, run, side, p)
  {
    var d := After(c, EmptyDesk, before);
    RunKeepsConsumed(c, EmptyDesk, before);
    assert Consumed(d, p) >= 0;
    LadderShows(Bids(b, side), p);
    RunSellsOffers(c, d, b, run, side, p);
  }

  /** While nothing is held on the other side nothing is forgotten, and all sales at the price are this side's. */
  lemma {:induction false} OneSideForgetsNothing(c: Config, d: Desk, b: Book, run: seq<Event>, side: Side, p: int)
    requires Valid(c) && OneSide(c, d, b, run, side)
    ensures ForgottenIn(c, d, run, side, p) == 0 && FollowsDisplay(b, run)
    ensures SoldIn(c, d, run, side, p) == SoldAtPrice(After(c, d, run).history, p) - SoldAtPrice(d.history, p)
    decreases |run|
  {
    if run != [] {
      if d.position.None? { NothingSoldFlat(c, d, run[0], p); }
      OneSideForgetsNothing(c, Step(c, d, run[0]), BookAfter(b, run[0]), run[1..], side, p);
    }
  }

  /** One observation forgets nothing exactly when the other ladder shows at least what was consumed or what this side shows. */
  lemma ForgetsNothingIff(c: Config, d: Desk, e: Event, side: Side, p: int)
    requires e.ObserveBook? && Sorted(e.book) && ConsumedOk(d) && d.position.Some? && !Holding(d, side)
    requires ObservationUsable(c, d, e.book, e.at, e.source, e.continuous)
    ensures var other := Shown(Bids(e.book, d.position.value.side), p);
      && ForgottenBy(c, d, e, side, p) >= 0
      && (ForgottenBy(c, d, e, side, p) == 0 <==> Consumed(d, p) <= other || Shown(Bids(e.book, side), p) <= other)
  {
    LadderShows(Bids(e.book, d.position.value.side), p);
    LadderShows(Bids(e.book, side), p);
    assert Consumed(d, p) >= 0;
  }
}
