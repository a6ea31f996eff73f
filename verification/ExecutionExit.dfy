/**
  Exits: a hard stop, or any exit under full-size execution, stays requested until the
  position closes; every sale waits out its latency; and the read-only shortcuts of the
  monitor skip only work that would have changed nothing.
 */
module ExecutionExit {
  import opened Wrappers
  import opened Execution
  import opened ExecutionInvariant
  import F = Fees

  // ---- Sales are backed by served intents ------------------------------------

  lemma {:induction false} IntentBehind(latency: int, h: seq<Record>) returns (j: nat)
    requires ExitsRecorded(latency, h) && CurrentIntent(h).Some?
    ensures j < |h| && h[j].Intent? && h[j].reason == CurrentIntent(h).value.0 && h[j].eligible == CurrentIntent(h).value.1
    ensures h[j].eligible == h[j].at + latency
    ensures forall i | j < i < |h| :: !h[i].Intent? && !h[i].Dropped? && !h[i].TradeResult?
    decreases |h|
  {
    if h[|h| - 1].Intent? {
      j := |h| - 1;
    } else {
      j := IntentBehind(latency, h[..|h| - 1]);
    }
  }

  lemma {:induction false} SaleAt(latency: int, h: seq<Record>, k: nat)
    requires ExitsRecorded(latency, h) && k < |h|
    ensures ExitsRecorded(latency, h[..k]) && SaleOk(CurrentIntent(h[..k]), h[k])
    decreases |h|
  {
    if k < |h| - 1 {
      assert h[..|h| - 1][..k] == h[..k];
      SaleAt(latency, h[..|h| - 1], k);
    }
  }

  lemma ServedBy(latency: int, h: seq<Record>, k: nat) returns (j: nat)
    requires ExitsRecorded(latency, h) && k < |h| && h[k].SoldAt?
    ensures j < k && h[j].Intent? && h[j].reason == h[k].reason
    ensures h[k].at >= h[j].at + latency && h[k].received >= h[j].at + latency
    ensures forall i | j < i < k :: !h[i].Intent? && !h[i].Dropped? && !h[i].TradeResult?
  {
    SaleAt(latency, h, k);
    j := IntentBehind(latency, h[..k]);
    forall i | j < i < k ensures !h[i].Intent? && !h[i].Dropped? && !h[i].TradeResult? {
      assert h[i] == h[..k][i];
    }
  }

  /**
    Every sale of every run carries out the last intent before it, not dropped since,
    at least the latency after it and on a book received at least the latency after it.
   */
  lemma EverySaleServesItsIntent(c: Config, run: seq<Event>, k: nat) returns (j: nat)
    requires Valid(c) && EventsOk(run)
    requires k < |After(c, EmptyDesk, run).history| && After(c, EmptyDesk, run).history[k].SoldAt?
    ensures var h := After(c, EmptyDesk, run).history;
      && j < k && h[j].Intent? && h[j].reason == h[k].reason
      && h[k].at >= h[j].at + c.latency && h[k].received >= h[j].at + c.latency
      && forall i | j < i < k :: !h[i].Intent? && !h[i].Dropped? && !h[i].TradeResult?
  {
    InitialInv(c);
    EveryRunKeepsInv(c, EmptyDesk, run);
    j := ServedBy(c.latency, After(c, EmptyDesk, run).history, k);
  }

  // ---- Committed exits -------------------------------------------------------

  predicate Committed(c: Config, d: Desk) {
    d.position.Some? && (d.position.value.exitReason == HardStop || (c.full && d.position.value.exitReason != NoReason))
  }

  /** The position is closed, or still wants what it wanted. */
  predicate StillWants(d: Desk, d': Desk)
    requires d.position.Some?
  {
    d'.position.Some? ==> d'.position.value.exitReason == d.position.value.exitReason
  }

  lemma FillKeepsExit(c: Config, s: Shared, d: Desk, q: int, price: int, at: int, maker: bool, gate: Gate)
    requires d.order.Some? && d.position.Some? && c.precision > 0 && Fill(c, s, d, q, price, at, maker, gate).Ok?
    ensures var d' := Fill(c, s, d, q, price, at, maker, gate).value.0; d'.position.Some? && StillWants(d, d')
  {
    FillMeans(c, s, d, q, price, at, maker, gate);
  }

  lemma {:induction false} MatchKeepsExit(c: Config, s: Shared, d: Desk, asks: seq<Level>, tick: int -> bool, at: int,
                                          gates: nat -> Gate, k: nat)
    requires d.order.Some? && d.position.Some? && c.precision > 0 && Sound(MatchLevels(c, s, d, asks, tick, at, gates, k))
    ensures var d' := MatchLevels(c, s, d, asks, tick, at, gates, k).desk; d'.position.Some? && StillWants(d, d')
    decreases |asks|
  {
    if asks == [] || asks[0].price > d.order.value.limit || !tick(asks[0].price) {
    } else if FloorLot(asks[0].quantity) <= 0 {
      MatchKeepsExit(c, s, d, asks[1..], tick, at, gates, k + 1);
    } else {
      var filled := Fill(c, s, d, FloorLot(asks[0].quantity), asks[0].price, at, false, gates(k));
      FillKeepsExit(c, s, d, FloorLot(asks[0].quantity), asks[0].price, at, false, gates(k));
      var d' := filled.value.0;
      if filled.value.1 != Blocked && d'.order.value.active {
        MatchKeepsExit(c, s, d', asks[1..], tick, at, gates, k + 1);
      }
    }
  }

  lemma AggressiveKeepsExit(c: Config, s: Shared, d: Desk, b: Book, m: Terms, tick: int -> bool, at: int, gates: nat -> Gate)
    requires d.position.Some? && c.precision > 0
    ensures StillWants(d, Kept(d, Aggressive(c, s, d, b, m, tick, at, gates)))
  {
    if Working(d) {
      var matched := MatchLevels(c, s, d, Asks(b, d.order.value.side), tick, at, gates, 1);
      if Sound(matched) {
        MatchKeepsExit(c, s, d, Asks(b, d.order.value.side), tick, at, gates, 1);
      }
    }
  }

  lemma TradedKeepsExit(c: Config, s: Shared, d: Desk, p: Print, at: int, gate: Gate)
    requires d.position.Some? && c.precision > 0
    ensures StillWants(d, Kept(d, Traded(c, s, d, p, at, gate)))
  {
    var r := Traded(c, s, d, p, at, gate);
    if r.Ok? && r.value != d {
      TradedMeans(c, s, d, p, at, gate);
      if RestAfterQueue(d, p) > 0 {
        FillKeepsExit(c, s, Queued(d, p), RestAfterQueue(d, p), d.order.value.limit, at, true, gate);
      }
    }
  }

  lemma SubmitKeepsExit(c: Config, s: Shared, d: Desk, b: Book, m: Terms, tick: int -> bool, e: Entry, gates: nat -> Gate)
    requires Valid(c) && d.position.Some?
    ensures Kept(d, First(Submit(c, s, d, b, m, tick, e, gates))) == d
  {
    if Accepts(c, s, d, b, m, tick, e) {
      AcceptedMeans(c, s, d, b, m, tick, e);
      assert false;
    }
  }

  lemma {:induction false} SellLevelsKeepExit(c: Config, d: Desk, bids: seq<Level>, tick: int -> bool, reason: Reason,
                                              target: Option<int>, at: int, received: int, carry: int)
    requires d.position.Some? && c.precision > 0 && SellLevels(c, d, bids, tick, reason, target, at, received, carry).Ok?
    ensures StillWants(d, SellLevels(c, d, bids, tick, reason, target, at, received, carry).value)
    decreases |bids|
  {
    if bids != [] {
      var q := Sellable(c, d, bids[0], tick, reason, target, carry);
      if q == 0 {
        SellLevelsKeepExit(c, d, bids[1..], tick, reason, target, at, received, carry);
      } else {
        var charged := F.Charge(c.precision, carry, bids[0].price, q, c.takerRate, F.Sell);
        var sold := BookSale(d, q, bids[0].price, charged.fee, reason, at, received);
        if sold.position.value.quantity != 0 {
          SellLevelsKeepExit(c, sold, bids[1..], tick, reason, target, at, received, charged.carry);
        }
      }
    }
  }

  /** Working an exit for the reason it was committed for keeps that reason while anything remains. */
  lemma CommitKeepsExit(c: Config, d: Desk, tick: int -> bool, q: Quote, warning: bool)
    requires Committed(c, d) && c.precision > 0 && q.reason == d.position.value.exitReason
    ensures StillWants(d, Kept(d, Apply(c, d, tick, q, warning)))
  {
    var current := DropChanged(Extremes(d, q.mark), q);
    if Commit(c, d, tick, q).Ok? && Execute(c, current, tick, q).Ok? {
      var marked := current.(lastEvent := Some(q.event));
      assert Cancel(marked, q.at).Ok? && Cancel(marked, q.at).value.position == current.position;
      var exiting := Moved(Cancel(marked, q.at).value, Exiting).value;
      SellLevelsKeepExit(c, exiting, Bids(q.book, exiting.position.value.side), tick, q.reason, q.target, q.at, q.book.received, 0);
    }
  }

  lemma MonitorKeepsExit(c: Config, d: Desk, b: Book, m: Terms, tick: int -> bool, at: int, event: nat, g: Signals)
    requires Committed(c, d) && c.precision > 0
    ensures StillWants(d, Monitor(c, d, b, m, tick, at, event, g))
  {
    if !MonitorBlocked(c, d, b, m, at) {
      var pos := d.position.value;
      var bid := Bids(b, pos.side)[0].price;
      if c.full {
        CommitKeepsExit(c, d, tick, Quote(b, Mark(pos, bid), pos.exitReason, None, at, event, true), false);
      } else {
        assert Reading(pos, bid, g) == (HardStop, g.target);
        CommitKeepsExit(c, d, tick, Quote(b, Mark(pos, bid), HardStop, g.target, at, event, g.modelAvailable || pos.exitReason != Invalidation), g.warning);
      }
    }
  }

  lemma SettleKeepsExit(d: Desk, result: Side, at: int, close: int, ev: Evidence, review: Option<bool>)
    requires d.position.Some?
    ensures StillWants(d, Kept(d, First(Settle(d, result, at, close, ev, review))))
  {
    var r := Settle(d, result, at, close, ev, review);
    if r.Ok? && r.value.1 == SettledNow {
      var seen := WithEvidence(d, result, at, ev).value;
      SettleNowShape(seen, result, at, seen.quarantine.Some?);
    }
  }

  lemma StepKeepsExit(c: Config, d: Desk, e: Event)
    requires Valid(c) && Committed(c, d)
    ensures StillWants(d, Step(c, d, e))
  {
    if e.SubmitEntry? {
      SubmitKeepsExit(c, e.shared, d, e.book, e.terms, e.tick, e.entry, e.gates);
    } else if e.TradePrint? {
      TradedKeepsExit(c, e.shared, d, e.traded, e.at, e.gate);
    } else if e.MatchOrder? {
      AggressiveKeepsExit(c, e.shared, d, e.book, e.terms, e.tick, e.at, e.gates);
    } else if e.MonitorBook? {
      MonitorKeepsExit(c, d, e.book, e.terms, e.tick, e.at, e.quote, e.signals);
    } else if e.SettleMarket? {
      SettleKeepsExit(d, e.result, e.at, e.close, e.evidence, e.review);
    }
  }

  predicate ClosesWithin(c: Config, d: Desk, run: seq<Event>)
    requires Valid(c)
    decreases |run|
  {
    d.position.None? || (run != [] && ClosesWithin(c, Step(c, d, run[0]), run[1..]))
  }

  /** Once committed, an exit holds its reason in every later state until the position closes. */
  lemma {:induction false} CommittedExitsHold(c: Config, d: Desk, run: seq<Event>)
    requires Valid(c) && Committed(c, d) && !ClosesWithin(c, d, run)
    ensures var d' := After(c, d, run); d'.position.Some? && d'.position.value.exitReason == d.position.value.exitReason
    decreases |run|
  {
    if run != [] {
      StepKeepsExit(c, d, run[0]);
      var d' := Step(c, d, run[0]);
      assert !ClosesWithin(c, d', run[1..]) && d'.position.Some?;
      CommittedExitsHold(c, d', run[1..]);
    }
  }

  // ---- The monitor's shortcuts -----------------------------------------------

  lemma NoExtremeNoChange(d: Desk, mark: real)
    requires d.position.Some? && NoNewExtreme(d.position.value, mark)
    ensures Extremes(d, mark) == d
  {
  }

  /** Waiting on an intent: the transaction would have returned the desk unchanged. */
  lemma WaitingSkipsNothing(c: Config, d: Desk, tick: int -> bool, q: Quote)
    requires d.position.Some? && c.precision > 0 && WaitingOnIntent(d, q, false)
    ensures Commit(c, d, tick, q) == Ok(d)
  {
    NoExtremeNoChange(d, q.mark);
  }

  lemma NothingSellable(c: Config, d: Desk, l: Level, tick: int -> bool, reason: Reason, target: Option<int>, carry: int)
    requires d.position.Some? && c.precision > 0 && (c.full || !ValueReason(reason))
    requires c.full || reason != TakeProfit || target.Some?
    requires !(Min(d.position.value.quantity, l.quantity - Consumed(d, l.price)) >= LOT && tick(l.price)
               && (c.full || reason != TakeProfit || (target.Some? && l.price >= target.value)))
    ensures Sellable(c, d, l, tick, reason, target, carry) == 0
  {
    FloorLotBounds(Min(d.position.value.quantity, Max(0, l.quantity - Consumed(d, l.price))));
  }

  lemma {:induction false} NothingSold(c: Config, d: Desk, bids: seq<Level>, tick: int -> bool, reason: Reason, target: Option<int>,
                                       at: int, received: int, carry: int)
    requires d.position.Some? && c.precision > 0 && (c.full || !ValueReason(reason)) && !AnySellable(c, d, bids, tick, reason, target)
    requires c.full || reason != TakeProfit || target.Some?
    ensures SellLevels(c, d, bids, tick, reason, target, at, received, carry) == Ok(d)
    decreases |bids|
  {
    if bids != [] {
      assert !(Min(d.position.value.quantity, bids[0].quantity - Consumed(d, bids[0].price)) >= LOT && tick(bids[0].price)
               && (c.full || reason != TakeProfit || (target.Some? && bids[0].price >= target.value)));
      NothingSellable(c, d, bids[0], tick, reason, target, carry);
      assert !AnySellable(c, d, bids[1..], tick, reason, target) by {
        assert forall i | 0 <= i < |bids[1..]| :: bids[1..][i] == bids[i + 1];
      }
      NothingSold(c, d, bids[1..], tick, reason, target, at, received, carry);
    }
  }

  /** The two desks differ at most in the event last looked at, and in a pass left in the exiting state being over. */
  predicate SameButEvent(d: Desk, d': Desk) {
    && d' == d.(lastEvent := d'.lastEvent, stage := d'.stage)
    && (d'.stage == d.stage || (d.stage == Some(Exiting) && d'.stage == Some(PositionOpen)))
  }

  /** Nothing to sell: the transaction would have sold nothing and recorded nothing. */
  lemma NothingToSellSkipsNothing(c: Config, d: Desk, tick: int -> bool, q: Quote)
    requires d.position.Some? && c.precision > 0 && NothingToSell(c, d, tick, q, false)
    ensures Commit(c, d, tick, q).Ok? ==> SameButEvent(d, Commit(c, d, tick, q).value)
  {
    NoExtremeNoChange(d, q.mark);
    assert DropChanged(d, q) == d;
    if Commit(c, d, tick, q).Ok? && q.reason != NoReason && Execute(c, d, tick, q).Ok? {
      var exiting := d.(lastEvent := Some(q.event), stage := Some(Exiting));
      var bids := Bids(q.book, d.position.value.side);
      assert !AnySellable(c, exiting, bids, tick, q.reason, q.target) by {
        assert forall p :: Consumed(exiting, p) == Consumed(d, p);
      }
      NothingSold(c, exiting, bids, tick, q.reason, q.target, q.at, q.book.received, 0);
    }
  }

  /** The fast monitor refines the transaction it avoids. */
  lemma ShortcutsRefineCommit(c: Config, d: Desk, tick: int -> bool, q: Quote, warning: bool)
    requires d.position.Some? && c.precision > 0 && Apply(c, d, tick, q, warning).Ok? && Commit(c, d, tick, q).Ok?
    ensures SameButEvent(Apply(c, d, tick, q, warning).value, Commit(c, d, tick, q).value)
  {
    if WaitingOnIntent(d, q, warning) {
      WaitingSkipsNothing(c, d, tick, q);
    } else if NothingToSell(c, d, tick, q, warning) {
      NothingToSellSkipsNothing(c, d, tick, q);
    }
  }

  /** The monitor's own early return: with no reason and no new extreme the transaction changes nothing. */
  lemma QuietQuoteSkipsNothing(c: Config, d: Desk, tick: int -> bool, q: Quote)
    requires d.position.Some? && c.precision > 0 && q.reason == NoReason && NoNewExtreme(d.position.value, q.mark)
    requires d.position.value.exitReason == NoReason || !q.clear
    ensures Commit(c, d, tick, q) == Ok(d)
  {
    NoExtremeNoChange(d, q.mark);
  }

  // ---- What an exit pass may sell ------------------------------------------

  /** A sale on the tick grid, at a displayed bid, and not below the limit of a limited exit. */
  predicate SaleAdmissible(c: Config, bids: seq<Level>, tick: int -> bool, reason: Reason, target: Option<int>, r: Record) {
    r.SoldAt? ==>
      && r.quantity > 0 && r.quantity % LOT == 0 && tick(r.price) && r.reason == reason
      && (!c.full && Limited(reason) && target.Some? ==> r.price >= target.value)
      && exists i :: 0 <= i < |bids| && bids[i].price == r.price && r.quantity <= bids[i].quantity
  }

  lemma AdmissibleInLonger(c: Config, l: Level, bids: seq<Level>, tick: int -> bool, reason: Reason, target: Option<int>, r: Record)
    requires SaleAdmissible(c, bids, tick, reason, target, r)
    ensures SaleAdmissible(c, [l] + bids, tick, reason, target, r)
  {
    if r.SoldAt? {
      var i :| 0 <= i < |bids| && bids[i].price == r.price && r.quantity <= bids[i].quantity;
      assert ([l] + bids)[i + 1] == bids[i];
    }
  }

  /** Consumption recorded by earlier sales is never negative. */
  predicate NoNegativeConsumption(d: Desk) {
    forall p | p in d.consumed :: d.consumed[p] >= 0
  }

  lemma FirstSaleAdmissible(c: Config, d: Desk, bids: seq<Level>, tick: int -> bool, reason: Reason, target: Option<int>,
                            carry: int, r: Record)
    requires d.position.Some? && c.precision > 0 && NoNegativeConsumption(d) && bids != [] && r.SoldAt?
    requires r.price == bids[0].price && r.reason == reason
    requires r.quantity == Sellable(c, d, bids[0], tick, reason, target, carry) != 0
    ensures SaleAdmissible(c, bids, tick, reason, target, r)
  {
    SellableBounds(c, d, bids[0], tick, reason, target, carry);
    assert bids[0].price == r.price && r.quantity <= bids[0].quantity;
  }

  /** Every new record of an exit pass is admissible. */
  ghost predicate PassAdmissible(c: Config, bids: seq<Level>, tick: int -> bool, reason: Reason, target: Option<int>,
                                 before: seq<Record>, after: seq<Record>) {
    && before <= after
    && forall k | |before| <= k < |after| :: SaleAdmissible(c, bids, tick, reason, target, after[k])
  }

  lemma PassInLonger(c: Config, l: Level, bids: seq<Level>, tick: int -> bool, reason: Reason, target: Option<int>,
                     before: seq<Record>, after: seq<Record>)
    requires PassAdmissible(c, bids, tick, reason, target, before, after)
    ensures PassAdmissible(c, [l] + bids, tick, reason, target, before, after)
  {
    forall k | |before| <= k < |after| ensures SaleAdmissible(c, [l] + bids, tick, reason, target, after[k]) {
      AdmissibleInLonger(c, l, bids, tick, reason, target, after[k]);
    }
  }

  /**
    What one exit pass may sell: only at displayed bids on the grid, in whole lots, no more than
    a bid shows, and for a limited exit never below its limit.
   */
  lemma {:induction false} ExitPassIsAdmissible(c: Config, d: Desk, bids: seq<Level>, tick: int -> bool, reason: Reason,
                                                target: Option<int>, at: int, received: int, carry: int)
    requires d.position.Some? && c.precision > 0 && NoNegativeConsumption(d)
    requires SellLevels(c, d, bids, tick, reason, target, at, received, carry).Ok?
    ensures PassAdmissible(c, bids, tick, reason, target, d.history,
                           SellLevels(c, d, bids, tick, reason, target, at, received, carry).value.history)
    decreases |bids|
  {
    if bids != [] {
      var rest, h := bids[1..], SellLevels(c, d, bids, tick, reason, target, at, received, carry).value.history;
      assert bids == [bids[0]] + rest;
      var q := Sellable(c, d, bids[0], tick, reason, target, carry);
      if q == 0 {
        ExitPassIsAdmissible(c, d, rest, tick, reason, target, at, received, carry);
        PassInLonger(c, bids[0], rest, tick, reason, target, d.history, h);
      } else {
        SellableBounds(c, d, bids[0], tick, reason, target, carry);
        var charged := F.Charge(c.precision, carry, bids[0].price, q, c.takerRate, F.Sell);
        var sold := BookSale(d, q, bids[0].price, charged.fee, reason, at, received);
        var r := SoldAt(q, bids[0].price, charged.fee, reason, at, received);
        FirstSaleAdmissible(c, d, bids, tick, reason, target, carry, r);
        if sold.position.value.quantity != 0 {
          ExitPassIsAdmissible(c, sold, rest, tick, reason, target, at, received, charged.carry);
          PassInLonger(c, bids[0], rest, tick, reason, target, sold.history, h);
        }
        AfterFirstSale(c, bids, tick, reason, target, d.history, r, h);
      }
    }
  }

  lemma AfterFirstSale(c: Config, bids: seq<Level>, tick: int -> bool, reason: Reason, target: Option<int>,
                       before: seq<Record>, r: Record, after: seq<Record>)
    requires SaleAdmissible(c, bids, tick, reason, target, r)
    requires PassAdmissible(c, bids, tick, reason, target, before + [r], after)
    ensures PassAdmissible(c, bids, tick, reason, target, before, after)
  {
    assert after[|before|] == r;
  }
}
