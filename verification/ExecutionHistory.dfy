/**
  The records of a market only grow: what each event may append, and what therefore holds
  of every later state. A settlement is final, a purchase stays recorded.
 */
module ExecutionHistory {
  import opened Wrappers
  import opened Execution
  import opened ExecutionInvariant
  import F = Fees

  datatype Kind = Submission | Cancellation | PrintRecord | Purchase | IntentRecord | Drop | Sale | Result | SettlementRecord

  function KindOf(r: Record): Kind {
    match r
    case Submitted(_) => Submission
    case Cancelled(_, _) => Cancellation
    case Printed(_, _, _) => PrintRecord
    case Bought(_, _, _, _, _, _) => Purchase
    case Intent(_, _, _) => IntentRecord
    case Dropped(_, _) => Drop
    case SoldAt(_, _, _, _, _, _) => Sale
    case TradeResult(_, _, _, _, _) => Result
    case Settled(_, _) => SettlementRecord
  }

  /** `h'` is `h` with records of these kinds appended. */
  predicate Continues(h: seq<Record>, h': seq<Record>, kinds: set<Kind>) {
    h <= h' && forall i | |h| <= i < |h'| :: KindOf(h'[i]) in kinds
  }

  const BUYING: set<Kind> := {Cancellation, Purchase}
  const EXITING: set<Kind> := {Cancellation, IntentRecord, Drop, Sale, Result}

  /** What an event may append to the records of a desk. */
  function Appendable(d: Desk, e: Event): set<Kind> {
    match e
    case SubmitEntry(_, _, _, _, _, _) => BUYING + {Submission}
    case TradePrint(_, _, _, _) => BUYING + {PrintRecord}
    case MatchOrder(_, _, _, _, _, _) => BUYING
    case MonitorBook(_, _, _, _, _, _) => if d.position.Some? then EXITING else {}
    case SettleMarket(_, _, _, _, _) => {Cancellation, SettlementRecord} + if d.position.Some? then {Result} else {}
    case CancelOrder(_) => {Cancellation}
    case Restrict(_, _) => {Cancellation}
    case PauseVenue(_, _) => {Cancellation}
    case _ => {}
  }

  lemma OneRecord(h: seq<Record>, r: Record, kinds: set<Kind>)
    requires KindOf(r) in kinds
    ensures Continues(h, h + [r], kinds)
  {
  }

  lemma Chain(h: seq<Record>, h1: seq<Record>, h2: seq<Record>, kinds: set<Kind>)
    requires Continues(h, h1, kinds) && Continues(h1, h2, kinds)
    ensures Continues(h, h2, kinds)
  {
  }

  lemma Widen(h: seq<Record>, h': seq<Record>, kinds: set<Kind>, wider: set<Kind>)
    requires Continues(h, h', kinds) && kinds <= wider
    ensures Continues(h, h', wider)
  {
  }

  // ---- Buying --------------------------------------------------------------

  lemma CancelAppends(d: Desk, at: int, kinds: set<Kind>)
    requires Cancellation in kinds
    ensures Cancel(d, at).Ok? ==> Continues(d.history, Cancel(d, at).value.history, kinds)
  {
    if Working(d) { OneRecord(d.history, Cancelled(d.order.value.id, at), kinds); }
  }

  lemma FillAppends(c: Config, s: Shared, d: Desk, q: int, price: int, at: int, maker: bool, gate: Gate, kinds: set<Kind>)
    requires d.order.Some? && c.precision > 0 && Fill(c, s, d, q, price, at, maker, gate).Ok? && BUYING <= kinds
    ensures Continues(d.history, Fill(c, s, d, q, price, at, maker, gate).value.0.history, kinds)
  {
    FillMeans(c, s, d, q, price, at, maker, gate);
    CancelAppends(d, at, kinds);
    var (d', status) := Fill(c, s, d, q, price, at, maker, gate).value;
    if status == Filled { OneRecord(d.history, d'.history[|d.history|], kinds); }
  }

  lemma {:induction false} MatchAppends(c: Config, s: Shared, d: Desk, asks: seq<Level>, tick: int -> bool, at: int,
                                        gates: nat -> Gate, k: nat)
    requires d.order.Some? && c.precision > 0 && Sound(MatchLevels(c, s, d, asks, tick, at, gates, k))
    ensures Continues(d.history, MatchLevels(c, s, d, asks, tick, at, gates, k).desk.history, BUYING)
    decreases |asks|
  {
    if asks == [] || asks[0].price > d.order.value.limit {
    } else if !tick(asks[0].price) {
      CancelAppends(d, at, BUYING);
    } else if FloorLot(asks[0].quantity) <= 0 {
      MatchAppends(c, s, d, asks[1..], tick, at, gates, k + 1);
    } else {
      var filled := Fill(c, s, d, FloorLot(asks[0].quantity), asks[0].price, at, false, gates(k));
      FillAppends(c, s, d, FloorLot(asks[0].quantity), asks[0].price, at, false, gates(k), BUYING);
      var d' := filled.value.0;
      if filled.value.1 != Blocked && d'.order.value.active {
        MatchAppends(c, s, d', asks[1..], tick, at, gates, k + 1);
        Chain(d.history, d'.history, MatchLevels(c, s, d, asks, tick, at, gates, k).desk.history, BUYING);
      }
    }
  }

  lemma BodyAppends(c: Config, s: Shared, d: Desk, b: Book, m: Terms, tick: int -> bool, at: int, gates: nat -> Gate)
    requires c.precision > 0 && Sound(AggressiveBody(c, s, d, b, m, tick, at, gates))
    ensures Continues(d.history, AggressiveBody(c, s, d, b, m, tick, at, gates).desk.history, BUYING)
  {
    CancelAppends(d, at, BUYING);
    if Working(d) {
      var matched := MatchLevels(c, s, d, Asks(b, d.order.value.side), tick, at, gates, 1);
      if Sound(matched) {
        MatchAppends(c, s, d, Asks(b, d.order.value.side), tick, at, gates, 1);
        CancelAppends(matched.desk, at, BUYING);
      }
    }
  }

  lemma AggressiveAppends(c: Config, s: Shared, d: Desk, b: Book, m: Terms, tick: int -> bool, at: int, gates: nat -> Gate)
    requires c.precision > 0
    ensures Continues(d.history, Kept(d, Aggressive(c, s, d, b, m, tick, at, gates)).history, BUYING)
    ensures Continues(d.history, Kept(d, NestedAggressive(c, s, d, b, m, tick, at, gates)).history, BUYING)
  {
    CancelAppends(d, at, BUYING);
    var body := AggressiveBody(c, s, d, b, m, tick, at, gates);
    if Sound(body) {
      BodyAppends(c, s, d, b, m, tick, at, gates);
      CancelAppends(body.desk, at, BUYING);
    }
  }

  /** An accepted submission is its own record, and then what the nested match buys or cancels. */
  lemma SubmitAppends(c: Config, s: Shared, d: Desk, b: Book, m: Terms, tick: int -> bool, e: Entry, gates: nat -> Gate)
    requires Valid(c)
    ensures var d' := Kept(d, First(Submit(c, s, d, b, m, tick, e, gates)));
      d' == d
      || exists o: Order :: o.op == e.op && Accepts(c, s, d, b, m, tick, e) && Continues(d.history + [Submitted(o)], d'.history, BUYING)
  {
    if Accepts(c, s, d, b, m, tick, e) {
      AcceptedMeans(c, s, d, b, m, tick, e);
      if Placed(c, s, d, b, e).Ok? {
        PlacedShape(c, s, d, b, e);
        AggressiveAppends(c, s, Placed(c, s, d, b, e).value, b, m, tick, e.at, gates);
        assert NewOrder(c, s, d, b, e).op == e.op;
      }
    }
  }

  lemma TradedAppends(c: Config, s: Shared, d: Desk, p: Print, at: int, gate: Gate)
    requires c.precision > 0
    ensures var d' := Kept(d, Traded(c, s, d, p, at, gate));
      d' == d || exists id: nat, q: int :: Continues(d.history + [Printed(id, p.trade, q)], d'.history, BUYING)
  {
    var r := Traded(c, s, d, p, at, gate);
    if r.Ok? && r.value != d {
      TradedMeans(c, s, d, p, at, gate);
      if RestAfterQueue(d, p) > 0 {
        FillAppends(c, s, Queued(d, p), RestAfterQueue(d, p), d.order.value.limit, at, true, gate, BUYING);
      }
      assert Continues(d.history + [Printed(d.order.value.id, p.trade, p.quantity.value)], r.value.history, BUYING);
    }
  }

  // ---- Exits ---------------------------------------------------------------

  lemma FinishAppends(d: Desk, at: int, reason: Reason, settlement: Option<Side>, kinds: set<Kind>)
    requires d.position.Some? && Finish(d, at, reason, settlement).Ok? && Result in kinds
    ensures Continues(d.history, Finish(d, at, reason, settlement).value.history, kinds)
  {
    var pos := d.position.value;
    OneRecord(d.history, TradeResult(pos, pos.proceeds - pos.cost - pos.fees, reason, settlement, at), kinds);
  }

  lemma {:induction false} SellLevelsAppend(c: Config, d: Desk, bids: seq<Level>, tick: int -> bool, reason: Reason,
                                            target: Option<int>, at: int, received: int, carry: int)
    requires d.position.Some? && c.precision > 0 && SellLevels(c, d, bids, tick, reason, target, at, received, carry).Ok?
    ensures Continues(d.history, SellLevels(c, d, bids, tick, reason, target, at, received, carry).value.history, EXITING)
    decreases |bids|
  {
    if bids != [] {
      var q := Sellable(c, d, bids[0], tick, reason, target, carry);
      if q == 0 {
        SellLevelsAppend(c, d, bids[1..], tick, reason, target, at, received, carry);
      } else {
        var charged := F.Charge(c.precision, carry, bids[0].price, q, c.takerRate, F.Sell);
        var sold := BookSale(d, q, bids[0].price, charged.fee, reason, at, received);
        OneRecord(d.history, SoldAt(q, bids[0].price, charged.fee, reason, at, received), EXITING);
        if sold.position.value.quantity == 0 {
          FinishAppends(sold, at, reason, None, EXITING);
        } else {
          SellLevelsAppend(c, sold, bids[1..], tick, reason, target, at, received, charged.carry);
        }
        Chain(d.history, sold.history, SellLevels(c, d, bids, tick, reason, target, at, received, carry).value.history, EXITING);
      }
    }
  }

  lemma ExecuteAppends(c: Config, d: Desk, tick: int -> bool, q: Quote)
    requires d.position.Some? && c.precision > 0 && Execute(c, d, tick, q).Ok?
    ensures Continues(d.history, Execute(c, d, tick, q).value.history, EXITING)
  {
    var marked := d.(lastEvent := Some(q.event));
    CancelAppends(marked, q.at, EXITING);
    var exiting := Moved(Cancel(marked, q.at).value, Exiting).value;
    var bids := Bids(q.book, exiting.position.value.side);
    SellLevelsAppend(c, exiting, bids, tick, q.reason, q.target, q.at, q.book.received, 0);
    var sold := SellLevels(c, exiting, bids, tick, q.reason, q.target, q.at, q.book.received, 0).value;
    Chain(d.history, exiting.history, sold.history, EXITING);
    if sold.position.Some? { OneRecord(sold.history, Dropped(sold.position.value.exitReason, q.at), EXITING); }
  }

  lemma IntendAppends(c: Config, d: Desk, q: Quote)
    requires d.position.Some?
    ensures Intend(c, d, q).Ok? ==> Continues(d.history, Intend(c, d, q).value.history, EXITING)
  {
    if Intend(c, d, q).Ok? {
      var idle, limit := IntendMeans(c, d, q);
      CancelAppends(d, q.at, EXITING);
      OneRecord(idle.history, Intent(q.reason, q.at, q.at + c.latency), EXITING);
    }
  }

  lemma DropAppends(d: Desk, q: Quote)
    requires d.position.Some?
    ensures Continues(d.history, DropChanged(Extremes(d, q.mark), q).history, EXITING)
  {
    OneRecord(d.history, Dropped(d.position.value.exitReason, q.at), EXITING);
  }

  lemma CommitAppends(c: Config, d: Desk, tick: int -> bool, q: Quote, warning: bool)
    requires d.position.Some? && c.precision > 0
    ensures Continues(d.history, Kept(d, Apply(c, d, tick, q, warning)).history, EXITING)
  {
    DropAppends(d, q);
    if Commit(c, d, tick, q).Ok? {
      var current := DropChanged(Extremes(d, q.mark), q);
      CommitMeans(c, d, tick, q);
      IntendAppends(c, current, q);
      if Execute(c, current, tick, q).Ok? {
        ExecuteAppends(c, current, tick, q);
      }
      if Commit(c, d, tick, q).value != current {
        Chain(d.history, current.history, Commit(c, d, tick, q).value.history, EXITING);
      }
    }
  }

  lemma EvaluateAppends(c: Config, d: Desk, b: Book, tick: int -> bool, at: int, event: nat, g: Signals)
    requires c.precision > 0 && d.position.Some? && Bids(b, d.position.value.side) != []
    ensures Continues(d.history, Evaluate(c, d, b, tick, at, event, g).history, EXITING)
  {
    var pos := d.position.value;
    var bid := Bids(b, pos.side)[0].price;
    var (reason, target) := Reading(pos, bid, g);
    CommitAppends(c, d, tick, Quote(b, Mark(pos, bid), reason, target, at, event, g.modelAvailable || pos.exitReason != Invalidation), g.warning);
  }

  lemma WorkAppends(c: Config, d: Desk, b: Book, m: Terms, tick: int -> bool, at: int, event: nat, g: Signals)
    requires c.precision > 0 && d.position.Some? && Bids(b, d.position.value.side) != []
    ensures Continues(d.history, WorkValueExit(c, d, b, m, tick, at, event, g).history, EXITING)
  {
    var pos := d.position.value;
    OneRecord(d.history, Dropped(pos.exitReason, at), EXITING);
    CommitAppends(c, d, tick, Quote(b, Mark(pos, Bids(b, pos.side)[0].price), pos.exitReason, pos.valueLimit, at, event, true), false);
  }

  lemma MonitorAppends(c: Config, d: Desk, b: Book, m: Terms, tick: int -> bool, at: int, event: nat, g: Signals)
    requires c.precision > 0
    ensures var d' := Monitor(c, d, b, m, tick, at, event, g);
      Continues(d.history, d'.history, if d.position.Some? then EXITING else {})
  {
    if !MonitorBlocked(c, d, b, m, at) {
      var pos := d.position.value;
      if c.full && pos.exitReason != NoReason {
        CommitAppends(c, d, tick, Quote(b, Mark(pos, Bids(b, pos.side)[0].price), pos.exitReason, None, at, event, true), false);
      } else if ValueReason(pos.exitReason) {
        WorkAppends(c, d, b, m, tick, at, event, g);
        var d' := WorkValueExit(c, d, b, m, tick, at, event, g);
        if d'.position.Some? && Bids(b, d'.position.value.side) != [] {
          EvaluateAppends(c, d', b, tick, at, event, g);
          Chain(d.history, d'.history, Evaluate(c, d', b, tick, at, event, g).history, EXITING);
        }
      } else {
        EvaluateAppends(c, d, b, tick, at, event, g);
      }
    }
  }

  // ---- Settlement ----------------------------------------------------------

  lemma SettleNowAppends(d: Desk, result: Side, at: int, recovering: bool)
    requires SettleNow(d, result, at, recovering).Ok?
    ensures Continues(d.history, SettleNow(d, result, at, recovering).value.history,
                      {Cancellation, SettlementRecord} + if d.position.Some? then {Result} else {})
  {
    var kinds := {Cancellation, SettlementRecord} + if d.position.Some? then {Result} else {};
    SettleNowShape(d, result, at, recovering);
    OneRecord(d.history, Settled(result, at), kinds);
    CancelAppends(Claimed(d, result, at), at, kinds);
    var idle, d' := Cancel(Claimed(d, result, at), at).value, SettleNow(d, result, at, recovering).value;
    Chain(d.history, Claimed(d, result, at).history, idle.history, kinds);
    var waiting: Desk :|
      && waiting == idle.(stage := waiting.stage)
      && (if idle.position.Some?
          then Finish(PaidOut(waiting, result), at, AtSettlement, Some(result)).Ok?
               && d' == Finish(PaidOut(waiting, result), at, AtSettlement, Some(result)).value.(quarantine := None, pause := None)
          else d' == waiting.(quarantine := None, pause := None));
    if idle.position.Some? {
      FinishAppends(PaidOut(waiting, result), at, AtSettlement, Some(result), kinds);
      Chain(d.history, idle.history, d'.history, kinds);
    }
  }

  lemma SettleAppends(d: Desk, result: Side, at: int, close: int, ev: Evidence, review: Option<bool>)
    ensures Continues(d.history, Kept(d, First(Settle(d, result, at, close, ev, review))).history,
                      {Cancellation, SettlementRecord} + if d.position.Some? then {Result} else {})
  {
    var kinds := {Cancellation, SettlementRecord} + if d.position.Some? then {Result} else {};
    var r := Settle(d, result, at, close, ev, review);
    if r.Ok? && r.value.0 != d {
      SettleMeans(d, result, at, close, ev, review);
      var idle := EvidenceMeans(d, result, at, ev);
      var noted := if ev.NoEvidence? then d else d.(evidence := d.evidence + {result});
      CancelAppends(noted, at, kinds);
      var seen := WithEvidence(d, result, at, ev).value;
      assert seen.position == d.position by { if idle != noted { assert idle.position == noted.position; } }
      assert Continues(d.history, seen.history, kinds);
      if r.value.1 == SettledNow {
        SettleNowAppends(seen, result, at, seen.quarantine.Some?);
        Chain(d.history, seen.history, r.value.0.history, kinds);
      }
    }
  }

  // ---- Every step ------------------------------------------------------------

  lemma FirstThenRest(h: seq<Record>, r: Record, h': seq<Record>, kinds: set<Kind>)
    requires Continues(h + [r], h', kinds)
    ensures Continues(h, h', kinds + {KindOf(r)})
  {
    OneRecord(h, r, kinds + {KindOf(r)});
    Widen(h + [r], h', kinds, kinds + {KindOf(r)});
    Chain(h, h + [r], h', kinds + {KindOf(r)});
  }

  /** Every event appends only what it may. */
  lemma StepAppends(c: Config, d: Desk, e: Event)
    requires Valid(c)
    ensures Continues(d.history, Step(c, d, e).history, Appendable(d, e))
  {
    var h' := Step(c, d, e).history;
    match e
    case SubmitEntry(s, b, m, tick, entry, gates) =>
      SubmitAppends(c, s, d, b, m, tick, entry, gates);
      if h' != d.history {
        var o: Order :| Continues(d.history + [Submitted(o)], h', BUYING);
        FirstThenRest(d.history, Submitted(o), h', BUYING);
      }
    case TradePrint(s, p, at, gate) =>
      TradedAppends(c, s, d, p, at, gate);
      if h' != d.history {
        var id: nat, q: int :| Continues(d.history + [Printed(id, p.trade, q)], h', BUYING);
        FirstThenRest(d.history, Printed(id, p.trade, q), h', BUYING);
      }
    case MatchOrder(s, b, m, tick, at, gates) => AggressiveAppends(c, s, d, b, m, tick, at, gates);
    case MonitorBook(b, m, tick, at, quote, g) => MonitorAppends(c, d, b, m, tick, at, quote, g);
    case SettleMarket(result, at, close, ev, review) => SettleAppends(d, result, at, close, ev, review);
    case _ => OtherStepsAppend(c, d, e);
  }

  lemma OtherStepsAppend(c: Config, d: Desk, e: Event)
    requires Valid(c) && !e.SubmitEntry? && !e.TradePrint? && !e.MatchOrder? && !e.MonitorBook? && !e.SettleMarket?
    ensures Continues(d.history, Step(c, d, e).history, Appendable(d, e))
  {
    if e.CancelOrder? || e.Restrict? || e.PauseVenue? {
      CancelAppends(d, e.at, {Cancellation});
    }
  }

  /** Over every run, no record is ever lost or changed. */
  lemma {:induction false} RecordsOnlyGrow(c: Config, d: Desk, run: seq<Event>)
    requires Valid(c)
    ensures d.history <= After(c, d, run).history
    decreases |run|
  {
    if run != [] {
      StepAppends(c, d, run[0]);
      RecordsOnlyGrow(c, Step(c, d, run[0]), run[1..]);
    }
  }

  // ---- Settlements are final -------------------------------------------------

  lemma {:induction false} OneSettlementStands(h: seq<Record>, h': seq<Record>)
    requires h <= h' && SettledResult(h).Some? && Settlements(h') <= 1
    ensures SettledResult(h') == SettledResult(h)
    decreases |h'|
  {
    if |h'| > |h| {
      assert h <= h'[..|h'| - 1];
      OneSettlementStands(h, h'[..|h'| - 1]);
      SettlementCounts(h'[..|h'| - 1]);
    } else {
      assert h == h';
    }
  }

  lemma {:induction false} SettlementCounts(h: seq<Record>)
    ensures SettledResult(h).Some? <==> Settlements(h) >= 1
    decreases |h|
  {
    if h != [] { SettlementCounts(h[..|h| - 1]); }
  }

  /**
    Once a market is settled, every later settlement of every run leaves its desk exactly as
    it is, whatever result and evidence it brings and whatever happened in between.
   */
  lemma SettlementIsFinal(c: Config, before: seq<Event>, between: seq<Event>, again: Event)
    requires Valid(c) && EventsOk(before) && EventsOk(between) && again.SettleMarket?
    requires SettledResult(After(c, EmptyDesk, before).history).Some?
    ensures var settled := After(c, EmptyDesk, before);
      var d := After(c, settled, between);
      && SettledResult(d.history) == SettledResult(settled.history)
      && Step(c, d, again) == d
  {
    var settled := After(c, EmptyDesk, before);
    InitialInv(c);
    EveryRunKeepsInv(c, EmptyDesk, before);
    EveryRunKeepsInv(c, settled, between);
    RecordsOnlyGrow(c, settled, between);
    OneSettlementStands(settled.history, After(c, settled, between).history);
  }

  // ---- Purchases stay recorded -----------------------------------------------

  /** The market has a recorded purchase. */
  predicate Entered(h: seq<Record>) {
    exists i :: 0 <= i < |h| && h[i].Bought?
  }

  lemma EnteredStays(h: seq<Record>, h': seq<Record>)
    requires h <= h' && Entered(h)
    ensures Entered(h')
  {
    var i :| 0 <= i < |h| && h[i].Bought?;
    assert h'[i].Bought?;
  }

  lemma {:induction false} EnteredMeansBought(latency: int, h: seq<Record>)
    requires PurchasesOk(latency, h)
    ensures TotalBought(h) >= 0 && (Entered(h) <==> TotalBought(h) > 0)
    decreases |h|
  {
    if h != [] {
      var earlier := h[..|h| - 1];
      EnteredMeansBought(latency, earlier);
      if Entered(earlier) { EnteredStays(earlier, h); }
      if h[|h| - 1].Bought? {
        assert Entered(h);
      } else if Entered(h) {
        var i :| 0 <= i < |h| && h[i].Bought?;
        assert earlier[i].Bought?;
      }
    }
  }

  /** A market that ever bought is marked as occupying its event. */
  lemma EnteredOccupies(c: Config, d: Desk)
    requires Inv(c, d) && Entered(d.history)
    ensures Occupies(d)
  {
    EnteredMeansBought(c.latency, d.history);
  }
}
