/**
  The paper engine's books over whole runs: inventory and cash are conserved, every
  closed trade balances, a settlement pays once, and the caps on attempts, trades
  and passive fills hold.
 */
module ExecutionAccounting {
  import opened Wrappers
  import opened Execution
  import opened ExecutionInvariant

  // ---- Conservation --------------------------------------------------------

  /** All the cash a market has moved: fills, fees and settlement payouts. */
  function Cash(h: seq<Record>): int {
    if h == [] then 0
    else
      var earlier := h[..|h| - 1];
      Cash(earlier) +
      match h[|h| - 1]
      case Bought(_, q, p, fee, _, _) => -(q * p) - fee
      case SoldAt(q, p, fee, _, _, _) => q * p - fee
      case TradeResult(pos, _, _, settlement, _) => Payout(settlement, pos.side, Ledger(earlier).quantity)
      case _ => 0
  }

  /** All profit reported by closed trades. */
  function Reported(h: seq<Record>): int {
    if h == [] then 0 else Reported(h[..|h| - 1]) + if h[|h| - 1].TradeResult? then h[|h| - 1].net else 0
  }

  function Sold(h: seq<Record>): int {
    if h == [] then 0 else Sold(h[..|h| - 1]) + if h[|h| - 1].SoldAt? then h[|h| - 1].quantity else 0
  }

  /** Contracts that were still held when their trade was settled. */
  function Redeemed(h: seq<Record>): int {
    if h == [] then 0
    else Redeemed(h[..|h| - 1]) + if h[|h| - 1].TradeResult? then Ledger(h[..|h| - 1]).quantity else 0
  }

  lemma {:induction false} CashIsReported(h: seq<Record>)
    requires ResultsOk(h)
    ensures Cash(h) == Reported(h) + Ledger(h).proceeds - Ledger(h).cost - Ledger(h).fees
    ensures TotalBought(h) == Sold(h) + Redeemed(h) + Ledger(h).quantity
    decreases |h|
  {
    if h != [] {
      CashIsReported(h[..|h| - 1]);
    }
  }

  /** Over every run: the position is the recorded purchases less the recorded sales and redemptions. */
  lemma InventoryIsConserved(c: Config, run: seq<Event>)
    requires Valid(c) && EventsOk(run)
    ensures var d := After(c, EmptyDesk, run);
      TotalBought(d.history) - Sold(d.history) - Redeemed(d.history) == if d.position.Some? then d.position.value.quantity else 0
  {
    InitialInv(c);
    EveryRunKeepsInv(c, EmptyDesk, run);
    CashIsReported(After(c, EmptyDesk, run).history);
  }

  /** Over every run: reported profit, plus what the open position has cost so far, is the cash moved. */
  lemma CashIsConserved(c: Config, run: seq<Event>)
    requires Valid(c) && EventsOk(run)
    ensures var d := After(c, EmptyDesk, run);
      Cash(d.history) == Reported(d.history)
        + if d.position.Some? then d.position.value.proceeds - d.position.value.cost - d.position.value.fees else 0
  {
    InitialInv(c);
    EveryRunKeepsInv(c, EmptyDesk, run);
    CashIsReported(After(c, EmptyDesk, run).history);
  }

  lemma {:induction false} ResultAt(h: seq<Record>, k: nat)
    requires ResultsOk(h) && k < |h|
    ensures ResultOk(Ledger(h[..k]), h[k])
    decreases |h|
  {
    if k < |h| - 1 {
      assert h[..|h| - 1][..k] == h[..k];
      ResultAt(h[..|h| - 1], k);
    }
  }

  /** Every closed trade balances: its net is its own fills' proceeds and payout less their cost and fees. */
  lemma EveryTradeBalances(c: Config, run: seq<Event>, k: nat)
    requires Valid(c) && EventsOk(run) && k < |After(c, EmptyDesk, run).history|
    requires After(c, EmptyDesk, run).history[k].TradeResult?
    ensures var h := After(c, EmptyDesk, run).history;
      var t := Ledger(h[..k]);
      && h[k].net == t.proceeds + Payout(h[k].settlement, h[k].position.side, t.quantity) - t.cost - t.fees
      && h[k].position.bought == t.bought
      && (h[k].settlement.None? ==> t.quantity == 0)
  {
    InitialInv(c);
    EveryRunKeepsInv(c, EmptyDesk, run);
    ResultAt(After(c, EmptyDesk, run).history, k);
  }

  /** Over every run: what is bought is what the order no longer waits for, and inventory never goes negative. */
  lemma PositionIsItsOrder(c: Config, run: seq<Event>)
    requires Valid(c) && EventsOk(run) && After(c, EmptyDesk, run).position.Some?
    ensures var d := After(c, EmptyDesk, run);
      && d.order.Some? && d.position.value.bought == d.order.value.quantity - d.order.value.remaining
      && d.position.value.op == d.order.value.op && d.position.value.side == d.order.value.side
      && 0 < d.position.value.quantity <= d.position.value.bought <= d.order.value.quantity
  {
    InitialInv(c);
    EveryRunKeepsInv(c, EmptyDesk, run);
  }

  /** Risk is reserved exactly while an order works or a position is open, so a reservation never collides. */
  lemma ReservedWhileAtRisk(c: Config, run: seq<Event>)
    requires Valid(c) && EventsOk(run)
    ensures var d := After(c, EmptyDesk, run); d.reserved <==> Working(d) || d.position.Some?
  {
    InitialInv(c);
    EveryRunKeepsInv(c, EmptyDesk, run);
  }

  // ---- Settlement ----------------------------------------------------------

  /** A settlement that takes effect closes the position and pays each remaining contract once. */
  lemma SettlementPays(c: Config, d: Desk, result: Side, at: int, close: int, ev: Evidence, review: Option<bool>)
    requires Inv(c, d) && Stocked(d) && d.position.Some?
    requires var r := Settle(d, result, at, close, ev, review); r.Ok? && r.value.1 == SettledNow
    ensures var d' := Settle(d, result, at, close, ev, review).value.0;
      var pos := d.position.value;
      && d'.position.None? && SettledResult(d.history).None? && d'.history != []
      && var last := d'.history[|d'.history| - 1];
         && last.TradeResult? && last.settlement == Some(result) && last.position.quantity == 0
         && last.net == pos.proceeds + (if pos.side == result then pos.quantity * ONE else 0) - pos.cost - pos.fees
  {
    SettleMeans(d, result, at, close, ev, review);
    var seen := WithEvidence(d, result, at, ev).value;
    EvidenceKeepsPosition(c, d, result, at, ev);
    EvidenceKeeps(c, d, result, at, ev);
    SettleNowPays(c, seen, result, at, seen.quarantine.Some?);
  }

  lemma EvidenceKeepsPosition(c: Config, d: Desk, result: Side, at: int, ev: Evidence)
    requires Inv(c, d) && Stocked(d) && WithEvidence(d, result, at, ev).Ok?
    ensures WithEvidence(d, result, at, ev).value.position == d.position
  {
    var noted := d.(evidence := d.evidence + {result});
    SideFieldsKeep(c, d, noted);
    if Cancel(noted, at).Ok? { CancelKeeps(c, noted, at); }
  }

  lemma SettleNowPays(c: Config, d: Desk, result: Side, at: int, recovering: bool)
    requires Inv(c, d) && Stocked(d) && d.position.Some? && SettledResult(d.history).None?
    requires SettleNow(d, result, at, recovering).Ok?
    ensures var d' := SettleNow(d, result, at, recovering).value;
      var pos := d.position.value;
      && d'.position.None? && d'.history != []
      && var last := d'.history[|d'.history| - 1];
         && last.TradeResult? && last.settlement == Some(result) && last.position.quantity == 0
         && last.net == pos.proceeds + (if pos.side == result then pos.quantity * ONE else 0) - pos.cost - pos.fees
  {
    ClaimedKeeps(c, d, result, at);
    CancelKeeps(c, Claimed(d, result, at), at);
    SettleNowShape(d, result, at, recovering);
    var idle := Cancel(Claimed(d, result, at), at).value;
    var waiting: Desk :| waiting == idle.(stage := waiting.stage)
      && Finish(PaidOut(waiting, result), at, AtSettlement, Some(result)).Ok?
      && SettleNow(d, result, at, recovering).value
           == Finish(PaidOut(waiting, result), at, AtSettlement, Some(result)).value.(quarantine := None, pause := None);
    FinishShape(PaidOut(waiting, result), at, AtSettlement, Some(result));
  }

  /** Over every run a market is settled at most once. */
  lemma SettledAtMostOnce(c: Config, run: seq<Event>)
    requires Valid(c) && EventsOk(run)
    ensures Settlements(After(c, EmptyDesk, run).history) <= 1
  {
    InitialInv(c);
    EveryRunKeepsInv(c, EmptyDesk, run);
  }

  // ---- Caps ----------------------------------------------------------------

  /** Over every run, no cycle of a market has more than `retries + 1` submissions. */
  lemma AttemptsAreBounded(c: Config, run: seq<Event>, cycle: nat)
    requires Valid(c) && EventsOk(run)
    ensures Submissions(After(c, EmptyDesk, run).history, cycle) <= c.retries + 1
  {
    InitialInv(c);
    EveryRunKeepsInv(c, EmptyDesk, run);
  }

  /** With one trade per market, all contracts ever bought there fit in the latest order. */
  lemma OneTradeFitsOneOrder(c: Config, run: seq<Event>)
    requires Valid(c) && c.oneTrade && EventsOk(run)
    ensures var d := After(c, EmptyDesk, run);
      if d.order.None? then TotalBought(d.history) == 0
      else TotalBought(d.history) == d.order.value.quantity - d.order.value.remaining <= d.order.value.quantity
  {
    InitialInv(c);
    EveryRunKeepsInv(c, EmptyDesk, run);
  }

  /** What a passive order may have bought, given the volume that has passed it. */
  predicate WaitsItsTurn(o: Order, volume: int) {
    && o.queue == Max(0, o.originalQueue - volume)
    && o.quantity - o.remaining <= Max(0, volume - o.originalQueue)
    && (o.queue > 0 ==> o.remaining == o.quantity)
  }

  lemma QueueMeans(c: Config, d: Desk)
    requires c.passive && d.order.Some? && QueueOk(c, d) && OrderOk(d.order.value)
    ensures WaitsItsTurn(d.order.value, Volume(d.history, d.order.value.id))
  {
  }

  /**
    A resting order fills only with volume beyond the queue that stood ahead of it, and
    with nothing while any queue remains.
   */
  lemma PassiveFillsWaitTheirTurn(c: Config, run: seq<Event>)
    requires Valid(c) && c.passive && EventsOk(run) && After(c, EmptyDesk, run).order.Some?
    ensures var d := After(c, EmptyDesk, run); WaitsItsTurn(d.order.value, Volume(d.history, d.order.value.id))
  {
    InitialInv(c);
    EveryRunKeepsInv(c, EmptyDesk, run);
    QueueMeans(c, After(c, EmptyDesk, run));
  }

  // ---- Purchases serve their orders ------------------------------------------

  lemma {:induction false} SubmissionBehind(latency: int, h: seq<Record>, id: nat) returns (j: nat)
    requires PurchasesOk(latency, h) && OrderOf(h, id).Some?
    ensures j < |h| && h[j].Submitted? && h[j].order == OrderOf(h, id).value && h[j].order.id == id
    ensures h[j].order.eligible == h[j].order.created + latency
    decreases |h|
  {
    if h[|h| - 1].Submitted? && h[|h| - 1].order.id == id {
      j := |h| - 1;
    } else {
      j := SubmissionBehind(latency, h[..|h| - 1], id);
    }
  }

  lemma {:induction false} PurchaseAt(latency: int, h: seq<Record>, k: nat)
    requires PurchasesOk(latency, h) && k < |h| && h[k].Bought?
    ensures PurchasesOk(latency, h[..k]) && PurchaseOk(OrderOf(h[..k], h[k].id), h[k])
    decreases |h|
  {
    if k < |h| - 1 {
      assert h[..|h| - 1][..k] == h[..k];
      PurchaseAt(latency, h[..|h| - 1], k);
    }
  }

  lemma PurchaseServes(latency: int, h: seq<Record>, k: nat) returns (j: nat)
    requires PurchasesOk(latency, h) && k < |h| && h[k].Bought?
    ensures j < k && h[j].Submitted? && h[j].order.id == h[k].id
    ensures 0 < h[k].price <= h[j].order.limit && h[k].at >= h[j].order.created + latency
    ensures h[k].quantity > 0 && h[k].quantity % LOT == 0
  {
    PurchaseAt(latency, h, k);
    j := SubmissionBehind(latency, h[..k], h[k].id);
    assert h[..k][j] == h[j];
  }

  /**
    Every purchase of every run fills an order submitted before it, in whole lots, at no
    more than its limit and at least the latency after its submission.
   */
  lemma EveryPurchaseServesItsOrder(c: Config, run: seq<Event>, k: nat) returns (j: nat)
    requires Valid(c) && EventsOk(run)
    requires k < |After(c, EmptyDesk, run).history| && After(c, EmptyDesk, run).history[k].Bought?
    ensures var h := After(c, EmptyDesk, run).history;
      && j < k && h[j].Submitted? && h[j].order.id == h[k].id
      && 0 < h[k].price <= h[j].order.limit && h[k].at >= h[j].order.created + c.latency
      && h[k].quantity > 0 && h[k].quantity % LOT == 0
  {
    InitialInv(c);
    EveryRunKeepsInv(c, EmptyDesk, run);
    j := PurchaseServes(c.latency, After(c, EmptyDesk, run).history, k);
  }

  /** No order of any run is ever filled beyond its size. */
  lemma NoOrderOverfills(c: Config, run: seq<Event>, id: nat)
    requires Valid(c) && EventsOk(run) && OrderOf(After(c, EmptyDesk, run).history, id).Some?
    ensures var h := After(c, EmptyDesk, run).history; BoughtFor(h, id) <= OrderOf(h, id).value.quantity
  {
    InitialInv(c);
    EveryRunKeepsInv(c, EmptyDesk, run);
  }

  // ---- Restricted markets ----------------------------------------------------

  /** How many fills, of either kind, a market has seen. */
  function Fills(h: seq<Record>): nat {
    if h == [] then 0 else Fills(h[..|h| - 1]) + if h[|h| - 1].Bought? || h[|h| - 1].SoldAt? then 1 else 0
  }

  lemma CancelFillsNothing(d: Desk, at: int)
    ensures Cancel(d, at).Ok? ==> Fills(Cancel(d, at).value.history) == Fills(d.history)
  {
    if Working(d) { Snoc(d.history, Cancelled(d.order.value.id, at)); }
  }

  lemma SettleNowFillsNothing(d: Desk, result: Side, at: int, recovering: bool)
    requires SettleNow(d, result, at, recovering).Ok?
    ensures Fills(SettleNow(d, result, at, recovering).value.history) == Fills(d.history)
  {
    SettleNowShape(d, result, at, recovering);
    Snoc(d.history, Settled(result, at));
    CancelFillsNothing(Claimed(d, result, at), at);
    var idle, d' := Cancel(Claimed(d, result, at), at).value, SettleNow(d, result, at, recovering).value;
    if idle.position.Some? {
      Snoc(idle.history, d'.history[|d'.history| - 1]);
    }
  }

  lemma SettleFillsNothing(d: Desk, result: Side, at: int, close: int, ev: Evidence, review: Option<bool>)
    ensures Fills(Kept(d, First(Settle(d, result, at, close, ev, review))).history) == Fills(d.history)
  {
    var r := Settle(d, result, at, close, ev, review);
    if r.Ok? && r.value.0 != d {
      SettleMeans(d, result, at, close, ev, review);
      var idle := EvidenceMeans(d, result, at, ev);
      CancelFillsNothing(if ev.NoEvidence? then d else d.(evidence := d.evidence + {result}), at);
      var seen := WithEvidence(d, result, at, ev).value;
      if r.value.1 == SettledNow {
        SettleNowFillsNothing(seen, result, at, seen.quarantine.Some?);
      }
    }
  }

  lemma RestrictedTradesFillNothing(c: Config, d: Desk, s: Shared, p: Print, at: int, gate: Gate)
    requires Valid(c) && (d.quarantine.Some? || d.pause.Some?)
    ensures Fills(Kept(d, Traded(c, s, d, p, at, gate)).history) == Fills(d.history)
  {
    var r := Traded(c, s, d, p, at, gate);
    if r.Ok? && r.value != d {
      TradedMeans(c, s, d, p, at, gate);
      var queued := Queued(d, p);
      Snoc(d.history, Printed(d.order.value.id, p.trade, p.quantity.value));
      if RestAfterQueue(d, p) > 0 {
        FillMeans(c, s, queued, RestAfterQueue(d, p), d.order.value.limit, at, true, gate);
        CancelFillsNothing(queued, at);
      }
    }
  }

  lemma RestrictedMatchFillsNothing(c: Config, d: Desk, s: Shared, b: Book, m: Terms, tick: int -> bool, at: int, gates: nat -> Gate)
    requires Valid(c) && (d.quarantine.Some? || d.pause.Some?)
    ensures Fills(Kept(d, Aggressive(c, s, d, b, m, tick, at, gates)).history) == Fills(d.history)
  {
    CancelFillsNothing(d, at);
    assert d.quarantine.Some? ==> ExecutionBlocked(c, s, d, b, m, at);
  }

  /** While a market is paused or quarantined nothing is bought or sold there, whatever happens; settlement pays without fills. */
  lemma RestrictedMarketsDoNotTrade(c: Config, d: Desk, e: Event)
    requires Valid(c) && (d.quarantine.Some? || d.pause.Some?)
    ensures Fills(Step(c, d, e).history) == Fills(d.history)
  {
    if e.SubmitEntry? {
      assert !Accepts(c, e.shared, d, e.book, e.terms, e.tick, e.entry);
    } else if e.TradePrint? {
      RestrictedTradesFillNothing(c, d, e.shared, e.traded, e.at, e.gate);
    } else if e.MatchOrder? {
      RestrictedMatchFillsNothing(c, d, e.shared, e.book, e.terms, e.tick, e.at, e.gates);
    } else if e.SettleMarket? {
      SettleFillsNothing(d, e.result, e.at, e.close, e.evidence, e.review);
    } else if e.CancelOrder? || e.Restrict? || e.PauseVenue? {
      CancelFillsNothing(d, e.at);
    }
  }
}
