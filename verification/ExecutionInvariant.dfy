/**
  What every reachable desk of the paper engine satisfies: the position is what the
  recorded fills say, an order's fills are its position, an exit is backed by a
  served intent, and attempts, re-entries and queue positions are within bounds.
 */
module ExecutionInvariant {
  import opened Wrappers
  import opened Execution
  import F = Fees

  lemma Snoc(h: seq<Record>, r: Record)
    ensures (h + [r])[..|h|] == h && (h + [r])[..|h + [r]| - 1] == h && (h + [r])[|h + [r]| - 1] == r
  {
  }

  // ---- The ledger ----------------------------------------------------------

  datatype Tally = Tally(quantity: int, bought: int, cost: int, proceeds: int, fees: int)

  const Zero := Tally(0, 0, 0, 0, 0)

  function Credit(t: Tally, r: Record): Tally {
    match r
    case Bought(_, q, p, fee, _, _) => Tally(t.quantity + q, t.bought + q, t.cost + q * p, t.proceeds, t.fees + fee)
    case SoldAt(q, p, fee, _, _, _) => Tally(t.quantity - q, t.bought, t.cost, t.proceeds + q * p, t.fees + fee)
    case TradeResult(_, _, _, _, _) => Zero
    case _ => t
  }

  /** The recorded fills since the last closed trade. */
  function Ledger(h: seq<Record>): Tally {
    if h == [] then Zero else Credit(Ledger(h[..|h| - 1]), h[|h| - 1])
  }

  /** What remaining contracts are worth when the trade closes. */
  function Payout(settlement: Option<Side>, side: Side, quantity: int): int {
    if settlement == Some(side) then quantity * ONE else 0
  }

  /** A closed trade reports the fills before it: nothing left unpaid, net is proceeds and payout less cost and fees. */
  predicate ResultOk(t: Tally, r: Record) {
    r.TradeResult? ==>
      && (r.settlement.None? ==> t.quantity == 0)
      && r.net == t.proceeds + Payout(r.settlement, r.position.side, t.quantity) - t.cost - t.fees
      && r.position.bought == t.bought && t.bought > 0
  }

  predicate ResultsOk(h: seq<Record>) {
    h == [] || (ResultsOk(h[..|h| - 1]) && ResultOk(Ledger(h[..|h| - 1]), h[|h| - 1]))
  }

  predicate LedgerOk(d: Desk) {
    && ResultsOk(d.history)
    && (if d.position.None? then Ledger(d.history) == Zero
        else
          var pos := d.position.value;
          Ledger(d.history) == Tally(pos.quantity, pos.bought, pos.cost, pos.proceeds, pos.fees))
  }

  // ---- The order behind the position ---------------------------------------

  predicate OrderOk(o: Order) {
    && 0 <= o.remaining <= o.quantity && o.quantity > 0 && o.remaining % LOT == 0 && o.quantity % LOT == 0
    && (o.active ==> o.remaining > 0 && o.completedAt.None?)
    && (o.completedAt.Some? ==> o.remaining < o.quantity)
  }

  predicate OrdersOk(d: Desk) {
    && (d.order.Some? ==> OrderOk(d.order.value))
    && (d.reserved <==> Working(d) || d.position.Some?)
    && (d.position.Some? ==>
          var pos, o := d.position.value, d.order;
          && o.Some? && o.value.op == pos.op && o.value.side == pos.side && pos.bought == o.value.quantity - o.value.remaining
          && o.value.completedAt.None?
          && 0 <= pos.quantity <= pos.bought && pos.bought > 0)
    && (d.position.None? && d.order.Some? && d.order.value.remaining < d.order.value.quantity ==> d.order.value.completedAt.Some?)
  }

  // ---- Exits ---------------------------------------------------------------

  /** The intent in force after a history, with the instant it becomes eligible. */
  function CurrentIntent(h: seq<Record>): Option<(Reason, int)> {
    if h == [] then None
    else
      match h[|h| - 1]
      case Intent(reason, _, eligible) => Some((reason, eligible))
      case Dropped(_, _) => None
      case TradeResult(_, _, _, _, _) => None
      case _ => CurrentIntent(h[..|h| - 1])
  }

  /** A sale is made under the intent in force, after its latency, on a book received after it. */
  predicate SaleOk(intent: Option<(Reason, int)>, r: Record) {
    r.SoldAt? ==> intent.Some? && intent.value.0 == r.reason && r.at >= intent.value.1 && r.received >= intent.value.1
  }

  predicate IntentOk(latency: int, r: Record) {
    r.Intent? ==> r.reason != NoReason && r.eligible == r.at + latency
  }

  predicate ExitsRecorded(latency: int, h: seq<Record>) {
    h == []
    || (ExitsRecorded(latency, h[..|h| - 1]) && SaleOk(CurrentIntent(h[..|h| - 1]), h[|h| - 1]) && IntentOk(latency, h[|h| - 1]))
  }

  predicate ExitsOk(c: Config, d: Desk) {
    && ExitsRecorded(c.latency, d.history)
    && CurrentIntent(d.history) ==
         (if d.position.Some? && d.position.value.exitReason != NoReason && d.eligible.Some?
          then Some((d.position.value.exitReason, d.eligible.value)) else None)
    && (d.position.Some? && d.position.value.exitReason != NoReason ==> d.eligible.Some?)
  }

  // ---- Attempts ------------------------------------------------------------

  function Submissions(h: seq<Record>, cycle: nat): nat {
    if h == [] then 0
    else
      Submissions(h[..|h| - 1], cycle)
      + if h[|h| - 1].Submitted? && h[|h| - 1].order.cycle == cycle then 1 else 0
  }

  ghost predicate AttemptsOk(c: Config, d: Desk) {
    && (forall k :: Submissions(d.history, k) <= c.retries + 1)
    && (d.order.None? ==> forall k :: Submissions(d.history, k) == 0)
    && (d.order.Some? ==>
          && 1 <= d.order.value.attempt <= c.retries + 1
          && Submissions(d.history, d.order.value.cycle) == d.order.value.attempt
          && forall k | k > d.order.value.cycle :: Submissions(d.history, k) == 0)
  }

  // ---- One trade per market ------------------------------------------------

  function TotalBought(h: seq<Record>): int {
    if h == [] then 0 else TotalBought(h[..|h| - 1]) + if h[|h| - 1].Bought? then h[|h| - 1].quantity else 0
  }

  predicate OneTradeOk(c: Config, d: Desk) {
    c.oneTrade ==>
      TotalBought(d.history) == if d.order.Some? then d.order.value.quantity - d.order.value.remaining else 0
  }

  /** A market that ever bought shows it for good: its order is partly filled, or in a later cycle. */
  predicate MarkOk(d: Desk) {
    && (TotalBought(d.history) != 0 ==> d.order.Some?)
    && (d.order.Some? ==>
          var o := d.order.value;
          && o.cycle >= 1
          && (TotalBought(d.history) != 0 ==> o.remaining < o.quantity || o.cycle > 1))
  }

  // ---- The passive queue ---------------------------------------------------

  /** The volume of eligible public trades that reached an order. */
  function Volume(h: seq<Record>, id: nat): int {
    if h == [] then 0
    else Volume(h[..|h| - 1], id) + if h[|h| - 1].Printed? && h[|h| - 1].id == id then h[|h| - 1].quantity else 0
  }

  /** An order's id is the position of its submission; later records name earlier orders. */
  predicate IdOk(position: nat, r: Record) {
    match r
    case Submitted(o) => o.id == position
    case Printed(id, _, quantity) => id < position && quantity > 0
    case Bought(id, _, _, _, _, _) => id < position
    case _ => true
  }

  predicate IdsOk(h: seq<Record>) {
    h == [] || (IdsOk(h[..|h| - 1]) && IdOk(|h| - 1, h[|h| - 1]))
  }

  predicate QueueOk(c: Config, d: Desk) {
    && IdsOk(d.history)
    && (d.order.Some? ==>
          var o := d.order.value;
          && o.id < |d.history| && o.originalQueue >= 0
          && o.queue == Max(0, o.originalQueue - Volume(d.history, o.id))
          && (c.passive ==> o.quantity - o.remaining <= Max(0, Volume(d.history, o.id) - o.originalQueue)))
  }

  // ---- Purchases and the orders behind them ----------------------------------

  /** The order submitted under an id. */
  function OrderOf(h: seq<Record>, id: nat): Option<Order> {
    if h == [] then None
    else if h[|h| - 1].Submitted? && h[|h| - 1].order.id == id then Some(h[|h| - 1].order)
    else OrderOf(h[..|h| - 1], id)
  }

  function BoughtFor(h: seq<Record>, id: nat): int {
    if h == [] then 0
    else BoughtFor(h[..|h| - 1], id) + if h[|h| - 1].Bought? && h[|h| - 1].id == id then h[|h| - 1].quantity else 0
  }

  /** A purchase is made for a submitted order, in whole lots, within its limit and after its latency. */
  predicate PurchaseOk(o: Option<Order>, r: Record) {
    r.Bought? ==>
      o.Some? && 0 < r.price <= o.value.limit && r.at >= o.value.eligible && r.quantity > 0 && r.quantity % LOT == 0
  }

  predicate PurchasesOk(latency: int, h: seq<Record>) {
    h == []
    || (var earlier, r := h[..|h| - 1], h[|h| - 1];
        && PurchasesOk(latency, earlier)
        && (r.Bought? ==> PurchaseOk(OrderOf(earlier, r.id), r))
        && (r.Submitted? ==> r.order.eligible == r.order.created + latency))
  }

  predicate SameTerms(a: Order, b: Order) {
    a.id == b.id && a.op == b.op && a.side == b.side && a.limit == b.limit && a.quantity == b.quantity && a.eligible == b.eligible
  }

  ghost predicate EntriesOk(c: Config, d: Desk) {
    && PurchasesOk(c.latency, d.history)
    && (forall id :: OrderOf(d.history, id).Some? ==> BoughtFor(d.history, id) <= OrderOf(d.history, id).value.quantity)
    && (d.order.Some? ==>
          var o := d.order.value;
          && OrderOf(d.history, o.id).Some? && SameTerms(OrderOf(d.history, o.id).value, o)
          && BoughtFor(d.history, o.id) == o.quantity - o.remaining)
  }

  // ---- Settlement ----------------------------------------------------------

  function Settlements(h: seq<Record>): nat {
    if h == [] then 0 else Settlements(h[..|h| - 1]) + if h[|h| - 1].Settled? then 1 else 0
  }

  predicate SettlementOk(d: Desk) {
    && Settlements(d.history) <= 1
    && (SettledResult(d.history).Some? <==> SettlementClaim in d.claims)
    && (SettledResult(d.history).Some? <==> Settlements(d.history) == 1)
  }

  ghost predicate Inv(c: Config, d: Desk) {
    && LedgerOk(d) && OrdersOk(d) && ExitsOk(c, d) && AttemptsOk(c, d) && OneTradeOk(c, d) && MarkOk(d) && QueueOk(c, d)
    && EntriesOk(c, d) && SettlementOk(d)
  }

  /** No position is kept empty. */
  predicate Stocked(d: Desk) {
    d.position.Some? ==> d.position.value.quantity > 0
  }

  lemma InitialInv(c: Config)
    ensures Inv(c, EmptyDesk) && Stocked(EmptyDesk)
  {
  }

  // ---- Changes that keep the books -----------------------------------------

  /** Fields the invariant does not speak of. */
  lemma SideFieldsKeep(c: Config, d: Desk, d': Desk)
    requires Inv(c, d)
    requires d'.order == d.order && d'.position == d.position && d'.eligible == d.eligible && d'.reserved == d.reserved
    requires d'.history == d.history && (SettlementClaim in d'.claims <==> SettlementClaim in d.claims)
    ensures Inv(c, d')
  {
  }

  /** A record that moves no inventory, intent, submission or settlement. */
  predicate Neutral(r: Record) {
    r.Cancelled?
  }

  lemma NeutralHistory(c: Config, h: seq<Record>, r: Record)
    requires Neutral(r)
    ensures Ledger(h + [r]) == Ledger(h) && (ResultsOk(h) ==> ResultsOk(h + [r]))
    ensures CurrentIntent(h + [r]) == CurrentIntent(h) && (ExitsRecorded(c.latency, h) ==> ExitsRecorded(c.latency, h + [r]))
    ensures forall k :: Submissions(h + [r], k) == Submissions(h, k)
    ensures TotalBought(h + [r]) == TotalBought(h)
    ensures forall id :: Volume(h + [r], id) == Volume(h, id)
    ensures forall id :: OrderOf(h + [r], id) == OrderOf(h, id) && BoughtFor(h + [r], id) == BoughtFor(h, id)
    ensures PurchasesOk(c.latency, h) ==> PurchasesOk(c.latency, h + [r])
    ensures IdsOk(h) ==> IdsOk(h + [r])
    ensures Settlements(h + [r]) == Settlements(h) && SettledResult(h + [r]) == SettledResult(h)
  {
    Snoc(h, r);
  }

  lemma CancelKeeps(c: Config, d: Desk, at: int)
    requires Inv(c, d) && Cancel(d, at).Ok?
    ensures var d' := Cancel(d, at).value;
      && Inv(c, d') && !Working(d') && d'.position == d.position && d'.eligible == d.eligible && d'.consumed == d.consumed
      && d'.quarantine == d.quarantine && d'.pause == d.pause && d'.claims == d.claims && d'.evidence == d.evidence
      && (d.order.Some? ==> d'.order.Some? && d'.order.value.remaining == d.order.value.remaining)
      && d'.lastEvent == d.lastEvent
  {
    if Working(d) {
      NeutralHistory(c, d.history, Cancelled(d.order.value.id, at));
    }
  }

  // ---- Purchases -----------------------------------------------------------

  /** What the queue leaves room for. */
  predicate RoomFor(c: Config, d: Desk, q: int)
    requires d.order.Some?
  {
    var o := d.order.value;
    c.passive ==> o.quantity - o.remaining + q <= Max(0, Volume(d.history, o.id) - o.originalQueue)
  }

  lemma PurchaseHistory(c: Config, h: seq<Record>, r: Record)
    requires r.Bought?
    ensures Ledger(h + [r]) == Credit(Ledger(h), r) && (ResultsOk(h) ==> ResultsOk(h + [r]))
    ensures CurrentIntent(h + [r]) == CurrentIntent(h) && (ExitsRecorded(c.latency, h) ==> ExitsRecorded(c.latency, h + [r]))
    ensures forall k :: Submissions(h + [r], k) == Submissions(h, k)
    ensures TotalBought(h + [r]) == TotalBought(h) + r.quantity
    ensures forall id :: Volume(h + [r], id) == Volume(h, id)
    ensures forall id :: OrderOf(h + [r], id) == OrderOf(h, id)
    ensures forall id :: BoughtFor(h + [r], id) == BoughtFor(h, id) + if id == r.id then r.quantity else 0
    ensures PurchasesOk(c.latency, h) && PurchaseOk(OrderOf(h, r.id), r) ==> PurchasesOk(c.latency, h + [r])
    ensures IdsOk(h) && r.id < |h| ==> IdsOk(h + [r])
    ensures Settlements(h + [r]) == Settlements(h) && SettledResult(h + [r]) == SettledResult(h)
  {
    Snoc(h, r);
  }

  lemma LotsSubtract(a: int, b: int)
    requires a % LOT == 0 && b % LOT == 0
    ensures (a - b) % LOT == 0
  {
  }

  lemma PurchaseKeeps(c: Config, d: Desk, q: int, price: int, at: int, maker: bool)
    requires Valid(c) && Inv(c, d) && Stocked(d) && Working(d) && 0 < q <= d.order.value.remaining && q % LOT == 0 && RoomFor(c, d, q)
    requires 0 < price <= d.order.value.limit && at >= d.order.value.eligible
    ensures Inv(c, BookPurchase(c, d, q, price, at, maker)) && Stocked(BookPurchase(c, d, q, price, at, maker))
  {
    var o, d' := d.order.value, BookPurchase(c, d, q, price, at, maker);
    var r := d'.history[|d.history|];
    assert d'.history == d.history + [r];
    PurchaseHistory(c, d.history, r);
    LotsSubtract(o.remaining, q);
    PurchaseKeepsEntries(c, d, d', r, q);
  }

  lemma PurchaseKeepsEntries(c: Config, d: Desk, d': Desk, r: Record, q: int)
    requires EntriesOk(c, d) && d.order.Some? && d'.order.Some? && r.Bought? && d'.history == d.history + [r]
    requires r.id == d.order.value.id && r.quantity == q && 0 < q <= d.order.value.remaining && q % LOT == 0
    requires 0 < r.price <= d.order.value.limit && r.at >= d.order.value.eligible
    requires SameTerms(d.order.value, d'.order.value) && d'.order.value.remaining == d.order.value.remaining - q
    ensures EntriesOk(c, d')
  {
    PurchaseHistory(c, d.history, r);
    forall id | OrderOf(d'.history, id).Some? ensures BoughtFor(d'.history, id) <= OrderOf(d'.history, id).value.quantity {
      assert OrderOf(d.history, id).Some?;
    }
  }

  /** What a fill does: nothing, a cancellation, or one purchase at an admissible price and instant. */
  lemma FillMeans(c: Config, s: Shared, d: Desk, quantity: int, price: int, at: int, maker: bool, gate: Gate)
    requires d.order.Some? && c.precision > 0 && Fill(c, s, d, quantity, price, at, maker, gate).Ok?
    ensures var (d', status) := Fill(c, s, d, quantity, price, at, maker, gate).value;
      var o := d.order.value;
      match status
      case Filled =>
        var q := Min(quantity, o.remaining);
        && o.active && at >= o.eligible && 0 < price <= o.limit && quantity > 0 && quantity % LOT == 0 && q > 0
        && d.quarantine.None? && d.pause.None?
        && d' == BookPurchase(c, d, q, price, at, maker).(stage := Some(if o.remaining - q <= 0 then PositionOpen else PartiallyFilled))
      case Blocked => d' == d || (Cancel(d, at) == Ok(d') && d.position.None?)
      case Ignored => d' == d
  {
  }

  lemma MinLots(a: int, b: int)
    requires a % LOT == 0 && b % LOT == 0
    ensures Min(a, b) % LOT == 0
  {
  }

  lemma FillKeeps(c: Config, s: Shared, d: Desk, quantity: int, price: int, at: int, maker: bool, gate: Gate)
    requires Valid(c) && Inv(c, d) && Stocked(d) && d.order.Some?
    requires d.order.value.active ==> RoomFor(c, d, Min(quantity, d.order.value.remaining))
    requires Fill(c, s, d, quantity, price, at, maker, gate).Ok?
    ensures var d' := Fill(c, s, d, quantity, price, at, maker, gate).value.0; Inv(c, d') && Stocked(d') && d'.order.Some?
  {
    FillMeans(c, s, d, quantity, price, at, maker, gate);
    var (d', status) := Fill(c, s, d, quantity, price, at, maker, gate).value;
    if status == Filled {
      var q := Min(quantity, d.order.value.remaining);
      MinLots(quantity, d.order.value.remaining);
      PurchaseKeeps(c, d, q, price, at, maker);
      SideFieldsKeep(c, BookPurchase(c, d, q, price, at, maker), d');
    } else if d' != d {
      CancelKeeps(c, d, at);
    }
  }

  predicate Sound(r: Match) {
    !r.Broke?
  }

  lemma {:induction false} MatchKeeps(c: Config, s: Shared, d: Desk, asks: seq<Level>, tick: int -> bool, at: int, gates: nat -> Gate, k: nat)
    requires Valid(c) && !c.passive && Inv(c, d) && Stocked(d) && d.order.Some?
    requires Sound(MatchLevels(c, s, d, asks, tick, at, gates, k))
    ensures var d' := MatchLevels(c, s, d, asks, tick, at, gates, k).desk; Inv(c, d') && Stocked(d')
    decreases |asks|
  {
    if asks == [] || asks[0].price > d.order.value.limit {
    } else if !tick(asks[0].price) {
      CancelKeeps(c, d, at);
    } else if FloorLot(asks[0].quantity) <= 0 {
      MatchKeeps(c, s, d, asks[1..], tick, at, gates, k + 1);
    } else {
      var filled := Fill(c, s, d, FloorLot(asks[0].quantity), asks[0].price, at, false, gates(k));
      FillKeeps(c, s, d, FloorLot(asks[0].quantity), asks[0].price, at, false, gates(k));
      var d' := filled.value.0;
      if filled.value.1 != Blocked && d'.order.value.active {
        MatchKeeps(c, s, d', asks[1..], tick, at, gates, k + 1);
      }
    }
  }

  lemma BodyKeeps(c: Config, s: Shared, d: Desk, b: Book, m: Terms, tick: int -> bool, at: int, gates: nat -> Gate)
    requires Valid(c) && Inv(c, d) && Stocked(d) && Sound(AggressiveBody(c, s, d, b, m, tick, at, gates))
    ensures var d' := AggressiveBody(c, s, d, b, m, tick, at, gates).desk; Inv(c, d') && Stocked(d')
  {
    CancelKeepsIfOk(c, d, at);
    if !c.passive && Working(d) {
      var matched := MatchLevels(c, s, d, Asks(b, d.order.value.side), tick, at, gates, 1);
      if Sound(matched) {
        MatchKeeps(c, s, d, Asks(b, d.order.value.side), tick, at, gates, 1);
        CancelKeepsIfOk(c, matched.desk, at);
      }
    }
  }

  lemma CancelKeepsIfOk(c: Config, d: Desk, at: int)
    requires Inv(c, d) && Stocked(d)
    ensures Cancel(d, at).Ok? ==> Inv(c, Cancel(d, at).value) && Stocked(Cancel(d, at).value)
  {
    if Cancel(d, at).Ok? { CancelKeeps(c, d, at); }
  }

  lemma AggressiveKeeps(c: Config, s: Shared, d: Desk, b: Book, m: Terms, tick: int -> bool, at: int, gates: nat -> Gate)
    requires Valid(c) && Inv(c, d) && Stocked(d)
    ensures var r := Aggressive(c, s, d, b, m, tick, at, gates); r.Ok? ==> Inv(c, r.value) && Stocked(r.value)
    ensures var r := NestedAggressive(c, s, d, b, m, tick, at, gates); r.Ok? ==> Inv(c, r.value) && Stocked(r.value)
  {
    var body := AggressiveBody(c, s, d, b, m, tick, at, gates);
    if Sound(body) {
      BodyKeeps(c, s, d, b, m, tick, at, gates);
      CancelKeepsIfOk(c, body.desk, at);
    }
    CancelKeepsIfOk(c, d, at);
  }

  // ---- Submissions ---------------------------------------------------------

  lemma {:induction false} VolumeOfNewId(h: seq<Record>, id: nat)
    requires IdsOk(h) && id >= |h|
    ensures Volume(h, id) == 0
    decreases |h|
  {
    if h != [] { VolumeOfNewId(h[..|h| - 1], id); }
  }

  lemma {:induction false} NewIdIsUnused(h: seq<Record>, id: nat)
    requires IdsOk(h) && id >= |h|
    ensures BoughtFor(h, id) == 0 && OrderOf(h, id).None?
    decreases |h|
  {
    if h != [] { NewIdIsUnused(h[..|h| - 1], id); }
  }

  lemma SubmissionHistory(c: Config, h: seq<Record>, o: Order)
    ensures var r := Submitted(o);
      && Ledger(h + [r]) == Ledger(h) && (ResultsOk(h) ==> ResultsOk(h + [r]))
      && CurrentIntent(h + [r]) == CurrentIntent(h) && (ExitsRecorded(c.latency, h) ==> ExitsRecorded(c.latency, h + [r]))
      && (forall k :: Submissions(h + [r], k) == Submissions(h, k) + if k == o.cycle then 1 else 0)
      && TotalBought(h + [r]) == TotalBought(h)
      && (forall id :: Volume(h + [r], id) == Volume(h, id))
      && (forall id :: OrderOf(h + [r], id) == (if id == o.id then Some(o) else OrderOf(h, id)))
      && (forall id :: BoughtFor(h + [r], id) == BoughtFor(h, id))
      && (PurchasesOk(c.latency, h) && o.eligible == o.created + c.latency ==> PurchasesOk(c.latency, h + [r]))
      && (IdsOk(h) && o.id == |h| ==> IdsOk(h + [r]))
      && Settlements(h + [r]) == Settlements(h) && SettledResult(h + [r]) == SettledResult(h)
  {
    Snoc(h, Submitted(o));
  }

  /** A book that passed validation is a pair of ladders. */
  predicate BookOk(b: Book) {
    b.valid ==> Sorted(b)
  }

  lemma {:induction false} DepthNonnegative(levels: seq<Level>, price: int)
    requires forall i | 0 <= i < |levels| :: levels[i].quantity > 0
    ensures DepthAtOrAbove(levels, price) >= 0
    decreases |levels|
  {
    if levels != [] { DepthNonnegative(levels[1..], price); }
  }

  lemma CeilNonnegative(a: int, n: int, b: int)
    requires a >= 0 && n >= 0 && b > 0
    ensures F.CeilDiv(a * n, b) * LOT >= 0
  {
    F.ProductNonnegative(a, n);
  }

  lemma QueueNonnegative(c: Config, levels: seq<Level>, price: int)
    requires Valid(c) && Ladder(levels)
    ensures QueueAhead(c, levels, price) >= 0
  {
    DepthNonnegative(levels, price);
    CeilNonnegative(DepthAtOrAbove(levels, price), c.queueNum, c.queueDen * LOT);
  }

  /** The desk `submit` accepts an entry on. */
  predicate Accepts(c: Config, s: Shared, d: Desk, b: Book, m: Terms, tick: int -> bool, e: Entry) {
    Refusal(c, s, d, b, m, tick, e).None?
  }

  lemma AcceptedMeans(c: Config, s: Shared, d: Desk, b: Book, m: Terms, tick: int -> bool, e: Entry)
    requires Accepts(c, s, d, b, m, tick, e)
    ensures e.side.Some? && e.price.Some? && b.valid && e.contracts > 0 && d.position.None? && !TradeLimitReached(c, d)
    ensures d.order.Some? ==> RetryReady(c, s, d, e.at) || ReentryReady(c, s, d, e.at)
    ensures PostCloseReady(c, s, e.at) && d.quarantine.None? && d.pause.None? && !e.gate.paused && !e.gate.pending && m.tradable
    ensures tick(e.price.value) && ClaimOf(c, s, d, e.at) !in d.claims && !e.crowded
    ensures c.full ==> e.contracts == c.fixedSize
  {
  }

  /** A retry stays in its cycle, a re-entry opens the next; an order is never ready for both. */
  lemma ClaimMeans(c: Config, s: Shared, d: Desk, at: int)
    requires OrdersOk(d) && AttemptsOk(c, d) && (d.order.Some? ==> RetryReady(c, s, d, at) || ReentryReady(c, s, d, at))
    ensures var claim := ClaimOf(c, s, d, at);
      && (d.order.None? ==> claim == EntryClaim(1, None))
      && (d.order.Some? && claim.retry.Some? ==>
            claim == EntryClaim(d.order.value.cycle, Some(d.order.value.attempt + 1)) && d.order.value.attempt <= c.retries
            && d.order.value.remaining == d.order.value.quantity)
      && (d.order.Some? && claim.retry.None? ==> claim == EntryClaim(d.order.value.cycle + 1, None) && !c.oneTrade)
  {
  }

  lemma NewOrderOk(c: Config, s: Shared, d: Desk, b: Book, e: Entry)
    requires Valid(c) && Inv(c, d) && BookOk(b) && b.valid && e.side.Some? && e.price.Some? && e.contracts > 0
    ensures var o := NewOrder(c, s, d, b, e);
      && OrderOk(o) && o.active && o.remaining == o.quantity && o.id == |d.history| && o.originalQueue >= 0
      && o.queue == o.originalQueue && o.completedAt.None?
  {
    QueueNonnegative(c, Bids(b, e.side.value), e.price.value);
  }

  lemma AttemptsAfter(c: Config, s: Shared, d: Desk, b: Book, e: Entry, d': Desk)
    requires Valid(c) && Inv(c, d) && e.side.Some? && e.price.Some?
    requires d.order.Some? ==> RetryReady(c, s, d, e.at) || ReentryReady(c, s, d, e.at)
    requires var o := NewOrder(c, s, d, b, e); d'.order == Some(o) && d'.history == d.history + [Submitted(o)]
    ensures AttemptsOk(c, d')
  {
    ClaimMeans(c, s, d, e.at);
    SubmissionHistory(c, d.history, NewOrder(c, s, d, b, e));
  }

  /** An accepted entry is placed without the reservation ever being refused. */
  lemma PlacedKeeps(c: Config, s: Shared, d: Desk, b: Book, e: Entry)
    requires Valid(c) && Inv(c, d) && BookOk(b) && b.valid && e.side.Some? && e.price.Some? && e.contracts > 0
    requires d.position.None? && !TradeLimitReached(c, d)
    requires d.order.Some? ==> RetryReady(c, s, d, e.at) || ReentryReady(c, s, d, e.at)
    ensures !d.reserved
    ensures Placed(c, s, d, b, e).Ok? ==> Inv(c, Placed(c, s, d, b, e).value) && Placed(c, s, d, b, e).value.position.None?
  {
    if Placed(c, s, d, b, e).Ok? {
      var o, d' := NewOrder(c, s, d, b, e), Placed(c, s, d, b, e).value;
      NewOrderOk(c, s, d, b, e);
      SubmissionHistory(c, d.history, o);
      VolumeOfNewId(d.history, |d.history|);
      NewIdIsUnused(d.history, |d.history|);
      PlacedShape(c, s, d, b, e);
      AttemptsAfter(c, s, d, b, e, d');
      ClaimMeans(c, s, d, e.at);
    }
  }

  lemma PlacedShape(c: Config, s: Shared, d: Desk, b: Book, e: Entry)
    requires e.side.Some? && e.price.Some? && c.queueDen > 0 && Placed(c, s, d, b, e).Ok?
    ensures var o, d' := NewOrder(c, s, d, b, e), Placed(c, s, d, b, e).value;
      && !d.reserved && d'.order == Some(o) && d'.history == d.history + [Submitted(o)] && d'.reserved
      && d'.claims == d.claims + {ClaimOf(c, s, d, e.at)} && d'.position == d.position && d'.eligible == d.eligible
      && d'.consumed == d.consumed && d'.quarantine == d.quarantine && d'.pause == d.pause
  {
  }

  lemma SubmitKeeps(c: Config, s: Shared, d: Desk, b: Book, m: Terms, tick: int -> bool, e: Entry, gates: nat -> Gate)
    requires Valid(c) && Inv(c, d) && Stocked(d) && BookOk(b)
    ensures var r := Submit(c, s, d, b, m, tick, e, gates); r.Ok? ==> Inv(c, r.value.0) && Stocked(r.value.0)
  {
    if Accepts(c, s, d, b, m, tick, e) {
      AcceptedMeans(c, s, d, b, m, tick, e);
      PlacedKeeps(c, s, d, b, e);
      if Placed(c, s, d, b, e).Ok? {
        AggressiveKeeps(c, s, Placed(c, s, d, b, e).value, b, m, tick, e.at, gates);
      }
    }
  }

  // ---- Passive trades ------------------------------------------------------

  lemma PrintHistory(c: Config, h: seq<Record>, id: nat, trade: string, q: int)
    requires q > 0 && id < |h|
    ensures var r := Printed(id, trade, q);
      && Ledger(h + [r]) == Ledger(h) && (ResultsOk(h) ==> ResultsOk(h + [r]))
      && CurrentIntent(h + [r]) == CurrentIntent(h) && (ExitsRecorded(c.latency, h) ==> ExitsRecorded(c.latency, h + [r]))
      && (forall k :: Submissions(h + [r], k) == Submissions(h, k))
      && TotalBought(h + [r]) == TotalBought(h)
      && (forall i :: Volume(h + [r], i) == Volume(h, i) + if i == id then q else 0)
      && (forall id :: OrderOf(h + [r], id) == OrderOf(h, id) && BoughtFor(h + [r], id) == BoughtFor(h, id))
      && (PurchasesOk(c.latency, h) ==> PurchasesOk(c.latency, h + [r]))
      && (IdsOk(h) ==> IdsOk(h + [r]))
      && Settlements(h + [r]) == Settlements(h) && SettledResult(h + [r]) == SettledResult(h)
  {
    Snoc(h, Printed(id, trade, q));
  }

  lemma QueuedKeeps(c: Config, d: Desk, p: Print)
    requires Valid(c) && c.passive && Inv(c, d) && Stocked(d) && Working(d) && p.quantity.Some? && p.quantity.value > 0
    ensures Inv(c, Queued(d, p)) && Stocked(Queued(d, p)) && Working(Queued(d, p))
    ensures forall q | 0 <= q <= p.quantity.value - Min(d.order.value.queue, p.quantity.value) :: RoomFor(c, Queued(d, p), q)
  {
    PrintHistory(c, d.history, d.order.value.id, p.trade, p.quantity.value);
  }

  lemma FloorLotBounds(q: int)
    ensures FloorLot(q) <= q && FloorLot(q) % LOT == 0 && (q >= 0 ==> FloorLot(q) >= 0) && (FloorLot(q) > 0 <==> q >= LOT)
  {
  }

  lemma TradedMeans(c: Config, s: Shared, d: Desk, p: Print, at: int, gate: Gate)
    requires c.precision > 0 && Traded(c, s, d, p, at, gate).Ok? && Traded(c, s, d, p, at, gate).value != d
    ensures Reaches(c, d, p, at, gate) && p.price.Some? && PriceFor(d.order.value.side, p.price.value) <= d.order.value.limit
    ensures p.quantity.Some? && p.quantity.value > 0 && p.quantity.value % LOT == 0
    ensures var queued, rest, r := Queued(d, p), RestAfterQueue(d, p), Traded(c, s, d, p, at, gate);
      if rest > 0 then
        var f := Fill(c, s, queued, rest, d.order.value.limit, at, true, gate);
        f.Ok? && r == Ok(f.value.0)
      else r == Ok(queued)
  {
  }

  lemma TradedKeeps(c: Config, s: Shared, d: Desk, p: Print, at: int, gate: Gate)
    requires Valid(c) && Inv(c, d) && Stocked(d)
    ensures var r := Traded(c, s, d, p, at, gate); r.Ok? ==> Inv(c, r.value) && Stocked(r.value)
  {
    var r := Traded(c, s, d, p, at, gate);
    if r.Ok? && r.value != d {
      TradedMeans(c, s, d, p, at, gate);
      QueuedKeeps(c, d, p);
      if RestAfterQueue(d, p) > 0 {
        RestKeeps(c, s, d, p, at, gate);
      }
    }
  }

  lemma RestKeeps(c: Config, s: Shared, d: Desk, p: Print, at: int, gate: Gate)
    requires Valid(c) && c.passive && Inv(c, d) && Stocked(d) && Working(d) && p.quantity.Some? && p.quantity.value > 0
    requires RestAfterQueue(d, p) > 0
    ensures var f := Fill(c, s, Queued(d, p), RestAfterQueue(d, p), d.order.value.limit, at, true, gate);
      f.Ok? ==> Inv(c, f.value.0) && Stocked(f.value.0)
  {
    var queued, rest := Queued(d, p), RestAfterQueue(d, p);
    QueuedKeeps(c, d, p);
    FloorLotBounds(p.quantity.value - Min(d.order.value.queue, p.quantity.value));
    assert 0 <= Min(rest, queued.order.value.remaining) <= p.quantity.value - Min(d.order.value.queue, p.quantity.value);
    if Fill(c, s, queued, rest, d.order.value.limit, at, true, gate).Ok? {
      FillKeeps(c, s, queued, rest, d.order.value.limit, at, true, gate);
    }
  }

  // ---- Sales ---------------------------------------------------------------

  lemma SaleHistory(c: Config, h: seq<Record>, r: Record)
    requires r.SoldAt?
    ensures Ledger(h + [r]) == Credit(Ledger(h), r) && (ResultsOk(h) ==> ResultsOk(h + [r]))
    ensures CurrentIntent(h + [r]) == CurrentIntent(h)
    ensures ExitsRecorded(c.latency, h) && SaleOk(CurrentIntent(h), r) ==> ExitsRecorded(c.latency, h + [r])
    ensures forall k :: Submissions(h + [r], k) == Submissions(h, k)
    ensures TotalBought(h + [r]) == TotalBought(h)
    ensures forall id :: Volume(h + [r], id) == Volume(h, id)
    ensures forall id :: OrderOf(h + [r], id) == OrderOf(h, id) && BoughtFor(h + [r], id) == BoughtFor(h, id)
    ensures PurchasesOk(c.latency, h) ==> PurchasesOk(c.latency, h + [r])
    ensures IdsOk(h) ==> IdsOk(h + [r])
    ensures Settlements(h + [r]) == Settlements(h) && SettledResult(h + [r]) == SettledResult(h)
  {
    Snoc(h, r);
  }

  lemma SellableBounds(c: Config, d: Desk, l: Level, tick: int -> bool, reason: Reason, target: Option<int>, carry: int)
    requires d.position.Some? && c.precision > 0
    ensures var q := Sellable(c, d, l, tick, reason, target, carry);
      q == 0 || (0 < q <= d.position.value.quantity && q <= l.quantity - Consumed(d, l.price) && q % LOT == 0)
  {
    FloorLotBounds(Min(d.position.value.quantity, Max(0, l.quantity - Consumed(d, l.price))));
  }

  /** The conditions under which exits run. */
  predicate Served(d: Desk, reason: Reason, at: int, received: int) {
    && d.position.Some? && d.position.value.exitReason == reason && reason != NoReason
    && d.eligible.Some? && at >= d.eligible.value && received >= d.eligible.value
  }

  lemma SaleKeeps(c: Config, d: Desk, q: int, price: int, fee: int, reason: Reason, at: int, received: int)
    requires Inv(c, d) && Served(d, reason, at, received) && 0 < q <= d.position.value.quantity
    ensures Inv(c, BookSale(d, q, price, fee, reason, at, received)) && Served(BookSale(d, q, price, fee, reason, at, received), reason, at, received)
  {
    SaleHistory(c, d.history, SoldAt(q, price, fee, reason, at, received));
  }

  lemma ResultHistory(c: Config, h: seq<Record>, r: Record)
    requires r.TradeResult?
    ensures Ledger(h + [r]) == Zero && (ResultsOk(h) && ResultOk(Ledger(h), r) ==> ResultsOk(h + [r]))
    ensures CurrentIntent(h + [r]) == None && (ExitsRecorded(c.latency, h) ==> ExitsRecorded(c.latency, h + [r]))
    ensures forall k :: Submissions(h + [r], k) == Submissions(h, k)
    ensures TotalBought(h + [r]) == TotalBought(h)
    ensures forall id :: Volume(h + [r], id) == Volume(h, id)
    ensures forall id :: OrderOf(h + [r], id) == OrderOf(h, id) && BoughtFor(h + [r], id) == BoughtFor(h, id)
    ensures PurchasesOk(c.latency, h) ==> PurchasesOk(c.latency, h + [r])
    ensures IdsOk(h) ==> IdsOk(h + [r])
    ensures Settlements(h + [r]) == Settlements(h) && SettledResult(h + [r]) == SettledResult(h)
  {
    Snoc(h, r);
  }

  lemma FinishShape(d: Desk, at: int, reason: Reason, settlement: Option<Side>)
    requires d.position.Some? && d.order.Some? && d.order.value.op == d.position.value.op && Finish(d, at, reason, settlement).Ok?
    ensures var pos := d.position.value;
      Finish(d, at, reason, settlement).value ==
        d.(position := None, order := Some(d.order.value.(completedAt := Some(at))), reserved := false,
           history := d.history + [TradeResult(pos, pos.proceeds - pos.cost - pos.fees, reason, settlement, at)], stage := Some(Closed))
  {
  }

  /** Closing an emptied position. */
  lemma FinishKeeps(c: Config, d: Desk, at: int, reason: Reason)
    requires Inv(c, d) && d.position.Some? && d.position.value.quantity == 0 && !Working(d) && Finish(d, at, reason, None).Ok?
    ensures Inv(c, Finish(d, at, reason, None).value) && Finish(d, at, reason, None).value.position.None?
  {
    var pos := d.position.value;
    FinishShape(d, at, reason, None);
    ResultHistory(c, d.history, TradeResult(pos, pos.proceeds - pos.cost - pos.fees, reason, None, at));
  }

  lemma {:induction false} SellLevelsKeep(c: Config, d: Desk, bids: seq<Level>, tick: int -> bool, reason: Reason, target: Option<int>,
                                          at: int, received: int, carry: int)
    requires Valid(c) && Inv(c, d) && Stocked(d) && !Working(d) && Served(d, reason, at, received)
    requires SellLevels(c, d, bids, tick, reason, target, at, received, carry).Ok?
    ensures var d' := SellLevels(c, d, bids, tick, reason, target, at, received, carry).value;
      Inv(c, d') && Stocked(d') && !Working(d') && (d'.position.Some? ==> Served(d', reason, at, received))
    decreases |bids|
  {
    if bids != [] {
      var q := Sellable(c, d, bids[0], tick, reason, target, carry);
      if q == 0 {
        SellLevelsKeep(c, d, bids[1..], tick, reason, target, at, received, carry);
      } else {
        SellableBounds(c, d, bids[0], tick, reason, target, carry);
        var charged := F.Charge(c.precision, carry, bids[0].price, q, c.takerRate, F.Sell);
        var sold := BookSale(d, q, bids[0].price, charged.fee, reason, at, received);
        SaleKeeps(c, d, q, bids[0].price, charged.fee, reason, at, received);
        if sold.position.value.quantity == 0 {
          FinishKeeps(c, sold, at, reason);
          FinishShape(sold, at, reason, None);
        } else {
          SellLevelsKeep(c, sold, bids[1..], tick, reason, target, at, received, charged.carry);
        }
      }
    }
  }

  // ---- Intents -------------------------------------------------------------

  lemma IntentHistory(c: Config, h: seq<Record>, r: Record)
    requires (r.Intent? && IntentOk(c.latency, r)) || r.Dropped?
    ensures Ledger(h + [r]) == Ledger(h) && (ResultsOk(h) ==> ResultsOk(h + [r]))
    ensures CurrentIntent(h + [r]) == if r.Intent? then Some((r.reason, r.eligible)) else None
    ensures ExitsRecorded(c.latency, h) ==> ExitsRecorded(c.latency, h + [r])
    ensures forall k :: Submissions(h + [r], k) == Submissions(h, k)
    ensures TotalBought(h + [r]) == TotalBought(h)
    ensures forall id :: Volume(h + [r], id) == Volume(h, id)
    ensures forall id :: OrderOf(h + [r], id) == OrderOf(h, id) && BoughtFor(h + [r], id) == BoughtFor(h, id)
    ensures PurchasesOk(c.latency, h) ==> PurchasesOk(c.latency, h + [r])
    ensures IdsOk(h) ==> IdsOk(h + [r])
    ensures Settlements(h + [r]) == Settlements(h) && SettledResult(h + [r]) == SettledResult(h)
  {
    Snoc(h, r);
  }

  lemma ExpireKeeps(c: Config, d: Desk, at: int)
    requires Inv(c, d) && Stocked(d) && d.position.Some?
    ensures Inv(c, ExpireValueExit(d, at)) && Stocked(ExpireValueExit(d, at))
  {
    IntentHistory(c, d.history, Dropped(d.position.value.exitReason, at));
  }

  lemma ExtremesKeep(c: Config, d: Desk, mark: real)
    requires Inv(c, d) && Stocked(d) && d.position.Some?
    ensures Inv(c, Extremes(d, mark)) && Stocked(Extremes(d, mark))
  {
  }

  lemma DropKeeps(c: Config, d: Desk, q: Quote)
    requires Inv(c, d) && Stocked(d) && d.position.Some?
    ensures Inv(c, DropChanged(d, q)) && Stocked(DropChanged(d, q))
    ensures DropChanged(d, q).position.Some?
    ensures var r := DropChanged(d, q).position.value.exitReason; r == NoReason || q.reason == NoReason || r == q.reason
  {
    IntentHistory(c, d.history, Dropped(d.position.value.exitReason, q.at));
  }

  lemma IntendShape(c: Config, d: Desk, q: Quote)
    requires d.position.Some? && Intend(c, d, q).Ok?
    ensures var base := d.(position := Some(d.position.value.(exitReason := q.reason)));
            var cancels := c.full || q.reason == HardStop || ValueReason(q.reason);
            var limit := if !cancels then d.position.value.valueLimit else if q.reason == HardStop then None else q.target;
            && (cancels ==> Cancel(base, q.at).Ok?)
            && Intend(c, d, q).value ==
                 Noted((if cancels then Cancel(base, q.at).value else base).(
                       position := Some(d.position.value.(exitReason := q.reason, valueLimit := limit)),
                       lastEvent := Some(q.event), eligible := Some(q.at + c.latency)),
                   Intent(q.reason, q.at, q.at + c.latency))
  {
  }

  /** Cancelling looks only at whether there is a position, not at its exit. */
  lemma CancelIgnoresExit(d: Desk, d': Desk, at: int)
    requires d.position.Some? && d' == d.(position := Some(d'.position.GetOr(d.position.value)))
    ensures Cancel(d', at).Ok? == Cancel(d, at).Ok?
    ensures Cancel(d, at).Ok? ==> Cancel(d', at).value == Cancel(d, at).value.(position := d'.position)
  {
  }

  function WithIntent(d: Desk, q: Quote, limit: Option<int>, latency: int): Desk
    requires d.position.Some?
  {
    Noted(d.(position := Some(d.position.value.(exitReason := q.reason, valueLimit := limit)),
             lastEvent := Some(q.event), eligible := Some(q.at + latency)),
          Intent(q.reason, q.at, q.at + latency))
  }

  lemma WithIntentKeeps(c: Config, d: Desk, q: Quote, limit: Option<int>)
    requires Inv(c, d) && Stocked(d) && d.position.Some? && q.reason != NoReason
    ensures Inv(c, WithIntent(d, q, limit, c.latency)) && Stocked(WithIntent(d, q, limit, c.latency))
  {
    IntentHistory(c, d.history, Intent(q.reason, q.at, q.at + c.latency));
  }

  /** An intent is a cancellation, where one is due, and then the intent's own fields and record. */
  lemma IntendMeans(c: Config, d: Desk, q: Quote) returns (idle: Desk, limit: Option<int>)
    requires d.position.Some? && Intend(c, d, q).Ok?
    ensures idle == d || Cancel(d, q.at) == Ok(idle)
    ensures idle.position == d.position && Intend(c, d, q).value == WithIntent(idle, q, limit, c.latency)
  {
    IntendShape(c, d, q);
    var cancels := c.full || q.reason == HardStop || ValueReason(q.reason);
    limit := if !cancels then d.position.value.valueLimit else if q.reason == HardStop then None else q.target;
    CancelIgnoresExit(d, d.(position := Some(d.position.value.(exitReason := q.reason))), q.at);
    idle := if cancels then Cancel(d, q.at).value else d;
  }

  lemma IntendKeeps(c: Config, d: Desk, q: Quote)
    requires Inv(c, d) && Stocked(d) && d.position.Some? && q.reason != NoReason && Intend(c, d, q).Ok?
    ensures Inv(c, Intend(c, d, q).value) && Stocked(Intend(c, d, q).value)
  {
    var idle, limit := IntendMeans(c, d, q);
    CancelKeepsIfOk(c, d, q.at);
    WithIntentKeeps(c, idle, q, limit);
  }

  /** The desk an execution sells from: idle, and marked as exiting. */
  lemma ExitingKeeps(c: Config, d: Desk, q: Quote)
    requires Inv(c, d) && Stocked(d) && Served(d, q.reason, q.at, q.book.received)
    requires var ready := Cancel(d.(lastEvent := Some(q.event)), q.at); ready.Ok? && Moved(ready.value, Exiting).Ok?
    ensures var exiting := Moved(Cancel(d.(lastEvent := Some(q.event)), q.at).value, Exiting).value;
      Inv(c, exiting) && Stocked(exiting) && !Working(exiting) && Served(exiting, q.reason, q.at, q.book.received)
  {
    var marked := d.(lastEvent := Some(q.event));
    SideFieldsKeep(c, d, marked);
    CancelKeeps(c, marked, q.at);
    var ready := Cancel(marked, q.at).value;
    SideFieldsKeep(c, ready, Moved(ready, Exiting).value);
  }

  lemma ExecuteKeeps(c: Config, d: Desk, tick: int -> bool, q: Quote)
    requires Valid(c) && Inv(c, d) && Stocked(d) && Served(d, q.reason, q.at, q.book.received)
    requires Execute(c, d, tick, q).Ok?
    ensures Inv(c, Execute(c, d, tick, q).value) && Stocked(Execute(c, d, tick, q).value)
  {
    ExitingKeeps(c, d, q);
    var exiting := Moved(Cancel(d.(lastEvent := Some(q.event)), q.at).value, Exiting).value;
    var bids := Bids(q.book, exiting.position.value.side);
    SellLevelsKeep(c, exiting, bids, tick, q.reason, q.target, q.at, q.book.received, 0);
    var sold := SellLevels(c, exiting, bids, tick, q.reason, q.target, q.at, q.book.received, 0).value;
    if sold.position.Some? {
      ExpireKeeps(c, sold, q.at);
      var kept := if !c.full && ValueReason(q.reason) then ExpireValueExit(sold, q.at) else sold;
      SideFieldsKeep(c, kept, Execute(c, d, tick, q).value);
    }
  }

  /** What the monitor's transaction does after updating the position: nothing, an intent, or an execution. */
  lemma CommitMeans(c: Config, d: Desk, tick: int -> bool, q: Quote)
    requires d.position.Some? && c.precision > 0 && Commit(c, d, tick, q).Ok?
    ensures var current, d' := DropChanged(Extremes(d, q.mark), q), Commit(c, d, tick, q).value;
      && current.position.Some?
      && (d' == current || (q.reason != NoReason && (Intend(c, current, q) == Ok(d') || Execute(c, current, tick, q) == Ok(d'))))
  {
  }

  lemma CommitKeeps(c: Config, d: Desk, tick: int -> bool, q: Quote)
    requires Valid(c) && Inv(c, d) && Stocked(d) && d.position.Some?
    ensures Commit(c, d, tick, q).Ok? ==> Inv(c, Commit(c, d, tick, q).value) && Stocked(Commit(c, d, tick, q).value)
  {
    ExtremesKeep(c, d, q.mark);
    DropKeeps(c, Extremes(d, q.mark), q);
    var current := DropChanged(Extremes(d, q.mark), q);
    if Commit(c, d, tick, q).Ok? && q.reason != NoReason {
      if current.position.value.exitReason == NoReason {
        if Intend(c, current, q).Ok? { IntendKeeps(c, current, q); }
      } else if current.eligible.Some? && q.at >= current.eligible.value && q.book.received >= current.eligible.value {
        if Execute(c, current, tick, q).Ok? { ExecuteKeeps(c, current, tick, q); }
      }
    }
  }

  lemma ApplyKeeps(c: Config, d: Desk, tick: int -> bool, q: Quote, warning: bool)
    requires Valid(c) && Inv(c, d) && Stocked(d) && d.position.Some?
    ensures Inv(c, Kept(d, Apply(c, d, tick, q, warning))) && Stocked(Kept(d, Apply(c, d, tick, q, warning)))
  {
    CommitKeeps(c, d, tick, q);
  }

  lemma MonitorKeeps(c: Config, d: Desk, b: Book, m: Terms, tick: int -> bool, at: int, event: nat, g: Signals)
    requires Valid(c) && Inv(c, d) && Stocked(d)
    ensures Inv(c, Monitor(c, d, b, m, tick, at, event, g)) && Stocked(Monitor(c, d, b, m, tick, at, event, g))
  {
    if !MonitorBlocked(c, d, b, m, at) {
      var pos := d.position.value;
      if c.full && pos.exitReason != NoReason {
        ApplyKeeps(c, d, tick, Quote(b, Mark(pos, Bids(b, pos.side)[0].price), pos.exitReason, None, at, event, true), false);
      } else if ValueReason(pos.exitReason) {
        WorkKeeps(c, d, b, m, tick, at, event, g);
        var d' := WorkValueExit(c, d, b, m, tick, at, event, g);
        if d'.position.Some? && Bids(b, d'.position.value.side) != [] {
          EvaluateKeeps(c, d', b, tick, at, event, g);
        }
      } else {
        EvaluateKeeps(c, d, b, tick, at, event, g);
      }
    }
  }

  lemma WorkKeeps(c: Config, d: Desk, b: Book, m: Terms, tick: int -> bool, at: int, event: nat, g: Signals)
    requires Valid(c) && Inv(c, d) && Stocked(d) && d.position.Some? && Bids(b, d.position.value.side) != []
    ensures Inv(c, WorkValueExit(c, d, b, m, tick, at, event, g)) && Stocked(WorkValueExit(c, d, b, m, tick, at, event, g))
  {
    var pos := d.position.value;
    ExpireKeeps(c, d, at);
    ApplyKeeps(c, d, tick, Quote(b, Mark(pos, Bids(b, pos.side)[0].price), pos.exitReason, pos.valueLimit, at, event, true), false);
  }

  lemma EvaluateKeeps(c: Config, d: Desk, b: Book, tick: int -> bool, at: int, event: nat, g: Signals)
    requires Valid(c) && Inv(c, d) && Stocked(d) && d.position.Some? && Bids(b, d.position.value.side) != []
    ensures Inv(c, Evaluate(c, d, b, tick, at, event, g)) && Stocked(Evaluate(c, d, b, tick, at, event, g))
  {
    var pos := d.position.value;
    var bid := Bids(b, pos.side)[0].price;
    var (reason, target) := Reading(pos, bid, g);
    var clear := g.modelAvailable || pos.exitReason != Invalidation;
    ApplyKeeps(c, d, tick, Quote(b, Mark(pos, bid), reason, target, at, event, clear), g.warning);
  }

  // ---- Settlement ----------------------------------------------------------

  lemma SettledHistory(c: Config, h: seq<Record>, result: Side, at: int)
    ensures var r := Settled(result, at);
      && Ledger(h + [r]) == Ledger(h) && (ResultsOk(h) ==> ResultsOk(h + [r]))
      && CurrentIntent(h + [r]) == CurrentIntent(h) && (ExitsRecorded(c.latency, h) ==> ExitsRecorded(c.latency, h + [r]))
      && (forall k :: Submissions(h + [r], k) == Submissions(h, k))
      && TotalBought(h + [r]) == TotalBought(h)
      && (forall id :: Volume(h + [r], id) == Volume(h, id))
      && (forall id :: OrderOf(h + [r], id) == OrderOf(h, id) && BoughtFor(h + [r], id) == BoughtFor(h, id))
      && (PurchasesOk(c.latency, h) ==> PurchasesOk(c.latency, h + [r]))
      && (IdsOk(h) ==> IdsOk(h + [r]))
      && Settlements(h + [r]) == Settlements(h) + 1 && SettledResult(h + [r]) == Some(result)
  {
    Snoc(h, Settled(result, at));
  }

  function Claimed(d: Desk, result: Side, at: int): Desk {
    Noted(d.(claims := d.claims + {SettlementClaim}), Settled(result, at))
  }

  lemma ClaimedKeeps(c: Config, d: Desk, result: Side, at: int)
    requires Inv(c, d) && Stocked(d) && SettledResult(d.history).None?
    ensures Inv(c, Claimed(d, result, at)) && Stocked(Claimed(d, result, at))
  {
    SettledHistory(c, d.history, result, at);
  }

  /** Paying out and closing: the trade's net counts each remaining contract once. */
  lemma PaidFinishKeeps(c: Config, d: Desk, result: Side, at: int)
    requires Inv(c, d) && d.position.Some? && !Working(d) && Finish(PaidOut(d, result), at, AtSettlement, Some(result)).Ok?
    ensures Inv(c, Finish(PaidOut(d, result), at, AtSettlement, Some(result)).value)
    ensures Finish(PaidOut(d, result), at, AtSettlement, Some(result)).value.position.None?
  {
    var paid := PaidOut(d, result).position.value;
    FinishShape(PaidOut(d, result), at, AtSettlement, Some(result));
    ResultHistory(c, d.history, TradeResult(paid, paid.proceeds - paid.cost - paid.fees, AtSettlement, Some(result), at));
  }

  lemma SettleNowShape(d: Desk, result: Side, at: int, recovering: bool)
    requires SettleNow(d, result, at, recovering).Ok?
    ensures Cancel(Claimed(d, result, at), at).Ok?
    ensures var idle, d' := Cancel(Claimed(d, result, at), at).value, SettleNow(d, result, at, recovering).value;
      exists waiting: Desk ::
        && waiting == idle.(stage := waiting.stage)
        && (if idle.position.Some?
            then Finish(PaidOut(waiting, result), at, AtSettlement, Some(result)).Ok?
                 && d' == Finish(PaidOut(waiting, result), at, AtSettlement, Some(result)).value.(quarantine := None, pause := None)
            else d' == waiting.(quarantine := None, pause := None))
  {
    var idle, d' := Cancel(Claimed(d, result, at), at).value, SettleNow(d, result, at, recovering).value;
    if idle.position.Some? {
      var waiting := idle.(stage := Some(SettlementPending));
      assert waiting == idle.(stage := waiting.stage);
    } else {
      var waiting := idle.(stage := d'.stage);
      assert waiting == idle.(stage := waiting.stage);
    }
  }

  lemma SettleNowKeeps(c: Config, d: Desk, result: Side, at: int, recovering: bool)
    requires Inv(c, d) && Stocked(d) && SettledResult(d.history).None? && SettleNow(d, result, at, recovering).Ok?
    ensures Inv(c, SettleNow(d, result, at, recovering).value) && SettleNow(d, result, at, recovering).value.position.None?
  {
    ClaimedKeeps(c, d, result, at);
    CancelKeeps(c, Claimed(d, result, at), at);
    SettleNowShape(d, result, at, recovering);
    var idle, d' := Cancel(Claimed(d, result, at), at).value, SettleNow(d, result, at, recovering).value;
    var waiting: Desk :|
      && waiting == idle.(stage := waiting.stage)
      && (if idle.position.Some?
          then Finish(PaidOut(waiting, result), at, AtSettlement, Some(result)).Ok?
               && d' == Finish(PaidOut(waiting, result), at, AtSettlement, Some(result)).value.(quarantine := None, pause := None)
          else d' == waiting.(quarantine := None, pause := None));
    SideFieldsKeep(c, idle, waiting);
    if idle.position.Some? {
      PaidFinishKeeps(c, waiting, result, at);
      SideFieldsKeep(c, Finish(PaidOut(waiting, result), at, AtSettlement, Some(result)).value, d');
    } else {
      SideFieldsKeep(c, waiting, d');
    }
  }

  lemma QuarantineKeeps(c: Config, d: Desk, at: int, reason: QuarantineReason)
    requires Inv(c, d) && Stocked(d)
    ensures var r := QuarantineMarket(d, at, reason);
      r.Ok? ==> Inv(c, r.value) && Stocked(r.value) && SettledResult(r.value.history) == SettledResult(d.history)
  {
    var r := QuarantineMarket(d, at, reason);
    if r.Ok? && r.value != d {
      CancelKeeps(c, d, at);
      SideFieldsKeep(c, Cancel(d, at).value, r.value);
    }
  }

  lemma EvidenceKeeps(c: Config, d: Desk, result: Side, at: int, ev: Evidence)
    requires Inv(c, d) && Stocked(d)
    ensures var r := WithEvidence(d, result, at, ev);
      r.Ok? ==> Inv(c, r.value) && Stocked(r.value) && SettledResult(r.value.history) == SettledResult(d.history)
  {
    var noted := d.(evidence := d.evidence + {result});
    SideFieldsKeep(c, d, noted);
    QuarantineKeeps(c, noted, at, FinalInvalid);
    QuarantineKeeps(c, noted, at, FinalChanged);
  }

  /** Noting evidence cancels at most the order, then touches only the quarantine and the stage. */
  lemma EvidenceMeans(d: Desk, result: Side, at: int, ev: Evidence) returns (idle: Desk)
    requires WithEvidence(d, result, at, ev).Ok?
    ensures var noted := if ev.NoEvidence? then d else d.(evidence := d.evidence + {result});
      idle == noted || Cancel(noted, at) == Ok(idle)
    ensures var d' := WithEvidence(d, result, at, ev).value; d' == idle.(quarantine := d'.quarantine, stage := d'.stage)
  {
    var noted := if ev.NoEvidence? then d else d.(evidence := d.evidence + {result});
    idle := if Cancel(noted, at).Ok? && WithEvidence(d, result, at, ev).value.history == Cancel(noted, at).value.history
            then Cancel(noted, at).value else noted;
  }

  /** What `settle` leaves: the desk as it was, the desk with the evidence noted, or the settled desk. */
  lemma SettleMeans(d: Desk, result: Side, at: int, close: int, ev: Evidence, review: Option<bool>)
    requires Settle(d, result, at, close, ev, review).Ok?
    ensures var (d', outcome) := Settle(d, result, at, close, ev, review).value;
      var seen := WithEvidence(d, result, at, ev);
      if outcome == SettledNow then
        && SettledResult(d.history).None? && seen.Ok?
        && SettleNow(seen.value, result, at, seen.value.quarantine.Some?) == Ok(d')
      else d' == d || seen == Ok(d')
  {
  }

  lemma SettleKeeps(c: Config, d: Desk, result: Side, at: int, close: int, ev: Evidence, review: Option<bool>)
    requires Inv(c, d) && Stocked(d)
    ensures var r := Settle(d, result, at, close, ev, review); r.Ok? ==> Inv(c, r.value.0) && Stocked(r.value.0)
    ensures var r := Settle(d, result, at, close, ev, review);
      r.Ok? && r.value.1 == SettledNow ==> r.value.0.position.None? && SettledResult(d.history).None?
  {
    var r := Settle(d, result, at, close, ev, review);
    if r.Ok? {
      SettleMeans(d, result, at, close, ev, review);
      EvidenceKeeps(c, d, result, at, ev);
      if r.value.1 == SettledNow {
        var seen := WithEvidence(d, result, at, ev).value;
        SettleNowKeeps(c, seen, result, at, seen.quarantine.Some?);
      }
    }
  }

  // ---- Every step and every run --------------------------------------------

  predicate EventOk(e: Event) {
    e.SubmitEntry? ==> BookOk(e.book)
  }

  lemma PauseKeeps(c: Config, d: Desk, at: int, event: PauseEvent)
    requires Inv(c, d) && Stocked(d)
    ensures var r := PauseMarket(d, at, event); r.Ok? ==> Inv(c, r.value) && Stocked(r.value)
  {
    CancelKeepsIfOk(c, d, at);
    var r := PauseMarket(d, at, event);
    if r.Ok? && r.value != d {
      SideFieldsKeep(c, Cancel(d, at).value, r.value);
    }
  }

  lemma SideStepsKeep(c: Config, d: Desk, e: Event)
    requires Valid(c) && Inv(c, d) && Stocked(d)
    requires e.ResumeVenue? || e.Recover? || e.EngineMove? || e.ObserveBook?
    ensures Inv(c, Step(c, d, e)) && Stocked(Step(c, d, e))
  {
    SideStepsShape(c, d, e);
    SideFieldsKeep(c, d, Step(c, d, e));
  }

  lemma SideStepsShape(c: Config, d: Desk, e: Event)
    requires Valid(c) && (e.ResumeVenue? || e.Recover? || e.EngineMove? || e.ObserveBook?)
    ensures var d' := Step(c, d, e);
      && d'.order == d.order && d'.position == d.position && d'.eligible == d.eligible && d'.reserved == d.reserved
      && d'.history == d.history && d'.claims == d.claims
  {
  }

  lemma RestrictionsKeep(c: Config, d: Desk, e: Event)
    requires Valid(c) && Inv(c, d) && Stocked(d)
    requires e.Restrict? || e.PauseVenue? || e.CancelOrder?
    ensures Inv(c, Step(c, d, e)) && Stocked(Step(c, d, e))
  {
    if e.Restrict? {
      QuarantineKeeps(c, d, e.at, e.reason);
    } else if e.PauseVenue? {
      PauseKeeps(c, d, e.at, e.pauseEvent);
    } else {
      CancelKeepsIfOk(c, d, e.at);
    }
  }

  lemma BuyingStepsKeep(c: Config, d: Desk, e: Event)
    requires Valid(c) && Inv(c, d) && Stocked(d) && EventOk(e) && (e.SubmitEntry? || e.TradePrint? || e.MatchOrder?)
    ensures Inv(c, Step(c, d, e)) && Stocked(Step(c, d, e))
  {
    if e.SubmitEntry? {
      SubmitKeeps(c, e.shared, d, e.book, e.terms, e.tick, e.entry, e.gates);
    } else if e.TradePrint? {
      TradedKeeps(c, e.shared, d, e.traded, e.at, e.gate);
    } else {
      AggressiveKeeps(c, e.shared, d, e.book, e.terms, e.tick, e.at, e.gates);
    }
  }

  lemma StepKeeps(c: Config, d: Desk, e: Event)
    requires Valid(c) && Inv(c, d) && Stocked(d) && EventOk(e)
    ensures Inv(c, Step(c, d, e)) && Stocked(Step(c, d, e))
  {
    if e.SubmitEntry? || e.TradePrint? || e.MatchOrder? {
      BuyingStepsKeep(c, d, e);
    } else if e.MonitorBook? {
      MonitorKeeps(c, d, e.book, e.terms, e.tick, e.at, e.quote, e.signals);
    } else if e.SettleMarket? {
      SettleKeeps(c, d, e.result, e.at, e.close, e.evidence, e.review);
    } else if e.Restrict? || e.PauseVenue? || e.CancelOrder? {
      RestrictionsKeep(c, d, e);
    } else {
      SideStepsKeep(c, d, e);
    }
  }

  predicate EventsOk(run: seq<Event>) {
    forall i | 0 <= i < |run| :: EventOk(run[i])
  }

  lemma {:induction false} EveryRunKeepsInv(c: Config, d: Desk, run: seq<Event>)
    requires Valid(c) && Inv(c, d) && Stocked(d) && EventsOk(run)
    ensures Inv(c, After(c, d, run)) && Stocked(After(c, d, run))
    decreases |run|
  {
    if run != [] {
      StepKeeps(c, d, run[0]);
      EveryRunKeepsInv(c, Step(c, d, run[0]), run[1..]);
    }
  }
}
