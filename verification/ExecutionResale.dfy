/**
  A run of the paper engine that sells the same displayed contract twice: consumed depth
  is keyed by price alone, so watching the book while the other side is held forgets it.
 */
module ExecutionResale {
  import opened Wrappers
  import opened Execution
  import opened ExecutionInvariant
  import opened ExecutionDepth
  import F = Fees

  function Cfg(): Config {
    Config(false, false, false, 0, 0, 0, 0, 10, 10, 15_000_000, 1, 1, 0, 0, 10_000, 1, 1, 9_999)
  }

  const ALONE := Shared(None, false)
  const OPEN := Terms(true, 600_000_000)

  /** One contract is bid on each side, at 0.50 and 0.40, throughout. */
  function Display(): Book {
    Book([Level(5_000, 10_000)], [Level(4_000, 10_000)], 0, 0, true)
  }

  function AnyTick(): int -> bool { p => true }
  function NoGates(): nat -> Gate { k => Gate(false, false) }

  function BidOf(side: Side): int { if side == Yes then 5_000 else 4_000 }
  function AskOf(side: Side): int { if side == Yes then 6_000 else 5_000 }

  function Order1(side: Side, op: nat): Entry {
    Entry(op, 0, Gate(false, false), true, false, true, true, true, true, Some(side), true, true, Some(AskOf(side)), true, 1)
  }

  function Buy(side: Side, op: nat): Event {
    SubmitEntry(ALONE, Display(), OPEN, AnyTick(), Order1(side, op), NoGates())
  }

  /** A quote at which the stop is hit. */
  function Stop(event: nat): Event {
    MonitorBook(Display(), OPEN, AnyTick(), 0, event, Signals(5_000, None, false, None, false, false, None))
  }

  const WATCH := ObserveBook(Display(), 0, 0, true)

  function Moves(path: seq<Stage>): seq<Event> {
    if path == [] then [] else [EngineMove(path[0])] + Moves(path[1..])
  }

  predicate Path(from: Option<Stage>, path: seq<Stage>)
    decreases |path|
  {
    path == []
    || ((if from.None? then path[0] == Discover else path[0] in Next(from.value)) && Path(Some(path[0]), path[1..]))
  }

  lemma {:induction false} MovesAlong(c: Config, d: Desk, path: seq<Stage>)
    requires Valid(c) && path != [] && Path(d.stage, path)
    ensures After(c, d, Moves(path)) == d.(stage := Some(path[|path| - 1]))
    decreases |path|
  {
    assert Moves(path)[1..] == Moves(path[1..]);
    var d' := d.(stage := Some(path[0]));
    assert Step(c, d, Moves(path)[0]) == d';
    if |path| > 1 { MovesAlong(c, d', path[1..]); }
  }

  function Reopen(): seq<Event> {
    Moves([Monitoring, EntryWindow, Evaluating, TradeCandidate])
  }

  lemma Displayed()
    ensures Valid(Cfg()) && Sorted(Display()) && Shown(Display().yes, 5_000) == 10_000 && Shown(Display().no, 5_000) == 0
    ensures Asks(Display(), Yes) == [Level(6_000, 10_000)] && Asks(Display(), No) == [Level(5_000, 10_000)]
  {
    assert Display().no[1..] == [];
  }

  // ---- The two resting states ------------------------------------------------

  /** Free to enter for the (k+1)-th time. */
  ghost predicate Free(d: Desk, k: nat) {
    && d.position.None? && !d.reserved && d.quarantine.None? && d.pause.None?
    && (forall j: nat, r: Option<nat> :: j > k ==> EntryClaim(j, r) !in d.claims)
    && (if k == 0 then d.order.None?
        else
          d.order.Some? && !d.order.value.active && d.order.value.completedAt == Some(0) && d.order.value.cycle == k
          && d.order.value.remaining == 0 && d.order.value.quantity == 10_000)
  }

  /** Holding one contract, bought by the k-th entry. */
  ghost predicate Holds(d: Desk, k: nat, side: Side, reason: Reason) {
    && k > 0 && d.position.Some? && d.position.value.side == side && d.position.value.quantity == 10_000 && d.position.value.bought == 10_000
    && d.position.value.exitReason == reason && d.stage == Some(PositionOpen) && d.quarantine.None? && d.pause.None?
    && (forall j: nat, r: Option<nat> :: j > k ==> EntryClaim(j, r) !in d.claims)
    && d.order.Some? && !d.order.value.active && d.order.value.completedAt.None? && d.order.value.cycle == k
    && d.order.value.remaining == 0 && d.order.value.quantity == 10_000 && d.order.value.op == d.position.value.op
  }

  // ---- Buying one contract ---------------------------------------------------

  lemma FreeClaim(d: Desk, k: nat)
    requires Free(d, k)
    ensures !RetryReady(Cfg(), ALONE, d, 0) && (k > 0 ==> ReentryReady(Cfg(), ALONE, d, 0))
    ensures ClaimOf(Cfg(), ALONE, d, 0) == EntryClaim(k + 1, None)
  {
  }

  lemma FreeAccepts(d: Desk, k: nat, side: Side, op: nat)
    requires Free(d, k)
    ensures Accepts(Cfg(), ALONE, d, Display(), OPEN, AnyTick(), Order1(side, op))
  {
    Displayed();
    FreeClaim(d, k);
    assert Best(Asks(Display(), side)) == Some(AskOf(side));
  }

  lemma PlacesFresh(c: Config, s: Shared, d: Desk, b: Book, e: Entry, cycle: nat)
    requires e.side.Some? && e.price.Some? && c.queueDen > 0 && ClaimOf(c, s, d, e.at) == EntryClaim(cycle, None)
    requires !d.reserved && d.stage == Some(TradeCandidate)
    ensures var o := NewOrder(c, s, d, b, e);
      && Placed(c, s, d, b, e) == Ok(d.(order := Some(o), reserved := true, claims := d.claims + {EntryClaim(cycle, None)},
                                        history := d.history + [Submitted(o)], stage := Some(OrderPending)))
      && o.op == e.op && o.side == e.side.value && o.limit == e.price.value && o.quantity == o.remaining == e.contracts * CONTRACT
      && o.eligible == e.at + c.latency && o.cycle == cycle && o.active && o.completedAt.None?
  {
  }

  /** A fresh order of one contract, nothing in its way. */
  predicate Fresh(d: Desk, limit: int) {
    && d.order.Some? && d.position.None? && d.stage == Some(OrderPending) && d.quarantine.None? && d.pause.None?
    && d.order.value.limit == limit && d.order.value.quantity == d.order.value.remaining == 10_000
    && d.order.value.eligible == 0 && d.order.value.active && d.order.value.completedAt.None?
  }

  predicate Aggressor(c: Config) {
    Valid(c) && !c.passive && !c.full && !c.oneTrade && c.postCloseCooldown == 0
  }

  function Bought1(c: Config, d: Desk, price: int): Desk
    requires d.order.Some? && c.precision > 0
  {
    BookPurchase(c, d, 10_000, price, 0, false).(stage := Some(PositionOpen))
  }

  lemma FreshFills(c: Config, s: Shared, d: Desk, price: int)
    requires Aggressor(c) && Fresh(d, price) && 0 < price < ONE
    ensures Fill(c, s, d, 10_000, price, 0, false, Gate(false, false)) == Ok((Bought1(c, d, price), FillStatus.Filled))
    ensures !Bought1(c, d, price).order.value.active
  {
  }

  lemma FreshMatches(c: Config, s: Shared, d: Desk, asks: seq<Level>, price: int)
    requires Aggressor(c) && Fresh(d, price) && 0 < price < ONE && asks == [Level(price, 10_000)]
    ensures MatchLevels(c, s, d, asks, AnyTick(), 0, NoGates(), 1) == Ran(Bought1(c, d, price))
  {
    FreshFills(c, s, d, price);
    assert NoGates()(1) == Gate(false, false);
  }

  /** Matching it against one ask at its limit fills it. */
  lemma FreshOrderFills(c: Config, s: Shared, d: Desk, b: Book, m: Terms, price: int)
    requires Aggressor(c) && Fresh(d, price) && 0 < price < ONE && Asks(b, d.order.value.side) == [Level(price, 10_000)]
    requires !ExecutionBlocked(c, s, d, b, m, 0)
    ensures NestedAggressive(c, s, d, b, m, AnyTick(), 0, NoGates()) == Ok(Bought1(c, d, price))
  {
    FreshMatches(c, s, d, Asks(b, d.order.value.side), price);
    FreshFills(c, s, d, price);
  }

  lemma SubmitIsPlacedThenMatched(c: Config, s: Shared, d: Desk, b: Book, m: Terms, e: Entry, matched: Desk)
    requires Valid(c) && !c.passive && c.latency == 0 && Accepts(c, s, d, b, m, AnyTick(), e) && e.side.Some? && e.price.Some?
    requires Placed(c, s, d, b, e).Ok?
    requires NestedAggressive(c, s, Placed(c, s, d, b, e).value, b, m, AnyTick(), e.at, NoGates()) == Ok(matched)
    ensures Submit(c, s, d, b, m, AnyTick(), e, NoGates()) == Ok((matched, None))
  {
  }

  lemma Bought1Holds(c: Config, d: Desk, k: nat, price: int)
    requires c.precision > 0 && Fresh(d, price) && d.order.value.cycle == k > 0
    requires forall j: nat, r: Option<nat> :: j > k ==> EntryClaim(j, r) !in d.claims
    ensures Holds(Bought1(c, d, price), k, d.order.value.side, NoReason)
  {
  }

  lemma SubmitHolds(c: Config, s: Shared, d: Desk, b: Book, m: Terms, e: Entry, k: nat, price: int)
    requires Aggressor(c) && c.latency == 0 && Free(d, k) && d.stage == Some(TradeCandidate)
    requires Accepts(c, s, d, b, m, AnyTick(), e) && ClaimOf(c, s, d, 0) == EntryClaim(k + 1, None)
    requires e.at == 0 && e.contracts == 1 && e.side.Some? && e.price == Some(price) && 0 < price < ONE
    requires Asks(b, e.side.value) == [Level(price, 10_000)] && !ExecutionBlocked(c, s, d, b, m, 0)
    ensures Submit(c, s, d, b, m, AnyTick(), e, NoGates()).Ok?
    ensures Holds(Submit(c, s, d, b, m, AnyTick(), e, NoGates()).value.0, k + 1, e.side.value, NoReason)
  {
    PlacesFresh(c, s, d, b, e, k + 1);
    var placed := Placed(c, s, d, b, e).value;
    FreshOrderFills(c, s, placed, b, m, price);
    SubmitIsPlacedThenMatched(c, s, d, b, m, e, Bought1(c, placed, price));
    Bought1Holds(c, placed, k + 1, price);
  }

  lemma BuyHolds(d: Desk, k: nat, side: Side, op: nat)
    requires Free(d, k) && d.stage == Some(TradeCandidate)
    ensures var d' := Step(Cfg(), d, Buy(side, op)); Holds(d', k + 1, side, NoReason) && SameDepth(d, d')
  {
    Displayed();
    FreeAccepts(d, k, side, op);
    FreeClaim(d, k);
    SubmitHolds(Cfg(), ALONE, d, Display(), OPEN, Order1(side, op), k, AskOf(side));
    OthersKeepDepth(Cfg(), d, Buy(side, op));
  }

  // ---- Selling it at the stop ------------------------------------------------

  lemma ExtremesHold(d: Desk, k: nat, side: Side, reason: Reason, q: Quote)
    requires Holds(d, k, side, reason) && (reason == NoReason || q.reason == reason)
    ensures var current := DropChanged(Extremes(d, q.mark), q);
      && Holds(current, k, side, reason) && current.history == d.history && current.consumed == d.consumed
      && current.lastEvent == d.lastEvent && current.eligible == d.eligible
  {
  }

  lemma IntendHolds(c: Config, d: Desk, k: nat, side: Side, q: Quote)
    requires Holds(d, k, side, NoReason) && q.reason == HardStop && c.latency == 0 && q.at == 0
    ensures Intend(c, d, q).Ok?
    ensures var d' := Intend(c, d, q).value;
      && Holds(d', k, side, HardStop) && d'.history == d.history + [Intent(HardStop, 0, 0)] && d'.consumed == d.consumed
      && d'.lastEvent == Some(q.event) && d'.eligible == Some(0)
  {
  }

  /** The first quote at the stop states the intent. */
  lemma StopIntends(c: Config, d: Desk, k: nat, side: Side, q: Quote)
    requires Valid(c) && Holds(d, k, side, NoReason) && q.reason == HardStop && c.latency == 0 && q.at == 0
    ensures Apply(c, d, AnyTick(), q, false).Ok?
    ensures var d' := Apply(c, d, AnyTick(), q, false).value;
      Holds(d', k, side, HardStop) && SameDepth(d, d') && d'.lastEvent == Some(q.event) && d'.eligible == Some(0)
  {
    var current := DropChanged(Extremes(d, q.mark), q);
    ExtremesHold(d, k, side, NoReason, q);
    IntendHolds(c, current, k, side, q);
    Snoc(d.history, Intent(HardStop, 0, 0));
    assert Commit(c, d, AnyTick(), q) == Intend(c, current, q);
  }

  lemma OneContractSellable(c: Config, d: Desk, price: int)
    requires c.precision > 0 && d.position.Some? && d.position.value.quantity == 10_000 && Consumed(d, price) == 0
    ensures Sellable(c, d, Level(price, 10_000), AnyTick(), HardStop, None, 0) == 10_000
  {
  }

  lemma EmptiedCloses(d: Desk, k: nat, side: Side)
    requires d.position.Some? && d.stage == Some(Exiting)
    requires Holds(d.(stage := Some(PositionOpen), position := Some(d.position.value.(quantity := 10_000))), k, side, HardStop)
    ensures Finish(d, 0, HardStop, None).Ok?
    ensures var d' := Finish(d, 0, HardStop, None).value; Free(d', k) && d'.stage == Some(Closed) && d'.consumed == d.consumed
  {
  }

  lemma SellsOneLevel(c: Config, d: Desk, bids: seq<Level>, sold: Desk)
    requires c.precision > 0 && d.position.Some? && |bids| == 1
    requires Sellable(c, d, bids[0], AnyTick(), HardStop, None, 0) == 10_000
    requires sold == BookSale(d, 10_000, bids[0].price, F.Charge(c.precision, 0, bids[0].price, 10_000, c.takerRate, F.Sell).fee, HardStop, 0, 0)
    requires sold.position.value.quantity == 0
    ensures SellLevels(c, d, bids, AnyTick(), HardStop, None, 0, 0, 0) == Finish(sold, 0, HardStop, None)
  {
  }

  /** One contract sold at one bid, and the position closed. */
  lemma OneBidSells(c: Config, d: Desk, k: nat, side: Side, bids: seq<Level>, price: int)
    requires Valid(c) && Holds(d.(stage := Some(PositionOpen)), k, side, HardStop) && d.stage == Some(Exiting)
    requires bids == [Level(price, 10_000)] && Consumed(d, price) == 0
    ensures SellLevels(c, d, bids, AnyTick(), HardStop, None, 0, 0, 0).Ok?
    ensures var d' := SellLevels(c, d, bids, AnyTick(), HardStop, None, 0, 0, 0).value;
      && Free(d', k) && d'.stage == Some(Closed) && d'.consumed == d.consumed[price := 10_000]
      && forall p :: SoldAtPrice(d'.history, p) == SoldAtPrice(d.history, p) + if p == price then 10_000 else 0
  {
    var fee := F.Charge(c.precision, 0, price, 10_000, c.takerRate, F.Sell).fee;
    var sold := BookSale(d, 10_000, price, fee, HardStop, 0, 0);
    OneContractSellable(c, d, price);
    SellsOneLevel(c, d, bids, sold);
    EmptiedCloses(sold, k, side);
    Snoc(d.history, SoldAt(10_000, price, fee, HardStop, 0, 0));
    FinishKeepsDepth(sold, 0, HardStop, None);
  }

  lemma ExecuteSells(c: Config, d: Desk, k: nat, side: Side, q: Quote, price: int)
    requires Valid(c) && Holds(d, k, side, HardStop) && q.reason == HardStop && q.target.None? && q.at == 0 && q.book.received == 0
    requires Bids(q.book, side) == [Level(price, 10_000)] && Consumed(d, price) == 0
    ensures Execute(c, d, AnyTick(), q).Ok?
    ensures var d' := Execute(c, d, AnyTick(), q).value;
      && Free(d', k) && d'.stage == Some(Closed) && d'.consumed == d.consumed[price := 10_000]
      && forall p :: SoldAtPrice(d'.history, p) == SoldAtPrice(d.history, p) + if p == price then 10_000 else 0
  {
    var exiting := d.(lastEvent := Some(q.event), stage := Some(Exiting));
    OneBidSells(c, exiting, k, side, Bids(q.book, side), price);
    assert Moved(Cancel(d.(lastEvent := Some(q.event)), 0).value, Exiting) == Ok(exiting);
  }

  /** The next quote carries it out. */
  lemma StopSells(c: Config, d: Desk, k: nat, side: Side, q: Quote, price: int)
    requires Valid(c) && Holds(d, k, side, HardStop) && q.reason == HardStop && q.target.None? && q.at == 0 && q.book.received == 0
    requires d.eligible == Some(0) && d.lastEvent != Some(q.event)
    requires Bids(q.book, side) == [Level(price, 10_000)] && Consumed(d, price) == 0
    ensures Apply(c, d, AnyTick(), q, false).Ok?
    ensures var d' := Apply(c, d, AnyTick(), q, false).value;
      && Free(d', k) && d'.stage == Some(Closed) && d'.consumed == d.consumed[price := 10_000]
      && forall p :: SoldAtPrice(d'.history, p) == SoldAtPrice(d.history, p) + if p == price then 10_000 else 0
  {
    var current := DropChanged(Extremes(d, q.mark), q);
    ExtremesHold(d, k, side, HardStop, q);
    ExecuteSells(c, current, k, side, q, price);
    assert Commit(c, d, AnyTick(), q) == Execute(c, current, AnyTick(), q);
  }

  lemma MonitorReads(c: Config, d: Desk, b: Book, m: Terms, at: int, event: nat, g: Signals, bid: int)
    requires c.precision > 0 && !c.full && !MonitorBlocked(c, d, b, m, at) && !g.warning
    requires Bids(b, d.position.value.side)[0].price == bid && Reading(d.position.value, bid, g) == (HardStop, None)
    requires d.position.value.exitReason == NoReason || d.position.value.exitReason == HardStop
    ensures Monitor(c, d, b, m, AnyTick(), at, event, g)
         == Kept(d, Apply(c, d, AnyTick(), Quote(b, Mark(d.position.value, bid), HardStop, None, at, event, true), false))
  {
  }

  lemma StopReads(d: Desk, k: nat, side: Side, reason: Reason, event: nat)
    requires Holds(d, k, side, reason) && (reason == NoReason || reason == HardStop)
    ensures Step(Cfg(), d, Stop(event))
         == Kept(d, Apply(Cfg(), d, AnyTick(), Quote(Display(), Mark(d.position.value, BidOf(side)), HardStop, None, 0, event, true), false))
  {
    var g := Signals(5_000, None, false, None, false, false, None);
    assert Bids(Display(), side)[0].price == BidOf(side);
    assert !MonitorBlocked(Cfg(), d, Display(), OPEN, 0);
    assert Reading(d.position.value, BidOf(side), g) == (HardStop, None);
    MonitorReads(Cfg(), d, Display(), OPEN, 0, event, g, BidOf(side));
  }

  /** Two quotes at the stop: the intent, then the sale. */
  lemma StopsOut(d: Desk, k: nat, side: Side, event: nat)
    requires Holds(d, k, side, NoReason) && Consumed(d, BidOf(side)) == 0
    ensures var d' := Step(Cfg(), Step(Cfg(), d, Stop(event)), Stop(event + 1));
      && Free(d', k) && d'.stage == Some(Closed) && d'.consumed == d.consumed[BidOf(side) := 10_000]
      && forall p :: SoldAtPrice(d'.history, p) == SoldAtPrice(d.history, p) + if p == BidOf(side) then 10_000 else 0
  {
    Displayed();
    StopReads(d, k, side, NoReason, event);
    var q1 := Quote(Display(), Mark(d.position.value, BidOf(side)), HardStop, None, 0, event, true);
    StopIntends(Cfg(), d, k, side, q1);
    var d1 := Step(Cfg(), d, Stop(event));
    StopReads(d1, k, side, HardStop, event + 1);
    var q2 := Quote(Display(), Mark(d1.position.value, BidOf(side)), HardStop, None, 0, event + 1, true);
    assert Consumed(d1, BidOf(side)) == 0;
    StopSells(Cfg(), d1, k, side, q2, BidOf(side));
  }

  // ---- Between trades --------------------------------------------------------

  /** The engine takes a closed market back to a candidate. */
  lemma ReopenFrees(d: Desk, k: nat)
    requires Free(d, k) && d.stage == Some(Closed)
    ensures After(Cfg(), d, Reopen()) == d.(stage := Some(TradeCandidate))
  {
    var path := [Monitoring, EntryWindow, Evaluating, TradeCandidate];
    assert path[1..] == [EntryWindow, Evaluating, TradeCandidate] && path[1..][1..] == [Evaluating, TradeCandidate];
    assert path[1..][1..][1..] == [TradeCandidate];
    assert Path(Some(Evaluating), [TradeCandidate]) && Path(Some(EntryWindow), [Evaluating, TradeCandidate]);
    assert Path(Some(Closed), path);
    MovesAlong(Cfg(), d, path);
  }

  /** Watching the book while NO is held forgets what YES consumed at 0.50. */
  lemma WatchForgets(d: Desk, k: nat)
    requires Holds(d, k, No, NoReason) && 5_000 in d.consumed
    ensures var d' := Step(Cfg(), d, WATCH);
      Holds(d', k, No, NoReason) && Consumed(d', 5_000) <= 0 && d'.history == d.history && d'.consumed.Keys == d.consumed.Keys
  {
    Displayed();
    assert ObservationUsable(Cfg(), d, Display(), 0, 0, true);
  }

  // ---- The whole run ---------------------------------------------------------

  lemma {:induction false} AfterBoth(c: Config, d: Desk, first: seq<Event>, second: seq<Event>)
    requires Valid(c)
    ensures After(c, d, first + second) == After(c, After(c, d, first), second)
    decreases |first|
  {
    if first == [] {
      assert first + second == second;
    } else {
      assert (first + second)[1..] == first[1..] + second;
      AfterBoth(c, Step(c, d, first[0]), first[1..], second);
    }
  }

  lemma AfterOne(c: Config, d: Desk, e: Event)
    requires Valid(c)
    ensures After(c, d, [e]) == Step(c, d, e)
  {
    assert [e][1..] == [];
    assert After(c, Step(c, d, e), []) == Step(c, d, e);
  }

  function RoundTrip(side: Side, op: nat, event: nat): seq<Event> {
    [Buy(side, op)] + [Stop(event)] + [Stop(event + 1)]
  }

  predicate SoldHere(d: Desk, d': Desk, side: Side, p: int) {
    SoldAtPrice(d'.history, p) == SoldAtPrice(d.history, p) + if p == BidOf(side) then 10_000 else 0
  }

  /** Buy one contract, sell it at the bid. */
  lemma RoundTripSells(d: Desk, k: nat, side: Side, op: nat, event: nat)
    requires Free(d, k) && d.stage == Some(TradeCandidate) && Consumed(d, BidOf(side)) == 0
    ensures var d' := After(Cfg(), d, RoundTrip(side, op, event));
      Free(d', k + 1) && d'.stage == Some(Closed) && d'.consumed == d.consumed[BidOf(side) := 10_000] && SoldHere(d, d', side, 5_000)
  {
    Displayed();
    BuyHolds(d, k, side, op);
    var d1 := Step(Cfg(), d, Buy(side, op));
    assert Consumed(d1, BidOf(side)) == 0;
    StopsOut(d1, k + 1, side, event);
    AfterBoth(Cfg(), d, [Buy(side, op)] + [Stop(event)], [Stop(event + 1)]);
    AfterBoth(Cfg(), d, [Buy(side, op)], [Stop(event)]);
    AfterOne(Cfg(), d, Buy(side, op));
    AfterOne(Cfg(), d1, Stop(event));
    AfterOne(Cfg(), Step(Cfg(), d1, Stop(event)), Stop(event + 1));
  }

  function Opening(): seq<Event> {
    Moves([Discover, Validate, Warmup, EntryWindow, Evaluating, TradeCandidate])
  }

  lemma OpeningFrees()
    ensures Free(EmptyDesk, 0) && After(Cfg(), EmptyDesk, Opening()) == EmptyDesk.(stage := Some(TradeCandidate))
  {
    var path := [Discover, Validate, Warmup, EntryWindow, Evaluating, TradeCandidate];
    assert path[1..] == [Validate, Warmup, EntryWindow, Evaluating, TradeCandidate];
    assert path[1..][1..] == [Warmup, EntryWindow, Evaluating, TradeCandidate];
    assert path[1..][1..][1..] == [EntryWindow, Evaluating, TradeCandidate];
    assert path[1..][1..][1..][1..] == [Evaluating, TradeCandidate];
    assert path[1..][1..][1..][1..][1..] == [TradeCandidate];
    assert Path(Some(Evaluating), [TradeCandidate]) && Path(Some(EntryWindow), [Evaluating, TradeCandidate]);
    assert Path(Some(Warmup), path[1..][1..][1..]) && Path(Some(Validate), path[1..][1..]);
    assert Path(None, path);
    MovesAlong(Cfg(), EmptyDesk, path);
  }

  /** One YES contract bought and sold at 0.50, then one NO contract bought. */
  function ThenNo(): seq<Event> {
    Opening() + RoundTrip(Yes, 1, 1) + Reopen() + [Buy(No, 2)]
  }

  lemma ThenNoHolds()
    ensures var d := After(Cfg(), EmptyDesk, ThenNo());
      Holds(d, 2, No, NoReason) && d.consumed == map[5_000 := 10_000] && SoldAtPrice(d.history, 5_000) == 10_000
  {
    Displayed();
    OpeningFrees();
    var d0 := EmptyDesk.(stage := Some(TradeCandidate));
    RoundTripSells(d0, 0, Yes, 1, 1);
    var d1 := After(Cfg(), d0, RoundTrip(Yes, 1, 1));
    ReopenFrees(d1, 1);
    var d2 := d1.(stage := Some(TradeCandidate));
    BuyHolds(d2, 1, No, 2);
    AfterBoth(Cfg(), EmptyDesk, Opening() + RoundTrip(Yes, 1, 1) + Reopen(), [Buy(No, 2)]);
    AfterBoth(Cfg(), EmptyDesk, Opening() + RoundTrip(Yes, 1, 1), Reopen());
    AfterBoth(Cfg(), EmptyDesk, Opening(), RoundTrip(Yes, 1, 1));
    AfterOne(Cfg(), d2, Buy(No, 2));
  }

  /** Every book the run looks at is the one on display. */
  predicate Unchanging(run: seq<Event>) {
    forall i | 0 <= i < |run| :: Unchanged(run[i])
  }

  predicate Unchanged(e: Event) {
    (e.SubmitEntry? || e.ObserveBook? || e.MonitorBook?) ==> e.book == Display()
  }

  lemma BothUnchanging(a: seq<Event>, b: seq<Event>)
    requires Unchanging(a) && Unchanging(b)
    ensures Unchanging(a + b)
  {
  }

  lemma {:induction false} MovesUnchanging(path: seq<Stage>)
    ensures Unchanging(Moves(path))
    decreases |path|
  {
    if path != [] {
      MovesUnchanging(path[1..]);
      BothUnchanging([EngineMove(path[0])], Moves(path[1..]));
    }
  }

  lemma TripUnchanging(side: Side, op: nat, event: nat)
    ensures Unchanging(RoundTrip(side, op, event))
  {
    assert Unchanged(Buy(side, op)) && Unchanged(Stop(event)) && Unchanged(Stop(event + 1));
  }

  lemma ThenNoUnchanging()
    ensures Unchanging(ThenNo())
  {
    MovesUnchanging([Discover, Validate, Warmup, EntryWindow, Evaluating, TradeCandidate]);
    TripUnchanging(Yes, 1, 1);
    MovesUnchanging([Monitoring, EntryWindow, Evaluating, TradeCandidate]);
    BothUnchanging(Opening(), RoundTrip(Yes, 1, 1));
    BothUnchanging(Opening() + RoundTrip(Yes, 1, 1), Reopen());
    assert Unchanged(Buy(No, 2));
    BothUnchanging(Opening() + RoundTrip(Yes, 1, 1) + Reopen(), [Buy(No, 2)]);
  }

  lemma UnchangingIsOk(run: seq<Event>)
    requires Unchanging(run)
    ensures EventsOk(run)
  {
    Displayed();
    forall i | 0 <= i < |run| ensures EventOk(run[i]) {
      assert Unchanged(run[i]);
    }
  }

  lemma {:induction false} NothingRises(run: seq<Event>, side: Side, p: int)
    requires Unchanging(run)
    ensures Rises(Display(), run, side, p) == 0
    decreases |run|
  {
    if run != [] {
      assert Unchanged(run[0]);
      NothingRises(run[1..], side, p);
    }
  }

  lemma ThenNoRun() returns (run: seq<Event>)
    ensures Unchanging(run)
    ensures var d := After(Cfg(), EmptyDesk, run);
      Holds(d, 2, No, NoReason) && d.consumed == map[5_000 := 10_000] && SoldAtPrice(d.history, 5_000) == 10_000
  {
    ThenNoUnchanging();
    ThenNoHolds();
    run := ThenNo();
  }

  lemma ForgottenAt(d: Desk)
    requires Holds(d, 2, No, NoReason) && d.consumed == map[5_000 := 10_000]
    ensures Shown(Bids(Display(), Yes), 5_000) - Consumed(d, 5_000) == 0
    ensures Shown(Bids(Display(), Yes), 5_000) - Consumed(Step(Cfg(), d, WATCH), 5_000) == 10_000
  {
    Displayed();
    WatchForgets(d, 2);
  }

  /**
    A reachable desk that forgets: the one displayed YES contract at 0.50 is sold, a NO
    contract is bought, and an observation of the unchanged book puts the YES contract back
    on offer.
   */
  lemma OtherSideForgets() returns (run: seq<Event>)
    ensures Configurable(Cfg()) && Unchanging(run) && EventsOk(run)
    ensures var d := After(Cfg(), EmptyDesk, run);
      && d.position.Some? && d.position.value.side == No && SoldAtPrice(d.history, 5_000) == 10_000
      && Shown(Bids(Display(), Yes), 5_000) - Consumed(d, 5_000) == 0
      && Shown(Bids(Display(), Yes), 5_000) - Consumed(Step(Cfg(), d, WATCH), 5_000) == 10_000
  {
    run := ThenNoRun();
    UnchangingIsOk(run);
    ForgottenAt(After(Cfg(), EmptyDesk, run));
  }

  /** From there: the NO contract is sold, and a YES contract bought and sold again. */
  function Again(): seq<Event> {
    [WATCH] + [Stop(3)] + [Stop(4)] + Reopen() + RoundTrip(Yes, 3, 5)
  }

  lemma AgainUnchanging()
    ensures Unchanging(Again())
  {
    assert Unchanged(WATCH) && Unchanged(Stop(3)) && Unchanged(Stop(4));
    BothUnchanging([WATCH], [Stop(3)]);
    BothUnchanging([WATCH] + [Stop(3)], [Stop(4)]);
    MovesUnchanging([Monitoring, EntryWindow, Evaluating, TradeCandidate]);
    BothUnchanging([WATCH] + [Stop(3)] + [Stop(4)], Reopen());
    TripUnchanging(Yes, 3, 5);
    BothUnchanging([WATCH] + [Stop(3)] + [Stop(4)] + Reopen(), RoundTrip(Yes, 3, 5));
  }

  lemma SecondTrip(d: Desk)
    requires Holds(d, 2, No, NoReason) && d.consumed == map[5_000 := 10_000]
    ensures var d' := After(Cfg(), d, Again());
      SoldAtPrice(d'.history, 5_000) == SoldAtPrice(d.history, 5_000) + 10_000
  {
    Displayed();
    WatchForgets(d, 2);
    var d1 := Step(Cfg(), d, WATCH);
    StopsOut(d1, 2, No, 3);
    var d2 := Step(Cfg(), d1, Stop(3));
    var d3 := Step(Cfg(), d2, Stop(4));
    assert SoldHere(d1, d3, No, 5_000);
    ReopenFrees(d3, 2);
    var d4 := d3.(stage := Some(TradeCandidate));
    RoundTripSells(d4, 2, Yes, 3, 5);
    AfterBoth(Cfg(), d, [WATCH] + [Stop(3)] + [Stop(4)] + Reopen(), RoundTrip(Yes, 3, 5));
    AfterBoth(Cfg(), d, [WATCH] + [Stop(3)] + [Stop(4)], Reopen());
    AfterBoth(Cfg(), d, [WATCH] + [Stop(3)], [Stop(4)]);
    AfterBoth(Cfg(), d, [WATCH], [Stop(3)]);
    AfterOne(Cfg(), d, WATCH);
    AfterOne(Cfg(), d1, Stop(3));
    AfterOne(Cfg(), d2, Stop(4));
  }

  lemma AgainRun(d: Desk) returns (run: seq<Event>)
    requires Holds(d, 2, No, NoReason) && d.consumed == map[5_000 := 10_000]
    ensures Unchanging(run) && SoldAtPrice(After(Cfg(), d, run).history, 5_000) == SoldAtPrice(d.history, 5_000) + 10_000
  {
    AgainUnchanging();
    SecondTrip(d);
    run := Again();
  }

  /**
    Displayed depth is sold twice: over a run from the empty desk in which the book never
    changes and shows one contract at 0.50, two contracts are sold there. So the one-side
    condition of the depth bound cannot be dropped.
   */
  lemma DepthIsSoldTwice() returns (run: seq<Event>)
    ensures Configurable(Cfg()) && Unchanging(run) && EventsOk(run)
    ensures Shown(Bids(Display(), Yes), 5_000) == 10_000 && Rises(Display(), run, Yes, 5_000) == 0
    ensures SoldAtPrice(After(Cfg(), EmptyDesk, run).history, 5_000) == 20_000
  {
    Displayed();
    var first := ThenNoRun();
    var second := AgainRun(After(Cfg(), EmptyDesk, first));
    AfterBoth(Cfg(), EmptyDesk, first, second);
    run := first + second;
    BothUnchanging(first, second);
    UnchangingIsOk(run);
    NothingRises(run, Yes, 5_000);
  }
}
