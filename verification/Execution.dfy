/**
  The paper matching engine of src/btc15/execution.py, one market at a time: a Desk
  gathers what the source keeps under that ticker in its dictionaries. Prices are
  1/10000 dollar, quantities 1/10000 contract (a lot is 0.01), money 1/100000000
  dollar, instants integers.

  An operation that raises leaves the desk as it was; `Result` carries the raise. The source
  rolls back through its checkpoint, which gives that desk back whenever opportunity ids are
  unused at entry (ExecutionCheckpoint.RestoreReturnsTheDesk).
 */
module Execution {
  import opened Wrappers
  import F = Fees

  const ONE: int := 10_000
  const LOT: int := 100
  const CONTRACT: int := 10_000

  // ---- Books ---------------------------------------------------------------

  datatype Side = Yes | No

  datatype Level = Level(price: int, quantity: int)

  /** The two bid ladders, best price first. */
  datatype Book = Book(yes: seq<Level>, no: seq<Level>, received: int, source: int, valid: bool)

  /** What a dictionary of levels gives when sorted: distinct prices inside (0, 1), descending. */
  predicate Ladder(levels: seq<Level>) {
    && (forall i | 0 <= i < |levels| :: 0 < levels[i].price < ONE && levels[i].quantity > 0)
    && (forall i, j | 0 <= i < j < |levels| :: levels[i].price > levels[j].price)
  }

  predicate Sorted(b: Book) {
    Ladder(b.yes) && Ladder(b.no)
  }

  function Bids(b: Book, side: Side): seq<Level> {
    if side == Yes then b.yes else b.no
  }

  /** Asks of a side are the other side's bids at the complementary price, cheapest first. */
  function Asks(b: Book, side: Side): seq<Level> {
    var other := Bids(b, if side == Yes then No else Yes);
    seq(|other|, i requires 0 <= i < |other| => Level(ONE - other[i].price, other[i].quantity))
  }

  function Best(levels: seq<Level>): Option<int> {
    if levels == [] then None else Some(levels[0].price)
  }

  /** The displayed quantity at a price. */
  function Shown(levels: seq<Level>, p: int): int {
    if levels == [] then 0 else if levels[0].price == p then levels[0].quantity else Shown(levels[1..], p)
  }

  function FloorLot(q: int): int {
    q / LOT * LOT
  }

  function Min(a: int, b: int): int { if a <= b then a else b }
  function Max(a: int, b: int): int { if a >= b then a else b }

  // ---- State ---------------------------------------------------------------

  datatype Config = Config(passive: bool, full: bool, oneTrade: bool, retries: nat, retryCooldown: int, postCloseCooldown: int,
                           latency: int, bookMaxAge: int, maxSkew: int, entryCutoff: int, queueNum: int, queueDen: int,
                           makerRate: int, takerRate: int, precision: int, fixedSize: int, minEntry: int, maxEntry: int)

  /** What the configuration class and the tick grid guarantee. */
  predicate Valid(c: Config) {
    && c.latency >= 0 && c.precision > 0 && c.queueDen > 0 && c.queueNum >= c.queueDen
    && c.makerRate >= 0 && c.takerRate >= 0
    && (c.full ==> !c.passive)
  }

  /** What the configuration class demands of these fields besides: balances in cents or in hundredths of one, two retries. */
  predicate Configurable(c: Config) {
    && Valid(c)
    && (c.precision == 1_000_000 || c.precision == 10_000)
    && c.retries <= 2 && c.retryCooldown >= 0 && c.postCloseCooldown >= 0
    && c.bookMaxAge >= 0 && c.maxSkew >= 0 && c.entryCutoff >= 1_000_000
    && c.fixedSize >= 0 && 0 < c.minEntry <= c.maxEntry < ONE
  }

  datatype Order = Order(id: nat, op: nat, side: Side, limit: int, quantity: int, created: int, eligible: int,
                         queue: int, originalQueue: int, remaining: int, attempt: nat, cycle: nat,
                         completedAt: Option<int>, cancelledAt: Option<int>, active: bool, carry: int)

  datatype Reason = NoReason | HardStop | TakeProfit | Invalidation | ProfitValue | StandardCashout | AtSettlement

  datatype Position = Position(op: nat, side: Side, quantity: int, bought: int, cost: int, fees: int, proceeds: int, entered: int,
                               maxFavorable: real, maxAdverse: real, exitReason: Reason, valueLimit: Option<int>)

  datatype Stage =
    | Discover | Validate | Warmup | Monitoring | EntryWindow | Evaluating | NoTrade | TradeCandidate
    | OrderPending | PartiallyFilled | OrderCancelled | PositionOpen | Exiting | SettlementPending | Closed
    | Failed | Halted

  datatype PauseEvent = Deactivated | Inactive | Activated | LevelsUpdated | MarketClosed | Determined | Disputed | Amended | Finalized

  datatype Pause = Pause(event: PauseEvent, since: int)

  datatype QuarantineReason = MetadataInvalid | MetadataChanged | FinalInvalid | FinalChanged | Legacy

  datatype Quarantine = Quarantine(reason: QuarantineReason, since: int)

  /** The accounting records of one market, oldest first. */
  datatype Record =
    | Submitted(order: Order)
    | Cancelled(id: nat, at: int)
    | Printed(id: nat, trade: string, quantity: int)
    | Bought(id: nat, quantity: int, price: int, fee: int, maker: bool, at: int)
    | Intent(reason: Reason, at: int, eligible: int)
    | Dropped(reason: Reason, at: int)
    | SoldAt(quantity: int, price: int, fee: int, reason: Reason, at: int, received: int)
    | TradeResult(position: Position, net: int, reason: Reason, settlement: Option<Side>, at: int)
    | Settled(result: Side, at: int)

  datatype Claim = EntryClaim(cycle: nat, retry: Option<nat>) | SettlementClaim

  datatype Desk = Desk(order: Option<Order>, position: Option<Position>, consumed: map<int, int>, eligible: Option<int>,
                       lastEvent: Option<nat>, quarantine: Option<Quarantine>, pause: Option<Pause>, stage: Option<Stage>,
                       claims: set<Claim>, reserved: bool, evidence: set<Side>, history: seq<Record>)

  const EmptyDesk := Desk(None, None, map[], None, None, None, None, None, {}, false, {}, [])

  /** What a market sees of the rest of the portfolio. */
  datatype Shared = Shared(lastClosed: Option<int>, halted: bool)

  /** The two flags another thread may raise between any two fills. */
  datatype Gate = Gate(paused: bool, pending: bool)

  datatype Fault = InvalidTransition | FillPrice | FillQuantity | ReservationRejected | MissingTarget | NoIntent
                 | PrematureSettlement | ReviewRequired | TradeQuantity | TradePrice

  // ---- Lifecycle -----------------------------------------------------------

  function Next(s: Stage): set<Stage> {
    match s
    case Discover => {Validate}
    case Validate => {Warmup}
    case Warmup => {Monitoring, EntryWindow, SettlementPending}
    case Monitoring => {EntryWindow, SettlementPending}
    case EntryWindow => {Evaluating, SettlementPending}
    case Evaluating => {NoTrade, TradeCandidate, SettlementPending}
    case NoTrade => {Evaluating, SettlementPending}
    case TradeCandidate => {OrderPending, NoTrade}
    case OrderPending => {PartiallyFilled, PositionOpen, OrderCancelled}
    case PartiallyFilled => {PositionOpen, OrderCancelled}
    case OrderCancelled => {Evaluating, PositionOpen, SettlementPending}
    case PositionOpen => {Exiting, SettlementPending}
    case Exiting => {PositionOpen, Closed, SettlementPending}
    case SettlementPending => {Closed}
    case Closed => {Monitoring}
    case Failed => {}
    case Halted => {}
  }

  function Moved(d: Desk, target: Stage): (r: Result<Desk, Fault>)
    ensures r.Ok? ==> r.value == d.(stage := Some(target))
  {
    if d.stage == Some(target) then Ok(d)
    else if d.stage.None? then if target == Discover then Ok(d.(stage := Some(target))) else Raised(InvalidTransition)
    else if target in Next(d.stage.value) || target == Failed || target == Halted then Ok(d.(stage := Some(target)))
    else Raised(InvalidTransition)
  }

  // ---- Predicates on a market ----------------------------------------------

  predicate Working(d: Desk) {
    d.order.Some? && d.order.value.active
  }

  predicate PostCloseReady(c: Config, s: Shared, at: int) {
    c.postCloseCooldown == 0 || s.lastClosed.None? || at >= s.lastClosed.value + c.postCloseCooldown
  }

  predicate TradeLimitReached(c: Config, d: Desk) {
    c.oneTrade
    && (d.position.Some?
        || (d.order.Some?
            && (d.order.value.remaining < d.order.value.quantity || d.order.value.completedAt.Some? || d.order.value.cycle > 1)))
  }

  predicate Untroubled(s: Shared, d: Desk) {
    d.position.None? && d.quarantine.None? && d.pause.None? && !s.halted
  }

  predicate ReentryReady(c: Config, s: Shared, d: Desk, at: int) {
    && !c.oneTrade && d.order.Some? && !d.order.value.active
    && d.order.value.completedAt.Some? && at - d.order.value.completedAt.value >= c.retryCooldown
    && PostCloseReady(c, s, at) && Untroubled(s, d)
  }

  predicate RetryReady(c: Config, s: Shared, d: Desk, at: int) {
    && !TradeLimitReached(c, d) && d.order.Some? && !d.order.value.active
    && d.order.value.remaining == d.order.value.quantity
    && Untroubled(s, d)
    && d.order.value.attempt <= c.retries
    && d.order.value.cancelledAt.Some? && at - d.order.value.cancelledAt.value >= c.retryCooldown
    && PostCloseReady(c, s, at)
    && d.stage == Some(OrderCancelled)
  }

  /** Whether a strike counts against its event's two. */
  predicate Occupies(d: Desk) {
    || d.position.Some?
    || (d.order.Some?
        && (d.order.value.active || d.order.value.remaining < d.order.value.quantity
            || d.order.value.completedAt.Some? || d.order.value.cycle > 1))
  }

  function Noted(d: Desk, r: Record): Desk {
    d.(history := d.history + [r])
  }

  // ---- Cancelling ----------------------------------------------------------

  function Cancel(d: Desk, at: int): (r: Result<Desk, Fault>)
    ensures r.Ok? && d.order.Some? ==> r.value.order.Some?
  {
    if !Working(d) then Ok(d)
    else
      var o := d.order.value;
      var idle := Noted(d.(order := Some(o.(active := false, cancelledAt := Some(at)))), Cancelled(o.id, at));
      var moved :- Moved(idle, OrderCancelled);
      if d.position.Some? then Moved(moved, PositionOpen) else Ok(moved.(reserved := false))
  }

  // ---- Buying --------------------------------------------------------------

  datatype FillStatus = Filled | Blocked | Ignored

  function NewPosition(o: Order, at: int): Position {
    Position(o.op, o.side, 0, 0, 0, 0, 0, at, 0.0, 0.0, NoReason, None)
  }

  /** The accounting of one purchase. */
  function BookPurchase(c: Config, d: Desk, q: int, price: int, at: int, maker: bool): Desk
    requires d.order.Some? && c.precision > 0
  {
    var o := d.order.value;
    var charged := F.Charge(c.precision, o.carry, price, q, if maker then c.makerRate else c.takerRate, F.Buy);
    var o' := o.(carry := charged.carry, remaining := o.remaining - q, active := o.remaining - q > 0);
    var pos := d.position.GetOr(NewPosition(o, at));
    var pos' := pos.(quantity := pos.quantity + q, bought := pos.bought + q, cost := pos.cost + q * price,
                     fees := pos.fees + charged.fee);
    Noted(d.(order := Some(o'), position := Some(pos')), Bought(o.id, q, price, charged.fee, maker, at))
  }

  /** `fill`. A remaining quantity is a whole number of lots, so rounding it to lots changes nothing. */
  function Fill(c: Config, s: Shared, d: Desk, quantity: int, price: int, at: int, maker: bool, gate: Gate)
    : (r: Result<(Desk, FillStatus), Fault>)
    requires d.order.Some? && c.precision > 0
    ensures r.Ok? ==> r.value.0.order.Some?
  {
    var o := d.order.value;
    if gate.paused then Ok((d, Blocked))
    else if d.position.None? && !PostCloseReady(c, s, at) then
      var d' :- Cancel(d, at);
      Ok((d', Blocked))
    else if gate.pending then Ok((d, Blocked))
    else if c.oneTrade && o.cycle > 1 && d.position.None? then
      var d' :- Cancel(d, at);
      Ok((d', Blocked))
    else if !(0 < price < ONE) || price > o.limit then Raised(FillPrice)
    else if !o.active || at < o.eligible || d.quarantine.Some? || d.pause.Some? then Ok((d, Ignored))
    else if quantity <= 0 || quantity % LOT != 0 then Raised(FillQuantity)
    else
      var q := Min(quantity, o.remaining);
      if q <= 0 then Ok((d, Ignored))
      else
        var d' :- Moved(BookPurchase(c, d, q, price, at, maker), if o.remaining - q <= 0 then PositionOpen else PartiallyFilled);
        Ok((d', Filled))
  }

  /** How the level loop of `_aggressive` ends. */
  datatype Match = Ran(desk: Desk) | Returned(desk: Desk) | Interrupted(desk: Desk) | Broke(fault: Fault)

  function Outcome(r: Result<Desk, Fault>): Match {
    match r
    case Ok(d) => Returned(d)
    case Raised(f) => Broke(f)
  }

  /** The loop over displayed asks; `gates(k)` is what the other threads show before fill k. */
  function MatchLevels(c: Config, s: Shared, d: Desk, asks: seq<Level>, tick: int -> bool, at: int, gates: nat -> Gate, k: nat): Match
    requires d.order.Some? && c.precision > 0
    decreases |asks|
  {
    var o := d.order.value;
    if asks == [] || asks[0].price > o.limit then Ran(d)
    else if !tick(asks[0].price) then Outcome(Cancel(d, at))
    else if FloorLot(asks[0].quantity) <= 0 then MatchLevels(c, s, d, asks[1..], tick, at, gates, k + 1)
    else
      match Fill(c, s, d, FloorLot(asks[0].quantity), asks[0].price, at, false, gates(k))
      case Raised(f) => Broke(f)
      case Ok((d', status)) =>
        if status == Blocked then if c.full then Interrupted(d') else Returned(d')
        else if !d'.order.value.active then Ran(d')
        else MatchLevels(c, s, d', asks[1..], tick, at, gates, k + 1)
  }

  /** The market's terms at an instant. */
  datatype Terms = Terms(tradable: bool, close: int)

  predicate ExecutionBlocked(c: Config, s: Shared, d: Desk, b: Book, m: Terms, at: int) {
    || !b.valid || !(0 <= at - b.received <= c.bookMaxAge)
    || !(-c.maxSkew <= at - b.source <= c.bookMaxAge)
    || !m.tradable || !(m.close - at > c.entryCutoff) || s.halted || d.quarantine.Some?
  }

  /** A reachable level off the tick grid. */
  predicate OffTick(asks: seq<Level>, limit: int, tick: int -> bool) {
    asks != [] && asks[0].price <= limit && (!tick(asks[0].price) || OffTick(asks[1..], limit, tick))
  }

  function Available(asks: seq<Level>, limit: int, tick: int -> bool): int {
    if asks == [] then 0
    else
      (if asks[0].price <= limit && tick(asks[0].price) && asks[0].quantity > 0 then FloorLot(asks[0].quantity) else 0)
      + Available(asks[1..], limit, tick)
  }

  /** `_aggressive`. */
  function AggressiveBody(c: Config, s: Shared, d: Desk, b: Book, m: Terms, tick: int -> bool, at: int, gates: nat -> Gate): Match
    requires c.precision > 0
  {
    if c.passive || !Working(d) || at < d.order.value.eligible || d.pause.Some? || gates(0).pending then Returned(d)
    else if ExecutionBlocked(c, s, d, b, m, at) then Outcome(Cancel(d, at))
    else
      var o := d.order.value;
      var asks := Asks(b, o.side);
      if c.full && (OffTick(asks, o.limit, tick) || Available(asks, o.limit, tick) < o.remaining) then Outcome(Cancel(d, at))
      else
        match MatchLevels(c, s, d, asks, tick, at, gates, 1)
        case Ran(d') => Outcome(Cancel(d', at))
        case other => other
  }

  /** `aggressive` called on its own: an interrupted full-size match is rolled back before the cancellation. */
  function Aggressive(c: Config, s: Shared, d: Desk, b: Book, m: Terms, tick: int -> bool, at: int, gates: nat -> Gate)
    : Result<Desk, Fault>
    requires c.precision > 0
  {
    match AggressiveBody(c, s, d, b, m, tick, at, gates)
    case Ran(d') => Ok(d')
    case Returned(d') => Ok(d')
    case Interrupted(_) => Cancel(d, at)
    case Broke(f) => Raised(f)
  }

  /** `aggressive` called inside `submit`: the outer transaction holds, so nothing is rolled back. */
  function NestedAggressive(c: Config, s: Shared, d: Desk, b: Book, m: Terms, tick: int -> bool, at: int, gates: nat -> Gate)
    : Result<Desk, Fault>
    requires c.precision > 0
  {
    match AggressiveBody(c, s, d, b, m, tick, at, gates)
    case Ran(d') => Ok(d')
    case Returned(d') => Ok(d')
    case Interrupted(d') => Cancel(d', at)
    case Broke(f) => Raised(f)
  }

  // ---- Submitting ----------------------------------------------------------

  /**
    An entry request. The flags are the verdicts of the signal, the health checks and
    the sizing policy; `price` is the selected limit, None where none is supported;
    `crowded` says the event already has its two strikes.
   */
  datatype Entry = Entry(op: nat, at: int, gate: Gate, enabled: bool, crowded: bool, candidate: bool, healthy: bool, inWindow: bool,
                         leadOk: bool, side: Option<Side>, probabilityOk: bool, edgeOk: bool, price: Option<int>,
                         limitEdgeOk: bool, contracts: nat)

  datatype Rejection =
    | CollectorRecovering | ReferencePending | StrategyDisabled | MarketTradeLimit | EventTradeLimit | PostCloseCooldown
    | Quarantined | VenuePaused | NotCandidate | GateBlocked | NotTradable | OutsideWindow | LeadRecheck | InvalidSide
    | BookInvalid | BookAge | NoAsk | EntryPrice | NoBid | Probability | NetEdge | UnsupportedTick | LimitEdge
    | ExistingPosition | AlreadyAttempted | NoSize | FullSizeRequired | AlreadyClaimed

  function ClaimOf(c: Config, s: Shared, d: Desk, at: int): Claim {
    var retry, reentry := RetryReady(c, s, d, at), ReentryReady(c, s, d, at);
    EntryClaim(if reentry then d.order.value.cycle + 1 else if retry then d.order.value.cycle else 1,
               if retry then Some(d.order.value.attempt + 1) else None)
  }

  /** The checks of `submit` in their order. */
  function Refusal(c: Config, s: Shared, d: Desk, b: Book, m: Terms, tick: int -> bool, e: Entry): Option<Rejection> {
    if e.gate.paused then Some(CollectorRecovering)
    else if e.gate.pending then Some(ReferencePending)
    else if !e.enabled then Some(StrategyDisabled)
    else if TradeLimitReached(c, d) then Some(MarketTradeLimit)
    else if e.crowded then Some(EventTradeLimit)
    else if !PostCloseReady(c, s, e.at) then Some(PostCloseCooldown)
    else if d.quarantine.Some? then Some(Quarantined)
    else if d.pause.Some? then Some(VenuePaused)
    else if !e.candidate then Some(NotCandidate)
    else if !e.healthy then Some(GateBlocked)
    else if !m.tradable then Some(NotTradable)
    else if !e.inWindow then Some(OutsideWindow)
    else if !e.leadOk then Some(LeadRecheck)
    else if e.side.None? then Some(InvalidSide)
    else if !b.valid then Some(BookInvalid)
    else if !(0 <= e.at - b.received <= c.bookMaxAge) then Some(BookAge)
    else
      var ask := Best(Asks(b, e.side.value));
      if ask.None? then Some(NoAsk)
      else if !(c.minEntry <= ask.value <= c.maxEntry) then Some(EntryPrice)
      else if Best(Bids(b, e.side.value)).None? then Some(NoBid)
      else if !e.probabilityOk then Some(Probability)
      else if !e.edgeOk then Some(NetEdge)
      else if e.price.None? || !tick(e.price.value) then Some(UnsupportedTick)
      else if !c.passive && (e.price.value < ask.value || !e.limitEdgeOk) then Some(LimitEdge)
      else if d.position.Some? then Some(ExistingPosition)
      else if d.order.Some? && !RetryReady(c, s, d, e.at) && !ReentryReady(c, s, d, e.at) then Some(AlreadyAttempted)
      else if e.contracts == 0 then Some(NoSize)
      else if c.full && e.contracts != c.fixedSize then Some(FullSizeRequired)
      else if ClaimOf(c, s, d, e.at) in d.claims then Some(AlreadyClaimed)
      else None
  }

  function DepthAtOrAbove(levels: seq<Level>, price: int): int {
    if levels == [] then 0 else (if levels[0].price >= price then levels[0].quantity else 0) + DepthAtOrAbove(levels[1..], price)
  }

  /** Queue ahead, scaled and rounded up to lots. */
  function QueueAhead(c: Config, levels: seq<Level>, price: int): int
    requires c.queueDen > 0
  {
    F.CeilDiv(DepthAtOrAbove(levels, price) * c.queueNum, c.queueDen * LOT) * LOT
  }

  function NewOrder(c: Config, s: Shared, d: Desk, b: Book, e: Entry): Order
    requires e.side.Some? && e.price.Some? && c.queueDen > 0
  {
    var claim := ClaimOf(c, s, d, e.at);
    var queue := QueueAhead(c, Bids(b, e.side.value), e.price.value);
    var quantity := e.contracts * CONTRACT;
    Order(|d.history|, e.op, e.side.value, e.price.value, quantity, e.at, e.at + c.latency, queue, queue, quantity,
          claim.retry.GetOr(1), claim.cycle, None, None, true, 0)
  }

  function Placed(c: Config, s: Shared, d: Desk, b: Book, e: Entry): Result<Desk, Fault>
    requires e.side.Some? && e.price.Some? && c.queueDen > 0
  {
    if d.reserved then Raised(ReservationRejected)
    else
      var o, claim := NewOrder(c, s, d, b, e), ClaimOf(c, s, d, e.at);
      var placed := Noted(d.(order := Some(o), reserved := true, claims := d.claims + {claim}), Submitted(o));
      if claim.retry.Some? then
        var evaluating :- Moved(placed, Evaluating);
        var candidate :- Moved(evaluating, TradeCandidate);
        Moved(candidate, OrderPending)
      else Moved(placed, OrderPending)
  }

  /** `submit`. With no latency the match happens inside the same transaction. */
  function Submit(c: Config, s: Shared, d: Desk, b: Book, m: Terms, tick: int -> bool, e: Entry, gates: nat -> Gate)
    : Result<(Desk, Option<Rejection>), Fault>
    requires Valid(c)
  {
    var refusal := Refusal(c, s, d, b, m, tick, e);
    if refusal.Some? then Ok((d, refusal))
    else
      var placed :- Placed(c, s, d, b, e);
      if !c.passive && c.latency == 0 then
        var matched :- NestedAggressive(c, s, placed, b, m, tick, e.at, gates);
        Ok((matched, None))
      else Ok((placed, None))
  }

  // ---- Passive fills -------------------------------------------------------

  /** A public trade: `price` in YES terms, None where it cannot be read. */
  datatype Print = Print(trade: string, source: int, taker: Option<Side>, price: Option<int>, quantity: Option<int>)

  function PriceFor(side: Side, yesPrice: int): int {
    if side == Yes then yesPrice else ONE - yesPrice
  }

  /** Whether a trade reaches the resting order at all. */
  predicate Reaches(c: Config, d: Desk, p: Print, at: int, gate: Gate) {
    && Working(d) && c.passive && at >= d.order.value.eligible && d.pause.None?
    && !gate.pending
    && d.order.value.eligible <= p.source <= at + c.maxSkew && at - p.source <= c.bookMaxAge
    && p.taker.Some? && p.taker.value != d.order.value.side
  }

  /** The order after a trade has passed through the queue ahead of it. */
  function Queued(d: Desk, p: Print): Desk
    requires d.order.Some? && p.quantity.Some?
  {
    var o := d.order.value;
    Noted(d.(order := Some(o.(queue := o.queue - Min(o.queue, p.quantity.value)))), Printed(o.id, p.trade, p.quantity.value))
  }

  /** The volume left for the order itself, in whole lots. */
  function RestAfterQueue(d: Desk, p: Print): int
    requires d.order.Some? && p.quantity.Some?
  {
    FloorLot(p.quantity.value - Min(d.order.value.queue, p.quantity.value))
  }

  /** `trade`, for a trade id not seen before. */
  function Traded(c: Config, s: Shared, d: Desk, p: Print, at: int, gate: Gate): Result<Desk, Fault>
    requires c.precision > 0
  {
    if !Reaches(c, d, p, at, gate) then Ok(d)
    else if p.price.None? || !(0 < p.price.value < ONE) then Raised(TradePrice)
    else
      var o := d.order.value;
      if PriceFor(o.side, p.price.value) > o.limit then Ok(d)
      else if p.quantity.None? || p.quantity.value <= 0 || p.quantity.value % LOT != 0 then Raised(TradeQuantity)
      else
        if RestAfterQueue(d, p) > 0 then
        var filled :- Fill(c, s, Queued(d, p), RestAfterQueue(d, p), o.limit, at, true, gate);
        Ok(filled.0)
      else Ok(Queued(d, p))
  }

  // ---- Exits ---------------------------------------------------------------

  function Consumed(d: Desk, p: int): int {
    if p in d.consumed then d.consumed[p] else 0
  }

  predicate ObservationUsable(c: Config, d: Desk, b: Book, at: int, source: int, continuous: bool) {
    && continuous && d.position.Some? && d.quarantine.None? && d.pause.None? && b.valid
    && 0 <= at - b.received <= c.bookMaxAge && -c.maxSkew <= at - source <= c.bookMaxAge
  }

  /** `observe_exit_liquidity`: a visible drop caps what is held to be consumed. */
  function Observe(c: Config, d: Desk, b: Book, at: int, source: int, continuous: bool): Desk {
    if !ObservationUsable(c, d, b, at, source, continuous) then d
    else
      var levels := Bids(b, d.position.value.side);
      d.(consumed := map p | p in d.consumed :: Min(d.consumed[p], Shown(levels, p)))
  }

  predicate Limited(reason: Reason) {
    reason == TakeProfit || reason == ProfitValue || reason == StandardCashout
  }

  predicate ValueReason(reason: Reason) {
    reason == ProfitValue || reason == StandardCashout
  }

  function Finish(d: Desk, at: int, reason: Reason, settlement: Option<Side>): Result<Desk, Fault>
    requires d.position.Some?
  {
    var pos := d.position.value;
    var order := if d.order.Some? && d.order.value.op == pos.op then Some(d.order.value.(completedAt := Some(at))) else d.order;
    Moved(Noted(d.(position := None, order := order, reserved := false),
                TradeResult(pos, pos.proceeds - pos.cost - pos.fees, reason, settlement, at)), Closed)
  }

  /** How much of a level an exit takes. */
  function Sellable(c: Config, d: Desk, l: Level, tick: int -> bool, reason: Reason, target: Option<int>, carry: int): int
    requires d.position.Some? && c.precision > 0
  {
    var pos := d.position.value;
    var q := FloorLot(Min(pos.quantity, Max(0, l.quantity - Consumed(d, l.price))));
    if q <= 0 || !tick(l.price) then 0
    else if !c.full && Limited(reason) && target.Some? && l.price < target.value then 0
    else if !c.full && reason == StandardCashout && q == pos.quantity
            && pos.proceeds + q * l.price - F.Charge(c.precision, carry, l.price, q, c.takerRate, F.Sell).fee - pos.cost - pos.fees
               < pos.bought * 1_000 then 0
    else q
  }

  /** The accounting of one sale. */
  function BookSale(d: Desk, q: int, price: int, fee: int, reason: Reason, at: int, received: int): Desk
    requires d.position.Some?
  {
    var pos := d.position.value;
    Noted(d.(consumed := d.consumed[price := Consumed(d, price) + q],
             position := Some(pos.(quantity := pos.quantity - q, proceeds := pos.proceeds + q * price, fees := pos.fees + fee))),
          SoldAt(q, price, fee, reason, at, received))
  }

  /** The loop over displayed bids; the position is closed as soon as nothing remains. */
  function SellLevels(c: Config, d: Desk, bids: seq<Level>, tick: int -> bool, reason: Reason, target: Option<int>, at: int,
                      received: int, carry: int): (r: Result<Desk, Fault>)
    requires d.position.Some? && c.precision > 0
    decreases |bids|
  {
    if bids == [] then Ok(d)
    else
      var q := Sellable(c, d, bids[0], tick, reason, target, carry);
      if q == 0 then SellLevels(c, d, bids[1..], tick, reason, target, at, received, carry)
      else
        var charged := F.Charge(c.precision, carry, bids[0].price, q, c.takerRate, F.Sell);
        var sold := BookSale(d, q, bids[0].price, charged.fee, reason, at, received);
        if sold.position.value.quantity == 0 then Finish(sold, at, reason, None)
        else SellLevels(c, sold, bids[1..], tick, reason, target, at, received, charged.carry)
  }

  function ExpireValueExit(d: Desk, at: int): Desk
    requires d.position.Some?
  {
    var pos := d.position.value;
    Noted(d.(position := Some(pos.(exitReason := NoReason, valueLimit := None)), eligible := None), Dropped(pos.exitReason, at))
  }

  /** What `monitor` has made of a quote. */
  datatype Quote = Quote(book: Book, mark: real, reason: Reason, target: Option<int>, at: int, event: nat, clear: bool)

  /** The eligible branch of `_commit_monitor`: one immediate-or-cancel pass over the bids. */
  function Execute(c: Config, d: Desk, tick: int -> bool, q: Quote): Result<Desk, Fault>
    requires d.position.Some? && c.precision > 0
  {
    var ready :- Cancel(d.(lastEvent := Some(q.event)), q.at);
    var exiting :- Moved(ready, Exiting);
    if exiting.position.None? then Raised(NoIntent)
    else if !c.full && Limited(q.reason) && q.target.None? then Raised(MissingTarget)
    else
      var sold :- SellLevels(c, exiting, Bids(q.book, exiting.position.value.side), tick, q.reason, q.target, q.at, q.book.received, 0);
      if sold.position.None? then Ok(sold)
      else
        var kept := if !c.full && ValueReason(q.reason) then ExpireValueExit(sold, q.at) else sold;
        Moved(kept, PositionOpen)
  }

  function Extremes(d: Desk, mark: real): Desk
    requires d.position.Some?
  {
    var pos := d.position.value;
    d.(position := Some(pos.(maxFavorable := if mark > pos.maxFavorable then mark else pos.maxFavorable,
                             maxAdverse := if mark < pos.maxAdverse then mark else pos.maxAdverse)))
  }

  /** A changed or cleared trigger drops the intent, and with it the latency already served. */
  function DropChanged(d: Desk, q: Quote): Desk
    requires d.position.Some?
  {
    var pos := d.position.value;
    if pos.exitReason != NoReason && q.reason != pos.exitReason && (q.reason != NoReason || q.clear)
    then Noted(d.(position := Some(pos.(exitReason := NoReason)), eligible := None), Dropped(pos.exitReason, q.at))
    else d
  }

  function Intend(c: Config, d: Desk, q: Quote): Result<Desk, Fault>
    requires d.position.Some?
  {
    var pos := d.position.value.(exitReason := q.reason);
    var intended := d.(position := Some(pos));
    var ready :-
      if c.full || q.reason == HardStop || ValueReason(q.reason) then
        var cancelled :- Cancel(intended, q.at);
        Ok(cancelled.(position := Some(pos.(valueLimit := if q.reason == HardStop then None else q.target))))
      else Ok(intended);
    Ok(Noted(ready.(lastEvent := Some(q.event), eligible := Some(q.at + c.latency)), Intent(q.reason, q.at, q.at + c.latency)))
  }

  /** `_commit_monitor`. */
  function Commit(c: Config, d: Desk, tick: int -> bool, q: Quote): Result<Desk, Fault>
    requires d.position.Some? && c.precision > 0
  {
    var current := DropChanged(Extremes(d, q.mark), q);
    if q.reason == NoReason then Ok(current)
    else if current.position.value.exitReason != NoReason && current.lastEvent == Some(q.event) then Ok(current)
    else if current.position.value.exitReason == NoReason then Intend(c, current, q)
    else if current.eligible.None? then Raised(NoIntent)
    else if q.at < current.eligible.value || q.book.received < current.eligible.value then Ok(current)
    else Execute(c, current, tick, q)
  }

  predicate NoNewExtreme(pos: Position, mark: real) {
    pos.maxAdverse <= mark <= pos.maxFavorable
  }

  /** The second shortcut's test: some level could still be sold. */
  predicate AnySellable(c: Config, d: Desk, levels: seq<Level>, tick: int -> bool, reason: Reason, target: Option<int>)
    requires d.position.Some?
  {
    exists i | 0 <= i < |levels| ::
      && Min(d.position.value.quantity, levels[i].quantity - Consumed(d, levels[i].price)) >= LOT
      && tick(levels[i].price)
      && (c.full || reason != TakeProfit || (target.Some? && levels[i].price >= target.value))
  }

  predicate WaitingOnIntent(d: Desk, q: Quote, warning: bool)
    requires d.position.Some?
  {
    && !warning && q.reason != NoReason && q.reason == d.position.value.exitReason && NoNewExtreme(d.position.value, q.mark)
    && (d.lastEvent == Some(q.event)
        || (d.eligible.Some? && (q.at < d.eligible.value || q.book.received < d.eligible.value)))
  }

  predicate NothingToSell(c: Config, d: Desk, tick: int -> bool, q: Quote, warning: bool)
    requires d.position.Some?
  {
    var pos := d.position.value;
    && !warning && (c.full || q.reason == HardStop || q.reason == TakeProfit || q.reason == Invalidation)
    && q.reason == pos.exitReason && pos.quantity < pos.bought && NoNewExtreme(pos, q.mark) && !Working(d)
    && !AnySellable(c, d, Bids(q.book, pos.side), tick, q.reason, q.target)
  }

  /** `_apply_monitor`: the two shortcuts, then the transaction. */
  function Apply(c: Config, d: Desk, tick: int -> bool, q: Quote, warning: bool): Result<Desk, Fault>
    requires d.position.Some? && c.precision > 0
  {
    if WaitingOnIntent(d, q, warning) || NothingToSell(c, d, tick, q, warning) then Ok(d) else Commit(c, d, tick, q)
  }

  /**
    Verdicts `monitor` asks for: the stop price, the snapped take-profit target, the two
    value signals' limits, and what the probability model says.
   */
  datatype Signals = Signals(stop: int, target: Option<int>, warning: bool, cashout: Option<int>, invalid: bool,
                             modelAvailable: bool, value: Option<int>)

  predicate StopHit(bid: int, g: Signals) {
    0 < g.stop && bid <= g.stop
  }

  /** The reason and limit a fresh look at the quote gives. */
  function Reading(pos: Position, bid: int, g: Signals): (Reason, Option<int>) {
    if pos.exitReason == HardStop || StopHit(bid, g) then (HardStop, g.target)
    else if g.target.Some? && bid >= g.target.value then (TakeProfit, g.target)
    else if g.cashout.Some? then (StandardCashout, g.cashout)
    else if g.modelAvailable && g.invalid then (Invalidation, g.target)
    else if g.value.Some? then (ProfitValue, g.value)
    else (NoReason, g.target)
  }

  function Mark(pos: Position, bid: int): real {
    if pos.bought == 0 then 0.0 else bid as real - pos.cost as real / pos.bought as real
  }

  predicate MonitorBlocked(c: Config, d: Desk, b: Book, m: Terms, at: int) {
    || d.position.None? || d.quarantine.Some? || d.pause.Some? || !b.valid || !m.tradable
    || Best(Bids(b, d.position.value.side)).None? || !(0 <= at - b.received <= c.bookMaxAge)
  }

  /** A part of `monitor` that is a transaction of its own: what it raises is rolled back. */
  function Kept(d: Desk, r: Result<Desk, Fault>): Desk {
    if r.Ok? then r.value else d
  }

  /** The last part of `monitor`: evaluate the quote afresh. */
  function Evaluate(c: Config, d: Desk, b: Book, tick: int -> bool, at: int, event: nat, g: Signals): Desk
    requires d.position.Some? && c.precision > 0 && Bids(b, d.position.value.side) != []
  {
    var pos := d.position.value;
    var bid := Bids(b, pos.side)[0].price;
    var (reason, target) := Reading(pos, bid, g);
    var clear := g.modelAvailable || pos.exitReason != Invalidation;
    var q := Quote(b, Mark(pos, bid), reason, target, at, event, clear);
    if !g.warning && reason == NoReason && (pos.exitReason == NoReason || !clear) && NoNewExtreme(pos, q.mark) then d
    else Kept(d, Apply(c, d, tick, q, g.warning))
  }

  /** The committed value exit of `monitor`: expired, or worked once more. */
  function WorkValueExit(c: Config, d: Desk, b: Book, m: Terms, tick: int -> bool, at: int, event: nat, g: Signals): Desk
    requires d.position.Some? && c.precision > 0 && Bids(b, d.position.value.side) != []
  {
    var pos := d.position.value;
    var bid := Bids(b, pos.side)[0].price;
    if pos.exitReason == StandardCashout && m.close - at <= 120_000_000 then ExpireValueExit(d, at)
    else if pos.exitReason == StandardCashout && StopHit(bid, g) then ExpireValueExit(d, at)
    else if d.eligible.Some? && at > d.eligible.value + 2_000_000 then ExpireValueExit(d, at)
    else Kept(d, Apply(c, d, tick, Quote(b, Mark(pos, bid), pos.exitReason, pos.valueLimit, at, event, true), false))
  }

  /** `monitor`. */
  function Monitor(c: Config, d: Desk, b: Book, m: Terms, tick: int -> bool, at: int, event: nat, g: Signals): Desk
    requires c.precision > 0
  {
    if MonitorBlocked(c, d, b, m, at) then d
    else
      var pos := d.position.value;
      var bid := Bids(b, pos.side)[0].price;
      if c.full && pos.exitReason != NoReason then
        Kept(d, Apply(c, d, tick, Quote(b, Mark(pos, bid), pos.exitReason, None, at, event, true), false))
      else if ValueReason(pos.exitReason) then
        var d' := WorkValueExit(c, d, b, m, tick, at, event, g);
        if d'.position.None? || d'.position.value.exitReason == pos.exitReason || Bids(b, d'.position.value.side) == [] then d'
        else Evaluate(c, d', b, tick, at, event, g)
      else Evaluate(c, d, b, tick, at, event, g)
  }

  // ---- Restrictions and settlement -----------------------------------------

  predicate Terminal(e: PauseEvent) {
    e == MarketClosed || e == Determined || e == Disputed || e == Amended || e == Finalized
  }

  predicate Resumable(e: PauseEvent) {
    e == Deactivated || e == Inactive || e == Activated || e == LevelsUpdated
  }

  /** `pause_market`. */
  function PauseMarket(d: Desk, at: int, event: PauseEvent): Result<Desk, Fault> {
    if d.pause.Some? && (at <= d.pause.value.since || Terminal(d.pause.value.event)) then Ok(d)
    else
      var idle :- Cancel(d, at);
      Ok(idle.(pause := Some(Pause(event, at))))
  }

  /** `resume_market`; `confirmed` is a REST observation of the pinned contract as tradable under a sound clock. */
  function ResumeMarket(d: Desk, at: int, started: int, confirmed: bool): Desk {
    if d.pause.None? || !Resumable(d.pause.value.event) || d.quarantine.Some?
       || d.stage == Some(Halted) || d.stage == Some(Failed) || d.stage == Some(Closed) || d.stage == Some(SettlementPending)
       || !confirmed || !(d.pause.value.since < started <= at)
    then d
    else d.(pause := None)
  }

  /** `quarantine`. */
  function QuarantineMarket(d: Desk, at: int, reason: QuarantineReason): Result<Desk, Fault> {
    if d.stage == Some(Failed) || (d.stage == Some(Halted) && d.quarantine.None? && reason != Legacy) || d.quarantine.Some? then Ok(d)
    else
      var idle :- Cancel(d, at);
      Moved(idle.(quarantine := Some(Quarantine(reason, at))), Halted)
  }

  /** `recover_stale_metadata`; `proven` is the repaired observation's hash match. */
  function RecoverMetadata(s: Shared, d: Desk, at: int, started: int, proven: bool): Desk {
    if d.quarantine.None? || d.quarantine.value.reason != MetadataInvalid || s.halted || d.pause.Some? || d.stage != Some(Halted)
       || !proven || !(d.quarantine.value.since < started <= at)
    then d
    else d.(quarantine := None, stage := Some(if d.position.Some? then PositionOpen else Evaluating))
  }

  /** Final metadata offered with a settlement: none, unusable, or usable with the pinned or with changed terms. */
  datatype Evidence = NoEvidence | BadEvidence | FinalTerms(same: bool)

  datatype Settlement = AlreadySettled | SettlementBlocked | SettledNow

  function SettledResult(h: seq<Record>): Option<Side> {
    if h == [] then None
    else if h[|h| - 1].Settled? then Some(h[|h| - 1].result)
    else SettledResult(h[..|h| - 1])
  }

  /** The market after the offered evidence is recorded; changed or unusable terms quarantine it. */
  function WithEvidence(d: Desk, result: Side, at: int, ev: Evidence): Result<Desk, Fault> {
    if ev.NoEvidence? then Ok(d)
    else
      var noted := d.(evidence := d.evidence + {result});
      if ev.BadEvidence? then QuarantineMarket(noted, at, FinalInvalid)
      else if !ev.same then QuarantineMarket(noted, at, FinalChanged)
      else Ok(noted)
  }

  /** Whether a quarantined market's settlement is still blocked. */
  predicate RecoveryBlocked(d: Desk, result: Side, ev: Evidence, review: Option<bool>) {
    ev.NoEvidence? || (review.None? && (!(ev.FinalTerms? && ev.same) || exists r | r in d.evidence :: r != result))
  }

  /** The payout: each remaining contract is worth one dollar on the winning side. */
  function PaidOut(d: Desk, result: Side): Desk
    requires d.position.Some?
  {
    var pos := d.position.value;
    d.(position := Some(pos.(proceeds := pos.proceeds + (if pos.side == result then pos.quantity * ONE else 0), quantity := 0)))
  }

  /** The audited way out of a quarantine leads to settlement and nowhere else. */
  function Released(d: Desk, recovering: bool): Result<Desk, Fault> {
    if !recovering || d.stage == Some(SettlementPending) then Ok(d)
    else if d.stage == Some(Halted) then Ok(d.(stage := Some(SettlementPending))) else Raised(InvalidTransition)
  }

  function ClosedOut(d: Desk, result: Side, at: int): Result<Desk, Fault> {
    if d.position.Some? then
      var waiting :- Moved(d, SettlementPending);
      Finish(PaidOut(waiting, result), at, AtSettlement, Some(result))
    else if d.stage != Some(Closed) && d.stage != Some(Halted) && d.stage != Some(Failed) then
      var waiting :- Moved(d, SettlementPending);
      Moved(waiting, Closed)
    else Ok(d)
  }

  function SettleNow(d: Desk, result: Side, at: int, recovering: bool): Result<Desk, Fault> {
    var idle :- Cancel(Noted(d.(claims := d.claims + {SettlementClaim}), Settled(result, at)), at);
    var pending :- Released(idle, recovering);
    var closed :- ClosedOut(pending, result, at);
    Ok(closed.(quarantine := None, pause := None))
  }

  /** `settle` once the evidence is recorded: blocked, refused, already claimed, or done. */
  function SettleSeen(seen: Desk, result: Side, at: int, ev: Evidence, review: Option<bool>): Result<(Desk, Settlement), Fault> {
    if ev.BadEvidence? then Ok((seen, SettlementBlocked))
    else if seen.quarantine.Some? && RecoveryBlocked(seen, result, ev, review) then Ok((seen, SettlementBlocked))
    else if review.Some? && (seen.quarantine.None? || !review.value) then Raised(ReviewRequired)
    else if SettlementClaim in seen.claims then Ok((seen, AlreadySettled))
    else
      var settled :- SettleNow(seen, result, at, seen.quarantine.Some?);
      Ok((settled, SettledNow))
  }

  /** `settle`. */
  function Settle(d: Desk, result: Side, at: int, close: int, ev: Evidence, review: Option<bool>): Result<(Desk, Settlement), Fault> {
    if at < close then Raised(PrematureSettlement)
    else if SettledResult(d.history).Some? then
      Ok((d, if SettledResult(d.history) == Some(result) then AlreadySettled else SettlementBlocked))
    else if d.stage == Some(Failed) || (d.stage == Some(Halted) && d.quarantine.None?) then Ok((d, SettlementBlocked))
    else
      var seen :- WithEvidence(d, result, at, ev);
      SettleSeen(seen, result, at, ev, review)
  }

  // ---- Runs of one market --------------------------------------------------

  /** Everything that can happen to a desk; each event brings what the rest of the program shows it. */
  datatype Event =
    | SubmitEntry(shared: Shared, book: Book, terms: Terms, tick: int -> bool, entry: Entry, gates: nat -> Gate)
    | CancelOrder(at: int)
    | TradePrint(shared: Shared, traded: Print, at: int, gate: Gate)
    | MatchOrder(shared: Shared, book: Book, terms: Terms, tick: int -> bool, at: int, gates: nat -> Gate)
    | ObserveBook(book: Book, at: int, source: int, continuous: bool)
    | MonitorBook(book: Book, terms: Terms, tick: int -> bool, at: int, quote: nat, signals: Signals)
    | SettleMarket(result: Side, at: int, close: int, evidence: Evidence, review: Option<bool>)
    | Restrict(at: int, reason: QuarantineReason)
    | PauseVenue(at: int, pauseEvent: PauseEvent)
    | ResumeVenue(at: int, started: int, confirmed: bool)
    | Recover(shared: Shared, at: int, started: int, proven: bool)
    | EngineMove(target: Stage)

  function First<T, U>(r: Result<(T, U), Fault>): Result<T, Fault> {
    match r
    case Ok(p) => Ok(p.0)
    case Raised(f) => Raised(f)
  }

  function Step(c: Config, d: Desk, e: Event): Desk
    requires Valid(c)
  {
    match e
    case SubmitEntry(s, b, m, tick, entry, gates) => Kept(d, First(Submit(c, s, d, b, m, tick, entry, gates)))
    case CancelOrder(at) => Kept(d, Cancel(d, at))
    case TradePrint(s, p, at, gate) => Kept(d, Traded(c, s, d, p, at, gate))
    case MatchOrder(s, b, m, tick, at, gates) => Kept(d, Aggressive(c, s, d, b, m, tick, at, gates))
    case ObserveBook(b, at, source, continuous) => Observe(c, d, b, at, source, continuous)
    case MonitorBook(b, m, tick, at, quote, g) => Monitor(c, d, b, m, tick, at, quote, g)
    case SettleMarket(result, at, close, ev, review) => Kept(d, First(Settle(d, result, at, close, ev, review)))
    case Restrict(at, reason) => Kept(d, QuarantineMarket(d, at, reason))
    case PauseVenue(at, event) => Kept(d, PauseMarket(d, at, event))
    case ResumeVenue(at, started, confirmed) => ResumeMarket(d, at, started, confirmed)
    case Recover(s, at, started, proven) => RecoverMetadata(s, d, at, started, proven)
    case EngineMove(target) => Kept(d, Moved(d, target))
  }

  function After(c: Config, d: Desk, run: seq<Event>): Desk
    requires Valid(c)
    decreases |run|
  {
    if run == [] then d else After(c, Step(c, d, run[0]), run[1..])
  }
}
