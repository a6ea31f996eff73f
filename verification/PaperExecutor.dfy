/**
  `PaperExecutor` as it works: one object for the entries of a ticker, changed field
  by field and level by level. Each method is proved against the function of the same
  operation; a method that raises restores what it found, as `atomic` does.
 */
module PaperExecutor {
  import opened Wrappers
  import opened Execution
  import F = Fees

  datatype Ending = RanOut | Stopped | Cut

  class MarketDesk {
    const config: Config
    var order: Option<Order>
    var position: Option<Position>
    var consumed: map<int, int>
    var eligible: Option<int>
    var lastEvent: Option<nat>
    var quarantine: Option<Quarantine>
    var pause: Option<Pause>
    var stage: Option<Stage>
    var claims: set<Claim>
    var reserved: bool
    var evidence: set<Side>
    var history: seq<Record>

    function View(): Desk
      reads this
    {
      Desk(order, position, consumed, eligible, lastEvent, quarantine, pause, stage, claims, reserved, evidence, history)
    }

    constructor (config: Config)
      ensures this.config == config && View() == EmptyDesk
    {
      this.config := config;
      order, position, consumed, eligible, lastEvent := None, None, map[], None, None;
      quarantine, pause, stage, claims, reserved, evidence, history := None, None, None, {}, false, {}, [];
    }

    /** `restore`, from the copy `atomic` took. */
    method Reset(d: Desk)
      modifies this
      ensures View() == d
    {
      order, position, consumed, eligible, lastEvent := d.order, d.position, d.consumed, d.eligible, d.lastEvent;
      quarantine, pause, stage, claims, reserved, evidence, history :=
        d.quarantine, d.pause, d.stage, d.claims, d.reserved, d.evidence, d.history;
    }

    /** The method has done what the operation's result says. */
    predicate Did(fault: Option<Fault>, r: Result<Desk, Fault>)
      reads this
    {
      if r.Ok? then fault.None? && View() == r.value else fault == Some(r.error)
    }

    method MoveTo(target: Stage) returns (fault: Option<Fault>)
      modifies this`stage
      ensures Did(fault, Moved(old(View()), target))
    {
      if stage == Some(target) {
        return None;
      }
      if stage.None? {
        if target != Discover {
          return Some(InvalidTransition);
        }
      } else if target !in Next(stage.value) && target != Failed && target != Halted {
        return Some(InvalidTransition);
      }
      stage := Some(target);
      return None;
    }

    method CancelOrder(at: int) returns (fault: Option<Fault>)
      modifies this
      ensures Did(fault, Cancel(old(View()), at))
    {
      if order.None? || !order.value.active {
        return None;
      }
      var o := order.value;
      order := Some(o.(active := false, cancelledAt := Some(at)));
      history := history + [Cancelled(o.id, at)];
      fault := MoveTo(OrderCancelled);
      if fault.Some? {
        return;
      }
      if position.Some? {
        fault := MoveTo(PositionOpen);
      } else {
        reserved := false;
      }
    }

    method FillOrder(s: Shared, quantity: int, price: int, at: int, maker: bool, gate: Gate)
      returns (status: FillStatus, fault: Option<Fault>)
      requires Valid(config) && order.Some?
      modifies this
      ensures var r := Fill(config, s, old(View()), quantity, price, at, maker, gate);
        if r.Ok? then fault.None? && View() == r.value.0 && status == r.value.1 else fault == Some(r.error)
    {
      var o := order.value;
      if gate.paused {
        return Blocked, None;
      }
      if position.None? && !PostCloseReady(config, s, at) {
        fault := CancelOrder(at);
        return Blocked, fault;
      }
      if gate.pending {
        return Blocked, None;
      }
      if config.oneTrade && o.cycle > 1 && position.None? {
        fault := CancelOrder(at);
        return Blocked, fault;
      }
      if !(0 < price < ONE) || price > o.limit {
        return Ignored, Some(FillPrice);
      }
      if !o.active || at < o.eligible || quarantine.Some? || pause.Some? {
        return Ignored, None;
      }
      if quantity <= 0 || quantity % LOT != 0 {
        return Ignored, Some(FillQuantity);
      }
      var q := Min(quantity, o.remaining);
      if q <= 0 {
        return Ignored, None;
      }
      Purchase(q, price, at, maker);
      fault := MoveTo(if order.value.remaining <= 0 then PositionOpen else PartiallyFilled);
      return Filled, fault;
    }

    method Purchase(q: int, price: int, at: int, maker: bool)
      requires Valid(config) && order.Some?
      modifies this
      ensures View() == BookPurchase(config, old(View()), q, price, at, maker)
      ensures order.Some? && order.value.remaining == old(order).value.remaining - q
    {
      var o := order.value;
      var charged := F.Charge(config.precision, o.carry, price, q, if maker then config.makerRate else config.takerRate, F.Buy);
      order := Some(o.(carry := charged.carry, remaining := o.remaining - q, active := o.remaining - q > 0));
      if position.None? {
        position := Some(NewPosition(o, at));
      }
      var pos := position.value;
      position := Some(pos.(quantity := pos.quantity + q, bought := pos.bought + q, cost := pos.cost + q * price,
                            fees := pos.fees + charged.fee));
      history := history + [Bought(o.id, q, price, charged.fee, maker, at)];
    }

    /** The level loop of `_aggressive`. */
    method MatchAsks(s: Shared, asks: seq<Level>, tick: int -> bool, at: int, gates: nat -> Gate)
      returns (ending: Ending, fault: Option<Fault>)
      requires Valid(config) && order.Some?
      modifies this
      ensures match MatchLevels(config, s, old(View()), asks, tick, at, gates, 1)
              case Ran(d) => fault.None? && ending == RanOut && View() == d
              case Returned(d) => fault.None? && ending == Stopped && View() == d
              case Interrupted(d) => fault.None? && ending == Cut && View() == d
              case Broke(f) => fault == Some(f)
    {
      var i := 0;
      while i < |asks|
        invariant 0 <= i <= |asks| && order.Some?
        invariant MatchLevels(config, s, View(), asks[i..], tick, at, gates, i + 1)
               == MatchLevels(config, s, old(View()), asks, tick, at, gates, 1)
      {
        var l := asks[i];
        assert asks[i..][0] == l && asks[i..][1..] == asks[i + 1..];
        if l.price > order.value.limit {
          return RanOut, None;
        }
        if !tick(l.price) {
          fault := CancelOrder(at);
          return Stopped, fault;
        }
        var lots := FloorLot(l.quantity);
        if lots > 0 {
          var status;
          status, fault := FillOrder(s, lots, l.price, at, false, gates(i + 1));
          if fault.Some? {
            return Stopped, fault;
          }
          if status == Blocked {
            return if config.full then Cut else Stopped, None;
          }
          if !order.value.active {
            return RanOut, None;
          }
        }
        i := i + 1;
      }
      return RanOut, None;
    }

    /** The full-size checks before any fill: every reachable level on the grid, and enough of them. */
    method FullSizeAvailable(asks: seq<Level>, limit: int, remaining: int, tick: int -> bool) returns (okay: bool)
      ensures okay == (!OffTick(asks, limit, tick) && Available(asks, limit, tick) >= remaining)
    {
      var i := 0;
      while i < |asks| && asks[i].price <= limit
        invariant 0 <= i <= |asks|
        invariant OffTick(asks, limit, tick) == OffTick(asks[i..], limit, tick)
      {
        assert asks[i..][1..] == asks[i + 1..];
        if !tick(asks[i].price) {
          return false;
        }
        i := i + 1;
      }
      var available := 0;
      for k := 0 to |asks|
        invariant available + Available(asks[k..], limit, tick) == Available(asks, limit, tick)
      {
        assert asks[k..][1..] == asks[k + 1..];
        if asks[k].price <= limit && tick(asks[k].price) && asks[k].quantity > 0 {
          available := available + FloorLot(asks[k].quantity);
        }
      }
      okay := available >= remaining;
    }

    /** `_aggressive`. */
    method TryMatch(s: Shared, b: Book, m: Terms, tick: int -> bool, at: int, gates: nat -> Gate)
      returns (ending: Ending, fault: Option<Fault>)
      requires Valid(config)
      modifies this
      ensures match AggressiveBody(config, s, old(View()), b, m, tick, at, gates)
              case Ran(d) => fault.None? && ending == RanOut && View() == d
              case Returned(d) => fault.None? && ending == Stopped && View() == d
              case Interrupted(d) => fault.None? && ending == Cut && View() == d
              case Broke(f) => fault == Some(f)
    {
      if config.passive || order.None? || !order.value.active || at < order.value.eligible || pause.Some? || gates(0).pending {
        return Stopped, None;
      }
      if ExecutionBlocked(config, s, View(), b, m, at) {
        fault := CancelOrder(at);
        return Stopped, fault;
      }
      var asks := Asks(b, order.value.side);
      if config.full {
        var okay := FullSizeAvailable(asks, order.value.limit, order.value.remaining, tick);
        if !okay {
          fault := CancelOrder(at);
          return Stopped, fault;
        }
      }
      ending, fault := MatchAsks(s, asks, tick, at, gates);
      if fault.None? && ending == RanOut {
        fault := CancelOrder(at);
        return Stopped, fault;
      }
    }

    /** `aggressive`, outermost: an interrupted full-size match is undone before the order is cancelled. */
    method Match(s: Shared, b: Book, m: Terms, tick: int -> bool, at: int, gates: nat -> Gate) returns (fault: Option<Fault>)
      requires Valid(config)
      modifies this
      ensures var r := Aggressive(config, s, old(View()), b, m, tick, at, gates);
        fault == (if r.Ok? then None else Some(r.error)) && View() == Kept(old(View()), r)
    {
      var before, ending := View(), RanOut;
      ending, fault := TryMatch(s, b, m, tick, at, gates);
      if fault.None? && ending == Cut {
        Reset(before);
        fault := CancelOrder(at);
      }
      if fault.Some? {
        Reset(before);
      }
    }

    /** `submit`. */
    method SubmitEntry(s: Shared, b: Book, m: Terms, tick: int -> bool, e: Entry, gates: nat -> Gate)
      returns (rejection: Option<Rejection>, fault: Option<Fault>)
      requires Valid(config)
      modifies this
      ensures var r := Submit(config, s, old(View()), b, m, tick, e, gates);
        && View() == Kept(old(View()), First(r))
        && (if r.Ok? then fault.None? && rejection == r.value.1 else fault == Some(r.error))
    {
      rejection := Refusal(config, s, View(), b, m, tick, e);
      if rejection.Some? {
        return rejection, None;
      }
      var before := View();
      fault := PlaceOrder(s, b, e);
      if fault.None? && !config.passive && config.latency == 0 {
        var ending;
        ending, fault := TryMatch(s, b, m, tick, e.at, gates);
        if fault.None? && ending == Cut {
          fault := CancelOrder(e.at);
        }
      }
      if fault.Some? {
        Reset(before);
      }
    }

    method PlaceOrder(s: Shared, b: Book, e: Entry) returns (fault: Option<Fault>)
      requires Valid(config) && e.side.Some? && e.price.Some?
      modifies this
      ensures Did(fault, Placed(config, s, old(View()), b, e))
    {
      if reserved {
        return Some(ReservationRejected);
      }
      var o, claim := NewOrder(config, s, View(), b, e), ClaimOf(config, s, View(), e.at);
      RecordOrder(o, claim);
      if claim.retry.Some? {
        fault := MoveTo(Evaluating);
        if fault.Some? {
          return;
        }
        fault := MoveTo(TradeCandidate);
        if fault.Some? {
          return;
        }
      }
      fault := MoveTo(OrderPending);
    }

    method RecordOrder(o: Order, claim: Claim)
      modifies this`order, this`reserved, this`claims, this`history
      ensures View() == Noted(old(View()).(order := Some(o), reserved := true, claims := old(claims) + {claim}), Submitted(o))
    {
      order, reserved, claims := Some(o), true, claims + {claim};
      history := history + [Submitted(o)];
    }

    /** `trade`, for an id not seen before. */
    method OnTrade(s: Shared, p: Print, at: int, gate: Gate) returns (fault: Option<Fault>)
      requires Valid(config)
      modifies this
      ensures var r := Traded(config, s, old(View()), p, at, gate);
        fault == (if r.Ok? then None else Some(r.error)) && View() == Kept(old(View()), r)
    {
      if !Reaches(config, View(), p, at, gate) {
        return None;
      }
      if p.price.None? || !(0 < p.price.value < ONE) {
        return Some(TradePrice);
      }
      var o := order.value;
      if PriceFor(o.side, p.price.value) > o.limit {
        return None;
      }
      if p.quantity.None? || p.quantity.value <= 0 || p.quantity.value % LOT != 0 {
        return Some(TradeQuantity);
      }
      var before := View();
      fault := FillFromTrade(s, p, at, gate);
      if fault.Some? {
        Reset(before);
      }
    }

    method FillFromTrade(s: Shared, p: Print, at: int, gate: Gate) returns (fault: Option<Fault>)
      requires Valid(config) && order.Some? && p.quantity.Some?
      modifies this
      ensures var queued, rest := Queued(old(View()), p), RestAfterQueue(old(View()), p);
        Did(fault, if rest > 0 then First(Fill(config, s, queued, rest, old(order).value.limit, at, true, gate)) else Ok(queued))
    {
      var limit, ahead := order.value.limit, Min(order.value.queue, p.quantity.value);
      PassQueue(p, ahead);
      var rest := FloorLot(p.quantity.value - ahead);
      if rest > 0 {
        var _, f := FillOrder(s, rest, limit, at, true, gate);
        return f;
      }
      return None;
    }

    method PassQueue(p: Print, ahead: int)
      requires order.Some? && p.quantity.Some? && ahead == Min(order.value.queue, p.quantity.value)
      modifies this`order, this`history
      ensures View() == Queued(old(View()), p) && order.Some?
    {
      history := history + [Printed(order.value.id, p.trade, p.quantity.value)];
      order := Some(order.value.(queue := order.value.queue - ahead));
    }

    /** `observe_exit_liquidity`. */
    method ObserveExitLiquidity(b: Book, at: int, source: int, continuous: bool)
      modifies this`consumed
      ensures View() == Observe(config, old(View()), b, at, source, continuous)
    {
      if ObservationUsable(config, View(), b, at, source, continuous) {
        var levels := Bids(b, position.value.side);
        consumed := map p | p in consumed :: Min(consumed[p], Shown(levels, p));
      }
    }

    method FinishPosition(at: int, reason: Reason, settlement: Option<Side>) returns (fault: Option<Fault>)
      requires position.Some?
      modifies this
      ensures Did(fault, Finish(old(View()), at, reason, settlement))
    {
      RecordResult(at, reason, settlement);
      fault := MoveTo(Closed);
    }

    method RecordResult(at: int, reason: Reason, settlement: Option<Side>)
      requires position.Some?
      modifies this`position, this`reserved, this`history, this`order
      ensures var d, pos := old(View()), old(position).value;
        View() == Noted(d.(position := None, reserved := false,
                           order := if d.order.Some? && d.order.value.op == pos.op
                                    then Some(d.order.value.(completedAt := Some(at))) else d.order),
                        TradeResult(pos, pos.proceeds - pos.cost - pos.fees, reason, settlement, at))
    {
      var pos := position.value;
      position, reserved := None, false;
      history := history + [TradeResult(pos, pos.proceeds - pos.cost - pos.fees, reason, settlement, at)];
      if order.Some? && order.value.op == pos.op {
        order := Some(order.value.(completedAt := Some(at)));
      }
    }

    method RecordSale(q: int, price: int, fee: int, reason: Reason, at: int, received: int)
      requires position.Some?
      modifies this`consumed, this`position, this`history
      ensures View() == BookSale(old(View()), q, price, fee, reason, at, received) && position.Some?
    {
      var pos := position.value;
      consumed := consumed[price := (if price in consumed then consumed[price] else 0) + q];
      position := Some(pos.(quantity := pos.quantity - q, proceeds := pos.proceeds + q * price, fees := pos.fees + fee));
      history := history + [SoldAt(q, price, fee, reason, at, received)];
    }

    /** The level loop of `_commit_monitor`. */
    method SellInto(bids: seq<Level>, tick: int -> bool, reason: Reason, target: Option<int>, at: int, received: int)
      returns (fault: Option<Fault>)
      requires Valid(config) && position.Some?
      modifies this
      ensures Did(fault, SellLevels(config, old(View()), bids, tick, reason, target, at, received, 0))
    {
      var i, carry := 0, 0;
      while i < |bids|
        invariant 0 <= i <= |bids| && position.Some?
        invariant SellLevels(config, View(), bids[i..], tick, reason, target, at, received, carry)
               == SellLevels(config, old(View()), bids, tick, reason, target, at, received, 0)
      {
        var l := bids[i];
        assert bids[i..][0] == l && bids[i..][1..] == bids[i + 1..];
        var q := Sellable(config, View(), l, tick, reason, target, carry);
        if q != 0 {
          var charged := F.Charge(config.precision, carry, l.price, q, config.takerRate, F.Sell);
          carry := charged.carry;
          RecordSale(q, l.price, charged.fee, reason, at, received);
          if position.value.quantity == 0 {
            fault := FinishPosition(at, reason, None);
            return;
          }
        }
        i := i + 1;
      }
      return None;
    }

    method DropIntent(at: int)
      requires position.Some?
      modifies this
      ensures View() == ExpireValueExit(old(View()), at)
    {
      history := history + [Dropped(position.value.exitReason, at)];
      position := Some(position.value.(exitReason := NoReason, valueLimit := None));
      eligible := None;
    }

    method ExecuteExit(tick: int -> bool, q: Quote) returns (fault: Option<Fault>)
      requires Valid(config) && position.Some?
      modifies this
      ensures Did(fault, Execute(config, old(View()), tick, q))
    {
      lastEvent := Some(q.event);
      fault := CancelOrder(q.at);
      if fault.Some? {
        return;
      }
      fault := MoveTo(Exiting);
      if fault.Some? {
        return;
      }
      if !config.full && Limited(q.reason) && q.target.None? {
        return Some(MissingTarget);
      }
      fault := SellInto(Bids(q.book, position.value.side), tick, q.reason, q.target, q.at, q.book.received);
      if fault.Some? || position.None? {
        return;
      }
      if !config.full && ValueReason(q.reason) {
        DropIntent(q.at);
      }
      fault := MoveTo(PositionOpen);
    }

    method RecordIntent(q: Quote)
      modifies this`lastEvent, this`history, this`eligible
      ensures View() == Noted(old(View()).(lastEvent := Some(q.event), eligible := Some(q.at + config.latency)),
                              Intent(q.reason, q.at, q.at + config.latency))
    {
      lastEvent := Some(q.event);
      history := history + [Intent(q.reason, q.at, q.at + config.latency)];
      eligible := Some(q.at + config.latency);
    }

    method RequestExit(q: Quote) returns (fault: Option<Fault>)
      requires Valid(config) && position.Some?
      modifies this
      ensures Did(fault, Intend(config, old(View()), q))
    {
      position := Some(position.value.(exitReason := q.reason));
      ghost var intended := View();
      if config.full || q.reason == HardStop || ValueReason(q.reason) {
        fault := CancelOrder(q.at);
        if fault.Some? {
          return;
        }
        assert position == intended.position;
        position := Some(position.value.(valueLimit := if q.reason == HardStop then None else q.target));
      }
      RecordIntent(q);
      return None;
    }

    /** The start of `_commit_monitor`: the extremes seen, and an intent whose trigger changed or cleared. */
    method UpdatePosition(q: Quote)
      requires position.Some?
      modifies this`position, this`history, this`eligible
      ensures View() == DropChanged(Extremes(old(View()), q.mark), q) && position.Some?
    {
      var pos := position.value;
      position := Some(pos.(maxFavorable := if q.mark > pos.maxFavorable then q.mark else pos.maxFavorable,
                            maxAdverse := if q.mark < pos.maxAdverse then q.mark else pos.maxAdverse));
      if pos.exitReason != NoReason && q.reason != pos.exitReason && (q.reason != NoReason || q.clear) {
        history := history + [Dropped(pos.exitReason, q.at)];
        position := Some(position.value.(exitReason := NoReason));
        eligible := None;
      }
    }

    /** `_commit_monitor`. */
    method CommitMonitor(tick: int -> bool, q: Quote) returns (fault: Option<Fault>)
      requires Valid(config) && position.Some?
      modifies this
      ensures var r := Commit(config, old(View()), tick, q);
        fault == (if r.Ok? then None else Some(r.error)) && View() == Kept(old(View()), r)
    {
      var before := View();
      UpdatePosition(q);
      if q.reason == NoReason {
        return None;
      }
      if position.value.exitReason != NoReason && lastEvent == Some(q.event) {
        return None;
      }
      if position.value.exitReason == NoReason {
        fault := RequestExit(q);
      } else if eligible.None? {
        fault := Some(NoIntent);
      } else if q.at < eligible.value || q.book.received < eligible.value {
        fault := None;
      } else {
        fault := ExecuteExit(tick, q);
      }
      if fault.Some? {
        Reset(before);
      }
    }

    method AnyLevelSellable(levels: seq<Level>, tick: int -> bool, reason: Reason, target: Option<int>) returns (any: bool)
      requires position.Some?
      ensures any == AnySellable(config, View(), levels, tick, reason, target)
    {
      for i := 0 to |levels|
        invariant forall k | 0 <= k < i ::
                    !(Min(position.value.quantity, levels[k].quantity - Consumed(View(), levels[k].price)) >= LOT && tick(levels[k].price)
                      && (config.full || reason != TakeProfit || (target.Some? && levels[k].price >= target.value)))
      {
        if Min(position.value.quantity, levels[i].quantity - Consumed(View(), levels[i].price)) >= LOT && tick(levels[i].price)
           && (config.full || reason != TakeProfit || (target.Some? && levels[i].price >= target.value)) {
          return true;
        }
      }
      return false;
    }

    /** `_apply_monitor`. */
    method ApplyMonitor(tick: int -> bool, q: Quote, warning: bool) returns (fault: Option<Fault>)
      requires Valid(config) && position.Some?
      modifies this
      ensures var r := Apply(config, old(View()), tick, q, warning);
        fault == (if r.Ok? then None else Some(r.error)) && View() == Kept(old(View()), r)
    {
      var pos := position.value;
      if !warning && q.reason != NoReason && q.reason == pos.exitReason && NoNewExtreme(pos, q.mark)
         && (lastEvent == Some(q.event) || (eligible.Some? && (q.at < eligible.value || q.book.received < eligible.value))) {
        return None;
      }
      if !warning && (config.full || q.reason == HardStop || q.reason == TakeProfit || q.reason == Invalidation)
         && q.reason == pos.exitReason && pos.quantity < pos.bought && NoNewExtreme(pos, q.mark) && !Working(View()) {
        var any := AnyLevelSellable(Bids(q.book, pos.side), tick, q.reason, q.target);
        if !any {
          return None;
        }
      }
      fault := CommitMonitor(tick, q);
    }

    method EvaluateQuote(b: Book, tick: int -> bool, at: int, event: nat, g: Signals) returns (fault: Option<Fault>)
      requires Valid(config) && position.Some? && Bids(b, position.value.side) != []
      modifies this
      ensures View() == Evaluate(config, old(View()), b, tick, at, event, g)
    {
      var pos := position.value;
      var bid := Bids(b, pos.side)[0].price;
      var (reason, target) := Reading(pos, bid, g);
      var clear := g.modelAvailable || pos.exitReason != Invalidation;
      var q := Quote(b, Mark(pos, bid), reason, target, at, event, clear);
      if !g.warning && reason == NoReason && (pos.exitReason == NoReason || !clear) && NoNewExtreme(pos, q.mark) {
        return None;
      }
      fault := ApplyMonitor(tick, q, g.warning);
    }

    method WorkValue(b: Book, m: Terms, tick: int -> bool, at: int, event: nat, g: Signals)
      requires Valid(config) && position.Some? && Bids(b, position.value.side) != []
      modifies this
      ensures View() == WorkValueExit(config, old(View()), b, m, tick, at, event, g)
    {
      var pos := position.value;
      var bid := Bids(b, pos.side)[0].price;
      if (pos.exitReason == StandardCashout && (m.close - at <= 120_000_000 || StopHit(bid, g)))
         || (eligible.Some? && at > eligible.value + 2_000_000) {
        DropIntent(at);
      } else {
        var _ := ApplyMonitor(tick, Quote(b, Mark(pos, bid), pos.exitReason, pos.valueLimit, at, event, true), false);
      }
    }

    /** `monitor`. */
    method MonitorQuote(b: Book, m: Terms, tick: int -> bool, at: int, event: nat, g: Signals)
      requires Valid(config)
      modifies this
      ensures View() == Monitor(config, old(View()), b, m, tick, at, event, g)
    {
      if MonitorBlocked(config, View(), b, m, at) {
        return;
      }
      var pos := position.value;
      var bid := Bids(b, pos.side)[0].price;
      if config.full && pos.exitReason != NoReason {
        var _ := ApplyMonitor(tick, Quote(b, Mark(pos, bid), pos.exitReason, None, at, event, true), false);
        return;
      }
      if ValueReason(pos.exitReason) {
        WorkValue(b, m, tick, at, event, g);
        if position.None? || position.value.exitReason == pos.exitReason || Bids(b, position.value.side) == [] {
          return;
        }
      }
      var _ := EvaluateQuote(b, tick, at, event, g);
    }

    method QuarantineDesk(at: int, reason: QuarantineReason) returns (fault: Option<Fault>)
      modifies this
      ensures Did(fault, QuarantineMarket(old(View()), at, reason))
    {
      if stage == Some(Failed) || (stage == Some(Halted) && quarantine.None? && reason != Legacy) || quarantine.Some? {
        return None;
      }
      fault := CancelOrder(at);
      if fault.Some? {
        return;
      }
      quarantine := Some(Quarantine(reason, at));
      fault := MoveTo(Halted);
    }

    method PauseDesk(at: int, event: PauseEvent) returns (fault: Option<Fault>)
      modifies this
      ensures var r := PauseMarket(old(View()), at, event);
        fault == (if r.Ok? then None else Some(r.error)) && View() == Kept(old(View()), r)
    {
      if pause.Some? && (at <= pause.value.since || Terminal(pause.value.event)) {
        return None;
      }
      var before := View();
      fault := CancelOrder(at);
      if fault.Some? {
        Reset(before);
        return;
      }
      pause := Some(Pause(event, at));
    }

    method Resume(at: int, started: int, confirmed: bool) returns (resumed: bool)
      modifies this`pause
      ensures View() == ResumeMarket(old(View()), at, started, confirmed)
      ensures resumed == (old(pause).Some? && pause.None?)
    {
      if pause.None? || !Resumable(pause.value.event) || quarantine.Some?
         || stage == Some(Halted) || stage == Some(Failed) || stage == Some(Closed) || stage == Some(SettlementPending)
         || !confirmed || !(pause.value.since < started <= at) {
        return false;
      }
      pause := None;
      return true;
    }

    /** Evidence is recorded first; unusable or changed terms quarantine the market. */
    method RecordEvidence(result: Side, at: int, ev: Evidence) returns (fault: Option<Fault>)
      modifies this
      ensures Did(fault, WithEvidence(old(View()), result, at, ev))
    {
      if ev.NoEvidence? {
        return None;
      }
      evidence := evidence + {result};
      if ev.BadEvidence? {
        fault := QuarantineDesk(at, FinalInvalid);
      } else if !ev.same {
        fault := QuarantineDesk(at, FinalChanged);
      } else {
        fault := None;
      }
    }

    method PayOut(result: Side)
      requires position.Some?
      modifies this`position
      ensures View() == PaidOut(old(View()), result) && position.Some?
    {
      var pos := position.value;
      position := Some(pos.(proceeds := pos.proceeds + (if pos.side == result then pos.quantity * ONE else 0), quantity := 0));
    }

    /** The tail of `settle`, once nothing blocks it. */
    method CloseOut(result: Side, at: int, recovering: bool) returns (fault: Option<Fault>)
      modifies this
      ensures Did(fault, SettleNow(old(View()), result, at, recovering))
    {
      claims := claims + {SettlementClaim};
      history := history + [Settled(result, at)];
      fault := CancelOrder(at);
      if fault.Some? {
        return;
      }
      fault := Release(recovering);
      if fault.Some? {
        return;
      }
      fault := CloseSettled(result, at);
      if fault.None? {
        quarantine, pause := None, None;
      }
    }

    method Release(recovering: bool) returns (fault: Option<Fault>)
      modifies this`stage
      ensures Did(fault, Released(old(View()), recovering))
    {
      if recovering && stage != Some(SettlementPending) {
        if stage != Some(Halted) {
          return Some(InvalidTransition);
        }
        stage := Some(SettlementPending);
      }
      return None;
    }

    method CloseSettled(result: Side, at: int) returns (fault: Option<Fault>)
      modifies this
      ensures Did(fault, ClosedOut(old(View()), result, at))
    {
      if position.Some? {
        fault := MoveTo(SettlementPending);
        if fault.Some? {
          return;
        }
        PayOut(result);
        fault := FinishPosition(at, AtSettlement, Some(result));
      } else if stage != Some(Closed) && stage != Some(Halted) && stage != Some(Failed) {
        fault := MoveTo(SettlementPending);
        if fault.Some? {
          return;
        }
        fault := MoveTo(Closed);
      } else {
        fault := None;
      }
    }

    method PriorResult() returns (result: Option<Side>)
      ensures result == SettledResult(history)
    {
      var i := |history|;
      assert history[..i] == history;
      while i > 0
        invariant 0 <= i <= |history|
        invariant SettledResult(history) == SettledResult(history[..i])
      {
        assert history[..i][..i - 1] == history[..i - 1];
        if history[i - 1].Settled? {
          return Some(history[i - 1].result);
        }
        i := i - 1;
      }
      return None;
    }

    /** `settle`. */
    method SettleDesk(result: Side, at: int, close: int, ev: Evidence, review: Option<bool>)
      returns (outcome: Settlement, fault: Option<Fault>)
      modifies this
      ensures var r := Settle(old(View()), result, at, close, ev, review);
        && View() == Kept(old(View()), First(r))
        && (if r.Ok? then fault.None? && outcome == r.value.1 else fault == Some(r.error))
    {
      outcome, fault := SettlementBlocked, None;
      if at < close {
        return outcome, Some(PrematureSettlement);
      }
      var prior := PriorResult();
      if prior.Some? {
        return if prior.value == result then AlreadySettled else SettlementBlocked, None;
      }
      if stage == Some(Failed) || (stage == Some(Halted) && quarantine.None?) {
        return;
      }
      var before := View();
      fault := RecordEvidence(result, at, ev);
      if fault.None? {
        outcome, fault := ConcludeSettlement(result, at, ev, review);
      }
      if fault.Some? {
        Reset(before);
      }
    }

    /** `settle` once the evidence is recorded. */
    method ConcludeSettlement(result: Side, at: int, ev: Evidence, review: Option<bool>)
      returns (outcome: Settlement, fault: Option<Fault>)
      modifies this
      ensures var r := SettleSeen(old(View()), result, at, ev, review);
        if r.Ok? then fault.None? && View() == r.value.0 && outcome == r.value.1 else fault == Some(r.error)
    {
      if ev.BadEvidence? || (quarantine.Some? && RecoveryBlocked(View(), result, ev, review)) {
        return SettlementBlocked, None;
      }
      if review.Some? && (quarantine.None? || !review.value) {
        return SettlementBlocked, Some(ReviewRequired);
      }
      if SettlementClaim in claims {
        return AlreadySettled, None;
      }
      fault := CloseOut(result, at, quarantine.Some?);
      return SettledNow, fault;
    }
  }
}
