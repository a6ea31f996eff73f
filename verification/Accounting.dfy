/**
  The two independent profit routines over the live order journal: `daily_pnl` of
  src/btc15/live_loss_guard.py (what a UTC day realized) and the per-market result of
  `_fallback` in src/btc15/live_fallback.py (what a closed trade earned).
  Money and quantities are exact reals, instants are integers in microseconds.
 */
module Accounting {
  import opened Wrappers

  const DAY: int := 86_400_000_000

  function Day(t: int): int {
    t / DAY
  }

  datatype Side = Yes | No
  datatype Action = Buy | Sell
  datatype Origin = Bot | Manual

  function Other(s: Side): Side {
    if s == Yes then No else Yes
  }

  /** The money fields of an exchange order; a row without all of them is malformed. */
  datatype Economics = Economics(makerCost: real, takerCost: real, makerFees: real, takerFees: real, outcome: Side)

  datatype Order = Order(fill: real, economics: Option<Economics>, created: Option<int>, updated: Option<int>)

  datatype Row = Row(ticker: string, origin: Origin, action: Action, side: Side, created: int,
                     order: Option<Order>, cleared: bool)

  /** `result` is None for anything but "yes" and "no". */
  datatype Settlement = Settlement(timestamp: int, result: Option<Side>)

  datatype Market = Market(orders: seq<Row>, settlement: Option<Settlement>)

  datatype Error = InvalidQuantity | MixedPosition | MissingField | InvalidEconomics | CrossDaySale | Oversold | InvalidResult

  // ---- One row -------------------------------------------------------------

  function Qty(r: Row): real {
    if r.order.Some? then r.order.value.fill else 0.0
  }

  function Paid(r: Row): real {
    if r.order.Some? && r.order.value.economics.Some?
    then r.order.value.economics.value.makerCost + r.order.value.economics.value.takerCost else 0.0
  }

  function Fees(r: Row): real {
    if r.order.Some? && r.order.value.economics.Some?
    then r.order.value.economics.value.makerFees + r.order.value.economics.value.takerFees else 0.0
  }

  /** `order_time`: the last exchange update, else the row's creation. */
  function OrderTime(r: Row): int {
    if r.order.Some? && r.order.value.updated.Some? then r.order.value.updated.value else r.created
  }

  predicate BotBuy(r: Row) {
    r.origin == Bot && r.action == Buy && Qty(r) > 0.0
  }

  function ExpectedOutcome(r: Row, side: Side): Side {
    if r.action == Buy then side else Other(side)
  }

  /** What is wrong with a filled row for the position on `side`; sells are paid for as the opposite outcome. */
  function EconomicsError(r: Row, side: Side): Option<Error> {
    if r.order.None? || r.order.value.economics.None? then Some(MissingField)
    else if r.order.value.economics.value.outcome != ExpectedOutcome(r, side)
            || !(0.0 <= Paid(r) <= Qty(r)) || Fees(r) < 0.0 then Some(InvalidEconomics)
    else None
  }

  function RowError(r: Row, side: Side, start: int): Option<Error> {
    if Qty(r) < 0.0 then Some(InvalidQuantity)
    else if Qty(r) == 0.0 then None
    else if r.side != side || (r.action == Buy && r.origin != Bot) then Some(MixedPosition)
    else if EconomicsError(r, side).Some? then EconomicsError(r, side)
    else if r.action == Sell && r.created < start <= OrderTime(r) then Some(CrossDaySale)
    else None
  }

  // ---- Sums over rows ------------------------------------------------------

  function Sum(rows: seq<Row>, f: Row -> real): real {
    if rows == [] then 0.0 else Sum(rows[..|rows| - 1], f) + f(rows[|rows| - 1])
  }

  function BoughtBy(r: Row): real { if r.action == Buy then Qty(r) else 0.0 }
  function BasisBy(r: Row): real { if r.action == Buy && Qty(r) != 0.0 then Paid(r) + Fees(r) else 0.0 }
  function SoldBy(r: Row): real { if r.action == Sell then Qty(r) else 0.0 }
  function ProceedsBy(r: Row): real { if r.action == Sell && Qty(r) != 0.0 then Qty(r) - Paid(r) - Fees(r) else 0.0 }

  function Bought(rows: seq<Row>): real { Sum(rows, BoughtBy) }
  function Basis(rows: seq<Row>): real { Sum(rows, BasisBy) }
  function Sold(rows: seq<Row>): real { Sum(rows, SoldBy) }

  /** What one bought contract cost, fees included. */
  function UnitCost(rows: seq<Row>): real
    requires Bought(rows) > 0.0
  {
    Basis(rows) / Bought(rows)
  }

  /** A pro-rata share of the basis is the unit cost times the quantity. */
  lemma ShareIsUnitCost(basis: real, quantity: real, bought: real)
    requires bought > 0.0
    ensures basis * quantity / bought == basis / bought * quantity
  {
  }

  /** A sale's profit: its proceeds less its pro-rata share of the entry basis. */
  function Gain(r: Row, unit: real): real {
    if r.action == Sell && Qty(r) != 0.0 then ProceedsBy(r) - unit * Qty(r) else 0.0
  }

  /** The gain of the sales whose order time falls in [from, to]. */
  function Gains(rows: seq<Row>, unit: real, from: int, to: int): real {
    if rows == [] then 0.0
    else
      var r := rows[|rows| - 1];
      Gains(rows[..|rows| - 1], unit, from, to)
      + if from <= OrderTime(r) <= to then Gain(r, unit) else 0.0
  }

  // ---- The loss guard: one market, one instant -----------------------------

  function FirstError(rows: seq<Row>, side: Side, start: int): Option<Error> {
    if rows == [] then None
    else
      var earlier := FirstError(rows[..|rows| - 1], side, start);
      if earlier.Some? then earlier else RowError(rows[|rows| - 1], side, start)
  }

  function FirstBuySide(rows: seq<Row>): Option<Side> {
    if rows == [] then None
    else
      var earlier := FirstBuySide(rows[..|rows| - 1]);
      if earlier.Some? then earlier else if BotBuy(rows[|rows| - 1]) then Some(rows[|rows| - 1].side) else None
  }

  predicate Inactive(m: Market, start: int) {
    && (forall i | 0 <= i < |m.orders| :: OrderTime(m.orders[i]) < start)
    && (m.settlement.None? || m.settlement.value.timestamp < start)
  }

  /** What the contracts still held at settlement earn or lose. */
  function SettlementGain(result: Side, side: Side, remaining: real, unit: real): real {
    (if result == side then remaining else 0.0) - unit * remaining
  }

  /** The market's part of the day before the inactive-market shortcut is applied. */
  function ActivePnl(m: Market, now: int): Result<real, Error> {
    var start := Day(now) * DAY;
    var side := FirstBuySide(m.orders);
    if side.None? then Ok(0.0)
    else if FirstError(m.orders, side.value, start).Some? then Raised(FirstError(m.orders, side.value, start).value)
    else
      if Sold(m.orders) > Bought(m.orders) || Bought(m.orders) <= 0.0 then Raised(Oversold)
      else
        var realized := Gains(m.orders, UnitCost(m.orders), start, now);
        var remaining := Bought(m.orders) - Sold(m.orders);
        if remaining != 0.0 && m.settlement.Some? && start <= m.settlement.value.timestamp <= now then
          if m.settlement.value.result.None? then Raised(InvalidResult)
          else Ok(realized + SettlementGain(m.settlement.value.result.value, side.value, remaining, UnitCost(m.orders)))
        else Ok(realized)
  }

  function MarketPnl(m: Market, now: int): Result<real, Error> {
    if Inactive(m, Day(now) * DAY) then Ok(0.0) else ActivePnl(m, now)
  }

  function DailyPnl(markets: seq<Market>, now: int): Result<real, Error> {
    if markets == [] then Ok(0.0)
    else
      var rest := DailyPnl(markets[..|markets| - 1], now);
      if rest.Raised? then rest
      else
        var last := MarketPnl(markets[|markets| - 1], now);
        if last.Raised? then last else Ok(rest.value + last.value)
  }

  // ---- The dashboard: one closed trade -------------------------------------

  datatype Trade = Trade(side: Side, bought: real, cost: real, proceeds: real, fees: real, net: real, entered: int, closed: int)

  datatype Report = Skipped | StillOpen(remaining: real) | Closed(trade: Trade)

  /** Python's stable sort by creation instant. */
  function Insert(rows: seq<Row>, r: Row): seq<Row> {
    if rows == [] || rows[|rows| - 1].created <= r.created then rows + [r]
    else Insert(rows[..|rows| - 1], r) + [rows[|rows| - 1]]
  }

  function ByCreation(rows: seq<Row>): seq<Row> {
    if rows == [] then [] else Insert(ByCreation(rows[..|rows| - 1]), rows[|rows| - 1])
  }

  predicate HasForeignBuy(rows: seq<Row>) {
    exists i | 0 <= i < |rows| :: rows[i].origin != Bot && rows[i].action == Buy && Qty(rows[i]) > 0.0
  }

  predicate OneBuySide(rows: seq<Row>, side: Side) {
    forall i | 0 <= i < |rows| && BotBuy(rows[i]) :: rows[i].side == side
  }

  function Least(a: Option<int>, b: int): Option<int> {
    if a.None? || b < a.value then Some(b) else a
  }

  function OpenedAt(r: Row): int {
    if r.order.Some? && r.order.value.created.Some? then r.order.value.created.value else r.created
  }

  /** The earliest exchange creation of the bot's filled buys. */
  function Opened(rows: seq<Row>): Option<int> {
    if rows == [] then None
    else
      var earlier := Opened(rows[..|rows| - 1]);
      if BotBuy(rows[|rows| - 1]) then Least(earlier, OpenedAt(rows[|rows| - 1])) else earlier
  }

  /** The earliest journal creation of the bot's filled buys. */
  function FirstBought(rows: seq<Row>): Option<int> {
    if rows == [] then None
    else
      var earlier := FirstBought(rows[..|rows| - 1]);
      if BotBuy(rows[|rows| - 1]) then Least(earlier, rows[|rows| - 1].created) else earlier
  }

  predicate Counted(r: Row, side: Side, first: int) {
    Qty(r) > 0.0 && r.side == side && r.created >= first
  }

  function Selected(rows: seq<Row>, side: Side, first: int): seq<Row> {
    if rows == [] then []
    else
      Selected(rows[..|rows| - 1], side, first)
      + if Counted(rows[|rows| - 1], side, first) then [rows[|rows| - 1]] else []
  }

  function ValueOf(r: Row): real { if r.action == Buy then Paid(r) else Qty(r) - Paid(r) }

  /** `_fallback`'s own economics test, on the value received rather than the amount paid. */
  predicate Acceptable(r: Row, side: Side) {
    && r.order.Some? && r.order.value.economics.Some?
    && r.order.value.economics.value.outcome == ExpectedOutcome(r, side)
    && 0.0 <= ValueOf(r) <= Qty(r)
    && Fees(r) >= 0.0
  }

  predicate AllAcceptable(rows: seq<Row>, side: Side) {
    forall i | 0 <= i < |rows| :: Acceptable(rows[i], side)
  }

  function CostBy(r: Row): real { if r.action == Buy then Paid(r) else 0.0 }
  function ReceivedBy(r: Row): real { if r.action == Sell then Qty(r) - Paid(r) else 0.0 }

  function FilledAt(r: Row): int {
    if r.order.Some? && r.order.value.updated.Some? then r.order.value.updated.value else OpenedAt(r)
  }

  function LastAt(rows: seq<Row>, entered: int): int {
    if rows == [] then entered
    else
      var earlier := LastAt(rows[..|rows| - 1], entered);
      if earlier < FilledAt(rows[|rows| - 1]) then FilledAt(rows[|rows| - 1]) else earlier
  }

  predicate BuysCleared(rows: seq<Row>) {
    forall i | 0 <= i < |rows| && BotBuy(rows[i]) :: rows[i].cleared
  }

  predicate Settled(m: Market, entered: int) {
    m.settlement.Some? && m.settlement.value.result.Some? && m.settlement.value.timestamp >= entered
  }

  function Fallback(m: Market): Report {
    var side := FirstBuySide(m.orders);
    if HasForeignBuy(m.orders) || side.None? || !OneBuySide(m.orders, side.value) then Skipped
    else
      var entered, first := Opened(m.orders).GetOr(0), FirstBought(m.orders).GetOr(0);
      var rows := Selected(ByCreation(m.orders), side.value, first);
      if AllAcceptable(rows, side.value) then Conclude(m, side.value, TotalsOf(rows, entered), entered) else Skipped
  }

  /** The accumulators of the trade loop. */
  datatype Totals = Totals(bought: real, sold: real, cost: real, proceeds: real, fees: real, last: int)

  function TotalsOf(rows: seq<Row>, entered: int): Totals {
    Totals(Bought(rows), Sold(rows), Sum(rows, CostBy), Sum(rows, ReceivedBy), Sum(rows, Fees), LastAt(rows, entered))
  }

  /** The report after the loop: a settlement closes what is still held. */
  function Conclude(m: Market, side: Side, t: Totals, entered: int): Report {
    if t.sold > t.bought || t.bought <= 0.0 then Skipped
    else
      var held := t.bought - t.sold;
      var settles := held != 0.0 && Settled(m, entered);
      var payout := if settles && m.settlement.value.result == Some(side) then held else 0.0;
      var remaining := if settles then 0.0 else held;
      var closed := if settles && t.last < m.settlement.value.timestamp then m.settlement.value.timestamp else t.last;
      if remaining == 0.0 && BuysCleared(m.orders) then Skipped
      else if remaining != 0.0 then StillOpen(remaining)
      else Closed(Trade(side, t.bought, t.cost, t.proceeds + payout, t.fees, t.proceeds + payout - t.cost - t.fees, entered, closed))
  }

  // ---- Sums: order, selection, linearity -----------------------------------

  lemma {:induction false} SumOfInsert(rows: seq<Row>, r: Row, f: Row -> real)
    ensures Sum(Insert(rows, r), f) == Sum(rows, f) + f(r)
    decreases |rows|
  {
    var n := |rows|;
    if rows == [] || rows[n - 1].created <= r.created {
      assert (rows + [r])[..n] == rows;
    } else {
      SumOfInsert(rows[..n - 1], r, f);
      var shorter := Insert(rows[..n - 1], r);
      assert (shorter + [rows[n - 1]])[..|shorter|] == shorter;
    }
  }

  /** Sorting changes no sum. */
  lemma {:induction false} SumOfSorted(rows: seq<Row>, f: Row -> real)
    ensures Sum(ByCreation(rows), f) == Sum(rows, f)
    decreases |rows|
  {
    if rows != [] {
      SumOfSorted(rows[..|rows| - 1], f);
      SumOfInsert(ByCreation(rows[..|rows| - 1]), rows[|rows| - 1], f);
    }
  }

  lemma {:induction false} InsertMembers(rows: seq<Row>, r: Row, x: Row)
    ensures x in Insert(rows, r) <==> x in rows || x == r
    decreases |rows|
  {
    if rows != [] {
      assert rows == rows[..|rows| - 1] + [rows[|rows| - 1]];
      InsertMembers(rows[..|rows| - 1], r, x);
    }
  }

  lemma {:induction false} SortedMembers(rows: seq<Row>, x: Row)
    ensures x in ByCreation(rows) <==> x in rows
    decreases |rows|
  {
    if rows != [] {
      assert rows == rows[..|rows| - 1] + [rows[|rows| - 1]];
      SortedMembers(rows[..|rows| - 1], x);
      InsertMembers(ByCreation(rows[..|rows| - 1]), rows[|rows| - 1], x);
    }
  }

  /** Dropping rows on which `f` is zero changes no sum, and keeps every other row. */
  lemma {:induction false} SumOfSelected(rows: seq<Row>, side: Side, first: int, f: Row -> real)
    requires forall r | r in rows && !Counted(r, side, first) :: f(r) == 0.0
    ensures Sum(Selected(rows, side, first), f) == Sum(rows, f)
    decreases |rows|
  {
    if rows != [] {
      var rest, last := rows[..|rows| - 1], rows[|rows| - 1];
      SumOfSelected(rest, side, first, f);
      var kept := Selected(rest, side, first);
      assert (kept + [last])[..|kept|] == kept;
      assert kept + [] == kept;
    }
  }

  lemma {:induction false} SelectedMembers(rows: seq<Row>, side: Side, first: int, x: Row)
    ensures x in Selected(rows, side, first) <==> x in rows && Counted(x, side, first)
    decreases |rows|
  {
    if rows != [] {
      assert rows == rows[..|rows| - 1] + [rows[|rows| - 1]];
      SelectedMembers(rows[..|rows| - 1], side, first, x);
    }
  }

  /** Both routines book the same money: value received less cost less fees is proceeds less basis. */
  lemma {:induction false} NetIsProceedsLessBasis(rows: seq<Row>)
    requires forall r | r in rows :: Qty(r) > 0.0
    ensures Sum(rows, ReceivedBy) - Sum(rows, CostBy) - Sum(rows, Fees) == Sum(rows, ProceedsBy) - Sum(rows, BasisBy)
    decreases |rows|
  {
    if rows != [] {
      assert rows[|rows| - 1] in rows;
      NetIsProceedsLessBasis(rows[..|rows| - 1]);
    }
  }

  // ---- The loss guard over a span of days ----------------------------------

  /** Sales split by their instant: adjacent windows add up. */
  lemma {:induction false} GainsSplit(rows: seq<Row>, unit: real, from: int, mid: int, to: int)
    requires from <= mid + 1 <= to + 1
    ensures Gains(rows, unit, from, to)
         == Gains(rows, unit, from, mid) + Gains(rows, unit, mid + 1, to)
    decreases |rows|
  {
    if rows != [] {
      GainsSplit(rows[..|rows| - 1], unit, from, mid, to);
    }
  }

  /** Two windows that hold the same sales give the same gain. */
  lemma {:induction false} SameWindow(rows: seq<Row>, unit: real, from: int, to: int, from': int, to': int)
    requires forall r | r in rows && r.action == Sell && Qty(r) != 0.0 ::
               from <= OrderTime(r) <= to <==> from' <= OrderTime(r) <= to'
    ensures Gains(rows, unit, from, to) == Gains(rows, unit, from', to')
    decreases |rows|
  {
    if rows != [] {
      assert rows[|rows| - 1] in rows;
      SameWindow(rows[..|rows| - 1], unit, from, to, from', to');
    }
  }

  /** The pro-rata shares of all sales sum to the unit cost of what was sold. */
  lemma {:induction false} SharesSum(rows: seq<Row>, unit: real, from: int, to: int)
    requires forall r | r in rows && r.action == Sell && Qty(r) != 0.0 :: from <= OrderTime(r) <= to
    ensures Gains(rows, unit, from, to) == Sum(rows, ProceedsBy) - unit * Sold(rows)
    decreases |rows|
  {
    if rows != [] {
      assert rows[|rows| - 1] in rows;
      SharesSum(rows[..|rows| - 1], unit, from, to);
    }
  }

  /** With the remainder's share, the shares sum to the full basis. */
  lemma SharesSumToBasis(rows: seq<Row>)
    requires Bought(rows) > 0.0
    ensures UnitCost(rows) * Sold(rows) + UnitCost(rows) * (Bought(rows) - Sold(rows)) == Basis(rows)
  {
    Distribute(UnitCost(rows), Sold(rows), Bought(rows));
  }

  lemma Distribute(unit: real, sold: real, bought: real)
    ensures unit * sold + unit * (bought - sold) == unit * bought
  {
  }

  /** The shortcut for inactive markets never drops a gain or a loss. */
  lemma EarlySkipLosesNothing(m: Market, now: int)
    requires Inactive(m, Day(now) * DAY) && ActivePnl(m, now).Ok?
    ensures ActivePnl(m, now) == MarketPnl(m, now) == Ok(0.0)
  {
    var start := Day(now) * DAY;
    if FirstBuySide(m.orders).Some? {
      forall r | r in m.orders ensures OrderTime(r) < start {
        var i :| 0 <= i < |m.orders| && m.orders[i] == r;
      }
      SameWindow(m.orders, UnitCost(m.orders), start, now, 1, 0);
      NoGain(m.orders, UnitCost(m.orders));
    }
  }

  lemma {:induction false} NoGain(rows: seq<Row>, unit: real)
    ensures Gains(rows, unit, 1, 0) == 0.0
    decreases |rows|
  {
    if rows != [] { NoGain(rows[..|rows| - 1], unit); }
  }

  function Plus(a: Result<real, Error>, b: Result<real, Error>): Result<real, Error> {
    if a.Raised? then a else if b.Raised? then b else Ok(a.value + b.value)
  }
}
