/**
  When the two profit routines agree: the daily results of the loss guard, added over the
  days of a closed trade, against the dashboard's net result, and by how much they differ.
 */
module AccountingAgreement {
  import opened Wrappers
  import opened Accounting

  /** Every sale and the settlement fall in days lo, .., lo + n - 1, no later than that day's evaluation. */
  predicate Observed(m: Market, clock: int -> int, lo: int, n: nat) {
    && (forall i | 0 <= i < |m.orders| && m.orders[i].action == Sell && Qty(m.orders[i]) > 0.0 ::
          && lo <= Day(OrderTime(m.orders[i])) < lo + n
          && OrderTime(m.orders[i]) <= clock(Day(OrderTime(m.orders[i]))))
    && (m.settlement.Some? ==>
          && lo <= Day(m.settlement.value.timestamp) < lo + n
          && m.settlement.value.timestamp <= clock(Day(m.settlement.value.timestamp)))
  }

  predicate Daily(clock: int -> int, lo: int, n: nat) {
    forall d | lo <= d < lo + n :: Day(clock(d)) == d
  }

  /** `daily_pnl` evaluated once a day and added up. */
  function DaysTotal(markets: seq<Market>, clock: int -> int, lo: int, n: nat): Result<real, Error> {
    if n == 0 then Ok(0.0) else Plus(DaysTotal(markets, clock, lo, n - 1), DailyPnl(markets, clock(lo + n - 1)))
  }

  function NetOf(m: Market): real {
    if Fallback(m).Closed? then Fallback(m).trade.net else 0.0
  }

  function SumOf(nets: seq<real>): real {
    if nets == [] then 0.0 else SumOf(nets[..|nets| - 1]) + nets[|nets| - 1]
  }

  function Nets(markets: seq<Market>): seq<real> {
    seq(|markets|, i requires 0 <= i < |markets| => NetOf(markets[i]))
  }

  function TotalNet(markets: seq<Market>): real {
    SumOf(Nets(markets))
  }

  function Payout(m: Market, side: Side, unit: real, d: int): real {
    var held := Bought(m.orders) - Sold(m.orders);
    if held != 0.0 && m.settlement.Some? && m.settlement.value.result.Some? && Day(m.settlement.value.timestamp) == d
    then SettlementGain(m.settlement.value.result.value, side, held, unit) else 0.0
  }

  /** The rows behind a trade of `m` on `side`. */
  function TradeRows(m: Market, side: Side): seq<Row> {
    Selected(ByCreation(m.orders), side, FirstBought(m.orders).GetOr(0))
  }

  function Held(m: Market): real {
    Bought(m.orders) - Sold(m.orders)
  }

  predicate Won(m: Market, side: Side) {
    m.settlement.Some? && m.settlement.value.result == Some(side)
  }

  /** What the settlement pays for the contracts still held. */
  function SettlementPays(m: Market, side: Side): real {
    if Won(m, side) then Held(m) else 0.0
  }

  /** The settlement's result if it falls in days lo .. lo + k - 1. */
  function PayoutBy(m: Market, side: Side, unit: real, lo: int, k: nat): real {
    if k == 0 then 0.0 else PayoutBy(m, side, unit, lo, k - 1) + Payout(m, side, unit, lo + k - 1)
  }

  lemma {:induction false} PayoutOnce(m: Market, side: Side, unit: real, lo: int, k: nat)
    requires m.settlement.Some?
    ensures PayoutBy(m, side, unit, lo, k)
         == if lo <= Day(m.settlement.value.timestamp) < lo + k
            then Payout(m, side, unit, Day(m.settlement.value.timestamp)) else 0.0
    decreases k
  {
    if k > 0 { PayoutOnce(m, side, unit, lo, k - 1); }
  }

  lemma {:induction false} NoPayout(m: Market, side: Side, unit: real, lo: int, k: nat)
    requires m.settlement.None? || Held(m) == 0.0
    ensures PayoutBy(m, side, unit, lo, k) == 0.0
    decreases k
  {
    if k > 0 { NoPayout(m, side, unit, lo, k - 1); }
  }

  lemma ClosedMeans(m: Market, side: Side)
    requires FirstBuySide(m.orders) == Some(side) && Fallback(m).Closed?
    ensures var rows := TradeRows(m, side);
            var held := Bought(rows) - Sold(rows);
            && AllAcceptable(rows, side) && held >= 0.0 && Bought(rows) > 0.0
            && (held != 0.0 ==> m.settlement.Some? && m.settlement.value.result.Some?)
            && Fallback(m).trade.net == Sum(rows, ReceivedBy) - Sum(rows, CostBy) - Sum(rows, Fees)
                 + if held != 0.0 && m.settlement.value.result.value == side then held else 0.0
  {
  }

  lemma AcceptableMeans(r: Row, side: Side)
    requires Acceptable(r, side)
    ensures EconomicsError(r, side).None?
  {
  }

  // ---- What the guard rejects on any day -------------------------------------

  /** What is wrong with a row whatever the day. */
  function StaticError(r: Row, side: Side): Option<Error> {
    if Qty(r) < 0.0 then Some(InvalidQuantity)
    else if Qty(r) == 0.0 then None
    else if r.side != side || (r.action == Buy && r.origin != Bot) then Some(MixedPosition)
    else EconomicsError(r, side)
  }

  /** A sale completed on a later day than it was created. */
  predicate Spans(r: Row) {
    r.action == Sell && Qty(r) > 0.0 && Day(r.created) < Day(OrderTime(r))
  }

  predicate GuardPasses(m: Market, side: Side) {
    forall i | 0 <= i < |m.orders| :: StaticError(m.orders[i], side).None? && !Spans(m.orders[i])
  }

  /** What the guard accepts on every day of the trade. */
  predicate Sound(m: Market, side: Side) {
    GuardPasses(m, side) && Held(m) >= 0.0
  }

  lemma {:induction false} NoRowError(rows: seq<Row>, side: Side, start: int)
    requires forall r | r in rows :: RowError(r, side, start).None?
    ensures FirstError(rows, side, start).None?
    decreases |rows|
  {
    if rows != [] {
      assert rows[|rows| - 1] in rows;
      NoRowError(rows[..|rows| - 1], side, start);
    }
  }

  lemma WithinDay(t: int, d: int)
    ensures Day(t) == d <==> d * DAY <= t <= d * DAY + (DAY - 1)
  {
  }

  lemma DayOrder(a: int, b: int)
    requires a <= b
    ensures Day(a) <= Day(b)
  {
  }

  lemma RowErrorParts(r: Row, side: Side, d: int)
    ensures StaticError(r, side).None? && !Spans(r) ==> RowError(r, side, d * DAY).None?
    ensures StaticError(r, side).Some? ==> RowError(r, side, d * DAY).Some?
  {
    WithinDay(r.created, Day(r.created));
    WithinDay(OrderTime(r), Day(OrderTime(r)));
  }

  /** Where no row is wrong and no sale spans midnight, the guard raises on no row of any day. */
  lemma NothingRaises(m: Market, side: Side, now: int)
    requires GuardPasses(m, side)
    ensures FirstError(m.orders, side, Day(now) * DAY).None?
  {
    forall r | r in m.orders ensures RowError(r, side, Day(now) * DAY).None? {
      var i :| 0 <= i < |m.orders| && m.orders[i] == r;
      RowErrorParts(r, side, Day(now));
    }
    NoRowError(m.orders, side, Day(now) * DAY);
  }

  lemma PassingRows(m: Market, side: Side, r: Row)
    requires GuardPasses(m, side) && r in m.orders
    ensures Qty(r) >= 0.0
    ensures Qty(r) > 0.0 ==> r.side == side && (r.action == Buy ==> BotBuy(r)) && EconomicsError(r, side).None?
  {
    var i :| 0 <= i < |m.orders| && m.orders[i] == r;
    assert StaticError(m.orders[i], side).None?;
  }

  lemma NoNegativeRows(m: Market, side: Side)
    requires GuardPasses(m, side)
    ensures forall i | 0 <= i < |m.orders| :: Qty(m.orders[i]) >= 0.0
  {
    forall i | 0 <= i < |m.orders| ensures Qty(m.orders[i]) >= 0.0 {
      assert StaticError(m.orders[i], side).None?;
    }
  }

  // ---- The guard over the days of a trade ------------------------------------

  /** One market on one day, without the evaluation instant. */
  lemma ActiveDayPart(m: Market, side: Side, now: int, d: int)
    requires FirstBuySide(m.orders) == Some(side) && FirstError(m.orders, side, d * DAY).None?
    requires Bought(m.orders) > 0.0 && Held(m) >= 0.0
    requires Held(m) != 0.0 && m.settlement.Some? ==> m.settlement.value.result.Some?
    requires m.settlement.Some? && Day(m.settlement.value.timestamp) == d ==> m.settlement.value.timestamp <= now
    requires Day(now) == d
    ensures ActivePnl(m, now) == Ok(Gains(m.orders, UnitCost(m.orders), d * DAY, now) + Payout(m, side, UnitCost(m.orders), d))
  {
    if m.settlement.Some? {
      WithinDay(m.settlement.value.timestamp, d);
      WithinDay(now, d);
    }
  }

  lemma DayWindow(m: Market, clock: int -> int, lo: int, n: nat, d: int, unit: real)
    requires Observed(m, clock, lo, n) && Day(clock(d)) == d
    requires forall i | 0 <= i < |m.orders| :: Qty(m.orders[i]) >= 0.0
    ensures Gains(m.orders, unit, d * DAY, clock(d)) == Gains(m.orders, unit, d * DAY, d * DAY + (DAY - 1))
  {
    var now, start := clock(d), d * DAY;
    forall r | r in m.orders && r.action == Sell && Qty(r) != 0.0
      ensures start <= OrderTime(r) <= now <==> start <= OrderTime(r) <= start + (DAY - 1)
    {
      var i :| 0 <= i < |m.orders| && m.orders[i] == r;
      WithinDay(OrderTime(r), d);
      WithinDay(now, d);
    }
    SameWindow(m.orders, unit, start, now, start, start + (DAY - 1));
  }

  lemma DayPart(m: Market, side: Side, clock: int -> int, lo: int, n: nat, d: int)
    requires FirstBuySide(m.orders) == Some(side) && GuardPasses(m, side) && Observed(m, clock, lo, n)
    requires Bought(m.orders) > 0.0 && Held(m) >= 0.0
    requires Held(m) != 0.0 && m.settlement.Some? ==> m.settlement.value.result.Some?
    requires Day(clock(d)) == d
    ensures MarketPnl(m, clock(d)) == Ok(DayGain(m, side, UnitCost(m.orders), d))
  {
    NoNegativeRows(m, side);
    NothingRaises(m, side, clock(d));
    DayWindow(m, clock, lo, n, d, UnitCost(m.orders));
    ActiveDayPart(m, side, clock(d), d);
    if Inactive(m, d * DAY) {
      EarlySkipLosesNothing(m, clock(d));
    }
  }

  /** The gain of the sales and the settlement of day `d`. */
  function DayGain(m: Market, side: Side, unit: real, d: int): real {
    Gains(m.orders, unit, d * DAY, d * DAY + (DAY - 1)) + Payout(m, side, unit, d)
  }

  function DayGains(m: Market, side: Side, unit: real, lo: int, k: nat): real {
    if k == 0 then 0.0 else DayGains(m, side, unit, lo, k - 1) + DayGain(m, side, unit, lo + k - 1)
  }

  predicate EachDay(m: Market, side: Side, unit: real, clock: int -> int, lo: int, n: nat) {
    forall d | lo <= d < lo + n :: MarketPnl(m, clock(d)) == Ok(DayGain(m, side, unit, d))
  }

  lemma EveryDayPart(m: Market, side: Side, clock: int -> int, lo: int, n: nat)
    requires FirstBuySide(m.orders) == Some(side) && GuardPasses(m, side) && Observed(m, clock, lo, n)
    requires Bought(m.orders) > 0.0 && Held(m) >= 0.0
    requires Held(m) != 0.0 && m.settlement.Some? ==> m.settlement.value.result.Some?
    requires Daily(clock, lo, n)
    ensures EachDay(m, side, UnitCost(m.orders), clock, lo, n)
  {
    forall d | lo <= d < lo + n ensures MarketPnl(m, clock(d)) == Ok(DayGain(m, side, UnitCost(m.orders), d)) {
      DayPart(m, side, clock, lo, n, d);
    }
  }

  lemma {:induction false} DaysOfMarket(m: Market, side: Side, unit: real, clock: int -> int, lo: int, n: nat, k: nat)
    requires EachDay(m, side, unit, clock, lo, n) && k <= n
    ensures DaysTotal([m], clock, lo, k) == Ok(DayGains(m, side, unit, lo, k))
    decreases k
  {
    if k > 0 {
      DaysOfMarket(m, side, unit, clock, lo, n, k - 1);
      OneMarket(m, clock(lo + k - 1));
    }
  }

  /** The days' windows make one window. */
  lemma {:induction false} DayGainsAreGains(m: Market, side: Side, unit: real, lo: int, k: nat)
    ensures DayGains(m, side, unit, lo, k)
         == Gains(m.orders, unit, lo * DAY, (lo + k) * DAY - 1) + PayoutBy(m, side, unit, lo, k)
    decreases k
  {
    if k == 0 {
      SameWindow(m.orders, unit, lo * DAY, lo * DAY - 1, 1, 0);
      NoGain(m.orders, unit);
    } else {
      var d := lo + k - 1;
      DayGainsAreGains(m, side, unit, lo, k - 1);
      GainsSplit(m.orders, unit, lo * DAY, d * DAY - 1, d * DAY + (DAY - 1));
      assert d * DAY + (DAY - 1) == (lo + k) * DAY - 1;
    }
  }

  lemma OneMarket(m: Market, now: int)
    ensures DailyPnl([m], now) == MarketPnl(m, now)
  {
    assert [m][..0] == [];
  }

  lemma AllSalesInside(m: Market, clock: int -> int, lo: int, n: nat)
    requires Observed(m, clock, lo, n)
    ensures forall r | r in m.orders && r.action == Sell && Qty(r) > 0.0 ::
              lo * DAY <= OrderTime(r) <= (lo + n) * DAY - 1
  {
    forall r | r in m.orders && r.action == Sell && Qty(r) > 0.0
      ensures lo * DAY <= OrderTime(r) <= (lo + n) * DAY - 1
    {
      var i :| 0 <= i < |m.orders| && m.orders[i] == r;
      WithinDay(OrderTime(r), Day(OrderTime(r)));
    }
  }

  lemma SettlementPaysOnce(m: Market, side: Side, unit: real, clock: int -> int, lo: int, n: nat)
    requires Observed(m, clock, lo, n)
    requires Held(m) != 0.0 ==> m.settlement.Some? && m.settlement.value.result.Some?
    ensures PayoutBy(m, side, unit, lo, n) == SettlementPays(m, side) - unit * Held(m)
  {
    if m.settlement.Some? && Held(m) != 0.0 {
      PayoutOnce(m, side, unit, lo, n);
    } else {
      NoPayout(m, side, unit, lo, n);
    }
  }

  lemma SalesOnly(rows: seq<Row>)
    requires forall i | 0 <= i < |rows| :: Qty(rows[i]) >= 0.0
    ensures forall r | r in rows && Qty(r) != 0.0 :: Qty(r) > 0.0
  {
  }

  lemma AllGains(m: Market, unit: real, clock: int -> int, lo: int, n: nat)
    requires Observed(m, clock, lo, n)
    requires forall i | 0 <= i < |m.orders| :: Qty(m.orders[i]) >= 0.0
    ensures Gains(m.orders, unit, lo * DAY, (lo + n) * DAY - 1) == Sum(m.orders, ProceedsBy) - unit * Sold(m.orders)
  {
    AllSalesInside(m, clock, lo, n);
    SalesOnly(m.orders);
    SharesSum(m.orders, unit, lo * DAY, (lo + n) * DAY - 1);
  }

  lemma GainsOfAllDays(m: Market, side: Side, unit: real, clock: int -> int, lo: int, n: nat)
    requires Observed(m, clock, lo, n)
    requires unit * Sold(m.orders) + unit * Held(m) == Basis(m.orders)
    requires forall i | 0 <= i < |m.orders| :: Qty(m.orders[i]) >= 0.0
    requires Held(m) != 0.0 ==> m.settlement.Some? && m.settlement.value.result.Some?
    ensures DayGains(m, side, unit, lo, n) == Sum(m.orders, ProceedsBy) - Basis(m.orders) + SettlementPays(m, side)
  {
    AllGains(m, unit, clock, lo, n);
    SettlementPaysOnce(m, side, unit, clock, lo, n);
    DayGainsAreGains(m, side, unit, lo, n);
  }

  /** All days together: the proceeds of every sale less the basis, plus what the settlement pays. */
  lemma GuardTotal(m: Market, side: Side, clock: int -> int, lo: int, n: nat)
    requires FirstBuySide(m.orders) == Some(side) && GuardPasses(m, side) && Observed(m, clock, lo, n)
    requires Bought(m.orders) > 0.0 && Held(m) >= 0.0 && Daily(clock, lo, n)
    requires Held(m) != 0.0 ==> m.settlement.Some? && m.settlement.value.result.Some?
    ensures DaysTotal([m], clock, lo, n) == Ok(Sum(m.orders, ProceedsBy) - Basis(m.orders) + SettlementPays(m, side))
  {
    NoNegativeRows(m, side);
    EveryDayPart(m, side, clock, lo, n);
    SharesSumToBasis(m.orders);
    SumOfDays(m, side, UnitCost(m.orders), clock, lo, n);
  }

  lemma SumOfDays(m: Market, side: Side, unit: real, clock: int -> int, lo: int, n: nat)
    requires Observed(m, clock, lo, n) && EachDay(m, side, unit, clock, lo, n)
    requires unit * Sold(m.orders) + unit * Held(m) == Basis(m.orders)
    requires forall i | 0 <= i < |m.orders| :: Qty(m.orders[i]) >= 0.0
    requires Held(m) != 0.0 ==> m.settlement.Some? && m.settlement.value.result.Some?
    ensures DaysTotal([m], clock, lo, n) == Ok(Sum(m.orders, ProceedsBy) - Basis(m.orders) + SettlementPays(m, side))
  {
    DaysOfMarket(m, side, unit, clock, lo, n, n);
    GainsOfAllDays(m, side, unit, clock, lo, n);
  }

  // ---- Sales recorded before the first purchase ------------------------------

  lemma {:induction false} FirstBoughtIsLeast(rows: seq<Row>, r: Row)
    requires r in rows && BotBuy(r)
    ensures FirstBought(rows).Some? && FirstBought(rows).value <= r.created
    decreases |rows|
  {
    var n := |rows| - 1;
    if r in rows[..n] {
      FirstBoughtIsLeast(rows[..n], r);
    } else {
      assert rows[n] == r;
    }
  }

  /** Filled rows the dashboard passes over: it starts at the first purchase. */
  function EarlyRows(rows: seq<Row>, first: int): seq<Row> {
    if rows == [] then []
    else
      var r := rows[|rows| - 1];
      EarlyRows(rows[..|rows| - 1], first) + if Qty(r) > 0.0 && r.created < first then [r] else []
  }

  function EarlyOf(m: Market): seq<Row> {
    EarlyRows(ByCreation(m.orders), FirstBought(m.orders).GetOr(0))
  }

  function EarlyQuantity(m: Market): real { Sold(EarlyOf(m)) }
  function EarlyProceeds(m: Market): real { Sum(EarlyOf(m), ProceedsBy) }

  /** What settlement pays on the contracts sold early. */
  function EarlyPayout(m: Market, side: Side): real {
    if Won(m, side) then EarlyQuantity(m) else 0.0
  }

  lemma {:induction false} EarlyMembers(rows: seq<Row>, first: int, x: Row)
    ensures x in EarlyRows(rows, first) <==> x in rows && Qty(x) > 0.0 && x.created < first
    decreases |rows|
  {
    if rows != [] {
      assert rows == rows[..|rows| - 1] + [rows[|rows| - 1]];
      EarlyMembers(rows[..|rows| - 1], first, x);
    }
  }

  lemma SumOfOneMore(rows: seq<Row>, r: Row, f: Row -> real)
    ensures Sum(rows + [r], f) == Sum(rows, f) + f(r)
  {
    assert (rows + [r])[..|rows|] == rows;
  }

  /** The filled rows are the trade's rows and the early ones. */
  lemma {:induction false} SumSplits(rows: seq<Row>, side: Side, first: int, f: Row -> real)
    requires forall r | r in rows :: Qty(r) >= 0.0 && (Qty(r) > 0.0 ==> r.side == side) && (Qty(r) == 0.0 ==> f(r) == 0.0)
    ensures Sum(rows, f) == Sum(Selected(rows, side, first), f) + Sum(EarlyRows(rows, first), f)
    decreases |rows|
  {
    if rows != [] {
      var rest, r := rows[..|rows| - 1], rows[|rows| - 1];
      assert r in rows;
      SumSplits(rest, side, first, f);
      SumOfOneMore(Selected(rest, side, first), r, f);
      SumOfOneMore(EarlyRows(rest, first), r, f);
      assert Selected(rest, side, first) + [] == Selected(rest, side, first);
      assert EarlyRows(rest, first) + [] == EarlyRows(rest, first);
    }
  }

  lemma {:induction false} SumOfZeros(rows: seq<Row>, f: Row -> real)
    requires forall r | r in rows :: f(r) == 0.0
    ensures Sum(rows, f) == 0.0
    decreases |rows|
  {
    if rows != [] {
      assert rows[|rows| - 1] in rows;
      SumOfZeros(rows[..|rows| - 1], f);
    }
  }

  lemma {:induction false} SalesArePositive(rows: seq<Row>)
    requires forall r | r in rows :: r.action == Sell && Qty(r) > 0.0
    ensures Sold(rows) >= 0.0 && (Sold(rows) == 0.0 ==> rows == [])
    decreases |rows|
  {
    if rows != [] {
      assert rows[|rows| - 1] in rows;
      SalesArePositive(rows[..|rows| - 1]);
    }
  }

  lemma EarlyAreSales(m: Market, side: Side)
    requires GuardPasses(m, side)
    ensures forall r | r in EarlyOf(m) :: r.action == Sell && Qty(r) > 0.0
  {
    forall r | r in EarlyOf(m) ensures r.action == Sell && Qty(r) > 0.0 {
      EarlyMembers(ByCreation(m.orders), FirstBought(m.orders).GetOr(0), r);
      SortedMembers(m.orders, r);
      PassingRows(m, side, r);
      if r.action == Buy {
        FirstBoughtIsLeast(m.orders, r);
      }
    }
  }

  lemma SumOfMarket(m: Market, side: Side, f: Row -> real)
    requires GuardPasses(m, side)
    requires forall r: Row :: Qty(r) == 0.0 ==> f(r) == 0.0
    ensures Sum(m.orders, f) == Sum(TradeRows(m, side), f) + Sum(EarlyOf(m), f)
  {
    var sorted := ByCreation(m.orders);
    forall r | r in sorted ensures Qty(r) >= 0.0 && (Qty(r) > 0.0 ==> r.side == side) && (Qty(r) == 0.0 ==> f(r) == 0.0) {
      SortedMembers(m.orders, r);
      PassingRows(m, side, r);
    }
    SumSplits(sorted, side, FirstBought(m.orders).GetOr(0), f);
    SumOfSorted(m.orders, f);
  }

  /** A trade's net result, written over all journal rows: early sales are left out of it, and settled instead. */
  predicate NetInRows(m: Market, side: Side, net: real) {
    var held := Held(m) + EarlyQuantity(m);
    && Bought(m.orders) > 0.0 && EarlyQuantity(m) >= 0.0
    && (held != 0.0 ==> m.settlement.Some? && m.settlement.value.result.Some?)
    && net == Sum(m.orders, ProceedsBy) - EarlyProceeds(m) - Basis(m.orders) + (if Won(m, side) then held else 0.0)
  }

  lemma TradeInRows(m: Market, side: Side)
    requires FirstBuySide(m.orders) == Some(side) && GuardPasses(m, side) && Fallback(m).Closed?
    ensures NetInRows(m, side, NetOf(m))
  {
    ClosedMeans(m, side);
    EarlyAreSales(m, side);
    SalesArePositive(EarlyOf(m));
    SumOfMarket(m, side, BoughtBy);
    SumOfMarket(m, side, SoldBy);
    SumOfMarket(m, side, BasisBy);
    SumOfMarket(m, side, ProceedsBy);
    SumOfZeros(EarlyOf(m), BoughtBy);
    SumOfZeros(EarlyOf(m), BasisBy);
    forall r | r in TradeRows(m, side) ensures Qty(r) > 0.0 {
      SelectedMembers(ByCreation(m.orders), side, FirstBought(m.orders).GetOr(0), r);
    }
    NetIsProceedsLessBasis(TradeRows(m, side));
  }

  // ---- How far they part, and exactly when they agree ------------------------

  /**
    On a closed trade the guard accepts, the daily results exceed the dashboard's net by the
    proceeds of sales recorded before the first purchase, less the payout the dashboard
    credits on that quantity instead.
   */
  lemma ClosedTradeDiffersBy(m: Market, side: Side, clock: int -> int, lo: int, n: nat)
    requires FirstBuySide(m.orders) == Some(side) && Fallback(m).Closed? && GuardPasses(m, side) && Held(m) >= 0.0
    requires Daily(clock, lo, n) && Observed(m, clock, lo, n)
    ensures DaysTotal([m], clock, lo, n) == Ok(NetOf(m) + EarlyProceeds(m) - EarlyPayout(m, side))
  {
    var net := NetOf(m);
    assert NetInRows(m, side, net) by { TradeInRows(m, side); }
    RowsTotal(m, side, clock, lo, n, net);
  }

  lemma RowsTotal(m: Market, side: Side, clock: int -> int, lo: int, n: nat, net: real)
    requires FirstBuySide(m.orders) == Some(side) && GuardPasses(m, side) && Held(m) >= 0.0
    requires Daily(clock, lo, n) && Observed(m, clock, lo, n)
    requires NetInRows(m, side, net)
    ensures DaysTotal([m], clock, lo, n) == Ok(net + EarlyProceeds(m) - EarlyPayout(m, side))
  {
    GuardTotal(m, side, clock, lo, n);
  }

  /** A closed trade has a day on which the guard looks at it. */
  lemma ActiveDay(m: Market, side: Side, clock: int -> int, lo: int, n: nat) returns (d: int)
    requires FirstBuySide(m.orders) == Some(side) && Fallback(m).Closed? && Observed(m, clock, lo, n)
    ensures lo <= d < lo + n && !Inactive(m, d * DAY)
  {
    ClosedMeans(m, side);
    if m.settlement.Some? {
      d := Day(m.settlement.value.timestamp);
      WithinDay(m.settlement.value.timestamp, d);
    } else {
      var r := SomeSale(TradeRows(m, side));
      SelectedMembers(ByCreation(m.orders), side, FirstBought(m.orders).GetOr(0), r);
      SortedMembers(m.orders, r);
      var i :| 0 <= i < |m.orders| && m.orders[i] == r;
      d := Day(OrderTime(r));
      WithinDay(OrderTime(r), d);
    }
  }

  lemma {:induction false} SomeSale(rows: seq<Row>) returns (r: Row)
    requires Sold(rows) > 0.0
    ensures r in rows && r.action == Sell
    decreases |rows|
  {
    var n := |rows| - 1;
    if rows[n].action == Sell {
      r := rows[n];
    } else {
      r := SomeSale(rows[..n]);
    }
  }

  lemma {:induction false} OneDayRaises(m: Market, clock: int -> int, lo: int, n: nat, d: int)
    requires lo <= d < lo + n && MarketPnl(m, clock(d)).Raised?
    ensures DaysTotal([m], clock, lo, n).Raised?
    decreases n
  {
    OneMarket(m, clock(lo + n - 1));
    if d < lo + n - 1 {
      OneDayRaises(m, clock, lo, n - 1, d);
    }
  }

  lemma {:induction false} ErrorIsFound(rows: seq<Row>, side: Side, start: int, i: nat)
    requires i < |rows| && RowError(rows[i], side, start).Some?
    ensures FirstError(rows, side, start).Some?
    decreases |rows|
  {
    if i < |rows| - 1 {
      ErrorIsFound(rows[..|rows| - 1], side, start, i);
    }
  }

  /** A sale that spans midnight stops the day it completed on: the guard raises rather than splits it. */
  lemma CrossDaySaleStopsTheDay(m: Market, i: nat, now: int)
    requires FirstBuySide(m.orders).Some?
    requires i < |m.orders| && Spans(m.orders[i]) && Day(OrderTime(m.orders[i])) == Day(now)
    ensures MarketPnl(m, now).Raised?
  {
    var start, r := Day(now) * DAY, m.orders[i];
    WithinDay(OrderTime(r), Day(now));
    if start <= r.created {
      DayOrder(start, r.created);
    }
    assert RowError(r, FirstBuySide(m.orders).value, start).Some?;
    ErrorIsFound(m.orders, FirstBuySide(m.orders).value, start, i);
  }

  /** A row the guard rejects stops some day of the trade. */
  lemma RejectedTradeRaises(m: Market, side: Side, clock: int -> int, lo: int, n: nat)
    requires FirstBuySide(m.orders) == Some(side) && Fallback(m).Closed?
    requires Daily(clock, lo, n) && Observed(m, clock, lo, n) && !Sound(m, side)
    ensures DaysTotal([m], clock, lo, n).Raised?
  {
    if i :| 0 <= i < |m.orders| && Spans(m.orders[i]) {
      var d := Day(OrderTime(m.orders[i]));
      CrossDaySaleStopsTheDay(m, i, clock(d));
      OneDayRaises(m, clock, lo, n, d);
    } else {
      var d := ActiveDay(m, side, clock, lo, n);
      if i :| 0 <= i < |m.orders| && StaticError(m.orders[i], side).Some? {
        RowErrorParts(m.orders[i], side, d);
        ErrorIsFound(m.orders, side, d * DAY, i);
      }
      assert MarketPnl(m, clock(d)).Raised?;
      OneDayRaises(m, clock, lo, n, d);
    }
  }

  lemma ClosedTradeTotal(m: Market, side: Side, clock: int -> int, lo: int, n: nat)
    requires FirstBuySide(m.orders) == Some(side) && Fallback(m).Closed?
    requires Daily(clock, lo, n) && Observed(m, clock, lo, n)
    ensures Sound(m, side) ==>
              DaysTotal([m], clock, lo, n) == Ok(NetOf(m) + EarlyProceeds(m) - EarlyPayout(m, side))
    ensures !Sound(m, side) ==> DaysTotal([m], clock, lo, n).Raised?
  {
    if Sound(m, side) {
      ClosedTradeDiffersBy(m, side, clock, lo, n);
    } else {
      RejectedTradeRaises(m, side, clock, lo, n);
    }
  }

  lemma SameResultIff(total: Result<real, Error>, net: real, proceeds: real, payout: real, sound: bool)
    requires sound ==> total == Ok(net + proceeds - payout)
    requires !sound ==> total.Raised?
    ensures total == Ok(net) <==> sound && proceeds == payout
  {
  }

  /**
    Exactly when the two accountings agree on a closed trade: the guard finds nothing wrong
    with any row, no sale spans midnight, no more was sold than bought, and what sales
    recorded before the first purchase brought in is what the dashboard pays on them.
   */
  lemma ClosedTradeAgreesIff(m: Market, side: Side, clock: int -> int, lo: int, n: nat)
    requires FirstBuySide(m.orders) == Some(side) && Fallback(m).Closed?
    requires Daily(clock, lo, n) && Observed(m, clock, lo, n)
    ensures DaysTotal([m], clock, lo, n) == Ok(NetOf(m))
       <==> Sound(m, side) && EarlyProceeds(m) == EarlyPayout(m, side)
  {
    ClosedTradeTotal(m, side, clock, lo, n);
    SameResultIff(DaysTotal([m], clock, lo, n), NetOf(m), EarlyProceeds(m), EarlyPayout(m, side), Sound(m, side));
  }

  // ---- Agreement -------------------------------------------------------------

  /** The bot alone bought, on one side, and nothing but that side was sold, after it was bought. */
  predicate OneSided(m: Market, side: Side) {
    && FirstBuySide(m.orders) == Some(side)
    && (forall i | 0 <= i < |m.orders| :: Qty(m.orders[i]) >= 0.0 && !Spans(m.orders[i]))
    && (forall i | 0 <= i < |m.orders| && Qty(m.orders[i]) > 0.0 ::
          && m.orders[i].side == side
          && (m.orders[i].action == Buy ==> m.orders[i].origin == Bot)
          && m.orders[i].created >= FirstBought(m.orders).GetOr(0))
  }

  /** In a one-sided market every filled row is the trade's, so the dashboard has checked it. */
  lemma OneSidedPasses(m: Market, side: Side)
    requires OneSided(m, side) && Fallback(m).Closed?
    ensures GuardPasses(m, side) && EarlyOf(m) == []
  {
    ClosedMeans(m, side);
    var sorted, first, rows := ByCreation(m.orders), FirstBought(m.orders).GetOr(0), TradeRows(m, side);
    forall k | 0 <= k < |m.orders| ensures StaticError(m.orders[k], side).None? {
      var r := m.orders[k];
      if Qty(r) > 0.0 {
        SortedMembers(m.orders, r);
        SelectedMembers(sorted, side, first, r);
        var i :| 0 <= i < |rows| && rows[i] == r;
        assert Acceptable(rows[i], side);
        AcceptableMeans(r, side);
      }
    }
    NothingEarly(m, side);
  }

  lemma {:induction false} NoEarlyRows(rows: seq<Row>, first: int)
    requires forall r | r in rows && Qty(r) > 0.0 :: r.created >= first
    ensures EarlyRows(rows, first) == []
    decreases |rows|
  {
    if rows != [] {
      assert rows[|rows| - 1] in rows;
      NoEarlyRows(rows[..|rows| - 1], first);
    }
  }

  lemma NothingEarly(m: Market, side: Side)
    requires OneSided(m, side)
    ensures EarlyOf(m) == []
  {
    forall r | r in ByCreation(m.orders) && Qty(r) > 0.0 ensures r.created >= FirstBought(m.orders).GetOr(0) {
      SortedMembers(m.orders, r);
    }
    NoEarlyRows(ByCreation(m.orders), FirstBought(m.orders).GetOr(0));
  }

  /**
    The two accountings agree on a closed one-sided trade whose sales completed on the day
    they were created: the daily results, added over the days that saw its sales and its
    settlement, are the net result.
   */
  lemma ClosedTradeAgrees(m: Market, side: Side, clock: int -> int, lo: int, n: nat)
    requires OneSided(m, side) && Fallback(m).Closed?
    requires Daily(clock, lo, n) && Observed(m, clock, lo, n)
    ensures DaysTotal([m], clock, lo, n) == Ok(NetOf(m))
  {
    OneSidedPasses(m, side);
    NothingOversold(m, side);
    ClosedTradeDiffersBy(m, side, clock, lo, n);
  }

  lemma NothingOversold(m: Market, side: Side)
    requires FirstBuySide(m.orders) == Some(side) && Fallback(m).Closed? && GuardPasses(m, side) && EarlyOf(m) == []
    ensures Held(m) >= 0.0
  {
    ClosedMeans(m, side);
    SumOfMarket(m, side, BoughtBy);
    SumOfMarket(m, side, SoldBy);
  }

  /** Days and markets can be added in either order while nothing raises. */
  lemma {:induction false} DaysTotalSplits(markets: seq<Market>, clock: int -> int, lo: int, n: nat)
    requires markets != []
    requires DaysTotal(markets[..|markets| - 1], clock, lo, n).Ok?
    requires DaysTotal([markets[|markets| - 1]], clock, lo, n).Ok?
    ensures DaysTotal(markets, clock, lo, n)
         == Plus(DaysTotal(markets[..|markets| - 1], clock, lo, n), DaysTotal([markets[|markets| - 1]], clock, lo, n))
    decreases n
  {
    if n > 0 {
      DaysTotalSplits(markets, clock, lo, n - 1);
      var m := markets[|markets| - 1];
      OneMarket(m, clock(lo + n - 1));
    }
  }

  predicate Reconciles(m: Market, clock: int -> int, lo: int, n: nat) {
    var side := FirstBuySide(m.orders);
    side.Some? ==> OneSided(m, side.value) && Fallback(m).Closed? && Observed(m, clock, lo, n)
  }

  lemma {:induction false} NoTradeNoPnl(m: Market, clock: int -> int, lo: int, n: nat)
    requires FirstBuySide(m.orders).None?
    ensures DaysTotal([m], clock, lo, n) == Ok(0.0) && NetOf(m) == 0.0
    decreases n
  {
    if n > 0 {
      NoTradeNoPnl(m, clock, lo, n - 1);
      OneMarket(m, clock(lo + n - 1));
    }
  }

  predicate Agrees(m: Market, clock: int -> int, lo: int, n: nat) {
    DaysTotal([m], clock, lo, n) == Ok(NetOf(m))
  }

  lemma ReconciledAgrees(m: Market, clock: int -> int, lo: int, n: nat)
    requires Reconciles(m, clock, lo, n) && Daily(clock, lo, n)
    ensures Agrees(m, clock, lo, n)
  {
    if FirstBuySide(m.orders).Some? {
      ClosedTradeAgrees(m, FirstBuySide(m.orders).value, clock, lo, n);
    } else {
      NoTradeNoPnl(m, clock, lo, n);
    }
  }

  lemma {:induction false} AddMarkets(markets: seq<Market>, nets: seq<real>, clock: int -> int, lo: int, n: nat)
    requires |nets| == |markets|
    requires forall i | 0 <= i < |markets| :: DaysTotal([markets[i]], clock, lo, n) == Ok(nets[i])
    ensures DaysTotal(markets, clock, lo, n) == Ok(SumOf(nets))
    decreases |markets|
  {
    if markets == [] {
      NoMarkets(clock, lo, n);
    } else {
      var k := |markets| - 1;
      AddMarkets(markets[..k], nets[..k], clock, lo, n);
      assert DaysTotal([markets[k]], clock, lo, n) == Ok(nets[k]);
      DaysTotalSplits(markets, clock, lo, n);
    }
  }

  /** The same for any book of markets, traded or not. */
  lemma AccountingsAgree(markets: seq<Market>, clock: int -> int, lo: int, n: nat)
    requires Daily(clock, lo, n)
    requires forall i | 0 <= i < |markets| :: Reconciles(markets[i], clock, lo, n)
    ensures DaysTotal(markets, clock, lo, n) == Ok(TotalNet(markets))
  {
    forall i | 0 <= i < |markets| ensures DaysTotal([markets[i]], clock, lo, n) == Ok(Nets(markets)[i]) {
      ReconciledAgrees(markets[i], clock, lo, n);
    }
    AddMarkets(markets, Nets(markets), clock, lo, n);
  }

  lemma {:induction false} NoMarkets(clock: int -> int, lo: int, n: nat)
    ensures DaysTotal([], clock, lo, n) == Ok(0.0)
    decreases n
  {
    if n > 0 { NoMarkets(clock, lo, n - 1); }
  }

  // ---- An early sale ---------------------------------------------------------

  function Fill(qty: real, paid: real, outcome: Side): Option<Order> {
    Some(Order(qty, Some(Economics(paid, 0.0, 0.0, 0.0, outcome)), None, None))
  }

  /**
    A manual sale recorded before the first purchase breaks the agreement: the dashboard
    ignores it and settles the contract, the guard books it as sold.
   */
  lemma EarlySaleDisagrees()
    ensures var m := Market([Row("T", Manual, Sell, Yes, 1, Fill(1.0, 0.5, No), false),
                             Row("T", Bot, Buy, Yes, 2, Fill(1.0, 0.5, Yes), false)], Some(Settlement(3, Some(Yes))));
            && MarketPnl(m, 4) == Ok(0.0)
            && Fallback(m).Closed? && Fallback(m).trade.net == 0.5
  {
    EarlySaleGuard(EarlySale(), EarlyBuy());
    EarlySaleDashboard(EarlySale(), EarlyBuy());
  }

  function EarlySale(): Row { Row("T", Manual, Sell, Yes, 1, Fill(1.0, 0.5, No), false) }
  function EarlyBuy(): Row { Row("T", Bot, Buy, Yes, 2, Fill(1.0, 0.5, Yes), false) }

  lemma SumOfOne(r: Row, f: Row -> real)
    ensures Sum([r], f) == f(r)
  {
    assert [r][..0] == [] && Sum([], f) == 0.0;
  }

  lemma SumOfTwo(a: Row, b: Row, f: Row -> real)
    ensures Sum([a, b], f) == f(a) + f(b)
  {
    assert [a, b][..1] == [a];
    SumOfOne(a, f);
  }

  lemma EarlySaleShape(sale: Row, buy: Row)
    requires sale == EarlySale() && buy == EarlyBuy()
    ensures FirstBuySide([sale, buy]) == Some(Yes)
    ensures FirstBought([sale, buy]) == Some(2) && Opened([sale, buy]) == Some(2)
    ensures ByCreation([sale, buy]) == [sale, buy] && Selected([sale, buy], Yes, 2) == [buy]
  {
    var rows := [sale, buy];
    assert rows[..1] == [sale] && [sale][..0] == [];
    assert !BotBuy(sale) && BotBuy(buy) && rows[1] == buy;
    assert FirstBuySide([sale]) == None;
    assert FirstBought([sale]) == None && Opened([sale]) == None;
    assert ByCreation([]) == [] && ByCreation([sale]) == [sale];
    assert Selected([], Yes, 2) == [] && Selected([sale], Yes, 2) == [];
  }

  lemma EarlySaleSums(sale: Row, buy: Row)
    requires sale == EarlySale() && buy == EarlyBuy()
    ensures Bought([sale, buy]) == 1.0 && Sold([sale, buy]) == 1.0
    ensures UnitCost([sale, buy]) == 0.5
  {
    SumOfTwo(sale, buy, BoughtBy);
    SumOfTwo(sale, buy, BasisBy);
    SumOfTwo(sale, buy, SoldBy);
  }

  lemma EarlySaleLoops(sale: Row, buy: Row)
    requires sale == EarlySale() && buy == EarlyBuy()
    ensures Gains([sale, buy], 0.5, 0, 4) == 0.0 && FirstError([sale, buy], Yes, 0) == None
  {
    assert [sale, buy][..1] == [sale] && [sale][..0] == [];
    assert Gains([sale], 0.5, 0, 4) == 0.0;
    assert FirstError([sale], Yes, 0) == None;
  }

  lemma EarlySaleGuard(sale: Row, buy: Row)
    requires sale == EarlySale() && buy == EarlyBuy()
    ensures MarketPnl(Market([sale, buy], Some(Settlement(3, Some(Yes)))), 4) == Ok(0.0)
  {
    EarlySaleShape(sale, buy);
    EarlySaleSums(sale, buy);
    EarlySaleLoops(sale, buy);
  }

  lemma EarlyTrade(buy: Row)
    requires buy == EarlyBuy()
    ensures TotalsOf([buy], 2) == Totals(1.0, 0.0, 0.5, 0.0, 0.0, 2) && AllAcceptable([buy], Yes)
  {
    SumOfOne(buy, BoughtBy);
    SumOfOne(buy, SoldBy);
    SumOfOne(buy, CostBy);
    SumOfOne(buy, Fees);
    SumOfOne(buy, ReceivedBy);
    assert [buy][..0] == [] && LastAt([], 2) == 2;
    assert LastAt([buy], 2) == 2;
    assert Acceptable(buy, Yes);
  }

  lemma EarlySaleDashboard(sale: Row, buy: Row)
    requires sale == EarlySale() && buy == EarlyBuy()
    ensures var m := Market([sale, buy], Some(Settlement(3, Some(Yes))));
            Fallback(m).Closed? && Fallback(m).trade.net == 0.5
  {
    var m := Market([sale, buy], Some(Settlement(3, Some(Yes))));
    EarlySaleShape(sale, buy);
    EarlyTrade(buy);
    assert !BuysCleared(m.orders) by { assert BotBuy(m.orders[1]) && !m.orders[1].cleared; }
    assert Fallback(m) == Conclude(m, Yes, TotalsOf([buy], 2), 2);
  }
}
