/**
  The loops of `daily_pnl` and `_fallback`, each proved to compute what the two
  descriptions say.
 */
module AccountingLoops {
  import opened Wrappers
  import opened Accounting

  /** Tickers in the order they first appear. */
  function Tickers(rows: seq<Row>): seq<string> {
    if rows == [] then []
    else
      var earlier := Tickers(rows[..|rows| - 1]);
      var t := rows[|rows| - 1].ticker;
      if t in earlier then earlier else earlier + [t]
  }

  function OrdersOf(rows: seq<Row>, ticker: string): seq<Row> {
    if rows == [] then []
    else OrdersOf(rows[..|rows| - 1], ticker) + if rows[|rows| - 1].ticker == ticker then [rows[|rows| - 1]] else []
  }

  function MarketOf(rows: seq<Row>, settlements: map<string, Settlement>, ticker: string): Market {
    Market(OrdersOf(rows, ticker), if ticker in settlements then Some(settlements[ticker]) else None)
  }

  function MarketsOf(rows: seq<Row>, settlements: map<string, Settlement>): seq<Market> {
    var tickers := Tickers(rows);
    seq(|tickers|, i requires 0 <= i < |tickers| => MarketOf(rows, settlements, tickers[i]))
  }

  /** The journal grouped by ticker. */
  method Group(rows: seq<Row>) returns (tickers: seq<string>, groups: map<string, seq<Row>>)
    ensures tickers == Tickers(rows)
    ensures groups.Keys == (set t | t in tickers)
    ensures forall t | t in groups :: groups[t] == OrdersOf(rows, t)
  {
    tickers, groups := [], map[];
    for i := 0 to |rows|
      invariant tickers == Tickers(rows[..i])
      invariant groups.Keys == (set t | t in tickers)
      invariant forall t :: if t in groups then groups[t] == OrdersOf(rows[..i], t) else OrdersOf(rows[..i], t) == []
    {
      assert rows[..i + 1][..i] == rows[..i];
      var t := rows[i].ticker;
      if t !in groups {
        groups := groups[t := []];
        tickers := tickers + [t];
      }
      groups := groups[t := groups[t] + [rows[i]]];
    }
    assert rows[..|rows|] == rows;
  }

  datatype Sale = Sale(qty: real, proceeds: real, at: int)

  function SaleOf(r: Row): seq<Sale> {
    if r.action == Sell && Qty(r) != 0.0 then [Sale(Qty(r), Qty(r) - Paid(r) - Fees(r), OrderTime(r))] else []
  }

  function SalesOf(rows: seq<Row>): seq<Sale> {
    if rows == [] then []
    else
      var r := rows[|rows| - 1];
      SalesOf(rows[..|rows| - 1]) + SaleOf(r)
  }

  function SaleGains(sales: seq<Sale>, unit: real, from: int, to: int): real {
    if sales == [] then 0.0
    else
      var s := sales[|sales| - 1];
      SaleGains(sales[..|sales| - 1], unit, from, to) + if from <= s.at <= to then s.proceeds - unit * s.qty else 0.0
  }

  lemma {:induction false} SaleGainsAreGains(rows: seq<Row>, unit: real, from: int, to: int)
    ensures SaleGains(SalesOf(rows), unit, from, to) == Gains(rows, unit, from, to)
    decreases |rows|
  {
    if rows != [] {
      var r, earlier := rows[|rows| - 1], SalesOf(rows[..|rows| - 1]);
      SaleGainsAreGains(rows[..|rows| - 1], unit, from, to);
      assert forall x :: (earlier + [x])[..|earlier|] == earlier;
      assert earlier + [] == earlier;
    }
  }

  method FindSide(rows: seq<Row>) returns (side: Option<Side>)
    ensures side == FirstBuySide(rows)
  {
    side := None;
    for i := 0 to |rows|
      invariant side == FirstBuySide(rows[..i])
    {
      assert rows[..i + 1][..i] == rows[..i];
      if side.None? && BotBuy(rows[i]) {
        side := Some(rows[i].side);
      }
    }
    assert rows[..|rows|] == rows;
  }

  lemma {:induction false} ErrorPersists(rows: seq<Row>, side: Side, start: int, i: nat)
    requires i <= |rows| && FirstError(rows[..i], side, start).Some?
    ensures FirstError(rows, side, start) == FirstError(rows[..i], side, start)
    decreases |rows|
  {
    if i == |rows| {
      assert rows[..i] == rows;
    } else {
      assert rows[..|rows| - 1][..i] == rows[..i];
      ErrorPersists(rows[..|rows| - 1], side, start, i);
    }
  }

  lemma OneRowMore(rows: seq<Row>, side: Side, start: int, i: nat)
    requires i < |rows|
    ensures FirstError(rows[..i + 1], side, start)
         == if FirstError(rows[..i], side, start).Some? then FirstError(rows[..i], side, start) else RowError(rows[i], side, start)
    ensures Bought(rows[..i + 1]) == Bought(rows[..i]) + BoughtBy(rows[i])
    ensures Basis(rows[..i + 1]) == Basis(rows[..i]) + BasisBy(rows[i])
    ensures Sold(rows[..i + 1]) == Sold(rows[..i]) + SoldBy(rows[i])
    ensures SalesOf(rows[..i + 1]) == SalesOf(rows[..i]) + SaleOf(rows[i])
  {
    assert rows[..i + 1][..i] == rows[..i];
  }

  /** The row loop of `daily_pnl`. */
  method ReadRows(rows: seq<Row>, side: Side, start: int)
    returns (error: Option<Error>, bought: real, basis: real, sold: real, sales: seq<Sale>)
    ensures error == FirstError(rows, side, start)
    ensures error.None? ==> bought == Bought(rows) && basis == Basis(rows) && sold == Sold(rows) && sales == SalesOf(rows)
  {
    error, bought, basis, sold, sales := None, 0.0, 0.0, 0.0, [];
    for i := 0 to |rows|
      invariant error.None? && FirstError(rows[..i], side, start).None?
      invariant bought == Bought(rows[..i]) && basis == Basis(rows[..i]) && sold == Sold(rows[..i])
      invariant sales == SalesOf(rows[..i])
    {
      var r := rows[i];
      OneRowMore(rows, side, start, i);
      error := RowError(r, side, start);
      if error.Some? {
        ErrorPersists(rows, side, start, i + 1);
        return;
      }
      if Qty(r) != 0.0 {
        if r.action == Buy {
          bought, basis := bought + Qty(r), basis + (Paid(r) + Fees(r));
        } else {
          sold := sold + Qty(r);
          sales := sales + [Sale(Qty(r), Qty(r) - Paid(r) - Fees(r), OrderTime(r))];
        }
      }
    }
    assert rows[..|rows|] == rows;
  }

  /** The sale loop: each sale in the window earns its proceeds less its share of the basis. */
  method RealizeSales(sales: seq<Sale>, basis: real, bought: real, start: int, now: int) returns (total: real)
    requires bought > 0.0
    ensures total == SaleGains(sales, basis / bought, start, now)
  {
    total := 0.0;
    for i := 0 to |sales|
      invariant total == SaleGains(sales[..i], basis / bought, start, now)
    {
      assert sales[..i + 1][..i] == sales[..i];
      if start <= sales[i].at <= now {
        total := total + (sales[i].proceeds - basis * sales[i].qty / bought);
        ShareIsUnitCost(basis, sales[i].qty, bought);
      }
    }
    assert sales[..|sales|] == sales;
  }

  method IsInactive(m: Market, start: int) returns (inactive: bool)
    ensures inactive == Inactive(m, start)
  {
    var latest: Option<int> := None;
    for i := 0 to |m.orders|
      invariant (latest.None? || latest.value < start) <==> forall k | 0 <= k < i :: OrderTime(m.orders[k]) < start
    {
      if latest.None? || latest.value < OrderTime(m.orders[i]) {
        latest := Some(OrderTime(m.orders[i]));
      }
    }
    inactive := (latest.None? || latest.value < start) && (m.settlement.None? || m.settlement.value.timestamp < start);
  }

  lemma ProfitIs(m: Market, now: int, side: Side, total: real, remaining: real)
    requires !Inactive(m, Day(now) * DAY) && FirstBuySide(m.orders) == Some(side)
    requires FirstError(m.orders, side, Day(now) * DAY).None? && Sold(m.orders) <= Bought(m.orders) && Bought(m.orders) > 0.0
    requires total == Gains(m.orders, UnitCost(m.orders), Day(now) * DAY, now) && remaining == Bought(m.orders) - Sold(m.orders)
    ensures MarketPnl(m, now) ==
              if remaining != 0.0 && m.settlement.Some? && Day(now) * DAY <= m.settlement.value.timestamp <= now then
                if m.settlement.value.result.None? then Raised(InvalidResult)
                else Ok(total + SettlementGain(m.settlement.value.result.value, side, remaining, UnitCost(m.orders)))
              else Ok(total)
  {
  }

  lemma SettledShare(rows: seq<Row>, result: Side, side: Side, remaining: real, basis: real, bought: real)
    requires basis == Basis(rows) && bought == Bought(rows) > 0.0
    ensures SettlementGain(result, side, remaining, UnitCost(rows))
         == (if result == side then remaining else 0.0) - basis * remaining / bought
  {
    ShareIsUnitCost(basis, remaining, bought);
  }

  lemma UnitCostIs(rows: seq<Row>, basis: real, bought: real)
    requires basis == Basis(rows) && bought == Bought(rows) > 0.0
    ensures basis / bought == UnitCost(rows)
  {
  }

  /** One market's body of the outer loop. */
  method ProfitOfMarket(m: Market, now: int) returns (r: Result<real, Error>)
    ensures r == MarketPnl(m, now)
  {
    var start := Day(now) * DAY;
    var inactive := IsInactive(m, start);
    if inactive {
      return Ok(0.0);
    }
    var side := FindSide(m.orders);
    if side.None? {
      return Ok(0.0);
    }
    var error, bought, basis, sold, sales := ReadRows(m.orders, side.value, start);
    if error.Some? {
      return Raised(error.value);
    }
    if sold > bought || bought <= 0.0 {
      return Raised(Oversold);
    }
    var total := RealizeSales(sales, basis, bought, start, now);
    SaleGainsAreGains(m.orders, basis / bought, start, now);
    UnitCostIs(m.orders, basis, bought);
    var remaining := bought - sold;
    ProfitIs(m, now, side.value, total, remaining);
    if remaining != 0.0 && m.settlement.Some? && start <= m.settlement.value.timestamp <= now {
      var result := m.settlement.value.result;
      if result.None? {
        return Raised(InvalidResult);
      }
      SettledShare(m.orders, result.value, side.value, remaining, basis, bought);
      total := total + ((if result.value == side.value then remaining else 0.0) - basis * remaining / bought);
    }
    return Ok(total);
  }

  lemma {:induction false} RaisePersists(markets: seq<Market>, now: int, i: nat)
    requires i <= |markets| && DailyPnl(markets[..i], now).Raised?
    ensures DailyPnl(markets, now) == DailyPnl(markets[..i], now)
    decreases |markets|
  {
    if i == |markets| {
      assert markets[..i] == markets;
    } else {
      assert markets[..|markets| - 1][..i] == markets[..i];
      RaisePersists(markets[..|markets| - 1], now, i);
    }
  }

  lemma OneMoreMarket(markets: seq<Market>, now: int, i: nat)
    requires i < |markets|
    ensures DailyPnl(markets[..i + 1], now) == Plus(DailyPnl(markets[..i], now), MarketPnl(markets[i], now))
  {
    assert markets[..i + 1][..i] == markets[..i];
  }

  /** The outer loop of `daily_pnl`: markets in order until one raises. */
  method SumMarkets(markets: seq<Market>, now: int) returns (r: Result<real, Error>)
    ensures r == DailyPnl(markets, now)
  {
    var total := 0.0;
    for i := 0 to |markets|
      invariant DailyPnl(markets[..i], now) == Ok(total)
    {
      var part := ProfitOfMarket(markets[i], now);
      OneMoreMarket(markets, now, i);
      if part.Raised? {
        RaisePersists(markets, now, i + 1);
        return part;
      }
      total := total + part.value;
    }
    assert markets[..|markets|] == markets;
    return Ok(total);
  }

  /** `daily_pnl`. */
  method ComputeDailyPnl(rows: seq<Row>, settlements: map<string, Settlement>, now: int) returns (r: Result<real, Error>)
    ensures r == DailyPnl(MarketsOf(rows, settlements), now)
  {
    var tickers, groups := Group(rows);
    var markets: seq<Market> := [];
    for i := 0 to |tickers|
      invariant markets == MarketsOf(rows, settlements)[..i]
    {
      var t := tickers[i];
      markets := markets + [Market(groups[t], if t in settlements then Some(settlements[t]) else None)];
    }
    assert markets == MarketsOf(rows, settlements);
    r := SumMarkets(markets, now);
  }

  method ScanBuys(rows: seq<Row>, side: Side) returns (foreign: bool, oneSide: bool, cleared: bool, entered: Option<int>, first: Option<int>)
    ensures foreign == HasForeignBuy(rows) && oneSide == OneBuySide(rows, side) && cleared == BuysCleared(rows)
    ensures entered == Opened(rows) && first == FirstBought(rows)
  {
    foreign, oneSide, cleared, entered, first := false, true, true, None, None;
    for i := 0 to |rows|
      invariant foreign == HasForeignBuy(rows[..i])
      invariant oneSide == OneBuySide(rows[..i], side) && cleared == BuysCleared(rows[..i])
      invariant entered == Opened(rows[..i]) && first == FirstBought(rows[..i])
    {
      var r := rows[i];
      assert rows[..i + 1][..i] == rows[..i] && rows[..i + 1][i] == r;
      foreign := foreign || (r.origin != Bot && r.action == Buy && Qty(r) > 0.0);
      if BotBuy(r) {
        oneSide := oneSide && r.side == side;
        cleared := cleared && r.cleared;
        entered := Least(entered, OpenedAt(r));
        first := Least(first, r.created);
      }
    }
    assert rows[..|rows|] == rows;
  }

  lemma {:induction false} SelectedPrefix(rows: seq<Row>, side: Side, first: int, i: nat)
    requires i <= |rows|
    ensures Selected(rows[..i], side, first) <= Selected(rows, side, first)
    decreases |rows|
  {
    if i == |rows| {
      assert rows[..i] == rows;
    } else {
      assert rows[..|rows| - 1][..i] == rows[..i];
      SelectedPrefix(rows[..|rows| - 1], side, first, i);
    }
  }

  function Tally(t: Totals, r: Row): Totals {
    var last := if t.last < FilledAt(r) then FilledAt(r) else t.last;
    if r.action == Buy
    then t.(bought := t.bought + Qty(r), cost := t.cost + Paid(r), fees := t.fees + Fees(r), last := last)
    else t.(sold := t.sold + Qty(r), proceeds := t.proceeds + (Qty(r) - Paid(r)), fees := t.fees + Fees(r), last := last)
  }

  lemma TotalsOfOneMore(rows: seq<Row>, r: Row, entered: int)
    ensures TotalsOf(rows + [r], entered) == Tally(TotalsOf(rows, entered), r)
  {
    var more := rows + [r];
    assert more[..|more| - 1] == rows;
  }

  lemma GoodRow(rows: seq<Row>, r: Row, side: Side)
    requires AllAcceptable(rows, side) && Acceptable(r, side)
    ensures AllAcceptable(rows + [r], side)
  {
  }

  lemma BadRow(rows: seq<Row>, r: Row, all: seq<Row>, side: Side)
    requires rows + [r] <= all && !Acceptable(r, side)
    ensures !AllAcceptable(all, side)
  {
    assert all[|rows|] == r;
  }

  /** The trade loop over the journal in creation order; it stops at the first row with bad economics. */
  method ReadTrade(rows: seq<Row>, side: Side, first: int, entered: int) returns (valid: bool, t: Totals)
    ensures valid == AllAcceptable(Selected(rows, side, first), side)
    ensures valid ==> t == TotalsOf(Selected(rows, side, first), entered)
  {
    valid, t := true, Totals(0.0, 0.0, 0.0, 0.0, 0.0, entered);
    for i := 0 to |rows|
      invariant valid && AllAcceptable(Selected(rows[..i], side, first), side)
      invariant t == TotalsOf(Selected(rows[..i], side, first), entered)
    {
      var r := rows[i];
      ghost var before := Selected(rows[..i], side, first);
      assert rows[..i + 1][..i] == rows[..i];
      if Counted(r, side, first) {
        assert Selected(rows[..i + 1], side, first) == before + [r];
        TotalsOfOneMore(before, r, entered);
        valid := Acceptable(r, side);
        if !valid {
          SelectedPrefix(rows, side, first, i + 1);
          BadRow(before, r, Selected(rows, side, first), side);
          return;
        }
        GoodRow(before, r, side);
        t := Tally(t, r);
      } else {
        assert Selected(rows[..i + 1], side, first) == before;
      }
    }
    assert rows[..|rows|] == rows;
  }

  /** One market's body of `_fallback`. */
  method ComputeFallback(m: Market) returns (r: Report)
    ensures r == Fallback(m)
  {
    var side := FindSide(m.orders);
    if side.None? {
      return Skipped;
    }
    var foreign, oneSide, cleared, entered, first := ScanBuys(m.orders, side.value);
    if foreign || !oneSide {
      return Skipped;
    }
    var valid, t := ReadTrade(ByCreation(m.orders), side.value, first.GetOr(0), entered.GetOr(0));
    if !valid {
      return Skipped;
    }
    r := CloseOut(m, side.value, t, entered.GetOr(0), cleared);
  }

  method CloseOut(m: Market, side: Side, t: Totals, entered: int, cleared: bool) returns (r: Report)
    requires cleared == BuysCleared(m.orders)
    ensures r == Conclude(m, side, t, entered)
  {
    if t.sold > t.bought || t.bought <= 0.0 {
      return Skipped;
    }
    var remaining, proceeds, last := t.bought - t.sold, t.proceeds, t.last;
    if remaining != 0.0 && Settled(m, entered) {
      if m.settlement.value.result == Some(side) {
        proceeds := proceeds + remaining;
      }
      remaining := 0.0;
      if last < m.settlement.value.timestamp {
        last := m.settlement.value.timestamp;
      }
    }
    if remaining == 0.0 && cleared {
      return Skipped;
    }
    if remaining != 0.0 {
      return StillOpen(remaining);
    }
    return Closed(Trade(side, t.bought, t.cost, proceeds, t.fees, proceeds - t.cost - t.fees, entered, last));
  }
}
