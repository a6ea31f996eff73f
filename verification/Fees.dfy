/**
  The fee accumulator of src/btc15/strategies/settlement_edge/rules.py. Prices and
  rates are integers in units of 1/10000, quantities in 1/10000 contract, money in
  1/100000000 dollar, so price times quantity is money.
 */
module Fees {

  const ONE: int := 10_000
  const MICRO_DOLLAR: int := 100

  function Floor(a: int, step: int): int
    requires step > 0
  {
    a / step * step
  }

  function CeilDiv(a: int, b: int): int
    requires b > 0
  {
    -((-a) / b)
  }

  /** rate * quantity * price * (1 - price), rounded up to a millionth of a dollar. */
  function TradeFee(price: int, quantity: int, rate: int): int {
    CeilDiv(rate * quantity * price * (ONE - price), 10_000_000_000) * MICRO_DOLLAR
  }

  datatype Action = Buy | Sell

  function Revenue(price: int, quantity: int, action: Action): int {
    if action == Buy then -(price * quantity) else price * quantity
  }

  datatype Charged = Charged(fee: int, carry: int)

  function Least(a: int, b: int): int {
    if a <= b then a else b
  }

  /** A trade fee against a cash movement: what is charged and the rounding carried to the next fill. */
  function Deferred(precision: int, carry: int, trade: int, revenue: int): Charged
    requires precision > 0
  {
    var rounding := revenue - trade - Floor(revenue - trade, precision);
    var rebate := Least(Floor(carry + rounding, precision), Floor(trade + rounding, precision));
    Charged(trade + rounding - rebate, carry + rounding - rebate)
  }

  /** One fill. */
  function Charge(precision: int, carry: int, price: int, quantity: int, rate: int, action: Action): Charged
    requires precision > 0
  {
    Deferred(precision, carry, TradeFee(price, quantity, rate), Revenue(price, quantity, action))
  }

  lemma FloorBounds(a: int, step: int)
    requires step > 0
    ensures Floor(a, step) <= a < Floor(a, step) + step
  {
  }

  lemma ProductNonnegative(a: int, b: int)
    requires a >= 0 && b >= 0
    ensures a * b >= 0
  {
  }

  lemma TradeFeeNonnegative(price: int, quantity: int, rate: int)
    requires 0 <= price <= ONE && quantity >= 0 && rate >= 0
    ensures TradeFee(price, quantity, rate) >= 0
  {
    ProductNonnegative(rate, quantity);
    ProductNonnegative(rate * quantity, price);
    ProductNonnegative(rate * quantity * price, ONE - price);
  }

  lemma DeferredBounds(precision: int, carry: int, trade: int, revenue: int)
    requires precision > 0 && carry >= 0 && trade >= 0
    ensures var c := Deferred(precision, carry, trade, revenue); c.fee >= 0 && c.carry >= 0
  {
    var rounding := revenue - trade - Floor(revenue - trade, precision);
    FloorBounds(revenue - trade, precision);
    FloorBounds(carry + rounding, precision);
    FloorBounds(trade + rounding, precision);
  }

  /** No fee and no carry is ever negative. */
  lemma ChargeIsNonnegative(precision: int, carry: int, price: int, quantity: int, rate: int, action: Action)
    requires precision > 0 && carry >= 0 && 0 <= price <= ONE && quantity >= 0 && rate >= 0
    ensures var c := Charge(precision, carry, price, quantity, rate, action); c.fee >= 0 && c.carry >= 0
  {
    TradeFeeNonnegative(price, quantity, rate);
    DeferredBounds(precision, carry, TradeFee(price, quantity, rate), Revenue(price, quantity, action));
  }

  /** Rounding is deferred, never kept: the fee differs from the exact one by the change of the carry. */
  lemma ChargeDefersRounding(precision: int, carry: int, price: int, quantity: int, rate: int, action: Action)
    requires precision > 0
    ensures var c := Charge(precision, carry, price, quantity, rate, action);
            c.fee == TradeFee(price, quantity, rate) + c.carry - carry
  {
  }

  lemma SumOfFloors(a: int, b: int, step: int) returns (k: int)
    requires step > 0
    ensures Floor(a, step) + Floor(b, step) == k * step
  {
    k := a / step + b / step;
  }

  /** The cash balance moves by a whole number `k` of precision units on every fill. */
  lemma BalanceStaysAligned(precision: int, carry: int, trade: int, revenue: int) returns (k: int)
    requires precision > 0
    ensures revenue - Deferred(precision, carry, trade, revenue).fee == k * precision
  {
    var rounding := revenue - trade - Floor(revenue - trade, precision);
    if Floor(carry + rounding, precision) <= Floor(trade + rounding, precision) {
      k := SumOfFloors(revenue - trade, carry + rounding, precision);
    } else {
      k := SumOfFloors(revenue - trade, trade + rounding, precision);
    }
  }

  datatype Trade = Trade(price: int, quantity: int, rate: int, action: Action)

  predicate Sane(t: Trade) {
    0 <= t.price <= ONE && t.quantity >= 0 && t.rate >= 0
  }

  function CarryAfter(precision: int, trades: seq<Trade>): int
    requires precision > 0
  {
    if trades == [] then 0
    else
      var t := trades[|trades| - 1];
      Charge(precision, CarryAfter(precision, trades[..|trades| - 1]), t.price, t.quantity, t.rate, t.action).carry
  }

  function TotalCharged(precision: int, trades: seq<Trade>): int
    requires precision > 0
  {
    if trades == [] then 0
    else
      var t := trades[|trades| - 1];
      var rest := trades[..|trades| - 1];
      TotalCharged(precision, rest) + Charge(precision, CarryAfter(precision, rest), t.price, t.quantity, t.rate, t.action).fee
  }

  function TotalExact(trades: seq<Trade>): int {
    if trades == [] then 0
    else
      var t := trades[|trades| - 1];
      TotalExact(trades[..|trades| - 1]) + TradeFee(t.price, t.quantity, t.rate)
  }

  /** Over any fills of one order: charged in total is exact in total plus what is still carried, never less. */
  lemma {:induction false} TotalIsExactPlusCarry(precision: int, trades: seq<Trade>)
    requires precision > 0 && forall i | 0 <= i < |trades| :: Sane(trades[i])
    ensures TotalCharged(precision, trades) == TotalExact(trades) + CarryAfter(precision, trades)
    ensures CarryAfter(precision, trades) >= 0
    decreases |trades|
  {
    if trades != [] {
      var t, rest := trades[|trades| - 1], trades[..|trades| - 1];
      assert Sane(trades[|trades| - 1]);
      TotalIsExactPlusCarry(precision, rest);
      ChargeDefersRounding(precision, CarryAfter(precision, rest), t.price, t.quantity, t.rate, t.action);
      ChargeIsNonnegative(precision, CarryAfter(precision, rest), t.price, t.quantity, t.rate, t.action);
    }
  }

  /** The accumulator object kept on an order. */
  class FeeAccumulator {
    const precision: int
    var carry: int

    constructor (precision: int)
      requires precision > 0
      ensures this.precision == precision && carry == 0
    {
      this.precision, carry := precision, 0;
    }

    method ChargeFill(price: int, quantity: int, rate: int, action: Action) returns (fee: int)
      requires precision > 0
      modifies this`carry
      ensures Charged(fee, carry) == Charge(precision, old(carry), price, quantity, rate, action)
    {
      fee := Defer(TradeFee(price, quantity, rate), Revenue(price, quantity, action));
    }

    method Defer(trade: int, revenue: int) returns (fee: int)
      requires precision > 0
      modifies this`carry
      ensures Charged(fee, carry) == Deferred(precision, old(carry), trade, revenue)
    {
      var aligned := Floor(revenue - trade, precision);
      var rounding := revenue - trade - aligned;
      carry := carry + rounding;
      var rebate := Least(Floor(carry, precision), Floor(trade + rounding, precision));
      carry := carry - rebate;
      fee := trade + rounding - rebate;
    }
  }
}
