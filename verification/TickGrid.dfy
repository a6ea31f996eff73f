/**
  Price grids: `Market.snap` and `Market.valid_tick` (src/btc15/domain.py),
  `snap_buy_limit`, the price of `exchange_order` and the grid check of `_submit`
  (src/btc15/manual_trading.py).

  Prices are integers in units of 1/ONE dollar. ONE = 10000 * SUB is any common
  denominator of the decimal strings involved, so no finite grid is excluded; SUB
  is 1 when every price has at most four decimals.
 */
module TickGrid {
  import opened Wrappers

  datatype Side = Yes | No

  datatype Band = Band(start: int, end: int, step: int)

  /** What `parse_market` and `snap_buy_limit` reject is not a grid. */
  predicate ValidBand(b: Band) {
    b.step > 0 && b.start <= b.end
  }

  predicate ValidBands(bands: seq<Band>) {
    forall i | 0 <= i < |bands| :: ValidBand(bands[i])
  }

  predicate OnBand(b: Band, price: int)
    requires b.step > 0
  {
    b.start <= price <= b.end && (price - b.start) % b.step == 0
  }

  predicate OnGrid(bands: seq<Band>, price: int)
    requires ValidBands(bands)
  {
    exists i | 0 <= i < |bands| :: OnBand(bands[i], price)
  }

  predicate ValidTick(one: int, bands: seq<Band>, price: int)
    requires ValidBands(bands)
  {
    OnGrid(bands, price) && 0 < price < one
  }

  function Min(x: int, y: int): int { if x <= y then x else y }
  function Max(x: int, y: int): int { if x >= y then x else y }

  /** Rounding of a quotient, `step` being positive. */
  function FloorTo(x: int, step: int): int
    requires step > 0
  {
    x - x % step
  }

  function CeilTo(x: int, step: int): int
    requires step > 0
  {
    x + (-x) % step
  }

  lemma ModPeriod(x: int, k: int, step: int)
    requires step > 0
    ensures (x + k * step) % step == x % step
  {
    var q := x / step;
    assert x == q * step + x % step;
    assert x + k * step == (q + k) * step + x % step by { assert (q + k) * step == q * step + k * step; }
    UniqueMod(x + k * step, q + k, x % step, step);
  }

  lemma MulAtLeast(k: int, step: int)
    requires step > 0 && k >= 1
    ensures k * step >= step
  {
  }

  lemma UniqueMod(x: int, q: int, r: int, step: int)
    requires step > 0 && x == q * step + r && 0 <= r < step
    ensures x % step == r
  {
    var q', r' := x / step, x % step;
    assert x == q' * step + r';
    assert (q - q') * step == q * step - q' * step && (q' - q) * step == q' * step - q * step;
    if q > q' {
      MulAtLeast(q - q', step);
    } else if q < q' {
      MulAtLeast(q' - q, step);
    }
  }

  lemma DiffOfMultiples(x: int, y: int, step: int)
    requires step > 0 && x % step == 0 && y % step == 0
    ensures (x - y) % step == 0 && (-x) % step == 0
  {
    ModPeriod(x, -(y / step), step);
    ModPeriod(0, -(x / step), step);
    assert y == (y / step) * step && x == (x / step) * step;
    assert -(y / step) * step == -y;
    assert -(x / step) * step == -x;
  }

  lemma FloorIsGreatest(x: int, step: int, m: int)
    requires step > 0 && m % step == 0 && m <= x
    ensures m <= FloorTo(x, step)
  {
    FloorIsMultiple(x, step);
    DiffOfMultiples(m, FloorTo(x, step), step);
    var d := m - FloorTo(x, step);
    if d > 0 {
      assert d <= x % step < step;
      UniqueMod(d, 0, d, step);
    }
  }

  lemma FloorIsMultiple(x: int, step: int)
    requires step > 0
    ensures FloorTo(x, step) % step == 0 && x - step < FloorTo(x, step) <= x
  {
    assert FloorTo(x, step) == (x / step) * step;
    UniqueMod(FloorTo(x, step), x / step, 0, step);
  }

  lemma CeilIsFloor(x: int, step: int)
    requires step > 0
    ensures CeilTo(x, step) == -FloorTo(-x, step)
    ensures CeilTo(x, step) % step == 0 && x <= CeilTo(x, step) < x + step
  {
    FloorIsMultiple(-x, step);
    DiffOfMultiples(FloorTo(-x, step), 0, step);
  }

  lemma CeilIsLeast(x: int, step: int, m: int)
    requires step > 0 && m % step == 0 && x <= m
    ensures CeilTo(x, step) <= m
  {
    CeilIsFloor(x, step);
    DiffOfMultiples(m, 0, step);
    FloorIsGreatest(-x, step, -m);
  }

  // ---- Market.snap ---------------------------------------------------------

  /** The one price a band contributes, before the range checks. */
  function BandPrice(b: Band, value: int, up: bool): int
    requires ValidBand(b)
  {
    var bounded := Min(b.end, Max(b.start, value));
    b.start + if up then CeilTo(bounded - b.start, b.step) else FloorTo(bounded - b.start, b.step)
  }

  predicate Admitted(one: int, b: Band, value: int, up: bool)
    requires ValidBand(b)
  {
    var p := BandPrice(b, value, up);
    0 < p < one && b.start <= p <= b.end && if up then p >= value else p <= value
  }

  /** Every valid tick of a band on the requested side of `value` is beaten by that band's own price. */
  lemma BandIsOptimal(one: int, b: Band, value: int, up: bool, t: int)
    requires ValidBand(b) && OnBand(b, t) && 0 < t < one
    requires if up then value <= t else t <= value
    requires if up then 0 < value else value < one
    ensures Admitted(one, b, value, up)
    ensures if up then BandPrice(b, value, up) <= t else t <= BandPrice(b, value, up)
  {
    var bounded := Min(b.end, Max(b.start, value));
    if up {
      CeilIsFloor(bounded - b.start, b.step);
      CeilIsLeast(bounded - b.start, b.step, t - b.start);
    } else {
      FloorIsMultiple(bounded - b.start, b.step);
      FloorIsGreatest(bounded - b.start, b.step, t - b.start);
    }
  }

  lemma BandPriceOnBand(one: int, b: Band, value: int, up: bool)
    requires ValidBand(b) && Admitted(one, b, value, up)
    ensures OnBand(b, BandPrice(b, value, up))
  {
    var bounded := Min(b.end, Max(b.start, value));
    FloorIsMultiple(bounded - b.start, b.step);
    CeilIsFloor(bounded - b.start, b.step);
  }

  predicate Acceptable(one: int, bands: seq<Band>, value: int, up: bool, t: int)
    requires ValidBands(bands)
  {
    ValidTick(one, bands, t) && if up then value <= t else t <= value
  }

  /** The nearest valid tick on the requested side. */
  ghost predicate IsNearest(one: int, bands: seq<Band>, value: int, up: bool, t: int)
    requires ValidBands(bands)
  {
    && Acceptable(one, bands, value, up, t)
    && forall u | Acceptable(one, bands, value, up, u) :: if up then t <= u else u <= t
  }

  method ValidTickScan(one: int, bands: seq<Band>, price: int) returns (valid: bool)
    requires ValidBands(bands)
    ensures valid <==> ValidTick(one, bands, price)
  {
    var found := false;
    for i := 0 to |bands|
      invariant found <==> exists j | 0 <= j < i :: OnBand(bands[j], price)
    {
      if bands[i].start <= price <= bands[i].end && (price - bands[i].start) % bands[i].step == 0 {
        found := true;
      }
    }
    valid := found && 0 < price < one;
  }

  /**
    `Market.snap`: for a price strictly inside (0, 1) it returns the nearest valid
    tick in the requested direction and raises exactly when there is none. The
    side of the range the direction does not look at needs no bound.
   */
  method Snap(one: int, bands: seq<Band>, value: int, up: bool) returns (r: Result<int, string>)
    requires ValidBands(bands)
    ensures r == SnapSpec(one, bands, value, up)
    ensures (if up then 0 < value else value < one) && r.Ok? ==> IsNearest(one, bands, value, up, r.value)
    ensures (if up then 0 < value else value < one) && r.Raised? ==> !exists t :: Acceptable(one, bands, value, up, t)
  {
    var candidates: seq<int> := [];
    for i := 0 to |bands|
      invariant candidates == Candidates(one, bands[..i], value, up)
    {
      assert bands[..i + 1][..i] == bands[..i];
      var b := bands[i];
      var bounded := Min(b.end, Max(b.start, value));
      var p := b.start + if up then CeilTo(bounded - b.start, b.step) else FloorTo(bounded - b.start, b.step);
      if 0 < p < one && b.start <= p <= b.end && (if up then p >= value else p <= value) {
        candidates := candidates + [p];
      }
    }
    assert bands[..|bands|] == bands;
    if (if up then 0 < value else value < one) {
      SnapSpecIsNearest(one, bands, value, up);
    }
    if candidates == [] {
      return Raised("No valid executable tick");
    }
    var best := Extreme(candidates, up);
    return Ok(best);
  }

  /** Python's `min` and `max` of a nonempty list. */
  method Extreme(prices: seq<int>, low: bool) returns (best: int)
    requires prices != []
    ensures best == Best(prices, low)
  {
    best := prices[0];
    for i := 1 to |prices|
      invariant best in prices
      invariant forall j | 0 <= j < i :: if low then best <= prices[j] else prices[j] <= best
    {
      if low { best := Min(best, prices[i]); } else { best := Max(best, prices[i]); }
    }
    BestIsUnique(prices, low, best);
  }

  function Candidates(one: int, bands: seq<Band>, value: int, up: bool): seq<int>
    requires ValidBands(bands)
  {
    if bands == [] then []
    else
      var b := bands[|bands| - 1];
      Candidates(one, bands[..|bands| - 1], value, up)
      + if Admitted(one, b, value, up) then [BandPrice(b, value, up)] else []
  }

  function Best(prices: seq<int>, low: bool): int
    requires prices != []
  {
    if |prices| == 1 then prices[0]
    else if low then Min(prices[0], Best(prices[1..], low))
    else Max(prices[0], Best(prices[1..], low))
  }

  function SnapSpec(one: int, bands: seq<Band>, value: int, up: bool): Result<int, string>
    requires ValidBands(bands)
  {
    var c := Candidates(one, bands, value, up);
    if c == [] then Raised("No valid executable tick") else Ok(Best(c, up))
  }

  lemma {:induction false} BestIsUnique(prices: seq<int>, low: bool, best: int)
    requires best in prices
    requires forall j | 0 <= j < |prices| :: if low then best <= prices[j] else prices[j] <= best
    ensures Best(prices, low) == best
    decreases |prices|
  {
    if |prices| > 1 {
      BestBounds(prices[1..], low);
      if best in prices[1..] {
        BestIsUnique(prices[1..], low, best);
      } else {
        var k :| 0 <= k < |prices| - 1 && prices[1..][k] == Best(prices[1..], low);
        assert prices[k + 1] == Best(prices[1..], low);
      }
    }
  }

  lemma {:induction false} BestBounds(prices: seq<int>, low: bool)
    requires prices != []
    ensures Best(prices, low) in prices
    ensures forall j | 0 <= j < |prices| :: if low then Best(prices, low) <= prices[j] else prices[j] <= Best(prices, low)
    decreases |prices|
  {
    if |prices| > 1 {
      BestBounds(prices[1..], low);
      assert forall j | 1 <= j < |prices| :: prices[j] == prices[1..][j - 1];
    }
  }

  lemma {:induction false} CandidatesAcceptable(one: int, bands: seq<Band>, value: int, up: bool)
    requires ValidBands(bands)
    ensures forall c | c in Candidates(one, bands, value, up) :: Acceptable(one, bands, value, up, c)
    decreases |bands|
  {
    if bands != [] {
      var rest, b := bands[..|bands| - 1], bands[|bands| - 1];
      CandidatesAcceptable(one, rest, value, up);
      forall c | c in Candidates(one, bands, value, up)
        ensures Acceptable(one, bands, value, up, c)
      {
        if c in Candidates(one, rest, value, up) {
          var i :| 0 <= i < |rest| && OnBand(rest[i], c);
          assert OnBand(bands[i], c);
        } else {
          BandPriceOnBand(one, b, value, up);
          assert OnBand(bands[|bands| - 1], c);
        }
      }
    }
  }

  lemma {:induction false} CandidatesComplete(one: int, bands: seq<Band>, value: int, up: bool, t: int) returns (c: int)
    requires ValidBands(bands) && Acceptable(one, bands, value, up, t)
    requires if up then 0 < value else value < one
    ensures c in Candidates(one, bands, value, up) && if up then c <= t else t <= c
    decreases |bands|
  {
    var i :| 0 <= i < |bands| && OnBand(bands[i], t);
    var rest, b := bands[..|bands| - 1], bands[|bands| - 1];
    if i == |bands| - 1 {
      BandIsOptimal(one, b, value, up, t);
      c := BandPrice(b, value, up);
    } else {
      assert OnBand(rest[i], t);
      c := CandidatesComplete(one, rest, value, up, t);
    }
  }

  lemma SnapSpecIsNearest(one: int, bands: seq<Band>, value: int, up: bool)
    requires ValidBands(bands)
    requires if up then 0 < value else value < one
    ensures SnapSpec(one, bands, value, up).Ok? ==>
              IsNearest(one, bands, value, up, SnapSpec(one, bands, value, up).value)
    ensures SnapSpec(one, bands, value, up).Raised? <==> !exists t :: Acceptable(one, bands, value, up, t)
  {
    var c := Candidates(one, bands, value, up);
    CandidatesAcceptable(one, bands, value, up);
    forall u | Acceptable(one, bands, value, up, u)
      ensures c != [] && if up then Best(c, up) <= u else u <= Best(c, up)
    {
      var k := CandidatesComplete(one, bands, value, up, u);
      BestBounds(c, up);
      var j :| 0 <= j < |c| && c[j] == k;
    }
    if c != [] {
      BestBounds(c, up);
    }
  }

  /** No further point of the band lies between `t` and `value`. */
  predicate LastBefore(b: Band, value: int, up: bool, t: int) {
    if up then t - b.step < Max(b.start, value) else Min(b.end, value) < t + b.step
  }

  lemma BandPriceIs(one: int, b: Band, value: int, up: bool, t: int)
    requires ValidBand(b) && 0 < t < one && if up then value <= t else t <= value
    ensures Admitted(one, b, value, up) && BandPrice(b, value, up) == t <==> OnBand(b, t) && LastBefore(b, value, up, t)
  {
    var bounded := Min(b.end, Max(b.start, value));
    if up {
      CeilIsFloor(bounded - b.start, b.step);
    } else {
      FloorIsMultiple(bounded - b.start, b.step);
    }
    if OnBand(b, t) && LastBefore(b, value, up, t) {
      BandPriceIsLast(b, value, up, t);
    }
  }

  lemma BandPriceIsLast(b: Band, value: int, up: bool, t: int)
    requires ValidBand(b) && OnBand(b, t) && LastBefore(b, value, up, t) && if up then value <= t else t <= value
    ensures BandPrice(b, value, up) == t
  {
    var bounded := Min(b.end, Max(b.start, value));
    var m := t - b.start;
    if up {
      CeilIsFloor(bounded - b.start, b.step);
      CeilIsLeast(bounded - b.start, b.step, m);
      DiffOfMultiples(m, CeilTo(bounded - b.start, b.step), b.step);
      ShortMultipleIsZero(m - CeilTo(bounded - b.start, b.step), b.step);
    } else {
      FloorIsMultiple(bounded - b.start, b.step);
      FloorIsGreatest(bounded - b.start, b.step, m);
      DiffOfMultiples(FloorTo(bounded - b.start, b.step), m, b.step);
      ShortMultipleIsZero(FloorTo(bounded - b.start, b.step) - m, b.step);
    }
  }

  lemma ShortMultipleIsZero(d: int, step: int)
    requires step > 0 && 0 <= d < step && d % step == 0
    ensures d == 0
  {
    UniqueMod(d, 0, d, step);
  }

  lemma {:induction false} CandidatesAre(one: int, bands: seq<Band>, value: int, up: bool, c: int)
    requires ValidBands(bands)
    ensures c in Candidates(one, bands, value, up)
       <==> exists i | 0 <= i < |bands| :: Admitted(one, bands[i], value, up) && BandPrice(bands[i], value, up) == c
    decreases |bands|
  {
    if bands != [] {
      var rest := bands[..|bands| - 1];
      CandidatesAre(one, rest, value, up, c);
      if i :| 0 <= i < |bands| && Admitted(one, bands[i], value, up) && BandPrice(bands[i], value, up) == c {
        if i < |rest| {
          assert rest[i] == bands[i];
        }
      }
      if i :| 0 <= i < |rest| && Admitted(one, rest[i], value, up) && BandPrice(rest[i], value, up) == c {
        assert bands[i] == rest[i];
      }
    }
  }

  lemma SnapFindsIff(one: int, bands: seq<Band>, value: int, up: bool, t: int)
    requires ValidBands(bands) && IsNearest(one, bands, value, up, t)
    ensures SnapSpec(one, bands, value, up) == Ok(t)
       <==> exists i | 0 <= i < |bands| :: OnBand(bands[i], t) && LastBefore(bands[i], value, up, t)
  {
    var c := Candidates(one, bands, value, up);
    forall i | 0 <= i < |bands|
      ensures Admitted(one, bands[i], value, up) && BandPrice(bands[i], value, up) == t
         <==> OnBand(bands[i], t) && LastBefore(bands[i], value, up, t)
    {
      BandPriceIs(one, bands[i], value, up, t);
    }
    CandidatesAre(one, bands, value, up, t);
    CandidatesAcceptable(one, bands, value, up);
    if c != [] {
      BestBounds(c, up);
    }
  }

  /** The price moved to the last executable one, if it lies beyond the end it is snapped from. */
  function Inner(one: int, value: int, up: bool): int {
    if up then Max(1, value) else Min(one - 1, value)
  }

  /** A band with an executable tick on the requested side, none of them further from the price than any other band's nearest. */
  predicate Leads(one: int, bands: seq<Band>, v: int, up: bool, i: nat)
    requires ValidBands(bands) && i < |bands|
  {
    && Admitted(one, bands[i], v, up)
    && forall j | 0 <= j < |bands| && Admitted(one, bands[j], v, up) ::
         if up then BandPrice(bands[i], v, up) <= BandPrice(bands[j], v, up) else BandPrice(bands[j], v, up) <= BandPrice(bands[i], v, up)
  }

  /** The band's nearest executable tick is not followed by a point on the excluded side that the price reaches. */
  predicate Unhidden(one: int, b: Band, value: int, up: bool)
    requires ValidBand(b)
  {
    LastBefore(b, value, up, BandPrice(b, Inner(one, value, up), up))
  }

  /** What `snap` promises: the nearest executable tick on the requested side, or a raise where there is none. */
  ghost predicate SnapKeepsPromise(one: int, bands: seq<Band>, value: int, up: bool)
    requires ValidBands(bands)
  {
    match SnapSpec(one, bands, value, up)
    case Ok(t) => IsNearest(one, bands, value, up, t)
    case Raised(_) => !exists t :: Acceptable(one, bands, value, up, t)
  }

  lemma InnerAccepts(one: int, bands: seq<Band>, value: int, up: bool, t: int)
    requires ValidBands(bands)
    ensures Acceptable(one, bands, Inner(one, value, up), up, t) <==> Acceptable(one, bands, value, up, t)
  {
  }

  lemma InnerIsNearest(one: int, bands: seq<Band>, value: int, up: bool, t: int)
    requires ValidBands(bands)
    ensures IsNearest(one, bands, Inner(one, value, up), up, t) <==> IsNearest(one, bands, value, up, t)
  {
    forall u ensures Acceptable(one, bands, Inner(one, value, up), up, u) <==> Acceptable(one, bands, value, up, u) {
      InnerAccepts(one, bands, value, up, u);
    }
  }

  /** A band whose own nearest tick is `t` leads, and the leading bands hold `t`. */
  lemma LeadsHolds(one: int, bands: seq<Band>, v: int, up: bool, t: int, i: nat)
    requires ValidBands(bands) && i < |bands| && IsNearest(one, bands, v, up, t) && if up then 0 < v else v < one
    ensures OnBand(bands[i], t) <==> Leads(one, bands, v, up, i)
    ensures Leads(one, bands, v, up, i) ==> BandPrice(bands[i], v, up) == t
  {
    forall j | 0 <= j < |bands| && Admitted(one, bands[j], v, up)
      ensures Acceptable(one, bands, v, up, BandPrice(bands[j], v, up))
    {
      BandPriceOnBand(one, bands[j], v, up);
    }
    if OnBand(bands[i], t) {
      BandIsOptimal(one, bands[i], v, up, t);
    }
    if Leads(one, bands, v, up, i) {
      var k :| 0 <= k < |bands| && OnBand(bands[k], t);
      BandIsOptimal(one, bands[k], v, up, t);
      BandPriceOnBand(one, bands[i], v, up);
    }
  }

  lemma NoTickNoPromise(one: int, bands: seq<Band>, value: int, up: bool)
    requires ValidBands(bands) && !exists t :: Acceptable(one, bands, value, up, t)
    ensures SnapSpec(one, bands, value, up).Raised?
    ensures forall i | 0 <= i < |bands| :: !Admitted(one, bands[i], Inner(one, value, up), up)
  {
    var c := Candidates(one, bands, value, up);
    CandidatesAcceptable(one, bands, value, up);
    if c != [] { BestBounds(c, up); }
    forall i | 0 <= i < |bands| ensures !Admitted(one, bands[i], Inner(one, value, up), up) {
      if Admitted(one, bands[i], Inner(one, value, up), up) {
        BandPriceOnBand(one, bands[i], Inner(one, value, up), up);
        InnerAccepts(one, bands, value, up, BandPrice(bands[i], Inner(one, value, up), up));
        assert false;
      }
    }
  }

  /**
    Exactly when `snap` keeps its promise, at any price, from the bands and the price alone:
    no band has an executable tick on that side, or a band whose nearest executable tick is
    the nearest of all has no further point between it and the price. Inside (0, 1) there
    never is one; from outside, a band that goes on past the excluded end hides its ticks.
   */
  lemma SnapIsRightIff(one: int, bands: seq<Band>, value: int, up: bool)
    requires ValidBands(bands)
    ensures SnapKeepsPromise(one, bands, value, up)
       <==> || (forall i | 0 <= i < |bands| :: !Admitted(one, bands[i], Inner(one, value, up), up))
            || (exists i | 0 <= i < |bands| :: Leads(one, bands, Inner(one, value, up), up, i) && Unhidden(one, bands[i], value, up))
  {
    var v := Inner(one, value, up);
    if exists t :: Acceptable(one, bands, value, up, t) {
      var u :| Acceptable(one, bands, value, up, u);
      InnerAccepts(one, bands, value, up, u);
      SnapSpecIsNearest(one, bands, v, up);
      var t := SnapSpec(one, bands, v, up).value;
      SnapIsRightAt(one, bands, value, up, t);
    } else {
      NoTickNoPromise(one, bands, value, up);
    }
  }

  lemma SnapIsRightAt(one: int, bands: seq<Band>, value: int, up: bool, t: int)
    requires ValidBands(bands) && IsNearest(one, bands, Inner(one, value, up), up, t)
    requires if up then 0 < Inner(one, value, up) else Inner(one, value, up) < one
    ensures exists i | 0 <= i < |bands| :: Leads(one, bands, Inner(one, value, up), up, i)
    ensures SnapKeepsPromise(one, bands, value, up)
       <==> exists i | 0 <= i < |bands| :: Leads(one, bands, Inner(one, value, up), up, i) && Unhidden(one, bands[i], value, up)
  {
    InnerIsNearest(one, bands, value, up, t);
    SnapFindsIff(one, bands, value, up, t);
    forall i | 0 <= i < |bands|
      ensures OnBand(bands[i], t) <==> Leads(one, bands, Inner(one, value, up), up, i)
      ensures OnBand(bands[i], t) ==> BandPrice(bands[i], Inner(one, value, up), up) == t
    {
      LeadsHolds(one, bands, Inner(one, value, up), up, t, i);
    }
    var k :| 0 <= k < |bands| && OnBand(bands[k], t);
    NearestIsUnique(one, bands, value, up, t);
  }

  lemma NearestIsUnique(one: int, bands: seq<Band>, value: int, up: bool, t: int)
    requires ValidBands(bands) && IsNearest(one, bands, value, up, t)
    ensures SnapKeepsPromise(one, bands, value, up) <==> SnapSpec(one, bands, value, up) == Ok(t)
  {
  }

  /**
    Outside (0, 1) the promise fails: snapping 1.05 down on a grid that reaches 1
    finds only the excluded top tick and raises, although 0.99 is executable.
   */
  lemma SnapAboveOneMissesTicks()
    ensures var bands := [Band(0, 10000, 100)];
            && SnapSpec(10000, bands, 10500, false).Raised?
            && Acceptable(10000, bands, 10500, false, 9900)
  {
    var bands := [Band(0, 10000, 100)];
    assert OnBand(bands[0], 9900);
    assert BandPrice(bands[0], 10500, false) == 10000;
    assert Candidates(10000, bands[..0], 10500, false) == [];
    assert Candidates(10000, bands, 10500, false) == [];
  }

  // ---- snap_buy_limit and the later grid check -----------------------------

  function YesPrice(one: int, side: Side, price: int): int {
    if side == Yes then price else one - price
  }

  /** A price at which the purchased outcome can really be bid, within the cap. */
  predicate Biddable(one: int, bands: seq<Band>, side: Side, limit: int, p: int)
    requires ValidBands(bands)
  {
    p <= limit && ValidTick(one, bands, YesPrice(one, side, p))
  }

  function BidBandPrice(one: int, b: Band, side: Side, limit: int): int
    requires b.step > 0
  {
    if side == Yes then b.start + FloorTo(Min(b.end, limit) - b.start, b.step)
    else b.start + CeilTo(Max(b.start, one - limit) - b.start, b.step)
  }

  lemma BidBandIsOptimal(one: int, b: Band, side: Side, limit: int, p: int)
    requires ValidBand(b) && 0 < limit < one && p <= limit
    requires OnBand(b, YesPrice(one, side, p)) && 0 < p < one
    ensures var y := BidBandPrice(one, b, side, limit);
            && b.start <= y <= b.end && 0 < y < one
            && p <= YesPrice(one, side, y) <= limit
  {
    var t := YesPrice(one, side, p);
    if side == Yes {
      FloorIsMultiple(Min(b.end, limit) - b.start, b.step);
      FloorIsGreatest(Min(b.end, limit) - b.start, b.step, t - b.start);
    } else {
      CeilIsFloor(Max(b.start, one - limit) - b.start, b.step);
      CeilIsLeast(Max(b.start, one - limit) - b.start, b.step, t - b.start);
    }
  }

  lemma BidBandOnBand(one: int, b: Band, side: Side, limit: int)
    requires ValidBand(b)
    requires b.start <= BidBandPrice(one, b, side, limit) <= b.end
    ensures OnBand(b, BidBandPrice(one, b, side, limit))
  {
    FloorIsMultiple(Min(b.end, limit) - b.start, b.step);
    CeilIsFloor(Max(b.start, one - limit) - b.start, b.step);
  }

  predicate BidAdmitted(one: int, b: Band, side: Side, limit: int)
    requires b.step > 0
  {
    var y := BidBandPrice(one, b, side, limit);
    b.start <= y <= b.end && 0 < y < one && YesPrice(one, side, y) <= limit
  }

  function Bids(one: int, bands: seq<Band>, side: Side, limit: int): seq<int>
    requires ValidBands(bands)
  {
    if bands == [] then []
    else
      var b := bands[|bands| - 1];
      Bids(one, bands[..|bands| - 1], side, limit)
      + if BidAdmitted(one, b, side, limit) then [YesPrice(one, side, BidBandPrice(one, b, side, limit))] else []
  }

  lemma {:induction false} BidsAreBiddable(one: int, bands: seq<Band>, side: Side, limit: int)
    requires ValidBands(bands)
    ensures forall c | c in Bids(one, bands, side, limit) :: Biddable(one, bands, side, limit, c)
    decreases |bands|
  {
    if bands != [] {
      var rest, b := bands[..|bands| - 1], bands[|bands| - 1];
      BidsAreBiddable(one, rest, side, limit);
      forall c | c in Bids(one, bands, side, limit)
        ensures Biddable(one, bands, side, limit, c)
      {
        if c in Bids(one, rest, side, limit) {
          var i :| 0 <= i < |rest| && OnBand(rest[i], YesPrice(one, side, c));
          assert OnBand(bands[i], YesPrice(one, side, c));
        } else {
          BidBandOnBand(one, b, side, limit);
          assert OnBand(bands[|bands| - 1], YesPrice(one, side, c));
        }
      }
    }
  }

  lemma {:induction false} BidsAreComplete(one: int, bands: seq<Band>, side: Side, limit: int, p: int) returns (c: int)
    requires ValidBands(bands) && 0 < limit < one && Biddable(one, bands, side, limit, p)
    ensures c in Bids(one, bands, side, limit) && p <= c
    decreases |bands|
  {
    var i :| 0 <= i < |bands| && OnBand(bands[i], YesPrice(one, side, p));
    var rest, b := bands[..|bands| - 1], bands[|bands| - 1];
    if i == |bands| - 1 {
      BidBandIsOptimal(one, b, side, limit, p);
      c := YesPrice(one, side, BidBandPrice(one, b, side, limit));
    } else {
      assert OnBand(rest[i], YesPrice(one, side, p));
      c := BidsAreComplete(one, rest, side, limit, p);
    }
  }

  lemma BestBidIsLargest(one: int, bands: seq<Band>, side: Side, limit: int)
    requires ValidBands(bands) && 0 < limit < one
    ensures var c := Bids(one, bands, side, limit);
            if c == [] then !exists p :: Biddable(one, bands, side, limit, p)
            else && Biddable(one, bands, side, limit, Best(c, false))
                 && forall p | Biddable(one, bands, side, limit, p) :: p <= Best(c, false)
  {
    var c := Bids(one, bands, side, limit);
    BidsAreBiddable(one, bands, side, limit);
    forall p | Biddable(one, bands, side, limit, p)
      ensures c != [] && p <= Best(c, false)
    {
      var k := BidsAreComplete(one, bands, side, limit, p);
      BestBounds(c, false);
      var j :| 0 <= j < |c| && c[j] == k;
    }
    if c != [] {
      BestBounds(c, false);
    }
  }

  lemma BidsStep(one: int, ranges: seq<Band>, side: Side, limit: int, i: nat)
    requires i < |ranges| && ValidBands(ranges[..i]) && ValidBand(ranges[i])
    ensures ValidBands(ranges[..i + 1])
    ensures Bids(one, ranges[..i + 1], side, limit)
         == Bids(one, ranges[..i], side, limit)
            + if BidAdmitted(one, ranges[i], side, limit) then [YesPrice(one, side, BidBandPrice(one, ranges[i], side, limit))] else []
  {
    assert ranges[..i + 1][..i] == ranges[..i];
  }

  lemma BestOfBids(one: int, ranges: seq<Band>, side: Side, limit: int, prices: seq<int>)
    requires 0 < limit < one && ValidBands(ranges) && prices == Bids(one, ranges, side, limit)
    ensures prices == [] ==> !exists p :: Biddable(one, ranges, side, limit, p)
    ensures prices != [] ==>
              && Biddable(one, ranges, side, limit, Best(prices, false))
              && forall p | Biddable(one, ranges, side, limit, p) :: p <= Best(prices, false)
  {
    BestBidIsLargest(one, ranges, side, limit);
  }

  /** One band of the loop: its largest bid under the cap, if it has one. */
  method BandBid(one: int, b: Band, side: Side, limit: int, yesLimit: int) returns (bid: seq<int>)
    requires ValidBand(b) && yesLimit == YesPrice(one, side, limit)
    ensures bid == if BidAdmitted(one, b, side, limit) then [YesPrice(one, side, BidBandPrice(one, b, side, limit))] else []
  {
    var price;
    if side == Yes {
      price := b.start + FloorTo(Min(b.end, yesLimit) - b.start, b.step);
    } else {
      price := b.start + CeilTo(Max(b.start, yesLimit) - b.start, b.step);
    }
    bid := [];
    if b.start <= price <= b.end && 0 < price < one {
      var selected := if side == Yes then price else one - price;
      if selected <= limit {
        bid := [selected];
      }
    }
  }

  /**
    `snap_buy_limit`: the largest biddable price not above the cap, whichever side
    is bought; 409 exactly when no price is biddable.
   */
  method SnapBuyLimit(one: int, limit: int, side: Side, ranges: seq<Band>) returns (r: Result<int, string>)
    requires 0 < limit < one
    requires forall i | 0 <= i < |ranges| :: ranges[i].start <= ranges[i].end
    ensures r == Raised("Invalid tick grid") <==> !ValidBands(ranges)
    ensures ValidBands(ranges) && r.Ok? ==>
              && Biddable(one, ranges, side, limit, r.value)
              && forall p | Biddable(one, ranges, side, limit, p) :: p <= r.value
    ensures ValidBands(ranges) && r.Raised? ==> !exists p :: Biddable(one, ranges, side, limit, p)
  {
    var yesLimit := YesPrice(one, side, limit);
    var prices: seq<int> := [];
    for i := 0 to |ranges|
      invariant ValidBands(ranges[..i])
      invariant prices == Bids(one, ranges[..i], side, limit)
    {
      var b := ranges[i];
      if b.step <= 0 {
        return Raised("Invalid tick grid");
      }
      BidsStep(one, ranges, side, limit, i);
      var bid := BandBid(one, b, side, limit, yesLimit);
      prices := prices + bid;
    }
    assert ranges[..|ranges|] == ranges;
    BestOfBids(one, ranges, side, limit, prices);
    if prices == [] {
      return Raised("No supported buy limit within the price cap");
    }
    var best := Extreme(prices, false);
    return Ok(best);
  }

  /** Four-decimal formatting, half to even, of a price in units of 1/(10000 * sub). */
  function Format4(price: int, sub: int): int
    requires sub > 0
  {
    var low := FloorTo(price, sub);
    var r := price % sub;
    if 2 * r < sub || (2 * r == sub && (price / sub) % 2 == 0) then low else low + sub
  }

  /** The price `exchange_order` quotes on the YES book. */
  function QuotedPrice(one: int, sub: int, side: Side, limit: int): int
    requires sub > 0
  {
    Format4(YesPrice(one, side, limit), sub)
  }

  lemma PointIsMultiple(start: int, step: int, y: int, sub: int)
    requires sub > 0 && step > 0 && start % sub == 0 && step % sub == 0 && (y - start) % step == 0
    ensures y % sub == 0
  {
    var k, m := (y - start) / step, step / sub;
    assert y - start == k * step && step == m * sub;
    assert k * (m * sub) == (k * m) * sub;
    ModPeriod(start, k * m, sub);
  }

  /**
    The grid check of `_submit` accepts every limit `snap_buy_limit` chose, on a
    grid quoted with at most four decimals: formatting is then the identity.
   */
  lemma SnappedLimitPassesGridCheck(sub: int, bands: seq<Band>, side: Side, limit: int, p: int)
    requires sub > 0 && ValidBands(bands)
    requires forall i | 0 <= i < |bands| :: bands[i].start % sub == 0 && bands[i].step % sub == 0
    requires Biddable(10000 * sub, bands, side, limit, p)
    ensures QuotedPrice(10000 * sub, sub, side, p) == YesPrice(10000 * sub, side, p)
    ensures OnGrid(bands, QuotedPrice(10000 * sub, sub, side, p))
  {
    var y := YesPrice(10000 * sub, side, p);
    var i :| 0 <= i < |bands| && OnBand(bands[i], y);
    var b := bands[i];
    PointIsMultiple(b.start, b.step, y, sub);
  }

  /** Formatting moves a price up: beyond the half, or at the half from an odd quotient. */
  predicate RoundsUp(price: int, sub: int)
    requires sub > 0
  {
    2 * (price % sub) > sub || (2 * (price % sub) == sub && (price / sub) % 2 == 1)
  }

  /** Exactly when quoting keeps the chosen limit: its YES price has at most four decimals. */
  lemma QuoteIsExactIff(sub: int, side: Side, p: int)
    requires sub > 0
    ensures QuotedPrice(10000 * sub, sub, side, p) == YesPrice(10000 * sub, side, p)
       <==> YesPrice(10000 * sub, side, p) % sub == 0
    ensures QuotedPrice(10000 * sub, sub, side, p) > YesPrice(10000 * sub, side, p)
       <==> RoundsUp(YesPrice(10000 * sub, side, p), sub)
  {
    FloorIsMultiple(YesPrice(10000 * sub, side, p), sub);
  }

  /** Whatever the grid, quoting never bids above a cap of at most four decimals, which is every cap an order can carry. */
  lemma QuoteStaysWithinCap(sub: int, side: Side, limit: int, p: int)
    requires sub > 0 && limit % sub == 0 && p <= limit
    ensures YesPrice(10000 * sub, side, QuotedPrice(10000 * sub, sub, side, p)) <= limit
  {
    var y := YesPrice(10000 * sub, side, p);
    FloorIsMultiple(y, sub);
    CeilIsFloor(y, sub);
    if side == Yes {
      CeilIsLeast(y, sub, limit);
      CeilStepsUp(y, sub);
    } else {
      UniqueMod(10000 * sub, 10000, 0, sub);
      DiffOfMultiples(10000 * sub, limit, sub);
      FloorIsGreatest(y, sub, 10000 * sub - limit);
    }
  }

  /** The two four-decimal prices around a price. */
  lemma CeilStepsUp(x: int, step: int)
    requires step > 0
    ensures CeilTo(x, step) == if x % step == 0 then x else FloorTo(x, step) + step
  {
    CeilIsFloor(x, step);
    FloorIsMultiple(x, step);
    DiffOfMultiples(CeilTo(x, step), FloorTo(x, step), step);
    var d := CeilTo(x, step) - FloorTo(x, step);
    if x % step == 0 {
      assert FloorTo(x, step) == x;
      ShortMultipleIsZero(d, step);
    } else {
      DiffOfMultiples(d, step, step);
      if d < step { ShortMultipleIsZero(d, step); }
      ShortMultipleIsZero(d - step, step);
    }
  }

  /** Quoting moves the bid towards the cap: up for YES, down on the YES book for NO. */
  predicate TowardsCap(side: Side, y: int, sub: int)
    requires sub > 0
  {
    y % sub != 0 && if side == Yes then RoundsUp(y, sub) else !RoundsUp(y, sub)
  }

  /** The four-decimal YES price next to `y` that bids less for the purchased outcome. */
  function AwayFromCap(side: Side, y: int, sub: int): int
    requires sub > 0
  {
    if side == Yes then FloorTo(y, sub) else CeilTo(y, sub)
  }

  lemma QuoteMoves(sub: int, side: Side, p: int)
    requires sub > 0
    ensures var y, quote := YesPrice(10000 * sub, side, p), QuotedPrice(10000 * sub, sub, side, p);
      && (y % sub == 0 ==> quote == y)
      && (TowardsCap(side, y, sub) ==> YesPrice(10000 * sub, side, quote) > p)
      && (y % sub != 0 && !TowardsCap(side, y, sub) ==> quote == AwayFromCap(side, y, sub) && YesPrice(10000 * sub, side, quote) < p)
  {
    var y := YesPrice(10000 * sub, side, p);
    FloorIsMultiple(y, sub);
    CeilStepsUp(y, sub);
  }

  /** The limit `snap_buy_limit` chose: the largest biddable price under a cap of at most four decimals. */
  ghost predicate Chosen(sub: int, bands: seq<Band>, side: Side, limit: int, p: int)
    requires sub > 0 && ValidBands(bands)
  {
    && 0 < limit < 10000 * sub && limit % sub == 0
    && Biddable(10000 * sub, bands, side, limit, p)
    && forall q | Biddable(10000 * sub, bands, side, limit, q) :: q <= p
  }

  /** A quote rounded towards the cap lies off the grid: on it, it would have been chosen. */
  lemma TowardsCapIsOffGrid(sub: int, bands: seq<Band>, side: Side, limit: int, p: int)
    requires sub > 0 && ValidBands(bands) && Chosen(sub, bands, side, limit, p)
    requires TowardsCap(side, YesPrice(10000 * sub, side, p), sub)
    ensures !OnGrid(bands, QuotedPrice(10000 * sub, sub, side, p))
  {
    var one := 10000 * sub;
    var quote := QuotedPrice(one, sub, side, p);
    var bid := YesPrice(one, side, quote);
    QuoteMoves(sub, side, p);
    QuoteStaysWithinCap(sub, side, limit, p);
    assert YesPrice(one, side, bid) == quote;
    assert !Biddable(one, bands, side, limit, bid);
  }

  /** An order that passes the grid check bids its chosen limit exactly or below it, so never above its cap. */
  lemma AcceptedQuoteBidsNoMore(sub: int, bands: seq<Band>, side: Side, limit: int, p: int)
    requires sub > 0 && ValidBands(bands) && Chosen(sub, bands, side, limit, p)
    requires OnGrid(bands, QuotedPrice(10000 * sub, sub, side, p))
    ensures YesPrice(10000 * sub, side, QuotedPrice(10000 * sub, sub, side, p)) <= p <= limit
  {
    QuoteMoves(sub, side, p);
    if TowardsCap(side, YesPrice(10000 * sub, side, p), sub) {
      TowardsCapIsOffGrid(sub, bands, side, limit, p);
      assert false;
    }
  }

  /**
    Exactly when the grid check refuses the chosen limit: it has more than four decimals, and
    quoting rounds it towards the cap, or away to a point that is not on the grid.
   */
  lemma ChosenLimitIsRefusedIff(sub: int, bands: seq<Band>, side: Side, limit: int, p: int)
    requires sub > 0 && ValidBands(bands) && Chosen(sub, bands, side, limit, p)
    ensures !OnGrid(bands, QuotedPrice(10000 * sub, sub, side, p))
       <==> var y := YesPrice(10000 * sub, side, p);
            y % sub != 0 && (TowardsCap(side, y, sub) || !OnGrid(bands, AwayFromCap(side, y, sub)))
  {
    QuoteMoves(sub, side, p);
    if TowardsCap(side, YesPrice(10000 * sub, side, p), sub) {
      TowardsCapIsOffGrid(sub, bands, side, limit, p);
    }
  }

  /** On a finer grid the quoted price is rounded off it, and the order is refused. */
  lemma FinerGridIsRefused()
    ensures var bands := [Band(5, 9995, 10)];
            && Biddable(100000, bands, Yes, 4000, 3995)
            && QuotedPrice(100000, 10, Yes, 3995) == 4000
            && !OnGrid(bands, QuotedPrice(100000, 10, Yes, 3995))
  {
    var bands := [Band(5, 9995, 10)];
    assert OnBand(bands[0], 3995);
  }
}
