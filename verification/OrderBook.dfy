/**
  The level-2 book of src/btc15/domain.py. Prices are integers in units of
  1/ONE dollar and quantities integers in the venue's smallest unit. NO levels
  arrive quoted in YES prices and are stored at ONE minus that price.
 */
module OrderBook {
  import opened Wrappers

  const ONE := 10000

  type Ticker = string
  type Levels = map<int, int>

  datatype Side = Yes | No | Unknown

  datatype Message =
    | Snapshot(ticker: Ticker, yes: seq<(int, int)>, no: seq<(int, int)>, time: Option<int>)
    | Delta(ticker: Ticker, side: Side, price: int, change: int, time: Option<int>)

  datatype BookState = BookState(yes: Levels, no: Levels, received: int, sourceTime: int, valid: bool)

  const EmptyBook := BookState(map[], map[], 0, 0, false)

  /** A dictionary built from (price, quantity) pairs: nonpositive quantities are skipped, later pairs win. */
  function Collect(pairs: seq<(int, int)>, flip: bool): Levels {
    if pairs == [] then map[]
    else
      var rest := Collect(pairs[..|pairs| - 1], flip);
      var (p, q) := pairs[|pairs| - 1];
      if q > 0 then rest[(if flip then ONE - p else p) := q] else rest
  }

  ghost predicate Inside(levels: Levels) {
    forall p | p in levels :: 0 < p < ONE
  }

  ghost predicate Crossed(yes: Levels, no: Levels) {
    exists p, q | p in yes && q in no :: p + q > ONE
  }

  /** Only positive levels strictly inside (0, 1), and no bid above the opposite ask. */
  ghost predicate Sound(b: BookState) {
    && Inside(b.yes) && Inside(b.no)
    && (forall p | p in b.yes :: b.yes[p] > 0)
    && (forall p | p in b.no :: b.no[p] > 0)
    && !Crossed(b.yes, b.no)
  }

  function Depth(levels: Levels, p: int): int {
    if p in levels then levels[p] else 0
  }

  function SetDepth(levels: Levels, p: int, q: int): Levels {
    if q != 0 then levels[p := q] else levels - {p}
  }

  // ---- What the two updates do ---------------------------------------------

  ghost function AfterSnapshot(m: Message, received: int): BookState
    requires m.Snapshot?
  {
    var yes, no := Collect(m.yes, false), Collect(m.no, true);
    BookState(yes, no, received, m.time.GetOr(received), Inside(yes) && Inside(no) && !Crossed(yes, no))
  }

  /** `Raised` carries the book a rejected delta leaves behind. */
  ghost function AfterDelta(b: BookState, m: Message, received: int): Result<BookState, BookState>
    requires m.Delta?
  {
    if !b.valid || m.side == Unknown then Raised(b)
    else
      var levels := if m.side == Yes then b.yes else b.no;
      var p := if m.side == Yes then m.price else ONE - m.price;
      var q := Depth(levels, p) + m.change;
      if !(0 < p < ONE) || q < 0 then Raised(b.(valid := false))
      else
        var updated := SetDepth(levels, p, q);
        var yes, no := if m.side == Yes then updated else b.yes, if m.side == Yes then b.no else updated;
        var b' := BookState(yes, no, received, m.time.GetOr(received), true);
        if Crossed(yes, no) then Raised(b'.(valid := false)) else Ok(b')
  }

  lemma {:induction false} CollectPositive(pairs: seq<(int, int)>, flip: bool)
    ensures forall p | p in Collect(pairs, flip) :: Collect(pairs, flip)[p] > 0
    decreases |pairs|
  {
    if pairs != [] {
      CollectPositive(pairs[..|pairs| - 1], flip);
    }
  }

  lemma SnapshotIsSound(m: Message, received: int)
    requires m.Snapshot? && AfterSnapshot(m, received).valid
    ensures Sound(AfterSnapshot(m, received))
  {
    CollectPositive(m.yes, false);
    CollectPositive(m.no, true);
  }

  /** Although a delta rechecks only the level it changed, the whole book stays sound. */
  lemma DeltaKeepsSound(b: BookState, m: Message, received: int)
    requires m.Delta? && Sound(b) && AfterDelta(b, m, received).Ok?
    ensures Sound(AfterDelta(b, m, received).value) && AfterDelta(b, m, received).value.valid
  {
  }

  // ---- The object ----------------------------------------------------------

  method MaxKey(levels: Levels) returns (best: int)
    requires levels != map[]
    ensures best in levels && forall p | p in levels :: p <= best
  {
    assert |levels| != 0 && |levels.Items| != 0;
    var first :| first in levels.Items;
    best := first.0;
    var rest := levels - {best};
    while |rest| > 0
      invariant best in levels
      invariant forall p | p in rest :: p in levels
      invariant forall p | p in levels && p !in rest :: p <= best
      decreases |rest|
    {
      var p := SomeKey(rest);
      if p > best {
        best := p;
      }
      ShrinkSize(rest, p);
      rest := rest - {p};
    }
  }

  method SomeKey(levels: Levels) returns (p: int)
    requires |levels| > 0
    ensures p in levels
  {
    assert |levels.Items| != 0;
    var level :| level in levels.Items;
    p := level.0;
  }

  lemma ShrinkSize(levels: Levels, p: int)
    requires p in levels
    ensures |levels - {p}| == |levels| - 1
  {
    assert (levels - {p}).Keys == levels.Keys - {p};
  }

  method AllInside(levels: Levels) returns (ok: bool)
    ensures ok <==> Inside(levels)
  {
    var rest := levels;
    ok := true;
    while |rest| > 0
      invariant forall p | p in rest :: p in levels
      invariant ok <==> forall p | p in levels && p !in rest :: 0 < p < ONE
      decreases |rest|
    {
      var p := SomeKey(rest);
      ok := ok && 0 < p < ONE;
      ShrinkSize(rest, p);
      rest := rest - {p};
    }
  }

  method CollectLevels(pairs: seq<(int, int)>, flip: bool) returns (levels: Levels)
    ensures levels == Collect(pairs, flip)
  {
    levels := map[];
    for i := 0 to |pairs|
      invariant levels == Collect(pairs[..i], flip)
    {
      assert pairs[..i + 1][..i] == pairs[..i];
      var (p, q) := pairs[i];
      if q > 0 {
        levels := levels[(if flip then ONE - p else p) := q];
      }
    }
    assert pairs[..|pairs|] == pairs;
  }

  class Book {
    var yes: Levels
    var no: Levels
    var received: int
    var sourceTime: int
    var valid: bool

    function View(): BookState
      reads this
    {
      BookState(yes, no, received, sourceTime, valid)
    }

    constructor ()
      ensures View() == EmptyBook
    {
      yes, no, received, sourceTime, valid := map[], map[], 0, 0, false;
    }

    /** False means the Python code raised. */
    method ValidateSpread() returns (ok: bool)
      modifies this`valid
      ensures ok <==> !Crossed(yes, no)
      ensures valid == (old(valid) && ok)
    {
      ok := true;
      if yes != map[] && no != map[] {
        var bestYes := MaxKey(yes);
        var bestNo := MaxKey(no);
        if bestYes + bestNo > ONE {
          valid := false;
          ok := false;
        }
      }
    }

    method Validate() returns (ok: bool)
      modifies this`valid
      ensures ok <==> Inside(yes) && Inside(no) && !Crossed(yes, no)
      ensures valid == (old(valid) && ok)
    {
      var yesInside := AllInside(yes);
      var noInside := AllInside(no);
      if !(yesInside && noInside) {
        valid := false;
        return false;
      }
      ok := ValidateSpread();
    }

    method ApplySnapshot(m: Message, at: int) returns (ok: bool)
      requires m.Snapshot?
      modifies this
      ensures View() == AfterSnapshot(m, at)
      ensures ok == valid
    {
      yes := CollectLevels(m.yes, false);
      no := CollectLevels(m.no, true);
      received, sourceTime, valid := at, m.time.GetOr(at), true;
      ok := Validate();
    }

    method ApplyDelta(m: Message, at: int) returns (ok: bool)
      requires m.Delta?
      modifies this
      ensures ok <==> AfterDelta(old(View()), m, at).Ok?
      ensures View() == match AfterDelta(old(View()), m, at) case Ok(b) => b case Raised(b) => b
    {
      if !valid || m.side == Unknown {
        return false;
      }
      var levels := if m.side == Yes then yes else no;
      var p := if m.side == Yes then m.price else ONE - m.price;
      var q := Depth(levels, p) + m.change;
      if !(0 < p < ONE) {
        valid := false;
        return false;
      }
      if q < 0 {
        valid := false;
        return false;
      }
      levels := if q != 0 then levels[p := q] else levels - {p};
      if m.side == Yes { yes := levels; } else { no := levels; }
      received, sourceTime := at, m.time.GetOr(at);
      ok := ValidateSpread();
    }
  }
}
