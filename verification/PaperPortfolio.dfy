/**
  All markets of the paper engine together: what the desks share, the two-strike cap
  on hourly events, and the trade ids that make redelivery harmless.
 */
module PaperPortfolio {
  import opened Wrappers
  import opened Execution
  import opened ExecutionInvariant
  import opened ExecutionEntry
  import opened ExecutionHistory

  /** A strike's ticker is its event's ticker and the strike. */
  datatype Ticker = Ticker(event: string, strike: string)

  const MAX_STRIKES := 2

  datatype Portfolio = Portfolio(desks: map<Ticker, Desk>, shared: Shared, seen: set<string>)

  const EmptyPortfolio := Portfolio(map[], Shared(None, false), {})

  function DeskOf(p: Portfolio, t: Ticker): Desk {
    if t in p.desks then p.desks[t] else EmptyDesk
  }

  function Occupied(p: Portfolio, event: string): set<Ticker> {
    set t | t in p.desks && t.event == event && Occupies(p.desks[t])
  }

  predicate Crowded(p: Portfolio, t: Ticker) {
    t !in Occupied(p, t.event) && |Occupied(p, t.event)| >= MAX_STRIKES
  }

  /** The event as the market sees it: with the portfolio's shared state and, for hourly assets, its event's crowd. */
  function Seen(p: Portfolio, hourly: bool, t: Ticker, e: Event): Event {
    match e
    case SubmitEntry(_, b, m, tick, entry, gates) =>
      SubmitEntry(p.shared, b, m, tick, entry.(crowded := hourly && Crowded(p, t)), gates)
    case TradePrint(_, traded, at, gate) => TradePrint(p.shared, traded, at, gate)
    case MatchOrder(_, b, m, tick, at, gates) => MatchOrder(p.shared, b, m, tick, at, gates)
    case Recover(_, at, started, proven) => Recover(p.shared, at, started, proven)
    case other => other
  }

  datatype Move = At(ticker: Ticker, event: Event) | HaltAll(at: int)

  function Instant(e: Event): int {
    match e
    case SubmitEntry(_, _, _, _, entry, _) => entry.at
    case CancelOrder(at) => at
    case TradePrint(_, _, at, _) => at
    case MatchOrder(_, _, _, _, at, _) => at
    case ObserveBook(_, at, _, _) => at
    case MonitorBook(_, _, _, at, _, _) => at
    case SettleMarket(_, at, _, _, _) => at
    case Restrict(at, _) => at
    case PauseVenue(at, _) => at
    case ResumeVenue(at, _, _) => at
    case Recover(_, at, _, _) => at
    case EngineMove(_) => 0
  }

  predicate CanCancelAll(p: Portfolio, at: int) {
    forall t | t in p.desks :: Cancel(p.desks[t], at).Ok?
  }

  function Advance(c: Config, p: Portfolio, hourly: bool, m: Move): Portfolio
    requires Valid(c)
  {
    match m
    case HaltAll(at) =>
      if CanCancelAll(p, at)
      then p.(desks := map t | t in p.desks :: Kept(p.desks[t], Cancel(p.desks[t], at)), shared := p.shared.(halted := true))
      else p
    case At(t, event) =>
      var e := Seen(p, hourly, t, event);
      if e.TradePrint? && (e.traded.trade in p.seen || Traded(c, p.shared, DeskOf(p, t), e.traded, e.at, e.gate).Raised?) then p
      else
        var d, d' := DeskOf(p, t), Step(c, DeskOf(p, t), e);
        var closed := d.position.Some? && d'.position.None?;
        var last := if closed then Some(Max(Instant(e), p.shared.lastClosed.GetOr(Instant(e)))) else p.shared.lastClosed;
        Portfolio(p.desks[t := d'], p.shared.(lastClosed := last), if e.TradePrint? then p.seen + {e.traded.trade} else p.seen)
  }

  function AfterMoves(c: Config, p: Portfolio, hourly: bool, run: seq<Move>): Portfolio
    requires Valid(c)
    decreases |run|
  {
    if run == [] then p else AfterMoves(c, Advance(c, p, hourly, run[0]), hourly, run[1..])
  }

  // ---- Every desk of every portfolio -----------------------------------------

  ghost predicate AllOk(c: Config, p: Portfolio) {
    forall t | t in p.desks :: Inv(c, p.desks[t]) && Stocked(p.desks[t])
  }

  predicate MoveOk(m: Move) {
    m.At? ==> EventOk(m.event)
  }

  predicate MovesOk(run: seq<Move>) {
    forall i | 0 <= i < |run| :: MoveOk(run[i])
  }

  lemma AdvanceKeepsAll(c: Config, p: Portfolio, hourly: bool, m: Move)
    requires Valid(c) && AllOk(c, p) && MoveOk(m)
    ensures AllOk(c, Advance(c, p, hourly, m))
  {
    match m
    case HaltAll(at) =>
      forall t | t in p.desks ensures var d := Kept(p.desks[t], Cancel(p.desks[t], at)); Inv(c, d) && Stocked(d) {
        CancelKeepsIfOk(c, p.desks[t], at);
      }
    case At(t, event) =>
      InitialInv(c);
      StepKeeps(c, DeskOf(p, t), Seen(p, hourly, t, event));
  }

  /** Every market of every portfolio run keeps the books of its desk. */
  lemma {:induction false} EveryDeskKeepsItsBooks(c: Config, p: Portfolio, hourly: bool, run: seq<Move>)
    requires Valid(c) && AllOk(c, p) && MovesOk(run)
    ensures AllOk(c, AfterMoves(c, p, hourly, run))
    decreases |run|
  {
    if run != [] {
      AdvanceKeepsAll(c, p, hourly, run[0]);
      EveryDeskKeepsItsBooks(c, Advance(c, p, hourly, run[0]), hourly, run[1..]);
    }
  }

  // ---- Two strikes per event -------------------------------------------------

  /** Only an accepted, uncrowded entry makes a market occupy its event. */
  lemma OccupyingTakesAnEntry(c: Config, d: Desk, e: Event)
    requires Valid(c) && Occupies(Step(c, d, e)) && !Occupies(d)
    ensures e.SubmitEntry? && !e.entry.crowded
  {
    if !e.SubmitEntry? && !e.MatchOrder? && !e.TradePrint? {
      OthersKeepSize(c, d, e);
    } else if e.SubmitEntry? {
      if Accepts(c, e.shared, d, e.book, e.terms, e.tick, e.entry) {
        AcceptedMeans(c, e.shared, d, e.book, e.terms, e.tick, e.entry);
      }
    }
  }

  lemma CardinalityOfOneMore<T>(a: set<T>, b: set<T>, x: T)
    requires b <= a + {x}
    ensures |b| <= |a| + 1 && (x in a ==> |b| <= |a|)
  {
    SubsetIsSmaller(b, a + {x});
    if x in a {
      assert a + {x} == a;
    }
  }

  lemma {:induction false} SubsetIsSmaller<T>(b: set<T>, a: set<T>)
    requires b <= a
    ensures |b| <= |a|
    decreases b
  {
    if b != {} {
      var x :| x in b;
      SubsetIsSmaller(b - {x}, a - {x});
    }
  }

  predicate Capped(p: Portfolio, event: string) {
    |Occupied(p, event)| <= MAX_STRIKES
  }

  lemma HaltKeepsCap(c: Config, p: Portfolio, at: int, event: string)
    requires Valid(c) && Capped(p, event)
    ensures Capped(Advance(c, p, true, HaltAll(at)), event)
  {
    var p' := Advance(c, p, true, HaltAll(at));
    forall t | t in Occupied(p', event) ensures t in Occupied(p, event) {
      CancelKeepsSize(p.desks[t], at);
    }
    SubsetIsSmaller(Occupied(p', event), Occupied(p, event));
  }

  /** One desk changes; if it comes to occupy its event, the event had room. */
  lemma OneDeskKeepsCap(p: Portfolio, p': Portfolio, t: Ticker, d': Desk, event: string)
    requires Capped(p, event) && p'.desks == p.desks[t := d']
    requires Occupies(d') && !Occupies(DeskOf(p, t)) ==> !Crowded(p, t)
    ensures Capped(p', event)
  {
    forall u | u in Occupied(p', event) ensures u in Occupied(p, event) || u == t {
    }
    CardinalityOfOneMore(Occupied(p, event), Occupied(p', event), t);
    if t !in Occupied(p', event) || t in Occupied(p, event) {
      SubsetIsSmaller(Occupied(p', event), Occupied(p, event));
    }
  }

  lemma AdvanceKeepsCap(c: Config, p: Portfolio, m: Move, event: string)
    requires Valid(c) && Capped(p, event)
    ensures Capped(Advance(c, p, true, m), event)
  {
    var p' := Advance(c, p, true, m);
    match m
    case HaltAll(at) => HaltKeepsCap(c, p, at, event);
    case At(t, ev) =>
      if p' != p {
        var e := Seen(p, true, t, ev);
        var d' := Step(c, DeskOf(p, t), e);
        if Occupies(d') && !Occupies(DeskOf(p, t)) {
          OccupyingTakesAnEntry(c, DeskOf(p, t), e);
        }
        OneDeskKeepsCap(p, p', t, d', event);
      }
  }

  lemma {:induction false} RunKeepsCap(c: Config, p: Portfolio, run: seq<Move>, event: string)
    requires Valid(c) && Capped(p, event)
    ensures Capped(AfterMoves(c, p, true, run), event)
    decreases |run|
  {
    if run != [] {
      AdvanceKeepsCap(c, p, run[0], event);
      RunKeepsCap(c, Advance(c, p, true, run[0]), run[1..], event);
    }
  }

  /** The strikes of an event with a recorded purchase, whenever it was made. */
  function Filled(p: Portfolio, event: string): set<Ticker> {
    set t | t in p.desks && t.event == event && Entered(p.desks[t].history)
  }

  lemma FilledIsOccupied(c: Config, p: Portfolio, event: string)
    requires AllOk(c, p)
    ensures Filled(p, event) <= Occupied(p, event)
  {
    forall t | t in Filled(p, event) ensures t in Occupied(p, event) {
      EnteredOccupies(c, p.desks[t]);
    }
  }

  lemma AdvanceKeepsRecords(c: Config, p: Portfolio, hourly: bool, m: Move, t: Ticker)
    requires Valid(c) && t in p.desks
    ensures t in Advance(c, p, hourly, m).desks && p.desks[t].history <= Advance(c, p, hourly, m).desks[t].history
  {
    match m
    case HaltAll(at) => CancelAppends(p.desks[t], at, {Cancellation});
    case At(u, event) => StepAppends(c, DeskOf(p, u), Seen(p, hourly, u, event));
  }

  /** A strike once filled stays filled, through closing, re-entry and settlement. */
  lemma {:induction false} FilledStays(c: Config, p: Portfolio, hourly: bool, run: seq<Move>, event: string)
    requires Valid(c)
    ensures Filled(p, event) <= Filled(AfterMoves(c, p, hourly, run), event)
    decreases |run|
  {
    if run != [] {
      var p' := Advance(c, p, hourly, run[0]);
      forall t | t in Filled(p, event) ensures t in Filled(p', event) {
        AdvanceKeepsRecords(c, p, hourly, run[0], t);
        EnteredStays(p.desks[t].history, p'.desks[t].history);
      }
      FilledStays(c, p', hourly, run[1..], event);
    }
  }

  /**
    Over every run, at most two strikes of an hourly event have ever bought anything, however
    many have closed since; counting pending orders too there are never more than two.
   */
  lemma AtMostTwoStrikes(c: Config, run: seq<Move>, event: string)
    requires Valid(c) && MovesOk(run)
    ensures var p := AfterMoves(c, EmptyPortfolio, true, run);
      Filled(p, event) <= Occupied(p, event) && |Filled(p, event)| <= |Occupied(p, event)| <= 2
  {
    var p := AfterMoves(c, EmptyPortfolio, true, run);
    assert Occupied(EmptyPortfolio, event) == {};
    RunKeepsCap(c, EmptyPortfolio, run, event);
    EveryDeskKeepsItsBooks(c, EmptyPortfolio, true, run);
    FilledIsOccupied(c, p, event);
    SubsetIsSmaller(Filled(p, event), Occupied(p, event));
  }

  // ---- Redelivered trades ----------------------------------------------------

  function Prints(h: seq<Record>, trade: string): nat {
    if h == [] then 0 else Prints(h[..|h| - 1], trade) + if h[|h| - 1].Printed? && h[|h| - 1].trade == trade then 1 else 0
  }

  lemma {:induction false} NoPrintAppended(h: seq<Record>, h': seq<Record>, kinds: set<Kind>, trade: string)
    requires Continues(h, h', kinds) && PrintRecord !in kinds
    ensures Prints(h', trade) == Prints(h, trade)
    decreases |h'|
  {
    if |h'| > |h| {
      assert Continues(h, h'[..|h'| - 1], kinds);
      NoPrintAppended(h, h'[..|h'| - 1], kinds, trade);
      assert KindOf(h'[|h'| - 1]) in kinds;
    } else {
      assert h == h';
    }
  }

  lemma OthersPrintNothing(c: Config, d: Desk, e: Event, trade: string)
    requires Valid(c) && !e.TradePrint?
    ensures Prints(Step(c, d, e).history, trade) == Prints(d.history, trade)
  {
    StepAppends(c, d, e);
    NoPrintAppended(d.history, Step(c, d, e).history, Appendable(d, e), trade);
  }

  lemma TradePrintsOnce(c: Config, s: Shared, d: Desk, p: Print, at: int, gate: Gate, trade: string)
    requires Valid(c)
    ensures Prints(Kept(d, Traded(c, s, d, p, at, gate)).history, trade) <= Prints(d.history, trade) + if trade == p.trade then 1 else 0
  {
    var d' := Kept(d, Traded(c, s, d, p, at, gate));
    TradedAppends(c, s, d, p, at, gate);
    if d' != d {
      var id: nat, q: int :| Continues(d.history + [Printed(id, p.trade, q)], d'.history, BUYING);
      NoPrintAppended(d.history + [Printed(id, p.trade, q)], d'.history, BUYING, trade);
      Snoc(d.history, Printed(id, p.trade, q));
    }
  }

  /** A trade counted in a market's volume is one already seen, counted once. */
  predicate CountedOnce(p: Portfolio, t: Ticker, trade: string) {
    && Prints(DeskOf(p, t).history, trade) <= 1
    && (Prints(DeskOf(p, t).history, trade) > 0 ==> trade in p.seen)
  }

  ghost predicate PrintsOnce(p: Portfolio) {
    forall t, trade :: CountedOnce(p, t, trade)
  }

  lemma AdvanceKeepsPrints(c: Config, p: Portfolio, hourly: bool, m: Move)
    requires Valid(c) && PrintsOnce(p)
    ensures PrintsOnce(Advance(c, p, hourly, m))
  {
    var p' := Advance(c, p, hourly, m);
    if p' != p {
      forall t, trade ensures CountedOnce(p', t, trade) {
        assert CountedOnce(p, t, trade);
        if m.HaltAll? {
          CancelAppends(DeskOf(p, t), m.at, {Cancellation});
          NoPrintAppended(DeskOf(p, t).history, DeskOf(p', t).history, {Cancellation}, trade);
        } else {
          DeskKeepsPrints(c, p, hourly, m.ticker, m.event, t, trade);
        }
      }
    }
  }

  lemma DeskKeepsPrints(c: Config, p: Portfolio, hourly: bool, t: Ticker, event: Event, u: Ticker, trade: string)
    requires Valid(c) && CountedOnce(p, u, trade) && Advance(c, p, hourly, At(t, event)) != p
    ensures CountedOnce(Advance(c, p, hourly, At(t, event)), u, trade)
  {
    var e, d := Seen(p, hourly, t, event), DeskOf(p, t);
    if u == t {
      if e.TradePrint? {
        TradePrintsOnce(c, p.shared, d, e.traded, e.at, e.gate, trade);
      } else {
        OthersPrintNothing(c, d, e, trade);
      }
    }
  }

  lemma {:induction false} RunKeepsPrints(c: Config, p: Portfolio, hourly: bool, run: seq<Move>)
    requires Valid(c) && PrintsOnce(p)
    ensures PrintsOnce(AfterMoves(c, p, hourly, run))
    decreases |run|
  {
    if run != [] {
      AdvanceKeepsPrints(c, p, hourly, run[0]);
      RunKeepsPrints(c, Advance(c, p, hourly, run[0]), hourly, run[1..]);
    }
  }

  /** Over every run, however trades are redelivered, each counts at most once towards a market's volume. */
  lemma EachTradeCountsOnce(c: Config, hourly: bool, run: seq<Move>, t: Ticker, trade: string)
    requires Valid(c)
    ensures Prints(DeskOf(AfterMoves(c, EmptyPortfolio, hourly, run), t).history, trade) <= 1
  {
    forall u, name ensures CountedOnce(EmptyPortfolio, u, name) {
    }
    RunKeepsPrints(c, EmptyPortfolio, hourly, run);
    assert CountedOnce(AfterMoves(c, EmptyPortfolio, hourly, run), t, trade);
  }

  // ---- Redelivery ------------------------------------------------------------

  lemma {:induction false} SeenStays(c: Config, p: Portfolio, hourly: bool, run: seq<Move>)
    requires Valid(c)
    ensures p.seen <= AfterMoves(c, p, hourly, run).seen
    decreases |run|
  {
    if run != [] { SeenStays(c, Advance(c, p, hourly, run[0]), hourly, run[1..]); }
  }

  lemma {:induction false} MovesInTwo(c: Config, p: Portfolio, hourly: bool, first: seq<Move>, second: seq<Move>)
    requires Valid(c)
    ensures AfterMoves(c, p, hourly, first + second) == AfterMoves(c, AfterMoves(c, p, hourly, first), hourly, second)
    decreases |first|
  {
    if first == [] {
      assert first + second == second;
    } else {
      assert (first + second)[1..] == first[1..] + second;
      MovesInTwo(c, Advance(c, p, hourly, first[0]), hourly, first[1..], second);
    }
  }

  predicate Delivers(m: Move, trade: string) {
    m.At? && m.event.TradePrint? && m.event.traded.trade == trade
  }

  /** The delivery is taken: the market's handling of it does not raise. */
  predicate Taken(c: Config, p: Portfolio, m: Move)
    requires Valid(c) && m.At? && m.event.TradePrint?
  {
    Traded(c, p.shared, DeskOf(p, m.ticker), m.event.traded, m.event.at, m.event.gate).Ok?
  }

  lemma TakenIsSeen(c: Config, p: Portfolio, hourly: bool, m: Move, trade: string)
    requires Valid(c) && Delivers(m, trade) && (trade in p.seen || Taken(c, p, m))
    ensures trade in Advance(c, p, hourly, m).seen
  {
  }

  /**
    Redelivery is harmless anywhere: once a trade has been taken, delivering it again at any
    later point, to any market and with any contents, leaves the whole rest of the run as if it
    had not come.
   */
  lemma RedeliveryChangesNothing(c: Config, p: Portfolio, hourly: bool, first: Move, between: seq<Move>, again: Move,
                                 later: seq<Move>, trade: string)
    requires Valid(c) && Delivers(first, trade) && Delivers(again, trade) && Taken(c, p, first)
    ensures AfterMoves(c, p, hourly, [first] + between + [again] + later) == AfterMoves(c, p, hourly, [first] + between + later)
  {
    var p1 := Advance(c, p, hourly, first);
    var p2 := AfterMoves(c, p1, hourly, between);
    TakenIsSeen(c, p, hourly, first, trade);
    SeenStays(c, p1, hourly, between);
    assert Advance(c, p2, hourly, again) == p2;
    assert ([again] + later)[1..] == later && ([again] + later)[0] == again;
    FirstMove(c, p, hourly, first, between + ([again] + later));
    FirstMove(c, p, hourly, first, between + later);
    MovesInTwo(c, p1, hourly, between, [again] + later);
    MovesInTwo(c, p1, hourly, between, later);
    assert [first] + between + [again] + later == [first] + (between + ([again] + later));
    assert [first] + between + later == [first] + (between + later);
  }

  lemma FirstMove(c: Config, p: Portfolio, hourly: bool, first: Move, rest: seq<Move>)
    requires Valid(c)
    ensures AfterMoves(c, p, hourly, [first] + rest) == AfterMoves(c, Advance(c, p, hourly, first), hourly, rest)
  {
    assert ([first] + rest)[1..] == rest && ([first] + rest)[0] == first;
  }
}
