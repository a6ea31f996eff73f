/**
  The stop-priority slot around every order submission
  (`submission_slot` in src/btc15/manual_trading.py).

  An asyncio task runs without interruption between awaits, so each code segment
  between two awaits is one step: arriving, resuming from the lock queue, resuming
  from the drained event, leaving, or being cancelled at an await. The lock is
  asyncio's: a flag and a FIFO queue whose head may resume once the flag is clear.
 */
module SubmissionSlot {
  import opened Wrappers

  type Task = nat

  /** Callers pass `stop` only for sells, so a request is never both a stop and a buy. */
  datatype Kind = Stop | Buy | Plain

  datatype Slot = Slot(
    locked: bool,
    queue: seq<Task>,       // awaiting order_lock.acquire()
    inside: set<Task>,      // past the loop, holding the lock
    parked: set<Task>,      // awaiting _stops_drained.wait()
    woken: set<Task>,       // that wait is over, the task has not run yet
    pendingStops: int,
    drained: bool,
    kind: map<Task, Kind>)

  const Idle := Slot(false, [], {}, {}, {}, 0, true, map[])

  function Elements(q: seq<Task>): set<Task> {
    set t | t in q
  }

  function Waiting(s: Slot): set<Task> {
    Elements(s.queue) + s.parked + s.woken
  }

  function Live(s: Slot): set<Task> {
    Waiting(s) + s.inside
  }

  ghost function Stops(s: Slot): set<Task> {
    set t | t in Live(s) && t in s.kind && s.kind[t] == Stop
  }

  // ---- Segments ------------------------------------------------------------

  /** The lock has just been taken by `t`: enter, or give way to the pending stops. */
  function Acquired(s: Slot, t: Task): Slot
    requires t in s.kind
  {
    if s.kind[t] != Buy || s.pendingStops == 0 then
      s.(locked := true, inside := s.inside + {t})
    else if s.drained then
      s.(locked := false, woken := s.woken + {t})
    else
      s.(locked := false, parked := s.parked + {t})
  }

  function TryAcquire(s: Slot, t: Task): Slot
    requires t in s.kind
  {
    if !s.locked && s.queue == [] then Acquired(s, t) else s.(queue := s.queue + [t])
  }

  /** The `finally` block, once the lock is no longer held by a departing `t`. */
  function StopDeparts(s: Slot, t: Task): Slot
    requires t in s.kind
  {
    if s.kind[t] != Stop then s
    else if s.pendingStops == 1 then
      s.(pendingStops := 0, drained := true, woken := s.woken + s.parked, parked := {})
    else s.(pendingStops := s.pendingStops - 1)
  }

  datatype Event =
    | Arrive(task: Task, kind: Kind)
    | ResumeLock(task: Task)
    | ResumeDrained(task: Task)
    | Leave(task: Task)
    | Cancel(task: Task)

  predicate Enabled(s: Slot, e: Event) {
    match e
    case Arrive(t, _) => t !in Live(s)
    case ResumeLock(t) => !s.locked && s.queue != [] && s.queue[0] == t && t in s.kind
    case ResumeDrained(t) => t in s.woken && t in s.kind
    case Leave(t) => t in s.inside && t in s.kind
    case Cancel(t) => t in Waiting(s) && t in s.kind
  }

  function Without(q: seq<Task>, t: Task): seq<Task> {
    if q == [] then [] else if q[0] == t then q[1..] else [q[0]] + Without(q[1..], t)
  }

  function Step(s: Slot, e: Event): Slot
    requires Enabled(s, e)
  {
    match e
    case Arrive(t, k) =>
      var s1 := s.(kind := s.kind[t := k]);
      TryAcquire(if k == Stop then s1.(pendingStops := s1.pendingStops + 1, drained := false) else s1, t)
    case ResumeLock(t) => Acquired(s.(queue := s.queue[1..]), t)
    case ResumeDrained(t) => TryAcquire(s.(woken := s.woken - {t}), t)
    case Leave(t) => StopDeparts(s.(locked := false, inside := s.inside - {t}), t)
    case Cancel(t) =>
      StopDeparts(s.(queue := Without(s.queue, t), parked := s.parked - {t}, woken := s.woken - {t}), t)
  }

  // ---- What every step keeps -----------------------------------------------

  ghost predicate Distinct(q: seq<Task>) {
    forall i, j | 0 <= i < j < |q| :: q[i] != q[j]
  }

  ghost predicate Separate(s: Slot) {
    && Distinct(s.queue)
    && Elements(s.queue) !! s.inside && Elements(s.queue) !! s.parked && Elements(s.queue) !! s.woken
    && s.inside !! s.parked && s.inside !! s.woken && s.parked !! s.woken
  }

  ghost predicate Inv(s: Slot) {
    && Separate(s)
    && (forall t | t in Live(s) :: t in s.kind)
    && (forall t | t in s.parked + s.woken :: s.kind[t] == Buy)
    // mutual exclusion
    && (forall t, u | t in s.inside && u in s.inside :: t == u)
    && (s.locked <==> s.inside != {})
    // the counter counts, and the event mirrors the counter
    && s.pendingStops == |Stops(s)|
    && (s.drained <==> s.pendingStops == 0)
    && (s.drained ==> s.parked == {})
  }

  lemma IdleInv()
    ensures Inv(Idle)
  {
    assert Stops(Idle) == {};
  }

  lemma {:induction false} WithoutMembers(q: seq<Task>, t: Task)
    requires Distinct(q)
    ensures Distinct(Without(q, t))
    ensures Elements(Without(q, t)) == Elements(q) - {t}
    ensures |Without(q, t)| == if t in q then |q| - 1 else |q|
    decreases |q|
  {
    if q != [] {
      PopMembers(q);
      WithoutMembers(q[1..], t);
      if q[0] != t {
        PushFrontMembers(q[0], Without(q[1..], t));
        assert q[0] !in Elements(Without(q[1..], t));
      }
    }
  }

  lemma PushFrontMembers(t: Task, q: seq<Task>)
    ensures Elements([t] + q) == {t} + Elements(q)
  {
  }

  lemma PopMembers(q: seq<Task>)
    requires q != [] && Distinct(q)
    ensures q[0] in Elements(q) && Distinct(q[1..])
    ensures Elements(q[1..]) == Elements(q) - {q[0]}
    ensures forall t :: t in q <==> t == q[0] || t in q[1..]
  {
    assert q == [q[0]] + q[1..];
    assert q[0] !in q[1..];
  }

  lemma PushMembers(q: seq<Task>, t: Task)
    ensures Elements(q + [t]) == Elements(q) + {t}
    ensures Distinct(q) && t !in q ==> Distinct(q + [t])
  {
  }

  lemma StopsOfLive(s: Slot, s': Slot, gone: set<Task>)
    requires forall t | t in Live(s') :: t in s'.kind
    requires forall t | t in Live(s) :: t in s.kind
    requires Live(s') == Live(s) - gone
    requires forall t | t in Live(s') :: s'.kind[t] == s.kind[t]
    ensures Stops(s') == Stops(s) - gone
  {
  }

  lemma DepartCount(s: Slot, s': Slot, t: Task)
    requires forall u | u in Live(s) :: u in s.kind
    requires t in Live(s) && s'.kind == s.kind && Live(s') == Live(s) - {t}
    ensures |Stops(s')| == |Stops(s)| - if s.kind[t] == Stop then 1 else 0
  {
    StopsOfLive(s, s', {t});
    if s.kind[t] != Stop {
      assert Stops(s') == Stops(s);
    }
  }

  lemma ArriveCount(s: Slot, s': Slot, t: Task, k: Kind)
    requires forall u | u in Live(s) :: u in s.kind
    requires t !in Live(s) && s'.kind == s.kind[t := k] && Live(s') == Live(s) + {t}
    ensures |Stops(s')| == |Stops(s)| + if k == Stop then 1 else 0
  {
    assert Stops(s') == Stops(s) + if k == Stop then {t} else {};
  }

  lemma TryAcquireKeeps(s: Slot, t: Task)
    requires t in s.kind && t !in Live(s) && Separate(s)
    requires forall u | u in Live(s) :: u in s.kind
    requires forall u | u in s.parked + s.woken :: s.kind[u] == Buy
    requires forall u, v | u in s.inside && v in s.inside :: u == v
    requires s.locked <==> s.inside != {}
    requires s.drained <==> s.pendingStops == 0
    requires s.drained ==> s.parked == {}
    ensures var s' := TryAcquire(s, t);
            && Separate(s') && Live(s') == Live(s) + {t} && s'.kind == s.kind
            && (forall u | u in s'.parked + s'.woken :: s'.kind[u] == Buy)
            && (forall u, v | u in s'.inside && v in s'.inside :: u == v)
            && (s'.locked <==> s'.inside != {})
            && s'.pendingStops == s.pendingStops && s'.drained == s.drained
            && (s'.drained ==> s'.parked == {})
  {
    PushMembers(s.queue, t);
  }

  lemma StopDepartsLive(s: Slot, t: Task)
    requires t in s.kind
    ensures Live(StopDeparts(s, t)) == Live(s) && StopDeparts(s, t).kind == s.kind
  {
  }

  lemma ArriveKeepsInv(s: Slot, t: Task, k: Kind)
    requires Inv(s) && t !in Live(s)
    ensures Inv(Step(s, Arrive(t, k)))
  {
    var s1 := s.(kind := s.kind[t := k]);
    var s2 := if k == Stop then s1.(pendingStops := s1.pendingStops + 1, drained := false) else s1;
    TryAcquireKeeps(s2, t);
    ArriveCount(s, TryAcquire(s2, t), t, k);
  }

  /** Everything in `Inv` but the counter, which depends only on who is live. */
  ghost predicate Shape(s: Slot) {
    && Separate(s)
    && (forall t | t in Live(s) :: t in s.kind)
    && (forall t | t in s.parked + s.woken :: s.kind[t] == Buy)
    && (forall t, u | t in s.inside && u in s.inside :: t == u)
    && (s.locked <==> s.inside != {})
    && (s.drained <==> s.pendingStops == 0)
    && (s.drained ==> s.parked == {})
  }

  lemma AcquiredShape(s: Slot, t: Task)
    requires Shape(s) && t in s.kind && t !in Live(s) && !s.locked
    ensures Shape(Acquired(s, t)) && Live(Acquired(s, t)) == Live(s) + {t}
  {
    assert s.inside == {};
    var s' := Acquired(s, t);
    assert s'.inside == {t} || s'.inside == {};
    assert Live(s') == Live(s) + {t};
  }

  /** Taking the lock moves `t` from where it waited to inside or to the parked ones. */
  lemma AcquiredKeepsInv(s: Slot, s1: Slot, t: Task)
    requires Inv(s) && t in Live(s) && s1.kind == s.kind && !s1.locked
    requires Shape(s1) && Live(s1) == Live(s) - {t}
    requires s1.pendingStops == s.pendingStops && s1.drained == s.drained
    ensures Inv(Acquired(s1, t)) && Live(Acquired(s1, t)) == Live(s)
  {
    AcquiredShape(s1, t);
    var s' := Acquired(s1, t);
    assert Live(s') == Live(s);
    assert Stops(s') == Stops(s) by { StopsOfLive(s, s', {}); }
    assert s'.kind == s.kind && s'.pendingStops == s.pendingStops;
  }

  lemma ResumeLockKeepsInv(s: Slot, t: Task)
    requires Inv(s) && Enabled(s, ResumeLock(t))
    ensures Inv(Step(s, ResumeLock(t))) && Live(Step(s, ResumeLock(t))) == Live(s)
  {
    PopMembers(s.queue);
    var s1 := s.(queue := s.queue[1..]);
    assert Live(s1) == Live(s) - {t};
    AcquiredKeepsInv(s, s1, t);
  }

  lemma LeaveWoken(s: Slot, t: Task)
    requires Shape(s) && t in s.woken
    ensures var s1 := s.(woken := s.woken - {t});
            Shape(s1) && Live(s1) == Live(s) - {t} && t !in s1.queue && t !in s1.parked && t !in s1.inside
  {
    var s1 := s.(woken := s.woken - {t});
    assert t !in Elements(s.queue);
  }

  lemma RequeueKeepsInv(s: Slot, s1: Slot, t: Task)
    requires Inv(s) && t in Live(s) && s1.kind == s.kind
    requires Shape(s1) && Live(s1) == Live(s) - {t}
    requires s1.pendingStops == s.pendingStops && s1.drained == s.drained
    ensures Inv(s1.(queue := s1.queue + [t])) && Live(s1.(queue := s1.queue + [t])) == Live(s)
  {
    var s' := s1.(queue := s1.queue + [t]);
    PushMembers(s1.queue, t);
    assert t !in s1.queue;
    assert Live(s') == Live(s);
    assert Stops(s') == Stops(s) by { StopsOfLive(s, s', {}); }
  }

  lemma ResumeDrainedKeepsInv(s: Slot, t: Task)
    requires Inv(s) && t in s.woken
    ensures Inv(Step(s, ResumeDrained(t))) && Live(Step(s, ResumeDrained(t))) == Live(s)
  {
    var s1 := s.(woken := s.woken - {t});
    LeaveWoken(s, t);
    if !s1.locked && s1.queue == [] {
      AcquiredKeepsInv(s, s1, t);
    } else {
      RequeueKeepsInv(s, s1, t);
    }
  }

  lemma DepartKeepsInv(s: Slot, s1: Slot, t: Task)
    requires Inv(s) && t in Live(s) && s1.kind == s.kind
    requires Shape(s1) && Live(s1) == Live(s) - {t}
    requires s1.pendingStops == s.pendingStops && s1.drained == s.drained
    ensures Inv(StopDeparts(s1, t)) && Live(StopDeparts(s1, t)) == Live(s) - {t}
  {
    StopDepartsLive(s1, t);
    var s' := StopDeparts(s1, t);
    assert s.kind[t] == Stop ==> t in Stops(s);
    assert |Stops(s')| == |Stops(s)| - if s.kind[t] == Stop then 1 else 0 by { DepartCount(s, s', t); }
    assert Shape(s') by { DepartShape(s1, t); }
  }

  lemma DepartShape(s: Slot, t: Task)
    requires Shape(s) && t in s.kind
    requires s.kind[t] == Stop ==> s.pendingStops >= 1
    ensures Shape(StopDeparts(s, t))
  {
    StopDepartsLive(s, t);
  }

  lemma LeaveKeepsInv(s: Slot, t: Task)
    requires Inv(s) && t in s.inside
    ensures Inv(Step(s, Leave(t))) && Live(Step(s, Leave(t))) == Live(s) - {t}
  {
    var s1 := s.(locked := false, inside := s.inside - {t});
    assert s1.inside == {};
    assert Live(s1) == Live(s) - {t};
    DepartKeepsInv(s, s1, t);
  }

  lemma CancelKeepsInv(s: Slot, t: Task)
    requires Inv(s) && t in Waiting(s)
    ensures Inv(Step(s, Cancel(t))) && Live(Step(s, Cancel(t))) == Live(s) - {t}
  {
    WithoutMembers(s.queue, t);
    var s1 := s.(queue := Without(s.queue, t), parked := s.parked - {t}, woken := s.woken - {t});
    assert Live(s1) == Live(s) - {t};
    DepartKeepsInv(s, s1, t);
  }

  lemma StepKeepsInv(s: Slot, e: Event)
    requires Inv(s) && Enabled(s, e)
    ensures Inv(Step(s, e))
  {
    match e
    case Arrive(t, k) => ArriveKeepsInv(s, t, k);
    case ResumeLock(t) => ResumeLockKeepsInv(s, t);
    case ResumeDrained(t) => ResumeDrainedKeepsInv(s, t);
    case Leave(t) => LeaveKeepsInv(s, t);
    case Cancel(t) => CancelKeepsInv(s, t);
  }

  // ---- Runs ----------------------------------------------------------------

  predicate Runs(s: Slot, run: seq<Event>)
    decreases |run|
  {
    run == [] || (Enabled(s, run[0]) && Runs(Step(s, run[0]), run[1..]))
  }

  function After(s: Slot, run: seq<Event>): Slot
    requires Runs(s, run)
    decreases |run|
  {
    if run == [] then s else After(Step(s, run[0]), run[1..])
  }

  /**
    Over any run from the initial state: at most one task is inside, the drained
    event is set exactly when no stop is pending, and the counter is exact.
   */
  lemma {:induction false} EveryRunKeepsInv(s: Slot, run: seq<Event>)
    requires Inv(s) && Runs(s, run)
    ensures Inv(After(s, run))
    decreases |run|
  {
    if run != [] {
      StepKeepsInv(s, run[0]);
      EveryRunKeepsInv(Step(s, run[0]), run[1..]);
    }
  }

  /** No step lets a buy in while a stop is pending, and none enters before the last holder left. */
  lemma NoBuyOvertakesStop(s: Slot, e: Event, t: Task)
    requires Inv(s) && Enabled(s, e)
    requires t !in s.inside && t in Step(s, e).inside
    ensures t in Step(s, e).kind
    ensures Step(s, e).kind[t] == Buy ==> Step(s, e).pendingStops == 0 && Stops(Step(s, e)) == {}
    ensures s.inside == {}
  {
    var s' := Step(s, e);
    assert Inv(s') by { StepKeepsInv(s, e); }
    assert t in Live(s');
    assert !s.locked && s'.kind[t] == Buy ==> s'.pendingStops == 0 by { EntryGuard(s, e, t); }
    EntryGuard(s, e, t);
  }

  lemma EntryGuard(s: Slot, e: Event, t: Task)
    requires Enabled(s, e) && t !in s.inside && t in Step(s, e).inside
    ensures !s.locked && t in Step(s, e).kind
    ensures Step(s, e).kind[t] == Buy ==> Step(s, e).pendingStops == 0
  {
  }

  // ---- Progress ------------------------------------------------------------

  /** Parked buys alone are impossible: a stop they wait for is itself queued or inside. */
  lemma NobodyOnlyParked(s: Slot)
    requires Inv(s) && s.inside == {} && s.queue == [] && s.woken == {}
    ensures Live(s) == {}
  {
    assert Elements(s.queue) == {};
    assert forall t | t in Live(s) :: s.kind[t] == Buy;
    assert Stops(s) == {};
  }

  /** While any task waits, some task can step without an arrival or a cancellation. */
  lemma SomeoneCanStep(s: Slot) returns (e: Event)
    requires Inv(s) && Live(s) != {}
    ensures Enabled(s, e) && (e.ResumeLock? || e.ResumeDrained? || e.Leave?)
  {
    if s.inside != {} {
      var t :| t in s.inside;
      e := Leave(t);
    } else if s.queue != [] {
      assert s.queue[0] in Live(s);
      e := ResumeLock(s.queue[0]);
    } else if s.woken != {} {
      var t :| t in s.woken;
      e := ResumeDrained(t);
    } else {
      NobodyOnlyParked(s);
      assert false;
    }
  }

  /** How many more segments the present tasks can need, counted by where each one stands. */
  function Rank(s: Slot): int {
    if s.pendingStops > 0 then 7 * |s.woken| + 6 * |s.queue| + 5 * |s.parked| + 2 * |s.inside|
    else 4 * |s.woken| + 3 * |s.queue| + 2 * |s.inside|
  }

  lemma WokenSize(a: set<Task>, b: set<Task>)
    requires a !! b
    ensures |a + b| == |a| + |b|
  {
  }

  lemma DropSize(a: set<Task>, t: Task)
    ensures |a - {t}| == |a| - if t in a then 1 else 0
  {
    if t !in a { assert a - {t} == a; }
  }

  lemma AcquiredRank(s: Slot, t: Task)
    requires t in s.kind && t !in s.inside && t !in s.parked && t !in s.woken
    requires s.drained <==> s.pendingStops == 0
    ensures Rank(Acquired(s, t)) <= Rank(s) + if s.pendingStops > 0 then 5 else 2
  {
  }

  lemma ResumeRankFalls(s: Slot, e: Event)
    requires Inv(s) && Enabled(s, e) && (e.ResumeLock? || e.ResumeDrained?)
    ensures Rank(Step(s, e)) < Rank(s)
  {
    var t := e.task;
    if e.ResumeLock? {
      PopMembers(s.queue);
      AcquiredRank(s.(queue := s.queue[1..]), t);
    } else {
      DropSize(s.woken, t);
      var s1 := s.(woken := s.woken - {t});
      if !s1.locked && s1.queue == [] {
        AcquiredRank(s1, t);
      }
    }
  }

  lemma DepartRank(s: Slot, t: Task)
    requires t in s.kind && s.parked !! s.woken && s.pendingStops >= 0
    requires s.drained <==> s.pendingStops == 0
    requires s.drained ==> s.parked == {}
    ensures Rank(StopDeparts(s, t)) <= Rank(s)
  {
    WokenSize(s.woken, s.parked);
  }

  lemma DepartRankFalls(s: Slot, e: Event)
    requires Inv(s) && Enabled(s, e) && (e.Leave? || e.Cancel?)
    ensures Rank(Step(s, e)) < Rank(s)
  {
    var t := e.task;
    if e.Leave? {
      DropSize(s.inside, t);
      DepartRank(s.(locked := false, inside := s.inside - {t}), t);
    } else {
      DropSize(s.woken, t);
      DropSize(s.parked, t);
      WithoutMembers(s.queue, t);
      DepartRank(s.(queue := Without(s.queue, t), parked := s.parked - {t}, woken := s.woken - {t}), t);
    }
  }

  lemma RankFalls(s: Slot, e: Event)
    requires Inv(s) && Enabled(s, e) && !e.Arrive?
    ensures Rank(Step(s, e)) < Rank(s)
  {
    if e.ResumeLock? || e.ResumeDrained? {
      ResumeRankFalls(s, e);
    } else {
      DepartRankFalls(s, e);
    }
  }

  predicate Closed(run: seq<Event>) {
    forall i | 0 <= i < |run| :: !run[i].Arrive?
  }

  /**
    Without new arrivals every run is finite, however the scheduler and the
    cancellations interleave; by `SomeoneCanStep` it can only stop once every
    request has gone through or been cancelled. So no stop and no buy starves.
   */
  lemma {:induction false} EveryRequestCompletes(s: Slot, run: seq<Event>)
    requires Inv(s) && Runs(s, run) && Closed(run)
    ensures |run| + Rank(After(s, run)) <= Rank(s)
    ensures |run| <= 7 * |Live(s)|
    ensures (forall e: Event | !e.Arrive? :: !Enabled(After(s, run), e)) ==> Live(After(s, run)) == {}
    decreases |run|
  {
    RankBound(s);
    RankBound(After(s, run));
    if run == [] {
      if Live(s) != {} {
        var e := SomeoneCanStep(s);
      }
    } else {
      var s1 := Step(s, run[0]);
      assert Inv(s1) by { StepKeepsInv(s, run[0]); }
      assert Rank(s1) < Rank(s) by { RankFalls(s, run[0]); }
      assert After(s, run) == After(s1, run[1..]);
      assert Closed(run[1..]);
      EveryRequestCompletes(s1, run[1..]);
    }
  }

  lemma FourSizes(a: set<Task>, b: set<Task>, c: set<Task>, d: set<Task>)
    requires a !! b && a !! c && a !! d && b !! c && b !! d && c !! d
    ensures |a + b + c + d| == |a| + |b| + |c| + |d|
  {
    WokenSize(a, b);
    WokenSize(a + b, c);
    WokenSize(a + b + c, d);
  }

  lemma RankBound(s: Slot)
    ensures 0 <= Rank(s)
    ensures Inv(s) ==> Rank(s) <= 7 * |Live(s)|
  {
    if Inv(s) {
      QueueSize(s.queue);
      FourSizes(Elements(s.queue), s.parked, s.woken, s.inside);
    }
  }

  lemma {:induction false} QueueSize(q: seq<Task>)
    requires Distinct(q)
    ensures |Elements(q)| == |q|
    decreases |q|
  {
    if q != [] {
      PopMembers(q);
      QueueSize(q[1..]);
    }
  }

  // ---- The object ----------------------------------------------------------

  /**
    The fields of `ManualTrading` the slot uses. Each method is one uninterrupted
    segment; together with the lemmas above its `ensures` says that every schedule
    of these segments keeps `Inv` and finishes every request.
   */
  class SlotState {
    var locked: bool
    var queue: seq<Task>
    var inside: set<Task>
    var parked: set<Task>
    var woken: set<Task>
    var pendingStops: int
    var drained: bool
    var kind: map<Task, Kind>

    function View(): Slot
      reads this
    {
      Slot(locked, queue, inside, parked, woken, pendingStops, drained, kind)
    }

    constructor ()
      ensures View() == Idle && Inv(View())
    {
      locked, queue, inside, parked, woken := false, [], {}, {}, {};
      pendingStops, drained, kind := 0, true, map[];
      new;
      IdleInv();
    }

    method Arrive(t: Task, k: Kind)
      requires Inv(View()) && t !in Live(View())
      modifies this
      ensures View() == Step(old(View()), Event.Arrive(t, k)) && Inv(View())
    {
      ghost var before := View();
      kind := kind[t := k];
      if k == Stop {
        pendingStops := pendingStops + 1;
        drained := false;
      }
      Acquire(t);
      StepKeepsInv(before, Event.Arrive(t, k));
    }

    /** `order_lock.acquire()` and, when it succeeds at once, the rest of the segment. */
    method Acquire(t: Task)
      requires t in kind
      modifies this
      ensures View() == TryAcquire(old(View()), t)
    {
      if !locked && queue == [] {
        locked := true;
        EnterOrPark(t);
      } else {
        queue := queue + [t];
      }
    }

    method EnterOrPark(t: Task)
      requires t in kind && locked
      modifies this
      ensures View() == Acquired(old(View()), t)
    {
      if kind[t] != Buy || pendingStops == 0 {
        inside := inside + {t};
        return;
      }
      locked := false;
      if drained {
        woken := woken + {t};
      } else {
        parked := parked + {t};
      }
    }

    method ResumeLock(t: Task)
      requires Inv(View()) && Enabled(View(), Event.ResumeLock(t))
      modifies this
      ensures View() == Step(old(View()), Event.ResumeLock(t)) && Inv(View())
    {
      ghost var before := View();
      queue := queue[1..];
      locked := true;
      EnterOrPark(t);
      StepKeepsInv(before, Event.ResumeLock(t));
    }

    method ResumeDrained(t: Task)
      requires Inv(View()) && Enabled(View(), Event.ResumeDrained(t))
      modifies this
      ensures View() == Step(old(View()), Event.ResumeDrained(t)) && Inv(View())
    {
      ghost var before := View();
      woken := woken - {t};
      Acquire(t);
      StepKeepsInv(before, Event.ResumeDrained(t));
    }

    method FinishStop(t: Task)
      requires t in kind
      modifies this
      ensures View() == StopDeparts(old(View()), t)
    {
      if kind[t] == Stop {
        pendingStops := pendingStops - 1;
        if pendingStops == 0 {
          drained := true;
          woken, parked := woken + parked, {};
        }
      }
    }

    method Leave(t: Task)
      requires Inv(View()) && Enabled(View(), Event.Leave(t))
      modifies this
      ensures View() == Step(old(View()), Event.Leave(t)) && Inv(View())
    {
      ghost var before := View();
      locked, inside := false, inside - {t};
      FinishStop(t);
      StepKeepsInv(before, Event.Leave(t));
    }

    method Cancel(t: Task)
      requires Inv(View()) && Enabled(View(), Event.Cancel(t))
      modifies this
      ensures View() == Step(old(View()), Event.Cancel(t)) && Inv(View())
    {
      ghost var before := View();
      queue := Without(queue, t);
      parked, woken := parked - {t}, woken - {t};
      FinishStop(t);
      StepKeepsInv(before, Event.Cancel(t));
    }
  }
}
