/**
  The host-shared read budget (src/btc15/read_budget.py).

  `Persisted` is what the shared file holds, `Ask` and `Penalty` are the two
  locked regions, and `Event` interleaves any number of client processes with
  file damage. The class performs the same two regions in place and carries the
  retry loop of one client. Time and tokens are exact reals.
 */
module TokenBucket {
  import opened Wrappers

  const READ_RATE := 200.0
  const READ_CAPACITY := 600.0
  const STOP_RESERVE := 30.0
  const LOCK_RETRY := 0.005

  datatype State = State(boot: int, at: real, tokens: real, blockedUntil: real)

  /** `Unreadable` covers a missing, truncated, malformed or non-finite document. */
  datatype Persisted = Unreadable | Stored(state: State)

  function Empty(boot: int, now: real): State {
    State(boot, now, 0.0, 0.0)
  }

  predicate Usable(p: Persisted, boot: int, now: real) {
    && p.Stored?
    && p.state.boot == boot
    && 0.0 <= p.state.at <= now
    && 0.0 <= p.state.tokens <= READ_CAPACITY
  }

  /** The state a client works on once it owns the file lock. */
  function Load(p: Persisted, boot: int, now: real): State {
    if Usable(p, boot, now) then p.state else Empty(boot, now)
  }

  function Min(x: real, y: real): real { if x <= y then x else y }
  function Max(x: real, y: real): real { if x >= y then x else y }

  function Refill(s: State, now: real): State {
    s.(at := now, tokens := Min(READ_CAPACITY, s.tokens + Max(0.0, now - s.at) * READ_RATE))
  }

  function Required(cost: real, stop: bool): real {
    cost + if stop then 0.0 else STOP_RESERVE
  }

  /** One accounting step: the new state and the delay; a zero delay is a grant. */
  function Ask(s: State, cost: real, stop: bool, now: real): (State, real) {
    var r := Refill(s, now);
    var delay := Max(0.0, Max(r.blockedUntil - now, (Required(cost, stop) - r.tokens) / READ_RATE));
    (if delay == 0.0 then r.(tokens := r.tokens - cost) else r, delay)
  }

  function Penalty(s: State, delay: real, now: real): State {
    s.(tokens := 0.0, at := now, blockedUntil := Max(s.blockedUntil, now + delay))
  }

  predicate SupportedCost(cost: real) {
    0.0 < cost <= READ_CAPACITY - STOP_RESERVE
  }

  // ---- Interleaved clients -------------------------------------------------

  datatype Event =
    | Request(cost: real, stop: bool)
    | Backoff(delay: real)
    | LockBusy
    | Damage

  datatype Timed = Timed(at: real, event: Event)

  /** What one event leaves in the file, and the cost it granted. */
  function Step(p: Persisted, boot: int, e: Timed): (Persisted, real) {
    match e.event
    case Request(cost, stop) =>
      var (s, delay) := Ask(Load(p, boot, e.at), cost, stop, e.at);
      (Stored(s), if delay == 0.0 then cost else 0.0)
    case Backoff(delay) => (Stored(Penalty(Load(p, boot, e.at), delay, e.at)), 0.0)
    case LockBusy => (p, 0.0)
    case Damage => (Unreadable, 0.0)
  }

  function After(p: Persisted, boot: int, run: seq<Timed>): Persisted
    decreases |run|
  {
    if run == [] then p else After(Step(p, boot, run[0]).0, boot, run[1..])
  }

  function Granted(p: Persisted, boot: int, run: seq<Timed>): real
    decreases |run|
  {
    if run == [] then 0.0
    else
      var (q, cost) := Step(p, boot, run[0]);
      cost + Granted(q, boot, run[1..])
  }

  /** A monotone clock starting at `from`, and costs that pass the guard of `acquire`. */
  predicate Ordered(run: seq<Timed>, from: real) {
    && (forall i | 0 <= i < |run| :: from <= run[i].at)
    && (forall i, j | 0 <= i <= j < |run| :: run[i].at <= run[j].at)
    && (forall i | 0 <= i < |run| && run[i].event.Request? :: SupportedCost(run[i].event.cost))
  }

  /** Tokens a client asking at `now` would find. */
  function Credit(p: Persisted, boot: int, now: real): real {
    Refill(Load(p, boot, now), now).tokens
  }

  predicate WellFormed(p: Persisted, now: real) {
    p.Stored? ==> p.state.at <= now
  }

  lemma StepBound(p: Persisted, boot: int, e: Timed, from: real)
    requires 0.0 <= from <= e.at && WellFormed(p, from)
    requires e.event.Request? ==> SupportedCost(e.event.cost)
    ensures WellFormed(Step(p, boot, e).0, e.at)
    ensures 0.0 <= Credit(p, boot, from) <= READ_CAPACITY
    ensures 0.0 <= Step(p, boot, e).1
    ensures Step(p, boot, e).1 + Credit(Step(p, boot, e).0, boot, e.at)
         <= Credit(p, boot, from) + READ_RATE * (e.at - from)
  {
  }

  /**
    The window bound: over any interleaving of requests, penalties, busy locks
    and damaged files, the cost granted between `from` and `until`, plus what is
    still in the bucket, is at most the tokens at the start plus rate times length.
   */
  lemma {:induction false} WindowBound(p: Persisted, boot: int, run: seq<Timed>, from: real, until: real)
    requires 0.0 <= from <= until && WellFormed(p, from)
    requires Ordered(run, from)
    requires forall i | 0 <= i < |run| :: run[i].at <= until
    ensures 0.0 <= Credit(After(p, boot, run), boot, until)
    ensures 0.0 <= Granted(p, boot, run)
    ensures Granted(p, boot, run) + Credit(After(p, boot, run), boot, until)
         <= Credit(p, boot, from) + READ_RATE * (until - from)
    ensures Granted(p, boot, run) <= READ_CAPACITY + READ_RATE * (until - from)
    decreases |run|
  {
    if run == [] {
      IdleCredit(p, boot, from, until);
    } else {
      var e := run[0];
      StepBound(p, boot, e, from);
      WindowBound(Step(p, boot, e).0, boot, run[1..], e.at, until);
    }
  }

  lemma IdleCredit(p: Persisted, boot: int, from: real, until: real)
    requires 0.0 <= from <= until && WellFormed(p, from)
    ensures 0.0 <= Credit(p, boot, from) <= READ_CAPACITY
    ensures 0.0 <= Credit(p, boot, until) <= Credit(p, boot, from) + READ_RATE * (until - from)
  {
  }

  /** An ordinary grant leaves the whole stop reserve behind; a stop grant never overdraws. */
  lemma GrantLeavesReserve(p: Persisted, boot: int, cost: real, stop: bool, now: real)
    requires SupportedCost(cost)
    requires Ask(Load(p, boot, now), cost, stop, now).1 == 0.0
    ensures (if stop then 0.0 else STOP_RESERVE)
         <= Ask(Load(p, boot, now), cost, stop, now).0.tokens
         <= READ_CAPACITY - cost
  {
    assert Load(p, boot, now).tokens <= READ_CAPACITY;
  }

  // ---- Penalties -----------------------------------------------------------

  predicate Undamaged(run: seq<Timed>) {
    forall i | 0 <= i < |run| :: !run[i].event.Damage?
  }

  /** Nothing is granted while a stored penalty lasts, whoever asks. */
  lemma {:induction false} BlockedGrantsNothing(p: Persisted, boot: int, run: seq<Timed>, from: real, until: real)
    requires Usable(p, boot, from) && p.state.blockedUntil >= until
    requires Ordered(run, from) && Undamaged(run)
    requires forall i | 0 <= i < |run| :: run[i].at < until
    ensures Granted(p, boot, run) == 0.0
    decreases |run|
  {
    if run != [] {
      var e := run[0];
      var q := Step(p, boot, e).0;
      assert Usable(p, boot, e.at);
      assert e.event.Request? ==> Ask(p.state, e.event.cost, e.event.stop, e.at).1 >= until - e.at > 0.0;
      assert Usable(q, boot, e.at) && q.state.blockedUntil >= until;
      BlockedGrantsNothing(q, boot, run[1..], e.at, until);
    }
  }

  /** A 429 penalty of `delay` starting at `now` blocks every client until it is over. */
  lemma PenaltyHolds(p: Persisted, boot: int, delay: real, now: real, run: seq<Timed>)
    requires 0.0 <= now && Ordered(run, now) && Undamaged(run)
    requires forall i | 0 <= i < |run| :: run[i].at < now + delay
    ensures Granted(Step(p, boot, Timed(now, Backoff(delay))).0, boot, run) == 0.0
  {
    BlockedGrantsNothing(Step(p, boot, Timed(now, Backoff(delay))).0, boot, run, now, now + delay);
  }

  /** A damaged file forgets the penalty: refill then serves a request well inside it. */
  lemma DamageForgetsPenalty()
    ensures var run := [Timed(0.0, Damage), Timed(0.0, Request(10.0, false)), Timed(1.0, Request(10.0, false))];
            && Ordered(run, 0.0)
            && Granted(Step(Unreadable, 1, Timed(0.0, Backoff(60.0))).0, 1, run) == 10.0
  {
    var run := [Timed(0.0, Damage), Timed(0.0, Request(10.0, false)), Timed(1.0, Request(10.0, false))];
    var p := Step(Unreadable, 1, Timed(0.0, Backoff(60.0))).0;
    var q0 := Step(p, 1, run[0]).0;
    var q1 := Step(q0, 1, run[1]).0;
    assert run[1..][1..] == [run[2]] && run[1..][1..][1..] == [];
    assert Step(q0, 1, run[1]).1 == 0.0;
    assert q1 == Stored(State(1, 0.0, 0.0, 0.0));
    assert Refill(q1.state, 1.0).tokens == 200.0;
    assert Step(q1, 1, run[2]).1 == 10.0;
    assert Granted(q1, 1, [run[2]]) == 10.0;
    assert Granted(q0, 1, run[1..]) == 10.0;
  }

  /** Requests and busy locks only, none of them granted. */
  predicate Waits(p: Persisted, boot: int, run: seq<Timed>) {
    && (forall i | 0 <= i < |run| :: run[i].event.Request? || run[i].event.LockBusy?)
    && Granted(p, boot, run) == 0.0
  }

  /** Refilled since `from` without any grant or penalty. */
  predicate FilledSince(p: Persisted, boot: int, from: real) {
    && p.Stored? && p.state.boot == boot && 0.0 <= from <= p.state.at
    && p.state.blockedUntil == 0.0
    && p.state.tokens == Min(READ_CAPACITY, READ_RATE * (p.state.at - from))
  }

  lemma WaitingStep(p: Persisted, boot: int, from: real, e: Timed)
    requires FilledSince(p, boot, from) && p.state.at <= e.at
    requires e.event.LockBusy? || (e.event.Request? && SupportedCost(e.event.cost))
    ensures Step(p, boot, e).1 >= 0.0
    ensures Step(p, boot, e).1 == 0.0 ==> FilledSince(Step(p, boot, e).0, boot, from) && Step(p, boot, e).0.state.at <= e.at
    ensures e.event.Request? ==>
              (Step(p, boot, e).1 == e.event.cost <==> READ_RATE * (e.at - from) >= Required(e.event.cost, e.event.stop))
  {
    assert Usable(p, boot, e.at);
  }

  lemma {:induction false} GrantedIsNonnegative(p: Persisted, boot: int, run: seq<Timed>, from: real)
    requires 0.0 <= from && WellFormed(p, from) && Ordered(run, from)
    ensures Granted(p, boot, run) >= 0.0
    decreases |run|
  {
    if run != [] {
      StepBound(p, boot, run[0], from);
      GrantedIsNonnegative(Step(p, boot, run[0]).0, boot, run[1..], run[0].at);
    }
  }

  /** Refused clients leave the refill running. */
  lemma {:induction false} WaitingOnlyRefills(p: Persisted, boot: int, from: real, run: seq<Timed>, last: real)
    requires FilledSince(p, boot, from) && Ordered(run, p.state.at) && Waits(p, boot, run)
    requires p.state.at <= last && forall i | 0 <= i < |run| :: run[i].at <= last
    ensures FilledSince(After(p, boot, run), boot, from) && After(p, boot, run).state.at <= last
    decreases |run|
  {
    if run != [] {
      var q := Step(p, boot, run[0]).0;
      WaitingStep(p, boot, from, run[0]);
      GrantedIsNonnegative(q, boot, run[1..], run[0].at);
      WaitingOnlyRefills(q, boot, from, run[1..], last);
    }
  }

  /** The first client to touch a damaged file finds nothing and leaves an empty bucket. */
  lemma FirstTouch(boot: int, touch: Timed)
    requires touch.event.Request? && SupportedCost(touch.event.cost)
    ensures Step(Unreadable, boot, touch).0 == Stored(Empty(boot, touch.at))
  {
    assert Required(touch.event.cost, touch.event.stop) > 0.0;
  }

  lemma {:induction false} AfterBoth(p: Persisted, boot: int, first: seq<Timed>, second: seq<Timed>)
    ensures After(p, boot, first + second) == After(After(p, boot, first), boot, second)
    decreases |first|
  {
    if first == [] {
      assert first + second == second;
    } else {
      assert (first + second)[1..] == first[1..] + second;
      AfterBoth(Step(p, boot, first[0]).0, boot, first[1..], second);
    }
  }

  lemma AfterOne(p: Persisted, boot: int, e: Timed)
    ensures After(p, boot, [e]) == Step(p, boot, e).0
  {
    assert [e][1..] == [];
    assert After(Step(p, boot, e).0, boot, []) == Step(p, boot, e).0;
  }

  lemma DamageRestarts(p: Persisted, boot: int, touch: Timed)
    requires touch.event.Request? && SupportedCost(touch.event.cost)
    ensures After(p, boot, [Timed(touch.at, Damage), touch]) == Stored(Empty(boot, touch.at))
  {
    var damage := Timed(touch.at, Damage);
    AfterBoth(p, boot, [damage], [touch]);
    assert [damage] + [touch] == [damage, touch];
    AfterOne(p, boot, damage);
    assert Step(p, boot, damage).0 == Unreadable;
    AfterOne(Unreadable, boot, touch);
    FirstTouch(boot, touch);
  }

  /**
    Exactly when a damaged file breaks a penalty: the first client to touch the file restarts
    the bucket empty, and the first grant after that is to whoever asks once the refill since
    that touch covers what it requires, however much of the penalty is left.
   */
  lemma DamagedPenaltyGrantsIff(p: Persisted, boot: int, touch: Timed, waiting: seq<Timed>, ask: Timed)
    requires touch.event.Request? && SupportedCost(touch.event.cost) && 0.0 <= touch.at
    requires ask.event.Request? && SupportedCost(ask.event.cost) && touch.at <= ask.at
    requires Ordered(waiting, touch.at) && forall i | 0 <= i < |waiting| :: waiting[i].at <= ask.at
    requires Waits(After(p, boot, [Timed(touch.at, Damage), touch]), boot, waiting)
    ensures Step(After(p, boot, [Timed(touch.at, Damage), touch] + waiting), boot, ask).1 == ask.event.cost
       <==> READ_RATE * (ask.at - touch.at) >= Required(ask.event.cost, ask.event.stop)
  {
    var q := Stored(Empty(boot, touch.at));
    DamageRestarts(p, boot, touch);
    AfterBoth(p, boot, [Timed(touch.at, Damage), touch], waiting);
    WaitingOnlyRefills(q, boot, touch.at, waiting, ask.at);
    WaitingStep(After(q, boot, waiting), boot, touch.at, ask);
  }

  // ---- Progress ------------------------------------------------------------

  /**
    Undisturbed, a refused request succeeds at its first retry after the computed
    delay exactly when the bucket can ever hold what it requires. Both halves
    need the guard: above it no wait is long enough.
   */
  lemma FirstRetrySucceeds(s: State, cost: real, stop: bool, now: real, later: real)
    requires 0.0 <= s.tokens <= READ_CAPACITY && s.at <= now
    requires Ask(s, cost, stop, now).1 > 0.0
    requires later >= now + Ask(s, cost, stop, now).1
    ensures Ask(Ask(s, cost, stop, now).0, cost, stop, later).1 == 0.0 <==> Required(cost, stop) <= READ_CAPACITY
  {
    var (r, delay) := Ask(s, cost, stop, now);
    assert r.at == now && 0.0 <= r.tokens <= READ_CAPACITY;
    assert (later - now) * READ_RATE >= Required(cost, stop) - r.tokens;
  }

  // ---- The client object ---------------------------------------------------

  class ReadBudget {
    const bootId: int
    var file: Persisted

    constructor (bootId: int, found: Persisted)
      ensures this.bootId == bootId && file == found
    {
      this.bootId := bootId;
      file := found;
    }

    /** `contended` is the other process holding the short file lock. */
    method Delay(cost: real, stop: bool, now: real, contended: bool) returns (delay: real)
      modifies this
      ensures contended ==> delay == LOCK_RETRY && file == old(file)
      ensures !contended ==> (file.Stored? && (file.state, delay) == Ask(Load(old(file), bootId, now), cost, stop, now))
      ensures file == Step(old(file), bootId, Timed(now, if contended then LockBusy else Request(cost, stop))).0
    {
      if contended {
        return LOCK_RETRY;
      }
      var state := Load(file, bootId, now);
      state := state.(tokens := Min(READ_CAPACITY, state.tokens + Max(0.0, now - state.at) * READ_RATE));
      state := state.(at := now);
      var required := cost + if stop then 0.0 else STOP_RESERVE;
      delay := Max(0.0, Max(state.blockedUntil - now, (required - state.tokens) / READ_RATE));
      if delay == 0.0 {
        state := state.(tokens := state.tokens - cost);
      }
      file := Stored(state);
    }

    /** The loop of `penalize`: `busy` attempts find the lock held before one succeeds. */
    method Penalize(delay: real, now: real, busy: nat) returns (at: real)
      modifies this
      ensures at == now + LOCK_RETRY * busy as real
      ensures file == Step(old(file), bootId, Timed(at, Backoff(delay))).0
    {
      at := now;
      var tries := 0;
      while tries < busy
        invariant 0 <= tries <= busy && at == now + LOCK_RETRY * tries as real
        invariant file == old(file)
      {
        at := at + LOCK_RETRY;
        tries := tries + 1;
      }
      var state := Load(file, bootId, at);
      file := Stored(state.(tokens := 0.0, at := at, blockedUntil := Max(state.blockedUntil, at + delay)));
    }

    /**
      The retry loop of `acquire` with nobody else using the bucket and each sleep
      overrunning by `overrun`: it raises exactly on an unsupported cost and
      otherwise sleeps at most once.
     */
    method Acquire(cost: real, stop: bool, now: real, overrun: real) returns (granted: Result<real, string>)
      requires 0.0 <= overrun && 0.0 <= now
      modifies this
      ensures granted.Raised? <==> !SupportedCost(cost)
      ensures granted.Raised? ==> file == old(file)
      ensures granted.Ok? ==>
                var first := Ask(Load(old(file), bootId, now), cost, stop, now);
                && granted.value == now + (if first.1 == 0.0 then 0.0 else first.1 + overrun)
                && file == Stored(if first.1 == 0.0 then first.0 else Ask(first.0, cost, stop, granted.value).0)
                && (if stop then 0.0 else STOP_RESERVE) <= file.state.tokens
    {
      if !(0.0 < cost <= READ_CAPACITY - STOP_RESERVE) {
        return Raised("Unsupported read cost");
      }
      var at := now;
      ghost var start := Load(file, bootId, now);
      ghost var first := Ask(start, cost, stop, now);
      ghost var slept := false;
      var delay := Delay(cost, stop, at, false);
      while delay != 0.0
        invariant delay >= 0.0 && file.Stored?
        invariant !slept ==> at == now && file == Stored(first.0) && delay == first.1
        invariant slept ==> first.1 > 0.0 && delay == 0.0 && at == now + first.1 + overrun
        invariant slept ==> file == Stored(Ask(first.0, cost, stop, at).0)
        invariant delay == 0.0 ==> (if stop then 0.0 else STOP_RESERVE) <= file.state.tokens
        decreases if slept then 0 else 1
      {
        at := at + delay + overrun;
        FirstRetrySucceeds(start, cost, stop, now, at);
        assert Usable(file, bootId, at);
        slept := true;
        delay := Delay(cost, stop, at, false);
      }
      return Ok(at);
    }
  }
}
