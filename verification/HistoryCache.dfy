/**
  The revision-keyed history cache: the four journal triggers of
  src/btc15/order_history.py and `LiveFallbackStore.fallback` in
  src/btc15/live_fallback.py. Tickers are ASCII strings; the JSON fields of a row
  are one text for those the history projection uses and one for the rest.
 */
module HistoryCache {
  import opened Wrappers

  /** A row of `manual_orders` in rowid order. `ticker` is None when the JSON has none. */
  datatype Row = Row(id: string, ticker: Option<string>, history: string, diagnostics: string)

  datatype Journal = Journal(rows: seq<Row>, revisions: map<string, nat>)

  // ---- Prefixes ------------------------------------------------------------

  function Upper(s: string): string {
    seq(|s|, i requires 0 <= i < |s| => if 'a' <= s[i] <= 'z' then s[i] - 'a' + 'A' else s[i])
  }

  /** Characters before the first dash; none when there is no dash (SQLite's substr of length -1). */
  function BeforeDash(s: string): string {
    if '-' !in s then "" else if s[0] == '-' then "" else [s[0]] + BeforeDash(s[1..])
  }

  function Prefix(r: Row): Option<string> {
    if r.ticker.None? then None else Some(Upper(BeforeDash(r.ticker.value)))
  }

  /** `ticker LIKE series || '-%'`, which ignores ASCII case. */
  predicate Like(ticker: string, series: string) {
    |ticker| > |series| && Upper(ticker[..|series|]) == Upper(series) && ticker[|series|] == '-'
  }

  lemma {:induction false} BeforeDashIsFirst(s: string, n: nat)
    requires n < |s| && s[n] == '-' && '-' !in s[..n]
    ensures BeforeDash(s) == s[..n]
    decreases n
  {
    assert '-' in s;
    if n > 0 {
      assert s[0] in s[..n];
      assert s[1..][..n - 1] == s[..n][1..];
      assert forall c | c in s[1..][..n - 1] :: c in s[..n];
      BeforeDashIsFirst(s[1..], n - 1);
      assert s[..n] == [s[0]] + s[1..][..n - 1];
    }
  }

  lemma {:induction false} BeforeDashStops(s: string) returns (n: nat)
    requires '-' in s
    ensures n < |s| && s[n] == '-' && '-' !in s[..n] && BeforeDash(s) == s[..n]
    decreases |s|
  {
    if s[0] == '-' {
      n := 0;
    } else {
      assert s == [s[0]] + s[1..];
      var m := BeforeDashStops(s[1..]);
      n := m + 1;
      assert s[..n] == [s[0]] + s[1..][..m];
    }
  }

  lemma UpperKeepsDashes(s: string)
    ensures '-' in s <==> '-' in Upper(s)
  {
    if '-' in s {
      var i :| 0 <= i < |s| && s[i] == '-';
      assert Upper(s)[i] == '-';
    }
    if '-' in Upper(s) {
      var i :| 0 <= i < |s| && Upper(s)[i] == '-';
      assert s[i] == '-';
    }
  }

  /**
    The trigger's prefix and the reader's LIKE pattern select the same rows, for
    every nonempty series written in capitals without a dash.
   */
  lemma PrefixSelectsLikeReader(r: Row, series: string)
    requires r.ticker.Some? && series != "" && '-' !in series && Upper(series) == series
    ensures Prefix(r) == Some(series) <==> Like(r.ticker.value, series)
  {
    var t := r.ticker.value;
    if Like(t, series) {
      UpperKeepsDashes(t[..|series|]);
      BeforeDashIsFirst(t, |series|);
    }
    if Prefix(r) == Some(series) {
      if '-' in t {
        var n := BeforeDashStops(t);
        assert n == |Upper(t[..n])| == |series|;
      }
    }
  }

  // ---- Triggers ------------------------------------------------------------

  function Revision(j: Journal, p: string): nat {
    if p in j.revisions then j.revisions[p] else 0
  }

  function Bump(revisions: map<string, nat>, p: Option<string>, condition: bool): map<string, nat> {
    if p.None? || !condition then revisions
    else revisions[p.value := (if p.value in revisions then revisions[p.value] else 0) + 1]
  }

  datatype Write =
    | Insert(row: Row)
    | Replace(row: Row)
    | Update(index: nat, row: Row)
    | Delete(index: nat)

  function Find(rows: seq<Row>, id: string): Option<nat> {
    if rows == [] then None
    else if rows[0].id == id then Some(0)
    else match Find(rows[1..], id) case None => None case Some(n) => Some(n + 1)
  }

  predicate Relevant(o: Row, n: Row) {
    o.id != n.id || o.ticker != n.ticker || o.history != n.history
  }

  /** A statement that can be executed: an insert of a new key, an update or delete of a stored row. */
  predicate Executable(j: Journal, w: Write) {
    match w
    case Insert(row) => Find(j.rows, row.id).None?
    case Replace(_) => true
    case Update(i, row) => i < |j.rows| && row.id == j.rows[i].id
    case Delete(i) => i < |j.rows|
  }

  /** REPLACE removes the prior row without its delete trigger and appends the new one. */
  function Put(j: Journal, row: Row): Journal {
    var found := Find(j.rows, row.id);
    if found.None? || found.value >= |j.rows| then
      Journal(j.rows + [row], Bump(j.revisions, Prefix(row), true))
    else
      var prior := j.rows[found.value];
      var before := Bump(j.revisions, Prefix(prior), Prefix(prior) != Prefix(row));
      Journal(j.rows[..found.value] + j.rows[found.value + 1..] + [row], Bump(before, Prefix(row), true))
  }

  function Apply(j: Journal, w: Write): Journal
    requires Executable(j, w)
  {
    match w
    case Insert(row) => Put(j, row)
    case Replace(row) => Put(j, row)
    case Update(i, row) =>
      var prior := j.rows[i];
      var bumped := if Relevant(prior, row)
                    then Bump(Bump(j.revisions, Prefix(prior), true), Prefix(row), Prefix(row) != Prefix(prior))
                    else j.revisions;
      Journal(j.rows[i := row], bumped)
    case Delete(i) => Journal(j.rows[..i] + j.rows[i + 1..], Bump(j.revisions, Prefix(j.rows[i]), true))
  }

  // ---- The projection the cache stands for ---------------------------------

  datatype Entry = Entry(id: string, ticker: Option<string>, history: string)

  /** What `_fallback` reads of a series: the relevant fields of its rows, in rowid order. */
  function History(rows: seq<Row>, p: string): seq<Entry> {
    if rows == [] then []
    else
      var last := rows[|rows| - 1];
      History(rows[..|rows| - 1], p) + if Prefix(last) == Some(p) then [Entry(last.id, last.ticker, last.history)] else []
  }

  lemma {:induction false} HistoryConcat(a: seq<Row>, b: seq<Row>, p: string)
    ensures History(a + b, p) == History(a, p) + History(b, p)
    decreases |b|
  {
    if b == [] {
      assert a + b == a;
    } else {
      assert (a + b)[..|a + b| - 1] == a + b[..|b| - 1];
      HistoryConcat(a, b[..|b| - 1], p);
    }
  }

  lemma HistoryOfOne(r: Row, p: string)
    ensures History([r], p) == if Prefix(r) == Some(p) then [Entry(r.id, r.ticker, r.history)] else []
  {
    assert [r][..0] == [];
  }

  lemma HistoryAround(a: seq<Row>, r: Row, b: seq<Row>, p: string)
    ensures History(a + [r] + b, p) == History(a, p) + History([r], p) + History(b, p)
  {
    HistoryConcat(a + [r], b, p);
    HistoryConcat(a, [r], p);
  }

  /** Keeping the rows around one statement's row keeps the history unless that row is in the series. */
  lemma SameAround(a: seq<Row>, r: Row, b: seq<Row>, p: string)
    requires Prefix(r) != Some(p)
    ensures History(a + [r] + b, p) == History(a + b, p)
  {
    HistoryAround(a, r, b, p);
    HistoryOfOne(r, p);
    HistoryConcat(a, b, p);
    assert History(a, p) + [] == History(a, p);
  }

  lemma RevisionsOnlyRise(j: Journal, w: Write, p: string)
    requires Executable(j, w)
    ensures Revision(Apply(j, w), p) >= Revision(j, p)
  {
  }

  lemma PutKeepsHistory(j: Journal, row: Row, p: string)
    requires Revision(Put(j, row), p) == Revision(j, p)
    ensures History(Put(j, row).rows, p) == History(j.rows, p)
  {
    assert Prefix(row) != Some(p);
    var found := Find(j.rows, row.id);
    if found.None? || found.value >= |j.rows| {
      assert j.rows + [row] == j.rows + [row] + [] && j.rows + [] == j.rows;
      SameAround(j.rows, row, [], p);
    } else {
      var i := found.value;
      var a, prior, b := j.rows[..i], j.rows[i], j.rows[i + 1..];
      assert Prefix(prior) != Some(p);
      assert j.rows == a + [prior] + b;
      SameAround(a, prior, b, p);
      assert a + b + [row] == a + b + [row] + [] && a + b + [] == a + b;
      SameAround(a + b, row, [], p);
    }
  }

  lemma UpdateKeepsHistory(j: Journal, i: nat, row: Row, p: string)
    requires Executable(j, Update(i, row)) && Revision(Apply(j, Update(i, row)), p) == Revision(j, p)
    ensures History(j.rows[i := row], p) == History(j.rows, p)
  {
    var a, prior, b := j.rows[..i], j.rows[i], j.rows[i + 1..];
    assert j.rows == a + [prior] + b && j.rows[i := row] == a + [row] + b;
    if Relevant(prior, row) {
      assert Prefix(prior) != Some(p);
      assert Prefix(row) != Some(p);
      SameAround(a, prior, b, p);
      SameAround(a, row, b, p);
    } else {
      HistoryAround(a, prior, b, p);
      HistoryAround(a, row, b, p);
      HistoryOfOne(prior, p);
      HistoryOfOne(row, p);
    }
  }

  /** One statement: revisions never fall, and an unchanged revision means unchanged history. */
  lemma WriteBumpsHistory(j: Journal, w: Write, p: string)
    requires Executable(j, w)
    ensures Revision(Apply(j, w), p) >= Revision(j, p)
    ensures Revision(Apply(j, w), p) == Revision(j, p) ==> History(Apply(j, w).rows, p) == History(j.rows, p)
  {
    RevisionsOnlyRise(j, w, p);
    if Revision(Apply(j, w), p) == Revision(j, p) {
      match w
      case Insert(row) => PutKeepsHistory(j, row, p);
      case Replace(row) => PutKeepsHistory(j, row, p);
      case Update(i, row) => UpdateKeepsHistory(j, i, row, p);
      case Delete(i) =>
        assert Prefix(j.rows[i]) != Some(p);
        assert j.rows == j.rows[..i] + [j.rows[i]] + j.rows[i + 1..];
        SameAround(j.rows[..i], j.rows[i], j.rows[i + 1..], p);
    }
  }

  predicate Executes(j: Journal, writes: seq<Write>)
    decreases |writes|
  {
    writes == [] || (Executable(j, writes[0]) && Executes(Apply(j, writes[0]), writes[1..]))
  }

  function AfterWrites(j: Journal, writes: seq<Write>): Journal
    requires Executes(j, writes)
    decreases |writes|
  {
    if writes == [] then j else AfterWrites(Apply(j, writes[0]), writes[1..])
  }

  /**
    For any sequence of inserts, replacements, updates and deletes: an equal
    revision of a series means equal history-relevant rows, order included.
   */
  lemma {:induction false} EqualRevisionMeansEqualHistory(j: Journal, writes: seq<Write>, p: string)
    requires Executes(j, writes)
    ensures Revision(AfterWrites(j, writes), p) >= Revision(j, p)
    ensures Revision(AfterWrites(j, writes), p) == Revision(j, p) ==>
              History(AfterWrites(j, writes).rows, p) == History(j.rows, p)
    decreases |writes|
  {
    if writes != [] {
      WriteBumpsHistory(j, writes[0], p);
      EqualRevisionMeansEqualHistory(Apply(j, writes[0]), writes[1..], p);
    }
  }

  /** A diagnostic update alone keeps the revision, so it costs no recomputation. */
  lemma DiagnosticsKeepRevision(j: Journal, i: nat, text: string, p: string)
    requires i < |j.rows|
    ensures Revision(Apply(j, Update(i, j.rows[i].(diagnostics := text))), p) == Revision(j, p)
  {
  }

  // ---- Concurrent callers --------------------------------------------------

  /** An execution context: a thread or task with its own context variables. */
  type Caller = nat

  datatype Cached = Cached(revision: nat, entries: seq<Entry>)

  /** A call that has read the revision of `past[began]`; `opens` if it is the one `history_snapshot` makes. */
  datatype Call = Call(began: nat, revision: nat, opens: bool)

  /** The history a context's snapshots froze, the journal its outermost one began at, and how many are open. */
  datatype Frozen = Frozen(began: nat, entries: seq<Entry>, depth: nat)

  /** Writers, callers and the cache of one series. `past` lists every committed journal so far. */
  datatype World = World(past: seq<Journal>, cache: Option<Cached>, calls: map<Caller, Call>, frozen: map<Caller, Frozen>)

  datatype Event =
    | Committed(write: Write)
    | ReadRevision(caller: Caller, opens: bool)
    | ReturnFallback(caller: Caller)
    | ReturnFrozen(caller: Caller)               // `fallback` inside a snapshot
    | OpenNested(caller: Caller)                 // `history_snapshot` inside a snapshot
    | CloseSnapshot(caller: Caller)

  function Start(j: Journal): World {
    World([j], None, map[], map[])
  }

  function Now(w: World): Journal
    requires w.past != []
  {
    w.past[|w.past| - 1]
  }

  predicate Possible(w: World, e: Event)
    requires w.past != []
  {
    match e
    case Committed(write) => Executable(Now(w), write)
    case ReadRevision(c, _) => c !in w.calls && c !in w.frozen
    case ReturnFallback(c) => c in w.calls
    case ReturnFrozen(c) => c in w.frozen
    case OpenNested(c) => c in w.frozen
    case CloseSnapshot(c) => c in w.frozen
  }

  /** The locked region of `fallback`: recompute from the current journal unless the key matches. */
  function Refreshed(w: World, p: string, revision: nat): Cached
    requires w.past != []
  {
    if w.cache.None? || w.cache.value.revision != revision then Cached(revision, History(Now(w).rows, p)) else w.cache.value
  }

  /** What the event hands its caller as the history, if it is a call's return. */
  function Returned(w: World, p: string, e: Event): Option<seq<Entry>>
    requires w.past != [] && Possible(w, e)
  {
    match e
    case ReturnFallback(c) => Some(Refreshed(w, p, w.calls[c].revision).entries)
    case ReturnFrozen(c) => Some(w.frozen[c].entries)
    case _ => None
  }

  function Step(w: World, p: string, e: Event): World
    requires w.past != [] && Possible(w, e)
  {
    match e
    case Committed(write) => w.(past := w.past + [Apply(Now(w), write)])
    case ReadRevision(c, opens) => w.(calls := w.calls[c := Call(|w.past| - 1, Revision(Now(w), p), opens)])
    case ReturnFallback(c) =>
      var call, latest := w.calls[c], Refreshed(w, p, w.calls[c].revision);
      w.(cache := Some(latest), calls := w.calls - {c},
         frozen := if call.opens then w.frozen[c := Frozen(call.began, latest.entries, 1)] else w.frozen)
    case ReturnFrozen(_) => w
    case OpenNested(c) => w.(frozen := w.frozen[c := w.frozen[c].(depth := w.frozen[c].depth + 1)])
    case CloseSnapshot(c) =>
      if w.frozen[c].depth <= 1 then w.(frozen := w.frozen - {c})
      else w.(frozen := w.frozen[c := w.frozen[c].(depth := w.frozen[c].depth - 1)])
  }

  ghost predicate HistoryOrdered(past: seq<Journal>, p: string) {
    forall i, k | 0 <= i <= k < |past| ::
      && Revision(past[i], p) <= Revision(past[k], p)
      && (Revision(past[i], p) == Revision(past[k], p) ==> History(past[i].rows, p) == History(past[k].rows, p))
  }

  ghost predicate TakenAt(w: World, p: string, k: int)
    requires w.cache.Some?
  {
    && 0 <= k < |w.past|
    && w.cache.value.entries == History(w.past[k].rows, p)
    && w.cache.value.revision <= Revision(w.past[k], p)
  }

  /** The history of some journal committed at or after `past[began]`. */
  ghost predicate Current(past: seq<Journal>, p: string, began: int, entries: seq<Entry>) {
    exists k :: 0 <= began <= k < |past| && entries == History(past[k].rows, p)
  }

  ghost predicate CacheOk(w: World, p: string) {
    w.cache.Some? ==> exists k :: TakenAt(w, p, k)
  }

  ghost predicate CallsOk(w: World, p: string) {
    forall c | c in w.calls :: w.calls[c].began < |w.past| && w.calls[c].revision == Revision(w.past[w.calls[c].began], p)
  }

  ghost predicate FrozenOk(w: World, p: string) {
    forall c | c in w.frozen :: Current(w.past, p, w.frozen[c].began, w.frozen[c].entries)
  }

  ghost predicate Inv(w: World, p: string) {
    w.past != [] && HistoryOrdered(w.past, p) && CacheOk(w, p) && CallsOk(w, p) && FrozenOk(w, p) && Apart(w)
  }

  /** Inside a snapshot no call reads the journal. */
  predicate Apart(w: World) {
    forall c | c in w.calls :: c !in w.frozen
  }

  lemma StepKeepsApart(w: World, p: string, e: Event)
    requires w.past != [] && Possible(w, e) && Apart(w)
    ensures Apart(Step(w, p, e))
  {
  }

  lemma CommitKeepsOrder(past: seq<Journal>, p: string, write: Write)
    requires past != [] && HistoryOrdered(past, p) && Executable(past[|past| - 1], write)
    ensures HistoryOrdered(past + [Apply(past[|past| - 1], write)], p)
  {
    WriteBumpsHistory(past[|past| - 1], write, p);
  }

  lemma StaysCurrent(past: seq<Journal>, p: string, began: int, entries: seq<Entry>, j: Journal)
    requires Current(past, p, began, entries)
    ensures Current(past + [j], p, began, entries)
  {
    var k :| 0 <= began <= k < |past| && entries == History(past[k].rows, p);
    assert (past + [j])[k] == past[k];
  }

  lemma CommitKeepsFrozen(w: World, p: string, write: Write)
    requires Inv(w, p) && Possible(w, Committed(write))
    ensures FrozenOk(Step(w, p, Committed(write)), p)
  {
    forall c | c in w.frozen ensures Current(w.past + [Apply(Now(w), write)], p, w.frozen[c].began, w.frozen[c].entries) {
      StaysCurrent(w.past, p, w.frozen[c].began, w.frozen[c].entries, Apply(Now(w), write));
    }
  }

  lemma CommitKeepsCache(w: World, p: string, write: Write)
    requires Inv(w, p) && Possible(w, Committed(write))
    ensures CacheOk(Step(w, p, Committed(write)), p)
  {
    if w.cache.Some? {
      var k :| TakenAt(w, p, k);
      assert TakenAt(Step(w, p, Committed(write)), p, k);
    }
  }

  lemma CommitKeeps(w: World, p: string, write: Write)
    requires Inv(w, p) && Possible(w, Committed(write))
    ensures Inv(Step(w, p, Committed(write)), p)
  {
    CommitKeepsOrder(w.past, p, write);
    CommitKeepsCache(w, p, write);
    CommitKeepsFrozen(w, p, write);
  }

  lemma SameCacheOk(w: World, w': World, p: string)
    requires CacheOk(w, p) && w'.past == w.past && w'.cache == w.cache
    ensures CacheOk(w', p)
  {
    if w.cache.Some? {
      var k :| TakenAt(w, p, k);
      assert TakenAt(w', p, k);
    }
  }

  /**
    What a call outside any snapshot returns is the history of some journal committed at or
    after the moment the call began: a hit can only skip recomputation when nothing relevant
    happened since.
   */
  lemma NeverOlderThanCallStart(w: World, p: string, c: Caller)
    requires Inv(w, p) && c in w.calls
    ensures Current(w.past, p, w.calls[c].began, Refreshed(w, p, w.calls[c].revision).entries)
  {
    var began, revision := w.calls[c].began, w.calls[c].revision;
    if Refreshed(w, p, revision) == Cached(revision, History(Now(w).rows, p)) {
      assert Refreshed(w, p, revision).entries == History(w.past[|w.past| - 1].rows, p);
    } else {
      var k :| TakenAt(w, p, k);
      if k < began {
        assert Revision(w.past[k], p) == Revision(w.past[began], p);
        assert Refreshed(w, p, revision).entries == History(w.past[began].rows, p);
      }
    }
  }

  lemma RefreshedIsTaken(w: World, w': World, p: string, revision: nat, began: nat)
    requires Inv(w, p) && began < |w.past| && revision == Revision(w.past[began], p)
    requires w'.past == w.past && w'.cache == Some(Refreshed(w, p, revision))
    ensures CacheOk(w', p)
  {
    if w'.cache == w.cache {
      SameCacheOk(w, w', p);
    } else {
      assert Revision(w.past[began], p) <= Revision(Now(w), p);
      assert TakenAt(w', p, |w.past| - 1);
    }
  }

  lemma ReturnKeeps(w: World, p: string, c: Caller)
    requires Inv(w, p) && Possible(w, ReturnFallback(c))
    ensures Inv(Step(w, p, ReturnFallback(c)), p)
  {
    var w' := Step(w, p, ReturnFallback(c));
    RefreshedIsTaken(w, w', p, w.calls[c].revision, w.calls[c].began);
    NeverOlderThanCallStart(w, p, c);
    assert FrozenOk(w', p);
    StepKeepsApart(w, p, ReturnFallback(c));
  }

  lemma OthersKeep(w: World, p: string, e: Event)
    requires Inv(w, p) && Possible(w, e) && !e.Committed? && !e.ReturnFallback?
    ensures Inv(Step(w, p, e), p)
  {
    SameCacheOk(w, Step(w, p, e), p);
    StepKeepsApart(w, p, e);
    assert CallsOk(Step(w, p, e), p);
    assert FrozenOk(Step(w, p, e), p);
  }

  lemma StepKeeps(w: World, p: string, e: Event)
    requires Inv(w, p) && Possible(w, e)
    ensures Inv(Step(w, p, e), p)
  {
    if e.Committed? {
      CommitKeeps(w, p, e.write);
    } else if e.ReturnFallback? {
      ReturnKeeps(w, p, e.caller);
    } else {
      OthersKeep(w, p, e);
    }
  }

  predicate Runs(w: World, p: string, run: seq<Event>)
    requires w.past != []
    decreases |run|
  {
    run == [] || (Possible(w, run[0]) && Runs(Step(w, p, run[0]), p, run[1..]))
  }

  function After(w: World, p: string, run: seq<Event>): (w': World)
    requires w.past != [] && Runs(w, p, run)
    ensures w'.past != []
    decreases |run|
  {
    if run == [] then w else After(Step(w, p, run[0]), p, run[1..])
  }

  lemma {:induction false} EveryRunKeepsInv(w: World, p: string, run: seq<Event>)
    requires Inv(w, p) && Runs(w, p, run)
    ensures Inv(After(w, p, run), p)
    decreases |run|
  {
    if run != [] {
      StepKeeps(w, p, run[0]);
      EveryRunKeepsInv(Step(w, p, run[0]), p, run[1..]);
    }
  }

  /** The moment a returned history must not be older than: the call's start, or inside a snapshot the snapshot's. */
  function Since(w: World, e: Event): nat
    requires w.past != [] && Possible(w, e) && (e.ReturnFallback? || e.ReturnFrozen?)
  {
    if e.ReturnFallback? then w.calls[e.caller].began else w.frozen[e.caller].began
  }

  /**
    From an empty cache, over every run of writers, callers and snapshots: whatever a call
    returns next is the history of a journal committed at or after the call's start, or, inside
    a snapshot, at or after the start of the outermost snapshot of its context.
   */
  lemma EveryFallbackIsCurrent(j: Journal, p: string, run: seq<Event>, e: Event)
    requires Runs(Start(j), p, run)
    requires Possible(After(Start(j), p, run), e) && (e.ReturnFallback? || e.ReturnFrozen?)
    ensures var w := After(Start(j), p, run);
            Returned(w, p, e).Some? && Current(w.past, p, Since(w, e), Returned(w, p, e).value)
  {
    EveryRunKeepsInv(Start(j), p, run);
    if e.ReturnFallback? {
      NeverOlderThanCallStart(After(Start(j), p, run), p, e.caller);
    }
  }

  /** The context's outermost snapshot stays open over the whole run. */
  predicate StaysOpen(w: World, p: string, run: seq<Event>, c: Caller)
    requires w.past != [] && Runs(w, p, run)
    decreases |run|
  {
    c in w.frozen && (run == [] || StaysOpen(Step(w, p, run[0]), p, run[1..], c))
  }

  lemma StepKeepsSnapshot(w: World, p: string, e: Event, c: Caller)
    requires w.past != [] && Possible(w, e) && Apart(w) && c in w.frozen && c in Step(w, p, e).frozen
    ensures Step(w, p, e).frozen[c].entries == w.frozen[c].entries && Step(w, p, e).frozen[c].began == w.frozen[c].began
  {
  }

  lemma {:induction false} OpenSnapshotStands(w: World, p: string, run: seq<Event>, c: Caller)
    requires w.past != [] && Apart(w) && Runs(w, p, run) && StaysOpen(w, p, run, c)
    ensures var w' := After(w, p, run);
      && c in w'.frozen && w'.frozen[c].entries == w.frozen[c].entries && w'.frozen[c].began == w.frozen[c].began && Apart(w')
    decreases |run|
  {
    if run != [] {
      StepKeepsApart(w, p, run[0]);
      StepKeepsSnapshot(w, p, run[0], c);
      OpenSnapshotStands(Step(w, p, run[0]), p, run[1..], c);
    }
  }

  /**
    A snapshot is stable: while it stays open, whatever is written and whoever else reads, every
    call of its context returns the one history it was opened with, and none reads the journal.
   */
  lemma SnapshotIsStable(j: Journal, p: string, before: seq<Event>, run: seq<Event>, c: Caller)
    requires Runs(Start(j), p, before)
    requires var w := After(Start(j), p, before); Runs(w, p, run) && StaysOpen(w, p, run, c)
    ensures var w := After(Start(j), p, before);
      var w' := After(w, p, run);
      && c in w.frozen && c in w'.frozen && !Possible(w', ReturnFallback(c))
      && Returned(w', p, ReturnFrozen(c)) == Some(w.frozen[c].entries)
  {
    EveryRunKeepsInv(Start(j), p, before);
    OpenSnapshotStands(After(Start(j), p, before), p, run, c);
  }

  /** What a snapshot freezes is what the call that opens it returned, and it is open from then on. */
  lemma OpeningFreezes(w: World, p: string, c: Caller)
    requires Inv(w, p) && c in w.calls && w.calls[c].opens
    ensures var w' := Step(w, p, ReturnFallback(c));
      && c in w'.frozen && w'.frozen[c].began == w.calls[c].began
      && Returned(w, p, ReturnFallback(c)) == Some(w'.frozen[c].entries) == Returned(w', p, ReturnFrozen(c))
  {
  }

  // ---- The objects ---------------------------------------------------------

  /** The journal table and its revision table, updated statement by statement. */
  class OrderJournal {
    var rows: seq<Row>
    var revisions: map<string, nat>

    function View(): Journal
      reads this
    {
      Journal(rows, revisions)
    }

    constructor ()
      ensures View() == Journal([], map[])
    {
      rows, revisions := [], map[];
    }

    method BumpRevision(p: Option<string>)
      modifies this`revisions
      ensures revisions == Bump(old(revisions), p, true)
    {
      if p.Some? {
        var current := if p.value in revisions then revisions[p.value] else 0;
        revisions := revisions[p.value := current + 1];
      }
    }

    method FindRow(id: string) returns (index: Option<nat>)
      ensures index == Find(rows, id)
      ensures index.Some? ==> index.value < |rows|
    {
      var i := 0;
      while i < |rows|
        invariant 0 <= i <= |rows|
        invariant Find(rows, id) == (match Find(rows[i..], id) case None => None case Some(n) => Some(n + i))
      {
        if rows[i].id == id {
          return Some(i);
        }
        i := i + 1;
      }
      return None;
    }

    /** INSERT OR REPLACE with its before and after triggers. */
    method Store(row: Row)
      modifies this
      ensures View() == Put(old(View()), row)
    {
      var found := FindRow(row.id);
      if found.Some? {
        var previous := Prefix(rows[found.value]);
        if previous != Prefix(row) {
          BumpRevision(previous);
        }
        rows := rows[..found.value] + rows[found.value + 1..];
      }
      rows := rows + [row];
      BumpRevision(Prefix(row));
    }

    method Change(index: nat, row: Row)
      requires Executable(View(), Update(index, row))
      modifies this
      ensures View() == Apply(old(View()), Update(index, row))
    {
      var previous := rows[index];
      rows := rows[index := row];
      if previous.id != row.id || previous.ticker != row.ticker || previous.history != row.history {
        BumpRevision(Prefix(previous));
        if Prefix(row) != Prefix(previous) {
          BumpRevision(Prefix(row));
        }
      }
    }

    method Remove(index: nat)
      requires index < |rows|
      modifies this
      ensures View() == Apply(old(View()), Delete(index))
    {
      var previous := rows[index];
      rows := rows[..index] + rows[index + 1..];
      BumpRevision(Prefix(previous));
    }
  }

  /** The two cache fields, the frozen histories of the contexts, and the projection loop of `_fallback`. */
  class FallbackCache {
    const series: string
    var cache: Option<Cached>
    var frozen: map<Caller, Frozen>

    constructor (series: string)
      ensures this.series == series && cache == None && frozen == map[]
    {
      this.series, cache, frozen := series, None, map[];
    }

    method ReadHistory(rows: seq<Row>) returns (entries: seq<Entry>)
      ensures entries == History(rows, series)
    {
      entries := [];
      for i := 0 to |rows|
        invariant entries == History(rows[..i], series)
      {
        assert rows[..i + 1][..i] == rows[..i];
        if Prefix(rows[i]) == Some(series) {
          entries := entries + [Entry(rows[i].id, rows[i].ticker, rows[i].history)];
        }
      }
      assert rows[..|rows|] == rows;
    }

    /** `w` is the world the call returns in; `revision` is what it read outside the lock, unless it is frozen. */
    method Fallback(ghost w: World, c: Caller, journal: Journal, revision: nat) returns (entries: seq<Entry>)
      requires w.past != [] && Now(w) == journal && w.cache == cache && w.frozen == frozen
      requires c in w.frozen || (c in w.calls && w.calls[c].revision == revision)
      modifies this`cache
      ensures c in frozen ==> cache == old(cache) && Returned(w, series, ReturnFrozen(c)) == Some(entries)
      ensures c !in frozen ==> cache == Step(w, series, ReturnFallback(c)).cache
                               && Returned(w, series, ReturnFallback(c)) == Some(entries)
    {
      if c in frozen {
        return frozen[c].entries;
      }
      if cache.None? || cache.value.revision != revision {
        var latest := ReadHistory(journal.rows);
        cache := Some(Cached(revision, latest));
      }
      entries := cache.value.entries;
    }

    /** Entering `history_snapshot`: the variable is set to what `fallback` returns, frozen or not. */
    method EnterSnapshot(ghost w: World, c: Caller, journal: Journal, revision: nat, began: nat)
      requires w.past != [] && Now(w) == journal && w.cache == cache && w.frozen == frozen
      requires c in w.frozen || (c in w.calls && w.calls[c] == Call(began, revision, true))
      modifies this
      ensures var w' := Step(w, series, if c in old(frozen) then OpenNested(c) else ReturnFallback(c));
              cache == w'.cache && frozen == w'.frozen
    {
      var entries := Fallback(w, c, journal, revision);
      if c in frozen {
        frozen := frozen[c := Frozen(frozen[c].began, entries, frozen[c].depth + 1)];
      } else {
        frozen := frozen[c := Frozen(began, entries, 1)];
      }
    }

    /** Leaving it, by the `finally` clause: the variable returns to what it was before. */
    method LeaveSnapshot(ghost w: World, c: Caller)
      requires w.past != [] && w.frozen == frozen && c in frozen
      modifies this`frozen
      ensures frozen == Step(w, series, CloseSnapshot(c)).frozen
    {
      if frozen[c].depth <= 1 {
        frozen := frozen - {c};
      } else {
        frozen := frozen[c := frozen[c].(depth := frozen[c].depth - 1)];
      }
    }
  }
}
