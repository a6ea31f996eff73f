/**
  What is true of every order whatever replies are lost: the invariant behind the
  safety results of the live protocol, kept by every step.
 */
module LiveInvariant {
  import opened Wrappers
  import opened LiveOrders

  function TrueFill(v: Venue): nat {
    if v.Order? then v.fill else 0
  }

  /** The order can no longer trade: refused, finished, or rejected before its POST. */
  predicate Dead(r: Row, v: Venue) {
    v.Refused? || (v.Order? && v.status != Working) || (v.Unsent? && r.state == Rejected)
  }

  /** The most the order has traded or may still trade. */
  function Exposure(r: Row, v: Venue): nat {
    match v
    case Unsent => if Unresolved(r) then r.count else 0
    case InFlight(c) => c
    case Refused => 0
    case Order(c, f, s) => if s == Working then c else f
  }

  function SellExposureBy(r: Row, v: Venue, t: string): nat {
    if BotRow(r, t) && r.action == Sell then Exposure(r, v) else 0
  }

  function TrueBoughtBy(r: Row, v: Venue, t: string): nat {
    if BotRow(r, t) && r.action == Buy then TrueFill(v) else 0
  }

  /** What the bot has sold or may yet sell in a market. */
  function SellExposure(rows: seq<Row>, venues: seq<Venue>, t: string): nat
    requires |rows| == |venues|
  {
    if rows == [] then 0
    else
      var n := |rows| - 1;
      SellExposure(rows[..n], venues[..n], t) + SellExposureBy(rows[n], venues[n], t)
  }

  /** What the bot has really bought in a market. */
  function TrueBought(rows: seq<Row>, venues: seq<Venue>, t: string): nat
    requires |rows| == |venues|
  {
    if rows == [] then 0
    else
      var n := |rows| - 1;
      TrueBought(rows[..n], venues[..n], t) + TrueBoughtBy(rows[n], venues[n], t)
  }

  predicate SameOrder(a: Row, b: Row) {
    a.ticker == b.ticker && a.origin == b.origin && a.action == b.action && a.resting == b.resting
  }

  predicate ReportOk(r: Row, v: Venue) {
    r.report.Some? ==>
      && v.Order? && r.report.value.fill <= v.fill
      && (r.report.value.status != Working ==> r.report.value == Report(v.fill, v.status))
  }

  /** What one row may claim about its order. */
  predicate RowOk(r: Row, v: Venue, posts: nat) {
    && posts == (if v.Unsent? then 0 else 1)
    && ReportOk(r, v)
    && (r.state == Complete ==> v.Order? && v.status != Working && r.report == Some(Report(v.fill, v.status)))
    && (r.state == Rejected ==> v.Unsent? || (v.Refused? && r.submitted))
    && (r.hasOrder ==> v.Order?)
    && (v.InFlight? ==> v.count == r.count)
    && (v.Order? ==> v.count == r.count && v.fill <= v.count)
    && (!v.Unsent? ==> r.indexed)
    && (r.resting ==> r.origin == Bot && r.action == Sell)
  }

  /** A task's copy of a row, however stale: it claims nothing false about the order. */
  predicate CopyOk(mem: Row, r: Row, v: Venue) {
    && SameOrder(mem, r) && mem.count == r.count && mem.indexed == r.indexed
    && mem.state != Rejected
    && ReportOk(mem, v)
    && (mem.state == Complete ==> v.Order? && v.status != Working && mem.report == Some(Report(v.fill, v.status)))
    && (mem.hasOrder ==> v.Order?)
  }

  predicate SlotOk(slot: Slot, r: Row, v: Venue) {
    match slot
    case Idle => true
    case Submit(_, mem, phase) =>
      if phase == Claimed || phase == Prepared || phase == Ready
      then && v.Unsent? && mem == r && mem.state == Submitting && mem.report.None? && !mem.submitted && !mem.hasOrder
           && (phase == Ready <==> mem.indexed)
      else && !v.Unsent? && CopyOk(mem, r, v) && mem.submitted
           && (phase == Sent ==> mem.state == Submitting && !mem.hasOrder)
           && (phase == Acked ==> mem.state == Accepted)
           && (phase == Acked || phase == Read ==> v.Order?)
    case Cancel(_, mem, observed) => r.resting && CopyOk(mem, r, v) && (v.Unsent? ==> Unresolved(r))
  }

  predicate ReaderOk(rd: Reader, r: Row, v: Venue) {
    CopyOk(rd.mem, r, v) && r.indexed && (rd.observed ==> v.Order?)
  }

  // ---- Invariants ----------------------------------------------------------

  predicate RowsOk(w: World)
    requires Shaped(w)
  {
    forall i | 0 <= i < |w.rows| :: RowOk(w.rows[i], w.venues[i], w.posts[i])
  }

  predicate TasksOk(w: World)
    requires Shaped(w)
  {
    && (w.slot != Idle ==> SlotOk(w.slot, w.rows[w.slot.id], w.venues[w.slot.id]))
    && (forall k | k in w.readers :: ReaderOk(w.readers[k], w.rows[w.readers[k].id], w.venues[w.readers[k].id]))
  }

  /** Of all orders in a market, only the latest can still trade. */
  predicate OnlyLatestLives(w: World)
    requires Shaped(w)
  {
    forall i, j | 0 <= i < j < |w.rows| && w.rows[i].ticker == w.rows[j].ticker :: Dead(w.rows[i], w.venues[i])
  }

  /** A bot purchase is preceded in its market only by bot orders that traded nothing. */
  predicate BuysStartFlat(w: World)
    requires Shaped(w)
  {
    forall i, j | 0 <= i < j < |w.rows| && w.rows[i].ticker == w.rows[j].ticker
                  && w.rows[i].origin == Bot && w.rows[j].origin == Bot && w.rows[j].action == Buy ::
      TrueFill(w.venues[i]) == 0
  }

  predicate OneRestingOffer(w: World)
    requires Shaped(w)
  {
    forall i, j | 0 <= i < j < |w.rows| && w.rows[i].ticker == w.rows[j].ticker ::
      !(w.rows[i].resting && w.rows[j].resting)
  }

  ghost predicate SellsCovered(w: World)
    requires Shaped(w)
  {
    forall t :: SellExposure(w.rows, w.venues, t) <= TrueBought(w.rows, w.venues, t)
  }

  ghost predicate AttemptsBounded(w: World)
    requires Shaped(w)
  {
    forall t :: Attempts(w.rows, t) <= w.retries + 1
  }

  /** A decision taken under the market lock is still right when it is used. */
  predicate DecisionOk(w: World, t: string, d: Decision)
    requires Shaped(w)
  {
    && (forall i | 0 <= i < |w.rows| && BotRow(w.rows[i], t) :: Dead(w.rows[i], w.venues[i]))
    && (d.resting ==> !HasRestingRow(w.rows, t))
    && (d.action == Sell ==> SellExposure(w.rows, w.venues, t) + d.count <= TrueBought(w.rows, w.venues, t))
    && (d.action == Buy ==>
          && Attempts(w.rows, t) <= w.retries
          && forall i | 0 <= i < |w.rows| && BotRow(w.rows[i], t) :: TrueFill(w.venues[i]) == 0)
  }

  predicate DecisionsOk(w: World)
    requires Shaped(w)
  {
    forall t | t in w.locks && w.locks[t].ByDecision? :: DecisionOk(w, t, w.locks[t].decision)
  }

  ghost predicate Inv(w: World) {
    && Shaped(w) && RowsOk(w) && TasksOk(w) && OnlyLatestLives(w) && BuysStartFlat(w) && OneRestingOffer(w)
    && SellsCovered(w) && AttemptsBounded(w) && DecisionsOk(w)
  }

  // ---- How one row may change ----------------------------------------------

  /** Every step but a claim moves rows and orders only forward in this sense. */
  predicate Evolves(r: Row, v: Venue, r': Row, v': Venue) {
    && SameOrder(r, r')
    && (Dead(r, v) ==> v' == v && Dead(r', v'))
    && Exposure(r', v') <= Exposure(r, v)
    && TrueFill(v) <= TrueFill(v')
    && (ConsumesEntryAttempt(r') ==> ConsumesEntryAttempt(r))
  }

  predicate Evolved(w: World, w': World)
    requires Shaped(w) && Shaped(w')
  {
    && |w'.rows| == |w.rows| && w'.retries == w.retries
    && (forall i | 0 <= i < |w.rows| :: Evolves(w.rows[i], w.venues[i], w'.rows[i], w'.venues[i]))
  }

  lemma {:induction false} SumsEvolve(rows: seq<Row>, venues: seq<Venue>, rows': seq<Row>, venues': seq<Venue>, t: string)
    requires |rows| == |venues| == |rows'| == |venues'|
    requires forall i | 0 <= i < |rows| :: Evolves(rows[i], venues[i], rows'[i], venues'[i])
    ensures SellExposure(rows', venues', t) <= SellExposure(rows, venues, t)
    ensures TrueBought(rows', venues', t) >= TrueBought(rows, venues, t)
    ensures Attempts(rows', t) <= Attempts(rows, t)
    decreases |rows|
  {
    if rows != [] {
      var n := |rows| - 1;
      assert Evolves(rows[n], venues[n], rows'[n], venues'[n]);
      SumsEvolve(rows[..n], venues[..n], rows'[..n], venues'[..n], t);
    }
  }

  /** The rules about pairs and sums survive any forward change. */
  lemma EvolvedKeeps(w: World, w': World)
    requires Inv(w) && Shaped(w') && Evolved(w, w')
    requires forall t | t in w'.locks && w'.locks[t].ByDecision? :: t in w.locks && w.locks[t] == w'.locks[t]
    ensures OnlyLatestLives(w') && BuysStartFlat(w') && OneRestingOffer(w') && SellsCovered(w') && AttemptsBounded(w')
    ensures DecisionsOk(w')
  {
    forall t ensures SellExposure(w'.rows, w'.venues, t) <= TrueBought(w'.rows, w'.venues, t) {
      SumsEvolve(w.rows, w.venues, w'.rows, w'.venues, t);
    }
    forall t ensures Attempts(w'.rows, t) <= w'.retries + 1 {
      SumsEvolve(w.rows, w.venues, w'.rows, w'.venues, t);
    }
    PairsEvolve(w, w');
    forall t | t in w'.locks && w'.locks[t].ByDecision? ensures DecisionOk(w', t, w'.locks[t].decision) {
      DecisionEvolves(w, w', t, w.locks[t].decision);
    }
  }

  lemma PairsEvolve(w: World, w': World)
    requires Shaped(w) && OnlyLatestLives(w) && BuysStartFlat(w) && OneRestingOffer(w) && Shaped(w') && Evolved(w, w')
    ensures OnlyLatestLives(w') && BuysStartFlat(w') && OneRestingOffer(w')
  {
    forall i, j | 0 <= i < j < |w'.rows| && w'.rows[i].ticker == w'.rows[j].ticker
      ensures Dead(w'.rows[i], w'.venues[i]) && !(w'.rows[i].resting && w'.rows[j].resting)
      ensures w'.rows[i].origin == Bot && w'.rows[j].origin == Bot && w'.rows[j].action == Buy ==> TrueFill(w'.venues[i]) == 0
    {
      assert Evolves(w.rows[i], w.venues[i], w'.rows[i], w'.venues[i]);
      assert Evolves(w.rows[j], w.venues[j], w'.rows[j], w'.venues[j]);
      assert Dead(w.rows[i], w.venues[i]);
    }
  }

  lemma DecisionEvolves(w: World, w': World, t: string, d: Decision)
    requires Shaped(w) && DecisionOk(w, t, d) && Shaped(w') && Evolved(w, w')
    ensures DecisionOk(w', t, d)
  {
    SumsEvolve(w.rows, w.venues, w'.rows, w'.venues, t);
    forall i | 0 <= i < |w'.rows| && BotRow(w'.rows[i], t)
      ensures Dead(w'.rows[i], w'.venues[i]) && w'.venues[i] == w.venues[i] && BotRow(w.rows[i], t)
      ensures w'.rows[i].resting == w.rows[i].resting
    {
      assert Evolves(w.rows[i], w.venues[i], w'.rows[i], w'.venues[i]);
    }
  }

  lemma StaysPut(r: Row, v: Venue)
    ensures Evolves(r, v, r, v)
  {
  }

  /** Saving any honest copy is a forward change, and leaves every other copy honest. */
  lemma SavingEvolves(r: Row, v: Venue, posts: nat, mem: Row, r': Row)
    requires RowOk(r, v, posts) && CopyOk(mem, r, v) && (v.Unsent? ==> Unresolved(r)) && Stored(r, mem) == Ok(r')
    ensures RowOk(r', v, posts) && Evolves(r, v, r', v)
    ensures r'.count == r.count && r'.indexed == r.indexed && (v.Unsent? ==> Unresolved(r'))
  {
  }

  /** A save touches one row. */
  lemma SaveKeeps(w: World, id: nat, mem: Row)
    requires Shaped(w) && RowsOk(w) && id < |w.rows| && CopyOk(mem, w.rows[id], w.venues[id])
    requires w.venues[id].Unsent? ==> Unresolved(w.rows[id])
    ensures var w' := SaveTo(w, id, mem);
      && Shaped(w') && RowsOk(w') && Evolved(w, w')
      && w' == w.(rows := w'.rows) && w'.rows == w.rows[id := w'.rows[id]]
      && SameOrder(w.rows[id], w'.rows[id])
      && w'.rows[id].count == w.rows[id].count && w'.rows[id].indexed == w.rows[id].indexed
      && (w.venues[id].Unsent? ==> Unresolved(w'.rows[id]))
  {
    var w' := SaveTo(w, id, mem);
    if Stored(w.rows[id], mem).Ok? {
      SavingEvolves(w.rows[id], w.venues[id], w.posts[id], mem, w'.rows[id]);
    }
  }

  // ---- Every step ----------------------------------------------------------

  predicate BeforePost(slot: Slot) {
    slot.Submit? && (slot.phase == Claimed || slot.phase == Prepared || slot.phase == Ready)
  }

  /** Copies held elsewhere stay honest when a row is saved. */
  lemma TasksSurviveSave(w: World, id: nat, mem: Row)
    requires Shaped(w) && RowsOk(w) && TasksOk(w) && id < |w.rows| && CopyOk(mem, w.rows[id], w.venues[id])
    requires w.venues[id].Unsent? ==> Unresolved(w.rows[id])
    requires BeforePost(w.slot) ==> w.slot.id != id
    ensures TasksOk(SaveTo(w, id, mem))
  {
    SaveKeeps(w, id, mem);
  }

  lemma SavesKeepInv(w: World, id: nat, mem: Row)
    requires Inv(w) && id < |w.rows| && CopyOk(mem, w.rows[id], w.venues[id])
    requires w.venues[id].Unsent? ==> Unresolved(w.rows[id])
    requires BeforePost(w.slot) ==> w.slot.id != id
    ensures Inv(SaveTo(w, id, mem))
  {
    SaveKeeps(w, id, mem);
    TasksSurviveSave(w, id, mem);
    EvolvedKeeps(w, SaveTo(w, id, mem));
  }

  /** Letting go of tasks and locks, or taking a lock without a decision, endangers nothing. */
  lemma FewerTasks(w: World, w': World)
    requires Inv(w)
    requires w' == w.(slot := w'.slot, readers := w'.readers, locks := w'.locks)
    requires w'.slot == Idle || w'.slot == w.slot
    requires forall k | k in w'.readers :: k in w.readers && w'.readers[k] == w.readers[k]
    requires forall t | t in w'.locks && w'.locks[t].ByDecision? :: t in w.locks && w.locks[t] == w'.locks[t]
    ensures Inv(w')
  {
    forall i | 0 <= i < |w.rows| ensures Evolves(w.rows[i], w.venues[i], w'.rows[i], w'.venues[i]) {
      StaysPut(w.rows[i], w.venues[i]);
    }
    EvolvedKeeps(w, w');
  }

  lemma ReaderStepsKeep(w: World, e: Event)
    requires Inv(w) && Possible(w, e) && (e.StartRead? || e.ReadOrder?)
    ensures Inv(Step(w, e))
  {
    if e.StartRead? {
      var rd := Reader(e.id, e.kind, w.rows[e.id], false);
      assert RowOk(w.rows[e.id], w.venues[e.id], w.posts[e.id]);
      NewReader(w, e.reader, rd, Step(w, e).locks);
    } else {
      var rd := w.readers[e.reader];
      assert ReaderOk(rd, w.rows[rd.id], w.venues[rd.id]);
      NewReader(w, e.reader, rd.(mem := Observed(rd.mem, w.venues[rd.id]), observed := true), w.locks);
      assert Step(w, e) == w.(readers := Step(w, e).readers, locks := w.locks);
    }
  }

  lemma ReaderEndsKeep(w: World, e: Event)
    requires Inv(w) && Possible(w, e) && (e.SaveRead? || e.DropRead?)
    ensures Inv(Step(w, e))
  {
    var rd := w.readers[e.reader];
    assert ReaderOk(rd, w.rows[rd.id], w.venues[rd.id]);
    if e.SaveRead? {
      SavesKeepInv(w, rd.id, rd.mem);
      SaveKeeps(w, rd.id, rd.mem);
      FewerTasks(SaveTo(w, rd.id, rd.mem), Step(w, e));
    } else {
      FewerTasks(w, Step(w, e));
    }
  }

  lemma NewReader(w: World, k: nat, rd: Reader, locks: map<string, Owner>)
    requires Inv(w) && rd.id < |w.rows| && ReaderOk(rd, w.rows[rd.id], w.venues[rd.id])
    requires forall t | t in locks && locks[t].ByDecision? :: t in w.locks && w.locks[t] == locks[t]
    ensures Inv(w.(readers := w.readers[k := rd], locks := locks))
  {
    var w' := w.(readers := w.readers[k := rd], locks := locks);
    forall i | 0 <= i < |w.rows| ensures Evolves(w.rows[i], w.venues[i], w'.rows[i], w'.venues[i]) {
      StaysPut(w.rows[i], w.venues[i]);
    }
    EvolvedKeeps(w, w');
  }

  /** One row and its order change, forward. */
  lemma OneRowKeeps(w: World, id: nat, r': Row, v': Venue, p': nat, slot: Slot, locks: map<string, Owner>)
    requires Inv(w) && id < |w.rows|
    requires RowOk(r', v', p') && Evolves(w.rows[id], w.venues[id], r', v')
    requires forall t | t in locks && locks[t].ByDecision? :: t in w.locks && w.locks[t] == locks[t]
    requires forall k | k in w.readers && w.readers[k].id == id :: ReaderOk(w.readers[k], r', v')
    requires slot != Idle ==> slot.id < |w.rows|
    requires slot != Idle && slot.id == id ==> SlotOk(slot, r', v')
    requires slot != Idle && slot.id != id ==> slot == w.slot
    ensures Inv(w.(rows := w.rows[id := r'], venues := w.venues[id := v'], posts := w.posts[id := p'], slot := slot, locks := locks))
  {
    var w' := w.(rows := w.rows[id := r'], venues := w.venues[id := v'], posts := w.posts[id := p'], slot := slot, locks := locks);
    forall i | 0 <= i < |w.rows| ensures Evolves(w.rows[i], w.venues[i], w'.rows[i], w'.venues[i]) {
      if i != id {
        StaysPut(w.rows[i], w.venues[i]);
      }
    }
    EvolvedKeeps(w, w');
  }

  predicate VenueMove(v: Venue, v': Venue) {
    || (v.InFlight? && (v' == Order(v.count, 0, Working) || v' == Refused))
    || (v.Order? && v.status == Working && v'.Order? && v'.count == v.count && v.fill <= v'.fill <= v.count
        && (v'.status != Working ==> v'.fill == v.fill))
  }

  lemma VenueMoveEvolves(r: Row, v: Venue, v': Venue, posts: nat)
    requires RowOk(r, v, posts) && VenueMove(v, v')
    requires v'.Refused? ==> !r.hasOrder
    ensures RowOk(r, v', posts) && Evolves(r, v, r, v')
  {
  }

  lemma VenueMoveTasks(slot: Slot, rd: Reader, r: Row, v: Venue, v': Venue, posts: nat)
    requires VenueMove(v, v') && RowOk(r, v, posts)
    ensures SlotOk(slot, r, v) ==> SlotOk(slot, r, v')
    ensures ReaderOk(rd, r, v) ==> ReaderOk(rd, r, v')
  {
  }

  /** The exchange's own moves. */
  lemma VenueStepsKeep(w: World, e: Event)
    requires Inv(w) && Possible(w, e)
    requires e.VenueAccepts? || e.VenueRefuses? || e.VenueFills? || e.VenueCloses?
    ensures Inv(Step(w, e))
  {
    var w' := Step(w, e);
    var id := e.id;
    var r, v, v', p := w.rows[id], w.venues[id], w'.venues[id], w.posts[id];
    assert RowOk(r, v, p);
    assert VenueMove(v, v');
    VenueMoveEvolves(r, v, v', p);
    forall k | k in w.readers && w.readers[k].id == id ensures ReaderOk(w.readers[k], r, v') {
      VenueMoveTasks(w.slot, w.readers[k], r, v, v', p);
    }
    VenueMoveTasks(w.slot, Reader(id, Worker, r, false), r, v, v', p);
    assert w.rows == w.rows[id := r] && w.posts == w.posts[id := p];
    OneRowKeeps(w, id, r, v', p, w.slot, w.locks);
  }

  /** The slot's saves before its POST: its row is its own. */
  lemma OwnRowKeeps(w: World, mem: Row, slot: Slot, locks: map<string, Owner>)
    requires Inv(w) && BeforePost(w.slot)
    requires SameOrder(mem, w.slot.mem) && mem.report.None? && !mem.submitted && !mem.hasOrder
    requires w.slot.mem.prepared ==> mem.prepared
    requires w.slot.mem.cancelRequested ==> mem.cancelRequested
    requires mem.count <= w.slot.mem.count && (w.slot.phase == Ready ==> mem.count == w.slot.mem.count && mem.indexed)
    requires || (mem.state == Rejected && slot == Idle)
             || (mem.state == Submitting && slot.Submit? && slot.id == w.slot.id && slot.mem == mem && BeforePost(slot)
                 && (slot.phase == Ready <==> mem.indexed))
    requires forall t | t in locks && locks[t].ByDecision? :: t in w.locks && w.locks[t] == locks[t]
    ensures Inv(SaveTo(w, w.slot.id, mem).(slot := slot, locks := locks))
  {
    var id := w.slot.id;
    var r, v, p := w.rows[id], w.venues[id], w.posts[id];
    assert SlotOk(w.slot, r, v) && RowOk(r, v, p);
    assert Stored(r, mem) == Ok(mem);
    assert Evolves(r, v, mem, v) && RowOk(mem, v, p);
    forall k | k in w.readers && w.readers[k].id == id ensures ReaderOk(w.readers[k], mem, v) {
      assert ReaderOk(w.readers[k], r, v);
    }
    assert w.venues == w.venues[id := v] && w.posts == w.posts[id := p];
    OneRowKeeps(w, id, mem, v, p, slot, locks);
  }

  lemma PreflightStepsKeep(w: World, e: Event)
    requires Inv(w) && Possible(w, e) && (e.Prepare? || e.Fail? || e.Index?)
    ensures Inv(Step(w, e))
  {
    assert SlotOk(w.slot, w.rows[w.slot.id], w.venues[w.slot.id]);
    match e
    case Prepare =>
      var mem := w.slot.mem.(prepared := true);
      OwnRowKeeps(w, mem, Submit(w.slot.id, mem, Prepared), w.locks);
    case Fail => OwnRowKeeps(w, w.slot.mem.(state := Rejected), Idle, Step(w, e).locks);
    case Index(size) =>
      var mem := w.slot.mem.(indexed := true, count := size);
      OwnRowKeeps(w, mem, Submit(w.slot.id, mem, Ready), w.locks);
  }

  /** The POST itself: the only step that sends an order, and only ever for a row never sent before. */
  lemma PostKeeps(w: World)
    requires Inv(w) && Possible(w, Post)
    ensures w.posts[w.slot.id] == 0 && Inv(Step(w, Post))
  {
    var id := w.slot.id;
    var r, v, p, mem := w.rows[id], w.venues[id], w.posts[id], w.slot.mem;
    assert SlotOk(w.slot, r, v) && RowOk(r, v, p);
    var v', slot := InFlight(mem.count), Submit(id, mem.(submitted := true), Sent);
    forall k | k in w.readers && w.readers[k].id == id ensures ReaderOk(w.readers[k], r, v') {
      assert ReaderOk(w.readers[k], r, v);
    }
    assert w.rows == w.rows[id := r];
    OneRowKeeps(w, id, r, v', p + 1, slot, w.locks);
  }

  lemma RefusalKeeps(w: World)
    requires Inv(w) && Possible(w, ReplyRefused)
    ensures Inv(Step(w, ReplyRefused))
  {
    var id := w.slot.id;
    var r, v, p, mem := w.rows[id], w.venues[id], w.posts[id], w.slot.mem.(state := Rejected);
    assert SlotOk(w.slot, r, v) && RowOk(r, v, p);
    assert Stored(r, mem).Ok?;
    var r' := Stored(r, mem).value;
    forall k | k in w.readers && w.readers[k].id == id ensures ReaderOk(w.readers[k], r', v) {
      assert ReaderOk(w.readers[k], r, v);
    }
    assert w.venues == w.venues[id := v] && w.posts == w.posts[id := p];
    OneRowKeeps(w, id, r', v, p, Idle, Step(w, ReplyRefused).locks);
  }

  /** The slot saves an honest copy and then holds a slot that is honest too, or none. */
  lemma SlotSaveKeeps(w: World, mem: Row, slot: Slot, locks: map<string, Owner>)
    requires Inv(w) && w.slot != Idle && !BeforePost(w.slot) && w.slot.id < |w.rows|
    requires CopyOk(mem, w.rows[w.slot.id], w.venues[w.slot.id])
    requires slot != Idle ==> slot.id == w.slot.id && SlotOk(slot, SaveTo(w, w.slot.id, mem).rows[w.slot.id], w.venues[w.slot.id])
    requires forall t | t in locks && locks[t].ByDecision? :: t in w.locks && w.locks[t] == locks[t]
    ensures Inv(SaveTo(w, w.slot.id, mem).(slot := slot, locks := locks))
  {
    var saved := SaveTo(w, w.slot.id, mem);
    assert SlotOk(w.slot, w.rows[w.slot.id], w.venues[w.slot.id]);
    SavesKeepInv(w, w.slot.id, mem);
    SaveKeeps(w, w.slot.id, mem);
    SwapSlot(saved, slot, locks);
  }

  lemma SwapSlot(w: World, slot: Slot, locks: map<string, Owner>)
    requires Inv(w)
    requires slot != Idle ==> slot.id < |w.rows| && SlotOk(slot, w.rows[slot.id], w.venues[slot.id])
    requires forall t | t in locks && locks[t].ByDecision? :: t in w.locks && w.locks[t] == locks[t]
    ensures Inv(w.(slot := slot, locks := locks))
  {
    var w' := w.(slot := slot, locks := locks);
    forall i | 0 <= i < |w.rows| ensures Evolves(w.rows[i], w.venues[i], w'.rows[i], w'.venues[i]) {
      StaysPut(w.rows[i], w.venues[i]);
    }
    EvolvedKeeps(w, w');
  }

  lemma CopyAfterSave(w: World, id: nat, mem: Row)
    requires Shaped(w) && RowsOk(w) && id < |w.rows| && CopyOk(mem, w.rows[id], w.venues[id])
    requires w.venues[id].Unsent? ==> Unresolved(w.rows[id])
    ensures var r := SaveTo(w, id, mem).rows[id]; CopyOk(mem, r, w.venues[id]) && (r.state != Rejected ==> CopyOk(r, r, w.venues[id]))
  {
    SaveKeeps(w, id, mem);
    assert RowOk(SaveTo(w, id, mem).rows[id], w.venues[id], w.posts[id]);
  }

  lemma ReplyStepsKeep(w: World, e: Event)
    requires Inv(w) && Possible(w, e) && (e.ReplyAccepted? || e.ReplyLost?)
    ensures Inv(Step(w, e))
  {
    var id := w.slot.id;
    assert SlotOk(w.slot, w.rows[id], w.venues[id]);
    if e.ReplyAccepted? {
      var mem := w.slot.mem.(state := Accepted, hasOrder := true);
      CopyAfterSave(w, id, mem);
      SlotSaveKeeps(w, mem, Submit(id, mem, Acked), w.locks);
    } else {
      SlotSaveKeeps(w, w.slot.mem.(state := Unknown), Idle, Step(w, e).locks);
    }
  }

  lemma SlotReadKeeps(w: World)
    requires Inv(w) && Possible(w, SlotRead)
    ensures Inv(Step(w, SlotRead))
  {
    assert SlotOk(w.slot, w.rows[w.slot.id], w.venues[w.slot.id]);
    SwapSlot(w, Step(w, SlotRead).slot, w.locks);
  }

  lemma SlotSavedKeeps(w: World)
    requires Inv(w) && Possible(w, SlotSave)
    ensures Inv(Step(w, SlotSave))
  {
    var id := w.slot.id;
    assert SlotOk(w.slot, w.rows[id], w.venues[id]);
    if w.slot.Submit? {
      SlotSaveKeeps(w, w.slot.mem, Idle, Step(w, SlotSave).locks);
    } else {
      CancelStaysOk(w, w.slot.mem);
      SlotSaveKeeps(w, w.slot.mem, Step(w, SlotSave).slot, w.locks);
    }
  }

  /** A resting row under cancellation is never rejected again, so the saved row is an honest copy. */
  lemma CancelStaysOk(w: World, mem: Row)
    requires Inv(w) && w.slot.Cancel? && CopyOk(mem, w.rows[w.slot.id], w.venues[w.slot.id])
    ensures w.rows[w.slot.id].state != Rejected ==> SlotOk(Cancel(w.slot.id, SaveTo(w, w.slot.id, mem).rows[w.slot.id], false), SaveTo(w, w.slot.id, mem).rows[w.slot.id], w.venues[w.slot.id])
    ensures SlotOk(Cancel(w.slot.id, mem, false), SaveTo(w, w.slot.id, mem).rows[w.slot.id], w.venues[w.slot.id])
  {
    assert SlotOk(w.slot, w.rows[w.slot.id], w.venues[w.slot.id]);
    SaveKeeps(w, w.slot.id, mem);
    CopyAfterSave(w, w.slot.id, mem);
  }

  lemma CancelStepsKeep(w: World, e: Event)
    requires Inv(w) && Possible(w, e) && (e.BeginCancel? || e.CancelTouch? || e.SlotEnds?)
    ensures Inv(Step(w, e))
  {
    match e
    case BeginCancel(id) =>
      var mem := w.rows[id].(cancelRequested := true);
      assert RowOk(w.rows[id], w.venues[id], w.posts[id]);
      CopyAfterSave(w, id, mem);
      SaveKeeps(w, id, mem);
      SavesKeepInv(w, id, mem);
      SwapSlot(SaveTo(w, id, mem), Cancel(id, mem, false), Step(w, e).locks);
    case CancelTouch =>
      assert SlotOk(w.slot, w.rows[w.slot.id], w.venues[w.slot.id]);
      SavesKeepInv(w, w.slot.id, w.slot.mem);
    case SlotEnds => FewerTasks(w, Step(w, e));
  }

  // ---- Deciding and claiming -----------------------------------------------

  lemma ResolvedIsDead(r: Row, v: Venue, posts: nat)
    requires RowOk(r, v, posts) && !Unresolved(r)
    ensures Dead(r, v) && TrueFill(v) == Exposure(r, v)
    ensures Filled(r) == TrueFill(v)
  {
  }

  predicate AllResolved(rows: seq<Row>, t: string) {
    forall i | 0 <= i < |rows| && rows[i].ticker == t :: !Unresolved(rows[i])
  }

  /** Where every order of a market is resolved, the journal tells the whole truth about it. */
  lemma {:induction false} JournalIsTrue(rows: seq<Row>, venues: seq<Venue>, posts: seq<nat>, t: string)
    requires |rows| == |venues| == |posts|
    requires forall i | 0 <= i < |rows| :: RowOk(rows[i], venues[i], posts[i])
    requires AllResolved(rows, t)
    ensures Bought(rows, t) == TrueBought(rows, venues, t) && Sold(rows, t) == SellExposure(rows, venues, t)
    decreases |rows|
  {
    if rows != [] {
      var n := |rows| - 1;
      assert RowOk(rows[n], venues[n], posts[n]);
      if rows[n].ticker == t {
        ResolvedIsDead(rows[n], venues[n], posts[n]);
      }
      JournalIsTrue(rows[..n], venues[..n], posts[..n], t);
    }
  }

  lemma {:induction false} NothingBought(rows: seq<Row>, t: string, i: nat)
    requires i < |rows| && BotRow(rows[i], t) && rows[i].action == Buy
    ensures Bought(rows, t) >= Filled(rows[i])
    decreases |rows|
  {
    if i < |rows| - 1 { NothingBought(rows[..|rows| - 1], t, i); }
  }

  lemma {:induction false} NothingSold(rows: seq<Row>, t: string, i: nat)
    requires i < |rows| && BotRow(rows[i], t) && rows[i].action == Sell
    ensures Sold(rows, t) >= Filled(rows[i])
    decreases |rows|
  {
    if i < |rows| - 1 { NothingSold(rows[..|rows| - 1], t, i); }
  }

  lemma PermitsMeansResolved(rows: seq<Row>, t: string, retries: nat, d: Decision)
    requires Permits(rows, t, retries, d)
    ensures AllResolved(rows, t)
  {
    forall i | 0 <= i < |rows| && rows[i].ticker == t ensures !Unresolved(rows[i]) {
      assert !OutcomePending(rows[i], t, Held(rows, t));
    }
  }

  lemma PermittedIsOk(w: World, t: string, d: Decision)
    requires Inv(w) && Permits(w.rows, t, w.retries, d)
    ensures DecisionOk(w, t, d)
  {
    PermitsMeansResolved(w.rows, t, w.retries, d);
    JournalIsTrue(w.rows, w.venues, w.posts, t);
    assert SellExposure(w.rows, w.venues, t) <= TrueBought(w.rows, w.venues, t);
    forall i | 0 <= i < |w.rows| && BotRow(w.rows[i], t)
      ensures Dead(w.rows[i], w.venues[i]) && (d.action == Buy ==> TrueFill(w.venues[i]) == 0)
    {
      ResolvedIsDead(w.rows[i], w.venues[i], w.posts[i]);
      if w.rows[i].action == Buy {
        NothingBought(w.rows, t, i);
      } else {
        NothingSold(w.rows, t, i);
      }
    }
  }

  lemma DecideKeeps(w: World, t: string, d: Decision)
    requires Inv(w) && Possible(w, Decide(t, d))
    ensures Inv(Step(w, Decide(t, d)))
  {
    PermittedIsOk(w, t, d);
    var w' := Step(w, Decide(t, d));
    forall u | u in w'.locks && w'.locks[u].ByDecision? ensures DecisionOk(w', u, w'.locks[u].decision) {
      assert DecisionOk(w, u, w'.locks[u].decision);
    }
  }

  lemma ClaimMeansResolved(rows: seq<Row>, t: string, origin: Origin, action: Action)
    requires !ClaimRefused(rows, t, origin, action)
    ensures AllResolved(rows, t)
  {
    forall i | 0 <= i < |rows| && rows[i].ticker == t ensures !Unresolved(rows[i]) {
      assert !BlocksClaim(rows[i], t, origin, action);
    }
  }

  /** The sums with one more row. */
  lemma SumsOfOneMore(rows: seq<Row>, venues: seq<Venue>, r: Row, v: Venue, t: string)
    requires |rows| == |venues|
    ensures SellExposure(rows + [r], venues + [v], t) == SellExposure(rows, venues, t) + SellExposureBy(r, v, t)
    ensures TrueBought(rows + [r], venues + [v], t) == TrueBought(rows, venues, t) + TrueBoughtBy(r, v, t)
    ensures Attempts(rows + [r], t) == Attempts(rows, t) + AttemptBy(r, t)
  {
    assert (rows + [r])[..|rows|] == rows && (venues + [v])[..|venues|] == venues;
  }

  predicate ClaimSucceeds(w: World, e: Event) {
    e.Claim? && !ClaimRefused(w.rows, e.ticker, e.origin, e.action)
  }

  lemma ClaimKeepsPairs(w: World, e: Event)
    requires Inv(w) && Possible(w, e) && ClaimSucceeds(w, e)
    ensures Shaped(Step(w, e)) && RowsOk(Step(w, e)) && OnlyLatestLives(Step(w, e))
    ensures BuysStartFlat(Step(w, e)) && OneRestingOffer(Step(w, e))
  {
    var w', n := Step(w, e), |w.rows|;
    ClaimMeansResolved(w.rows, e.ticker, e.origin, e.action);
    forall i, j | 0 <= i < j < |w'.rows| && w'.rows[i].ticker == w'.rows[j].ticker
      ensures Dead(w'.rows[i], w'.venues[i]) && !(w'.rows[i].resting && w'.rows[j].resting)
      ensures w'.rows[i].origin == Bot && w'.rows[j].origin == Bot && w'.rows[j].action == Buy ==> TrueFill(w'.venues[i]) == 0
    {
      assert RowOk(w.rows[i], w.venues[i], w.posts[i]);
      if j == n {
        ResolvedIsDead(w.rows[i], w.venues[i], w.posts[i]);
        if e.origin == Bot {
          assert DecisionOk(w, e.ticker, Decision(e.action, e.resting, e.count));
          assert w.rows[i].origin == Bot ==> BotRow(w.rows[i], e.ticker);
        }
      } else {
        assert Dead(w.rows[i], w.venues[i]);
      }
    }
  }

  lemma ClaimKeepsTasks(w: World, e: Event)
    requires Inv(w) && Possible(w, e) && ClaimSucceeds(w, e)
    ensures Shaped(Step(w, e)) && TasksOk(Step(w, e))
  {
    var w' := Step(w, e);
    forall k | k in w'.readers ensures ReaderOk(w'.readers[k], w'.rows[w'.readers[k].id], w'.venues[w'.readers[k].id]) {
      assert ReaderOk(w.readers[k], w.rows[w.readers[k].id], w.venues[w.readers[k].id]);
    }
  }

  lemma ClaimKeepsSums(w: World, e: Event)
    requires Inv(w) && Possible(w, e) && ClaimSucceeds(w, e)
    ensures Shaped(Step(w, e)) && SellsCovered(Step(w, e)) && AttemptsBounded(Step(w, e))
  {
    var w', r := Step(w, e), NewRow(e.ticker, e.origin, e.action, e.resting, e.count);
    if e.origin == Bot {
      assert DecisionOk(w, e.ticker, Decision(e.action, e.resting, e.count));
    }
    forall t
      ensures SellExposure(w'.rows, w'.venues, t) <= TrueBought(w'.rows, w'.venues, t)
      ensures Attempts(w'.rows, t) <= w'.retries + 1
    {
      SumsOfOneMore(w.rows, w.venues, r, Unsent, t);
      assert SellExposure(w.rows, w.venues, t) <= TrueBought(w.rows, w.venues, t);
      assert Attempts(w.rows, t) <= w.retries + 1;
    }
  }

  lemma ClaimKeepsDecisions(w: World, e: Event)
    requires Inv(w) && Possible(w, e) && ClaimSucceeds(w, e)
    ensures Shaped(Step(w, e)) && DecisionsOk(Step(w, e))
  {
    var w', r := Step(w, e), NewRow(e.ticker, e.origin, e.action, e.resting, e.count);
    forall t | t in w'.locks && w'.locks[t].ByDecision? ensures DecisionOk(w', t, w'.locks[t].decision) {
      assert t in w.locks && w.locks[t] == w'.locks[t] && DecisionOk(w, t, w.locks[t].decision);
      assert !BotRow(r, t);
      SumsOfOneMore(w.rows, w.venues, r, Unsent, t);
    }
  }

  lemma ClaimKeeps(w: World, e: Event)
    requires Inv(w) && Possible(w, e) && e.Claim?
    ensures Inv(Step(w, e))
  {
    if ClaimSucceeds(w, e) {
      ClaimKeepsPairs(w, e);
      ClaimKeepsTasks(w, e);
      ClaimKeepsSums(w, e);
      ClaimKeepsDecisions(w, e);
    } else {
      FewerTasks(w, Step(w, e));
    }
  }

  predicate SlotEvent(e: Event) {
    e.Prepare? || e.Fail? || e.Index? || e.Post? || e.ReplyRefused? || e.ReplyAccepted? || e.ReplyLost? || e.SlotRead? || e.SlotSave?
    || e.BeginCancel? || e.CancelTouch? || e.SlotEnds?
  }

  lemma SlotStepsKeep(w: World, e: Event)
    requires Inv(w) && Possible(w, e) && SlotEvent(e)
    ensures Inv(Step(w, e))
  {
    match e
    case Prepare => PreflightStepsKeep(w, e);
    case Fail => PreflightStepsKeep(w, e);
    case Index(_) => PreflightStepsKeep(w, e);
    case Post => PostKeeps(w);
    case ReplyRefused => RefusalKeeps(w);
    case ReplyAccepted => ReplyStepsKeep(w, e);
    case ReplyLost => ReplyStepsKeep(w, e);
    case SlotRead => SlotReadKeeps(w);
    case SlotSave => SlotSavedKeeps(w);
    case BeginCancel(_) => CancelStepsKeep(w, e);
    case CancelTouch => CancelStepsKeep(w, e);
    case SlotEnds => CancelStepsKeep(w, e);
  }

  lemma DroppingStepsKeep(w: World, e: Event)
    requires Inv(w) && Possible(w, e) && (e.Abandon? || e.Repeat? || e.Crash?)
    ensures Inv(Step(w, e))
  {
    if !e.Repeat? { FewerTasks(w, Step(w, e)); }
  }

  lemma OpeningStepsKeep(w: World, e: Event)
    requires Inv(w) && Possible(w, e) && (e.Decide? || e.Claim?)
    ensures Inv(Step(w, e))
  {
    match e
    case Decide(t, d) => DecideKeeps(w, t, d);
    case Claim(_, _, _, _, _) => ClaimKeeps(w, e);
  }

  lemma ReaderAndVenueStepsKeep(w: World, e: Event)
    requires Inv(w) && Possible(w, e)
    requires e.StartRead? || e.ReadOrder? || e.SaveRead? || e.DropRead? || e.VenueAccepts? || e.VenueRefuses? || e.VenueFills? || e.VenueCloses?
    ensures Inv(Step(w, e))
  {
    if e.StartRead? || e.ReadOrder? {
      ReaderStepsKeep(w, e);
    } else if e.SaveRead? || e.DropRead? {
      ReaderEndsKeep(w, e);
    } else {
      VenueStepsKeep(w, e);
    }
  }

  /** Every step of every task, of the exchange, and a crash keep the invariant. */
  lemma StepKeepsInv(w: World, e: Event)
    requires Inv(w) && Possible(w, e)
    ensures Inv(Step(w, e))
  {
    if SlotEvent(e) {
      SlotStepsKeep(w, e);
    } else if e.Abandon? || e.Repeat? || e.Crash? {
      DroppingStepsKeep(w, e);
    } else if e.Decide? || e.Claim? {
      OpeningStepsKeep(w, e);
    } else {
      ReaderAndVenueStepsKeep(w, e);
    }
  }
}
