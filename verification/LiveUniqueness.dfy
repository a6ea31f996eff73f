/**
  One unresolved order per market: what `claim` promises, when a late save breaks
  it, and a run in which the status page does.
 */
module LiveUniqueness {
  import opened Wrappers
  import opened LiveOrders
  import opened LiveInvariant
  import opened LiveSafety

  /** A read is saved while its row is still unresolved, or brings the final word, or `save` guards the row. */
  predicate FreshRead(w: World, e: Event)
    requires Shaped(w) && Possible(w, e)
  {
    e.SaveRead? ==>
      var rd := w.readers[e.reader];
      Unresolved(w.rows[rd.id]) || w.rows[rd.id].resting || !Unresolved(rd.mem)
  }

  predicate BotSale(r: Row) {
    r.origin == Bot && r.action == Sell
  }

  /** Two orders that must not be unresolved together. */
  predicate Clash(a: Row, b: Row) {
    a.ticker == b.ticker || (!BotSale(a) && !BotSale(b))
  }

  predicate NoClash(w: World) {
    forall i, j | 0 <= i < j < |w.rows| && Clash(w.rows[i], w.rows[j]) :: !(Unresolved(w.rows[i]) && Unresolved(w.rows[j]))
  }

  predicate SlotClear(w: World)
    requires Shaped(w)
  {
    w.slot != Idle ==>
      forall i | 0 <= i < |w.rows| && i != w.slot.id && Clash(w.rows[i], w.rows[w.slot.id]) :: !Unresolved(w.rows[i])
  }

  ghost predicate ClearInv(w: World) {
    Inv(w) && NoClash(w) && SlotClear(w)
  }

  lemma ReadSaveReopensNothing(w: World, e: Event, i: nat)
    requires Inv(w) && Possible(w, e) && e.SaveRead? && FreshRead(w, e) && i < |w.rows|
    requires i < |Step(w, e).rows| && Unresolved(Step(w, e).rows[i])
    ensures Unresolved(w.rows[i])
  {
    var rd := w.readers[e.reader];
    assert ReaderOk(rd, w.rows[rd.id], w.venues[rd.id]) && RowOk(w.rows[rd.id], w.venues[rd.id], w.posts[rd.id]);
  }

  lemma SlotSavesItsRow(w: World, e: Event, i: nat)
    requires Shaped(w) && Possible(w, e) && SlotSaves(e) && i < |w.rows|
    ensures w.slot != Idle && |Step(w, e).rows| == |w.rows|
    ensures i != w.slot.id ==> Step(w, e).rows[i] == w.rows[i]
  {
  }

  lemma OnlySlotReopens(w: World, e: Event, i: nat)
    requires Inv(w) && Possible(w, e) && FreshRead(w, e) && i < |w.rows| && i < |Step(w, e).rows|
    requires Unresolved(Step(w, e).rows[i])
    ensures Unresolved(w.rows[i]) || (w.slot != Idle && w.slot.id == i)
  {
    if e.SaveRead? {
      ReadSaveReopensNothing(w, e, i);
    } else if SlotSaves(e) {
      SlotSavesItsRow(w, e, i);
    } else if e.BeginCancel? {
      assert i != e.id ==> Step(w, e).rows[i] == w.rows[i];
    } else {
      OthersKeepRows(w, e, i);
    }
  }

  lemma OthersKeepRows(w: World, e: Event, i: nat)
    requires Shaped(w) && Possible(w, e) && !e.SaveRead? && !SlotSaves(e) && !e.BeginCancel? && i < |w.rows|
    ensures i < |Step(w, e).rows| && Step(w, e).rows[i] == w.rows[i]
  {
  }

  lemma ClaimMeansNoClash(w: World, e: Event, i: nat)
    requires Inv(w) && Possible(w, e) && ClaimSucceeds(w, e) && i < |w.rows|
    requires Clash(w.rows[i], NewRow(e.ticker, e.origin, e.action, e.resting, e.count))
    ensures !Unresolved(w.rows[i])
  {
    assert !BlocksClaim(w.rows[i], e.ticker, e.origin, e.action);
    assert RowOk(w.rows[i], w.venues[i], w.posts[i]);
  }

  lemma ClaimKeepsClear(w: World, e: Event)
    requires ClearInv(w) && Possible(w, e) && ClaimSucceeds(w, e) && Inv(Step(w, e))
    ensures ClearInv(Step(w, e))
  {
    var w', n := Step(w, e), |w.rows|;
    forall i | 0 <= i < n && Clash(w'.rows[i], w'.rows[n]) ensures !Unresolved(w'.rows[i]) {
      assert w'.rows[i] == w.rows[i];
      ClaimMeansNoClash(w, e, i);
    }
    assert w'.slot.id == n;
    forall i, j | 0 <= i < j < |w'.rows| && Clash(w'.rows[i], w'.rows[j]) ensures !(Unresolved(w'.rows[i]) && Unresolved(w'.rows[j])) {
      assert w'.rows[i] == w.rows[i];
      if j < n {
        assert w'.rows[j] == w.rows[j];
      }
    }
  }

  lemma SlotStaysOrBegins(w: World, e: Event)
    requires Shaped(w) && Possible(w, e) && Shaped(Step(w, e)) && !ClaimSucceeds(w, e)
    ensures |Step(w, e).rows| == |w.rows|
    ensures Step(w, e).slot != Idle ==>
              || (w.slot != Idle && Step(w, e).slot.id == w.slot.id)
              || (w.slot == Idle && Step(w, e).slot.id < |w.rows| && Unresolved(w.rows[Step(w, e).slot.id]))
  {
  }

  lemma OtherStepsKeepClear(w: World, e: Event)
    requires ClearInv(w) && Possible(w, e) && FreshRead(w, e) && !ClaimSucceeds(w, e) && Inv(Step(w, e)) && Forward(w, Step(w, e))
    ensures ClearInv(Step(w, e))
  {
    var w' := Step(w, e);
    SlotStaysOrBegins(w, e);
    forall i | 0 <= i < |w.rows|
      ensures SameOrder(w.rows[i], w'.rows[i])
      ensures Unresolved(w'.rows[i]) ==> Unresolved(w.rows[i]) || (w.slot != Idle && w.slot.id == i)
    {
      assert Evolves(w.rows[i], w.venues[i], w'.rows[i], w'.venues[i]);
      if Unresolved(w'.rows[i]) {
        OnlySlotReopens(w, e, i);
      }
    }
    SettledRowsKeepClear(w, w');
  }

  lemma SettledRowsKeepClear(w: World, w': World)
    requires Shaped(w) && NoClash(w) && SlotClear(w) && Shaped(w') && |w'.rows| == |w.rows|
    requires forall i | 0 <= i < |w.rows| :: SameOrder(w.rows[i], w'.rows[i])
    requires forall i | 0 <= i < |w.rows| && Unresolved(w'.rows[i]) :: Unresolved(w.rows[i]) || (w.slot != Idle && w.slot.id == i)
    requires w'.slot != Idle ==>
               || (w.slot != Idle && w'.slot.id == w.slot.id)
               || (w.slot == Idle && Unresolved(w.rows[w'.slot.id]))
    ensures NoClash(w') && SlotClear(w')
  {
    forall i, j | 0 <= i < j < |w'.rows| && Clash(w'.rows[i], w'.rows[j]) ensures !(Unresolved(w'.rows[i]) && Unresolved(w'.rows[j])) {
      assert SameOrder(w.rows[i], w'.rows[i]) && SameOrder(w.rows[j], w'.rows[j]);
      assert Clash(w.rows[i], w.rows[j]) && Clash(w.rows[j], w.rows[i]);
    }
    if w'.slot != Idle {
      var id := w'.slot.id;
      forall i | 0 <= i < |w'.rows| && i != id && Clash(w'.rows[i], w'.rows[id]) ensures !Unresolved(w'.rows[i]) {
        assert SameOrder(w.rows[i], w'.rows[i]) && SameOrder(w.rows[id], w'.rows[id]);
        assert Clash(w.rows[i], w.rows[id]) && Clash(w.rows[id], w.rows[i]);
      }
    }
  }

  predicate AllFreshReads(w: World, run: seq<Event>)
    requires Runs(w, run)
    decreases |run|
  {
    run == [] || (FreshRead(w, run[0]) && AllFreshReads(Step(w, run[0]), run[1..]))
  }

  lemma {:induction false} RunKeepsClear(w: World, run: seq<Event>)
    requires ClearInv(w) && Runs(w, run) && AllFreshReads(w, run)
    ensures ClearInv(After(w, run))
    decreases |run|
  {
    if run != [] {
      StepKeepsInv(w, run[0]);
      StepMovesForward(w, run[0]);
      if ClaimSucceeds(w, run[0]) {
        ClaimKeepsClear(w, run[0]);
      } else {
        OtherStepsKeepClear(w, run[0]);
      }
      RunKeepsClear(Step(w, run[0]), run[1..]);
    }
  }

  /**
    Where reads are saved fresh, no market ever has two unresolved orders, and the
    account never has two unresolved orders other than the bot's own sales.
   */
  lemma OneUnresolvedOrder(retries: nat, run: seq<Event>, i: nat, j: nat)
    requires Runs(Init(retries), run) && AllFreshReads(Init(retries), run)
    requires i < j < |After(Init(retries), run).rows|
    requires Clash(After(Init(retries), run).rows[i], After(Init(retries), run).rows[j])
    ensures !(Unresolved(After(Init(retries), run).rows[i]) && Unresolved(After(Init(retries), run).rows[j]))
  {
    InitInv(retries);
    RunKeepsClear(Init(retries), run);
  }

  lemma StaleSaveReopens(w: World, k: nat)
    requires Inv(w) && Possible(w, SaveRead(k)) && !FreshRead(w, SaveRead(k))
    ensures var w', id := Step(w, SaveRead(k)), w.readers[k].id;
      && w'.rows == w.rows[id := w'.rows[id]] && Unresolved(w'.rows[id]) && SameOrder(w.rows[id], w'.rows[id])
  {
    var rd := w.readers[k];
    assert ReaderOk(rd, w.rows[rd.id], w.venues[rd.id]) && RowOk(w.rows[rd.id], w.venues[rd.id], w.posts[rd.id]);
  }

  lemma ReopenedRowClashes(rows: seq<Row>, id: nat, r': Row)
    requires id < |rows| && SameOrder(rows[id], r') && Unresolved(r') && !Unresolved(rows[id])
    requires forall i, j | 0 <= i < j < |rows| && Clash(rows[i], rows[j]) :: !(Unresolved(rows[i]) && Unresolved(rows[j]))
    ensures var rows' := rows[id := r'];
      (forall i, j | 0 <= i < j < |rows'| && Clash(rows'[i], rows'[j]) :: !(Unresolved(rows'[i]) && Unresolved(rows'[j])))
      <==> (forall i | 0 <= i < |rows| && i != id && Clash(rows[i], rows[id]) :: !Unresolved(rows[i]))
  {
    var rows' := rows[id := r'];
    forall i | 0 <= i < |rows| && i != id && Clash(rows[i], rows[id])
      ensures Clash(rows'[i], rows'[id]) && Clash(rows'[id], rows'[i]) && rows'[i] == rows[i]
    {
    }
  }

  /** Exactly when one save of a read breaks the rule: it reopens a row beside one already unresolved. */
  lemma StaleReadBreaksTheRuleIff(w: World, k: nat)
    requires ClearInv(w) && Possible(w, SaveRead(k))
    ensures var rd := w.readers[k];
      NoClash(Step(w, SaveRead(k))) <==>
        (FreshRead(w, SaveRead(k))
         || forall i | 0 <= i < |w.rows| && i != rd.id && Clash(w.rows[i], w.rows[rd.id]) :: !Unresolved(w.rows[i]))
  {
    if FreshRead(w, SaveRead(k)) {
      StepKeepsInv(w, SaveRead(k));
      StepMovesForward(w, SaveRead(k));
      OtherStepsKeepClear(w, SaveRead(k));
    } else {
      StaleSaveReopens(w, k);
      ReopenedRowClashes(w.rows, w.readers[k].id, Step(w, SaveRead(k)).rows[w.readers[k].id]);
    }
  }

  // ---- The stale read ---------------------------------------------------------

  function FirstRow(): Row { NewRow("T", Manual, Buy, false, 1) }
  function ReadyRow(): Row { FirstRow().(prepared := true, indexed := true) }
  function AckedRow(): Row { ReadyRow().(submitted := true, state := Accepted, hasOrder := true) }
  function WorkingRow(): Row { AckedRow().(report := Some(Report(0, Working))) }
  function DoneRow(): Row { AckedRow().(report := Some(Report(0, Canceled)), state := Complete) }
  function LateRead(): Reader { Reader(0, StatusCheck, WorkingRow(), true) }

  function ReadyWorld(): World {
    World([ReadyRow()], [Unsent], [0], Submit(0, ReadyRow(), Ready), map[], map[], 0)
  }

  function AckedWorld(): World {
    World([AckedRow()], [Order(1, 0, Working)], [1], Submit(0, AckedRow(), Acked), map[], map[], 0)
  }

  function ReadWorld(): World {
    AckedWorld().(readers := map[0 := LateRead()])
  }

  function DoneWorld(): World {
    World([DoneRow()], [Order(1, 0, Canceled)], [1], Idle, map[0 := LateRead()], map[], 0)
  }

  function ReopenedWorld(): World {
    World([WorkingRow(), FirstRow()], [Order(1, 0, Canceled), Unsent], [1, 0], Submit(1, FirstRow(), Claimed), map[], map[], 0)
  }

  function Places(rest: seq<Event>): seq<Event> { [Claim("T", Manual, Buy, false, 1)] + ([Prepare] + ([Index(1)] + rest)) }
  function Sends(rest: seq<Event>): seq<Event> { [Post] + ([VenueAccepts(0)] + ([ReplyAccepted] + rest)) }
  function PageReads(rest: seq<Event>): seq<Event> { [StartRead(0, 0, StatusCheck)] + ([ReadOrder(0)] + rest) }
  function Completes(rest: seq<Event>): seq<Event> { [VenueCloses(0)] + ([SlotRead] + ([SlotSave] + rest)) }
  function NextThenLateSave(): seq<Event> { [Claim("T", Manual, Buy, false, 1)] + ([SaveRead(0)] + []) }

  predicate Leads(w: World, run: seq<Event>, w': World) {
    Runs(w, run) && After(w, run) == w'
  }

  lemma LeadsFrom(w: World, e: Event, rest: seq<Event>, mid: World, w': World)
    requires Shaped(w) && Possible(w, e) && Step(w, e) == mid && Leads(mid, rest, w')
    ensures Leads(w, [e] + rest, w')
  {
    assert ([e] + rest)[1..] == rest;
  }

  lemma PlacesLeads(rest: seq<Event>, w': World)
    requires Leads(ReadyWorld(), rest, w')
    ensures Leads(Init(0), Places(rest), w')
  {
    var prepared := FirstRow().(prepared := true);
    var w1 := World([FirstRow()], [Unsent], [0], Submit(0, FirstRow(), Claimed), map[], map[], 0);
    var w2 := World([prepared], [Unsent], [0], Submit(0, prepared, Prepared), map[], map[], 0);
    LeadsFrom(w2, Index(1), rest, ReadyWorld(), w');
    LeadsFrom(w1, Prepare, [Index(1)] + rest, w2, w');
    LeadsFrom(Init(0), Claim("T", Manual, Buy, false, 1), [Prepare] + ([Index(1)] + rest), w1, w');
  }

  lemma SendsLeads(rest: seq<Event>, w': World)
    requires Leads(AckedWorld(), rest, w')
    ensures Leads(ReadyWorld(), Sends(rest), w')
  {
    var w4 := World([ReadyRow()], [InFlight(1)], [1], Submit(0, ReadyRow().(submitted := true), Sent), map[], map[], 0);
    var w5 := w4.(venues := [Order(1, 0, Working)]);
    LeadsFrom(w5, ReplyAccepted, rest, AckedWorld(), w');
    LeadsFrom(w4, VenueAccepts(0), [ReplyAccepted] + rest, w5, w');
    LeadsFrom(ReadyWorld(), Post, [VenueAccepts(0)] + ([ReplyAccepted] + rest), w4, w');
  }

  lemma PageReadsLeads(rest: seq<Event>, w': World)
    requires Leads(ReadWorld(), rest, w')
    ensures Leads(AckedWorld(), PageReads(rest), w')
  {
    var w7 := AckedWorld().(readers := map[0 := Reader(0, StatusCheck, AckedRow(), false)]);
    LeadsFrom(w7, ReadOrder(0), rest, ReadWorld(), w');
    LeadsFrom(AckedWorld(), StartRead(0, 0, StatusCheck), [ReadOrder(0)] + rest, w7, w');
  }

  function ClosedWorld(): World {
    ReadWorld().(venues := [Order(1, 0, Canceled)])
  }

  lemma SavesLead(rest: seq<Event>, w': World)
    requires Leads(DoneWorld(), rest, w')
    ensures Leads(ClosedWorld(), [SlotRead] + ([SlotSave] + rest), w')
  {
    var w10 := ClosedWorld().(slot := Submit(0, DoneRow(), Read));
    assert Observed(AckedRow(), Order(1, 0, Canceled)) == DoneRow();
    assert Stored(AckedRow(), DoneRow()) == Ok(DoneRow());
    LeadsFrom(w10, SlotSave, rest, DoneWorld(), w');
    LeadsFrom(ClosedWorld(), SlotRead, [SlotSave] + rest, w10, w');
  }

  lemma CompletesLeads(rest: seq<Event>, w': World)
    requires Leads(DoneWorld(), rest, w')
    ensures Leads(ReadWorld(), Completes(rest), w')
  {
    SavesLead(rest, w');
    LeadsFrom(ReadWorld(), VenueCloses(0), [SlotRead] + ([SlotSave] + rest), ClosedWorld(), w');
  }

  lemma NextLeads()
    ensures Leads(DoneWorld(), NextThenLateSave(), ReopenedWorld())
  {
    var w12 := World([DoneRow(), FirstRow()], [Order(1, 0, Canceled), Unsent], [1, 0], Submit(1, FirstRow(), Claimed),
                     map[0 := LateRead()], map[], 0);
    LeadsFrom(w12, SaveRead(0), [], ReopenedWorld(), ReopenedWorld());
    assert !ClaimRefused(DoneWorld().rows, "T", Manual, Buy);
    LeadsFrom(DoneWorld(), Claim("T", Manual, Buy, false, 1), [SaveRead(0)] + [], w12, ReopenedWorld());
  }

  function StaleRun(): seq<Event> {
    Places(Sends(PageReads(Completes(NextThenLateSave()))))
  }

  /**
    The status page reads an order while it works, the order completes, the user
    places the next one, and the page's late save reopens the first: two
    unresolved orders in one market.
   */
  lemma StaleStatusCheckReopens()
    ensures Leads(Init(0), StaleRun(), ReopenedWorld()) && !NoClash(ReopenedWorld())
  {
    NextLeads();
    CompletesLeads(NextThenLateSave(), ReopenedWorld());
    PageReadsLeads(Completes(NextThenLateSave()), ReopenedWorld());
    SendsLeads(PageReads(Completes(NextThenLateSave())), ReopenedWorld());
    PlacesLeads(Sends(PageReads(Completes(NextThenLateSave()))), ReopenedWorld());
    var rows := ReopenedWorld().rows;
    assert Clash(rows[0], rows[1]) && Unresolved(rows[0]) && Unresolved(rows[1]);
  }
}
