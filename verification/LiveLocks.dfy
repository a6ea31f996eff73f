/**
  What the market locks buy: while the status page leaves the bot's rows to the worker,
  every read of a bot row is saved while the row is as unresolved as it was read.
 */
module LiveLocks {
  import opened Wrappers
  import opened LiveOrders
  import opened LiveInvariant
  import opened LiveSafety
  import opened LiveUniqueness

  /** The status page leaves the bot's rows to the worker. */
  predicate LeavesBotRows(w: World, e: Event)
    requires Shaped(w) && Possible(w, e)
  {
    e.StartRead? && e.kind == StatusCheck ==> w.rows[e.id].origin != Bot
  }

  predicate LocksHeld(w: World)
    requires Shaped(w)
  {
    && (w.slot != Idle && w.slot.mem.origin == Bot ==> w.slot.mem.ticker in w.locks && w.locks[w.slot.mem.ticker] == BySlot)
    && (forall k | k in w.readers && w.readers[k].kind == Worker ::
          var t := w.rows[w.readers[k].id].ticker; t in w.locks && w.locks[t] == ByReader(k))
  }

  /** A copy that, saved, neither reopens its row nor forgets a fill. */
  predicate Current(mem: Row, r: Row) {
    (Unresolved(mem) ==> Unresolved(r)) && Filled(r) <= Filled(mem) && mem.count <= r.count
  }

  predicate BotCopiesCurrent(w: World)
    requires Shaped(w)
  {
    && (w.slot != Idle && w.rows[w.slot.id].origin == Bot ==> Current(w.slot.mem, w.rows[w.slot.id]))
    && (forall k | k in w.readers && w.rows[w.readers[k].id].origin == Bot ::
          w.readers[k].kind == Worker && Current(w.readers[k].mem, w.rows[w.readers[k].id]))
  }

  ghost predicate LockInv(w: World) {
    Inv(w) && LocksHeld(w) && BotCopiesCurrent(w)
  }

  /** While the slot holds a bot order, no reader holds a copy of it. */
  lemma SlotIsAlone(w: World, k: nat)
    requires LockInv(w) && w.slot != Idle && w.slot.mem.origin == Bot && k in w.readers
    ensures w.readers[k].id != w.slot.id
    ensures w.readers[k].kind == Worker ==> w.rows[w.readers[k].id].ticker != w.slot.mem.ticker
  {
    assert SlotOk(w.slot, w.rows[w.slot.id], w.venues[w.slot.id]);
  }

  /** The copy the slot is about to save. */
  function SlotCopy(w: World, e: Event): Row
    requires w.slot != Idle
  {
    var mem := w.slot.mem;
    match e
    case Prepare => mem.(prepared := true)
    case Fail => mem.(state := Rejected)
    case Index(size) => mem.(indexed := true, count := size)
    case ReplyRefused => mem.(state := Rejected)
    case ReplyAccepted => mem.(state := Accepted, hasOrder := true)
    case ReplyLost => mem.(state := Unknown)
    case _ => mem
  }

  lemma SlotCopyIsCurrent(w: World, e: Event)
    requires LockInv(w) && Possible(w, e) && SlotSaves(e) && w.slot != Idle
    ensures Step(w, e).rows == SaveTo(w, w.slot.id, SlotCopy(w, e)).rows
    ensures SameOrder(SlotCopy(w, e), w.rows[w.slot.id])
    ensures w.rows[w.slot.id].origin == Bot ==> Current(SlotCopy(w, e), w.rows[w.slot.id])
  {
    var r, v := w.rows[w.slot.id], w.venues[w.slot.id];
    assert SlotOk(w.slot, r, v) && RowOk(r, v, w.posts[w.slot.id]);
  }

  lemma AfterCurrentSave(w: World, id: nat, mem: Row)
    requires id < |w.rows| && Current(mem, w.rows[id])
    ensures Stored(w.rows[id], mem).Ok? && Current(mem, SaveTo(w, id, mem).rows[id])
  {
  }

  predicate SameOrders(w: World, w': World) {
    |w.rows| == |w'.rows| && forall i | 0 <= i < |w.rows| :: SameOrder(w.rows[i], w'.rows[i])
  }

  /** The slot has saved its row and kept or released its lock. */
  lemma SlotSaveTasks(w: World, w': World)
    requires LockInv(w) && w.slot != Idle && Shaped(w') && SameOrders(w, w')
    requires w'.rows == w.rows[w.slot.id := w'.rows[w.slot.id]] && w'.readers == w.readers
    requires || w'.slot == Idle
             || (w'.slot != Idle && w'.slot.id == w.slot.id && SameOrder(w'.slot.mem, w.slot.mem)
                 && (w.slot.mem.origin == Bot ==> Current(w'.slot.mem, w'.rows[w.slot.id])))
    requires w'.locks == w.locks || (w.slot.mem.origin == Bot && w'.slot == Idle && w'.locks == w.locks - {w.slot.mem.ticker})
    ensures LocksHeld(w') && BotCopiesCurrent(w')
  {
    assert SlotOk(w.slot, w.rows[w.slot.id], w.venues[w.slot.id]);
    assert SameOrder(w.rows[w.slot.id], w'.rows[w.slot.id]);
    forall k | k in w'.readers
      ensures w'.readers[k].kind == Worker ==>
                var t := w'.rows[w'.readers[k].id].ticker; t in w'.locks && w'.locks[t] == ByReader(k)
      ensures w'.rows[w'.readers[k].id].origin == Bot ==>
                w'.readers[k].kind == Worker && Current(w'.readers[k].mem, w'.rows[w'.readers[k].id])
    {
      assert SameOrder(w.rows[w.readers[k].id], w'.rows[w'.readers[k].id]);
      if w.slot.mem.origin == Bot {
        SlotIsAlone(w, k);
      }
    }
  }

  lemma SlotSavesShape(w: World, e: Event)
    requires LockInv(w) && Possible(w, e) && SlotSaves(e) && w.slot != Idle
    ensures var w', id := Step(w, e), w.slot.id;
      && w'.venues == w.venues && w'.posts == w.posts && w'.readers == w.readers
      && (w'.slot == Idle ||
          (w'.slot != Idle && w'.slot.id == id && SameOrder(w'.slot.mem, w.slot.mem)
           && (w.slot.mem.origin == Bot ==> Current(w'.slot.mem, w'.rows[id]))))
      && (w'.locks == w.locks || (w.slot.mem.origin == Bot && w'.slot == Idle && w'.locks == w.locks - {w.slot.mem.ticker}))
  {
    var id, mem := w.slot.id, SlotCopy(w, e);
    assert SlotOk(w.slot, w.rows[id], w.venues[id]);
    SlotCopyIsCurrent(w, e);
    if w.slot.mem.origin == Bot {
      AfterCurrentSave(w, id, mem);
    }
  }

  lemma SlotSavesKeepLocks(w: World, e: Event)
    requires LockInv(w) && Possible(w, e) && SlotSaves(e) && w.slot != Idle
    requires Shaped(Step(w, e)) && RowsOk(Step(w, e))
    ensures LockParts(Step(w, e))
  {
    var id, w', mem := w.slot.id, Step(w, e), SlotCopy(w, e);
    SlotCopyIsCurrent(w, e);
    SlotSavesShape(w, e);
    SaveKeepsOrders(w, w', id, mem);
    SlotSaveTasks(w, w');
  }

  lemma SaveKeepsOrders(w: World, w': World, id: nat, mem: Row)
    requires Inv(w) && id < |w.rows| && SameOrder(mem, w.rows[id]) && w'.rows == SaveTo(w, id, mem).rows
    ensures SameOrders(w, w')
  {
  }

  /** What each step owes the locks. */
  predicate LockParts(w': World) {
    Shaped(w') && LocksHeld(w') && BotCopiesCurrent(w')
  }

  /** Steps that leave the rows, the tasks' copies and their locks alone, or drop some. */
  lemma FewerHolders(w: World, w': World, freed: set<string>)
    requires LockInv(w) && Shaped(w') && w'.rows == w.rows
    requires w'.slot == Idle || (w.slot != Idle && w'.slot != Idle && w'.slot.id == w.slot.id && SameOrder(w'.slot.mem, w.slot.mem)
                                 && (w.rows[w.slot.id].origin == Bot ==> Current(w'.slot.mem, w.rows[w.slot.id])))
    requires forall k | k in w'.readers :: k in w.readers && w'.readers[k].id == w.readers[k].id && w'.readers[k].kind == w.readers[k].kind
               && (w.rows[w.readers[k].id].origin == Bot ==> Current(w'.readers[k].mem, w.rows[w.readers[k].id]))
    requires w'.locks == w.locks - freed
    requires w'.slot != Idle && w'.slot.mem.origin == Bot ==> w'.slot.mem.ticker !in freed
    requires forall k | k in w'.readers && w'.readers[k].kind == Worker :: w.rows[w'.readers[k].id].ticker !in freed
    ensures LockParts(w')
  {
  }

  lemma ReleasesKeepLocks(w: World, e: Event)
    requires LockInv(w) && Possible(w, e) && Shaped(Step(w, e)) && (e.Abandon? || e.SlotEnds?)
    ensures LockParts(Step(w, e))
  {
    if e.Abandon? {
      FewerHolders(w, Step(w, e), {e.ticker});
    } else {
      assert SlotOk(w.slot, w.rows[w.slot.id], w.venues[w.slot.id]);
      if w.slot.mem.origin == Bot {
        forall k | k in w.readers ensures w.readers[k].kind == Worker ==> w.rows[w.readers[k].id].ticker != w.slot.mem.ticker {
          SlotIsAlone(w, k);
        }
        FewerHolders(w, Step(w, e), {w.slot.mem.ticker});
      } else {
        assert w.locks == w.locks - {};
        FewerHolders(w, Step(w, e), {});
      }
    }
  }

  lemma OutsideMovesKeepLocks(w: World, w': World)
    requires LockInv(w) && Shaped(w') && w'.rows == w.rows && w'.readers == w.readers && w'.locks == w.locks
    requires w'.slot == w.slot || (w.slot.Submit? && w'.slot == Submit(w.slot.id, w.slot.mem.(submitted := true), Sent))
    ensures LockParts(w')
  {
  }

  lemma QuietStepsKeepLocks(w: World, e: Event)
    requires LockInv(w) && Possible(w, e) && Shaped(Step(w, e))
    requires e.Repeat? || e.VenueAccepts? || e.VenueRefuses? || e.VenueFills? || e.VenueCloses? || e.Post?
    ensures LockParts(Step(w, e))
  {
    OutsideMovesKeepLocks(w, Step(w, e));
  }

  lemma CrashKeepsLocks(w: World)
    requires LockInv(w) && Possible(w, Crash)
    ensures LockParts(Step(w, Crash))
  {
  }

  lemma StartReadKeepsLocks(w: World, e: Event)
    requires LockInv(w) && Possible(w, e) && e.StartRead? && LeavesBotRows(w, e) && Shaped(Step(w, e))
    ensures LockParts(Step(w, e))
  {
    var w' := Step(w, e);
    forall k | k in w'.readers
      ensures w'.readers[k].kind == Worker ==>
                var t := w'.rows[w'.readers[k].id].ticker; t in w'.locks && w'.locks[t] == ByReader(k)
      ensures w'.rows[w'.readers[k].id].origin == Bot ==>
                w'.readers[k].kind == Worker && Current(w'.readers[k].mem, w'.rows[w'.readers[k].id])
    {
      if k != e.reader {
        assert w'.readers[k] == w.readers[k];
      }
    }
  }

  lemma ReadsKeepLocks(w: World, e: Event)
    requires LockInv(w) && Possible(w, e) && (e.ReadOrder? || e.SlotRead?) && Shaped(Step(w, e))
    ensures LockParts(Step(w, e))
  {
    var w' := Step(w, e);
    assert w'.locks == w.locks - {};
    if e.ReadOrder? {
      var rd := w.readers[e.reader];
      assert ReaderOk(rd, w.rows[rd.id], w.venues[rd.id]);
      ObservedIsCurrent(rd.mem, w.rows[rd.id], w.venues[rd.id], w.posts[rd.id]);
    } else {
      assert SlotOk(w.slot, w.rows[w.slot.id], w.venues[w.slot.id]);
      ObservedIsCurrent(w.slot.mem, w.rows[w.slot.id], w.venues[w.slot.id], w.posts[w.slot.id]);
    }
    FewerHolders(w, w', {});
  }

  /** A worker that lets go of its market's lock held it alone. */
  lemma ReaderIsAlone(w: World, k: nat, j: nat)
    requires LockInv(w) && k in w.readers && j in w.readers && j != k
    requires w.readers[k].kind == Worker && w.readers[j].kind == Worker
    ensures w.rows[w.readers[j].id].ticker != w.rows[w.readers[k].id].ticker
  {
  }

  lemma DropReadKeepsLocks(w: World, e: Event)
    requires LockInv(w) && Possible(w, e) && e.DropRead? && Shaped(Step(w, e))
    ensures LockParts(Step(w, e))
  {
    var rd := w.readers[e.reader];
    if rd.kind == Worker {
      forall j | j in w.readers && j != e.reader && w.readers[j].kind == Worker
        ensures w.rows[w.readers[j].id].ticker != w.rows[rd.id].ticker
      {
        ReaderIsAlone(w, e.reader, j);
      }
      FewerHolders(w, Step(w, e), {w.rows[rd.id].ticker});
    } else {
      assert w.locks == w.locks - {};
      FewerHolders(w, Step(w, e), {});
    }
  }

  /** What the exchange answers is never behind the journal. */
  lemma ObservedIsCurrent(mem: Row, r: Row, v: Venue, p: nat)
    requires RowOk(r, v, p) && v.Order? && CopyOk(mem, r, v)
    ensures Current(Observed(mem, v), r)
  {
  }

  /** A worker's save of a bot row: nobody else holds a copy of it, or its lock. */
  lemma ReaderSaveTasks(w: World, w': World, k: nat)
    requires LockInv(w) && k in w.readers && Shaped(w') && SameOrders(w, w')
    requires w'.rows == w.rows[w.readers[k].id := w'.rows[w.readers[k].id]] && w'.readers == w.readers - {k} && w'.slot == w.slot
    requires w'.locks == (if w.readers[k].kind == Worker then w.locks - {w.rows[w.readers[k].id].ticker} else w.locks)
    ensures LocksHeld(w') && BotCopiesCurrent(w')
  {
    var id := w.readers[k].id;
    assert SameOrder(w.rows[id], w'.rows[id]);
    if w.slot != Idle {
      assert SlotOk(w.slot, w.rows[w.slot.id], w.venues[w.slot.id]);
      if w.slot.mem.origin == Bot {
        SlotIsAlone(w, k);
      }
    }
    forall j | j in w'.readers
      ensures w'.readers[j].kind == Worker ==>
                var t := w'.rows[w'.readers[j].id].ticker; t in w'.locks && w'.locks[t] == ByReader(j)
      ensures w'.rows[w'.readers[j].id].origin == Bot ==>
                w'.readers[j].kind == Worker && Current(w'.readers[j].mem, w'.rows[w'.readers[j].id])
    {
      assert SameOrder(w.rows[w.readers[j].id], w'.rows[w'.readers[j].id]);
      if w.readers[k].kind == Worker && w.readers[j].kind == Worker {
        ReaderIsAlone(w, k, j);
      }
    }
  }

  lemma SaveReadKeepsLocks(w: World, e: Event)
    requires LockInv(w) && Possible(w, e) && e.SaveRead? && Shaped(Step(w, e)) && RowsOk(Step(w, e))
    ensures LockParts(Step(w, e))
  {
    var rd, w' := w.readers[e.reader], Step(w, e);
    assert ReaderOk(rd, w.rows[rd.id], w.venues[rd.id]);
    SaveKeepsOrders(w, w', rd.id, rd.mem);
    ReaderSaveTasks(w, w', e.reader);
  }

  lemma BeginCancelKeepsLocks(w: World, e: Event)
    requires LockInv(w) && Possible(w, e) && e.BeginCancel? && Shaped(Step(w, e)) && RowsOk(Step(w, e))
    ensures LockParts(Step(w, e))
  {
    var id, w' := e.id, Step(w, e);
    var mem := w.rows[id].(cancelRequested := true);
    SaveKeepsOrders(w, w', id, mem);
    AfterCurrentSave(w, id, mem);
    forall k | k in w'.readers
      ensures w'.readers[k].kind == Worker ==>
                var t := w'.rows[w'.readers[k].id].ticker; t in w'.locks && w'.locks[t] == ByReader(k)
      ensures w'.rows[w'.readers[k].id].origin == Bot ==>
                w'.readers[k].kind == Worker && Current(w'.readers[k].mem, w'.rows[w'.readers[k].id])
    {
      assert SameOrder(w.rows[w.readers[k].id], w'.rows[w'.readers[k].id]);
    }
  }

  lemma ClaimKeepsHolders(w: World, e: Event)
    requires LockInv(w) && Possible(w, e) && ClaimSucceeds(w, e) && Shaped(Step(w, e))
    ensures LocksHeld(Step(w, e)) && BotCopiesCurrent(Step(w, e))
  {
    var w' := Step(w, e);
    forall k | k in w'.readers ensures w'.rows[w'.readers[k].id] == w.rows[w.readers[k].id] {
    }
  }

  lemma RefusedClaimKeepsLocks(w: World, e: Event)
    requires LockInv(w) && Possible(w, e) && e.Claim? && !ClaimSucceeds(w, e) && Shaped(Step(w, e))
    ensures LockParts(Step(w, e))
  {
    if e.origin == Bot {
      FewerHolders(w, Step(w, e), {e.ticker});
    } else {
      assert w.locks == w.locks - {};
      FewerHolders(w, Step(w, e), {});
    }
  }

  lemma StepParts(w: World, e: Event)
    requires LockInv(w) && Possible(w, e) && LeavesBotRows(w, e) && !e.Decide? && !ClaimSucceeds(w, e)
    requires Inv(Step(w, e))
    ensures LockParts(Step(w, e))
  {
    if e.Claim? {
      RefusedClaimKeepsLocks(w, e);
    } else if SlotSaves(e) {
      SlotSavesKeepLocks(w, e);
    } else if e.BeginCancel? {
      BeginCancelKeepsLocks(w, e);
    } else if e.SaveRead? {
      SaveReadKeepsLocks(w, e);
    } else if e.StartRead? {
      StartReadKeepsLocks(w, e);
    } else if e.ReadOrder? || e.SlotRead? {
      ReadsKeepLocks(w, e);
    } else if e.DropRead? {
      DropReadKeepsLocks(w, e);
    } else if e.Crash? {
      CrashKeepsLocks(w);
    } else if e.Abandon? || e.SlotEnds? {
      ReleasesKeepLocks(w, e);
    } else {
      QuietStepsKeepLocks(w, e);
    }
  }

  lemma StepKeepsLocks(w: World, e: Event)
    requires LockInv(w) && Possible(w, e) && LeavesBotRows(w, e)
    ensures LockInv(Step(w, e))
  {
    StepKeepsInv(w, e);
    if ClaimSucceeds(w, e) {
      ClaimKeepsHolders(w, e);
    } else if !e.Decide? {
      StepParts(w, e);
    }
  }

  /** A read of a bot row is saved while the row is still unresolved, or brings the final word, or `save` guards it. */
  predicate FreshBotRead(w: World, e: Event)
    requires Shaped(w) && Possible(w, e)
  {
    e.SaveRead? && w.rows[w.readers[e.reader].id].origin == Bot ==> FreshRead(w, e)
  }

  predicate AllFreshBotReads(w: World, run: seq<Event>)
    requires Runs(w, run)
    decreases |run|
  {
    run == [] || (FreshBotRead(w, run[0]) && AllFreshBotReads(Step(w, run[0]), run[1..]))
  }

  predicate AllLeaveBotRows(w: World, run: seq<Event>)
    requires Runs(w, run)
    decreases |run|
  {
    run == [] || (LeavesBotRows(w, run[0]) && AllLeaveBotRows(Step(w, run[0]), run[1..]))
  }

  lemma {:induction false} RunIsFresh(w: World, run: seq<Event>)
    requires LockInv(w) && Runs(w, run) && AllLeaveBotRows(w, run)
    ensures AllFreshBotReads(w, run)
    decreases |run|
  {
    if run != [] {
      StepKeepsLocks(w, run[0]);
      RunIsFresh(Step(w, run[0]), run[1..]);
    }
  }

  /** Over every run in which the status page leaves bot rows alone, every read of a bot row is saved fresh. */
  lemma MarketLocksKeepReadsFresh(retries: nat, run: seq<Event>)
    requires Runs(Init(retries), run) && AllLeaveBotRows(Init(retries), run)
    ensures AllFreshBotReads(Init(retries), run)
  {
    InitInv(retries);
    RunIsFresh(Init(retries), run);
  }
}
