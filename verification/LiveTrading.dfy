/**
  The journal and task state of `ManualTrading` and `LiveAutomation` as one object
  whose methods are the steps of the protocol.
 */
module LiveTrading {
  import opened Wrappers
  import opened LiveOrders
  import opened LiveInvariant
  import opened LiveSafety

  datatype ClaimError = UnresolvedOrder | DifferentInstructions

  predicate SameInstructions(r: Row, ticker: string, action: Action, resting: bool, count: nat) {
    r.ticker == ticker && r.action == action && r.count == count && r.resting == resting
  }

  /**
    The journal and the in-memory state of the two source classes. Each method is
    one stretch of code between awaits; the exchange is what the ghost fields say.
   */
  class LiveClient {
    var rows: seq<Row>
    var slot: Slot
    var readers: map<nat, Reader>
    var locks: map<string, Owner>
    const retries: nat
    ghost var venues: seq<Venue>
    ghost var posts: seq<nat>

    ghost function View(): World
      reads this
    {
      World(rows, venues, posts, slot, readers, locks, retries)
    }

    constructor (retries: nat)
      ensures View() == Init(retries)
    {
      this.retries := retries;
      rows, slot, readers, locks, venues, posts := [], Idle, map[], map[], [], [];
    }

    /** The counting of `_step_market`: recorded fills and consumed attempts of one market. */
    method Count(t: string) returns (bought: nat, sold: nat, attempts: nat, resting: bool)
      ensures bought == Bought(rows, t) && sold == Sold(rows, t) && attempts == Attempts(rows, t)
      ensures resting == HasRestingRow(rows, t)
    {
      bought, sold, attempts, resting := 0, 0, 0, false;
      for i := 0 to |rows|
        invariant bought == Bought(rows[..i], t) && sold == Sold(rows[..i], t) && attempts == Attempts(rows[..i], t)
        invariant resting == HasRestingRow(rows[..i], t)
      {
        var r := rows[i];
        assert rows[..i + 1][..i] == rows[..i];
        if BotRow(r, t) {
          if r.action == Buy {
            bought := bought + Filled(r);
            attempts := attempts + if ConsumesEntryAttempt(r) then 1 else 0;
          } else {
            sold := sold + Filled(r);
          }
          if r.resting {
            assert BotRow(rows[..i + 1][i], t) && rows[..i + 1][i].resting;
            resting := true;
          }
        }
      }
      assert rows[..|rows|] == rows;
    }

    method AnyPending(t: string, held: nat) returns (pending: bool)
      ensures pending == exists i | 0 <= i < |rows| :: OutcomePending(rows[i], t, held)
    {
      for i := 0 to |rows|
        invariant forall k | 0 <= k < i :: !OutcomePending(rows[k], t, held)
      {
        if OutcomePending(rows[i], t, held) {
          return true;
        }
      }
      return false;
    }

    /**
      `_step_market` up to its submission: `wanted` is what prices, holdings and
      controls ask for. It is taken exactly when the journal permits it.
     */
    method DecideMarket(t: string, wanted: Decision) returns (taken: bool)
      requires Shaped(View()) && t !in locks
      modifies this`locks
      ensures taken == Permits(rows, t, retries, wanted)
      ensures View() == if taken then Step(old(View()), Decide(t, wanted)) else old(View())
    {
      var bought, sold, attempts, resting := Count(t);
      var held := if sold <= bought then bought - sold else 0;
      if wanted.count == 0 || (bought > 0 && held == 0) {
        return false;
      }
      var pending := AnyPending(t, held);
      if pending {
        return false;
      }
      if held > 0 {
        taken := wanted.action == Sell && wanted.count <= held && !(wanted.resting && resting);
      } else {
        taken := wanted.action == Buy && !wanted.resting && attempts < retries + 1;
      }
      if taken {
        locks := locks[t := ByDecision(wanted)];
      }
    }

    /** `claim`, for a new id or one already in the journal. */
    method ClaimOrder(known: Option<nat>, t: string, origin: Origin, action: Action, resting: bool, count: nat)
      returns (r: Result<(nat, bool), ClaimError>)
      requires Shaped(View()) && Possible(View(), Claim(t, origin, action, resting, count))
      requires known.Some? ==> known.value < |rows|
      modifies this
      ensures known.Some? ==> View() == old(View())
      ensures known.Some? ==>
                r == (if SameInstructions(rows[known.value], t, action, resting, count) then Ok((known.value, false))
                      else Raised(DifferentInstructions))
      ensures known.None? ==> View() == Step(old(View()), Claim(t, origin, action, resting, count))
      ensures known.None? ==>
                r == (if ClaimRefused(old(rows), t, origin, action) then Raised(UnresolvedOrder) else Ok((|old(rows)|, true)))
    {
      if known.Some? {
        if SameInstructions(rows[known.value], t, action, resting, count) {
          return Ok((known.value, false));
        }
        return Raised(DifferentInstructions);
      }
      for i := 0 to |rows|
        invariant forall k | 0 <= k < i :: !BlocksClaim(rows[k], t, origin, action)
        invariant View() == old(View())
      {
        if BlocksClaim(rows[i], t, origin, action) {
          if origin == Bot {
            locks := locks - {t};
          }
          return Raised(UnresolvedOrder);
        }
      }
      var row, id := NewRow(t, origin, action, resting, count), |rows|;
      rows, venues, posts := rows + [row], venues + [Unsent], posts + [0];
      slot := Submit(id, row, Claimed);
      if origin == Bot {
        locks := locks[t := BySlot];
      }
      return Ok((id, true));
    }

    /** `save`. */
    method Save(id: nat, row: Row) returns (r: Result<Row, SaveError>)
      requires id < |rows|
      modifies this`rows
      ensures r == Stored(old(rows)[id], row)
      ensures rows == if r.Ok? then old(rows)[id := r.value] else old(rows)
    {
      var previous, merged := rows[id], row;
      if previous.resting {
        if previous.state == Complete && Unresolved(row) {
          return Ok(previous);
        }
        if Filled(row) < Filled(previous) {
          return Raised(FillRegressed);
        }
        if previous.cancelRequested {
          merged := merged.(cancelRequested := true);
        }
      }
      merged := merged.(prepared := previous.prepared || row.prepared, submitted := previous.submitted || row.submitted);
      rows := rows[id := merged];
      return Ok(merged);
    }

    /** The end of a cancellation, or a task cancelled at an await: the slot is freed, the journal stays. */
    method LeaveSlot()
      requires slot != Idle
      modifies this`slot, this`locks
      ensures Shaped(old(View())) ==> View() == Step(old(View()), SlotEnds)
      ensures View() == Release(old(View()), old(slot).mem.ticker, old(slot).mem.origin == Bot)
    {
      if slot.mem.origin == Bot {
        locks := locks - {slot.mem.ticker};
      }
      slot := Idle;
    }

    /** Saves the slot's row in a new state and leaves the slot, as every outcome of `_submit` does. */
    method FinishSubmit(state: RowState)
      requires Shaped(View()) && slot.Submit?
      modifies this`rows, this`slot, this`locks
      ensures View() == Release(SaveTo(old(View()), old(slot).id, old(slot).mem.(state := state)),
                                old(slot).mem.ticker, old(slot).mem.origin == Bot)
    {
      var _ := Save(slot.id, slot.mem.(state := state));
      LeaveSlot();
    }

    method StartPreflight()
      requires Shaped(View()) && Possible(View(), Prepare)
      modifies this
      ensures View() == Step(old(View()), Prepare)
    {
      var mem := slot.mem.(prepared := true);
      var _ := Save(slot.id, mem);
      slot := Submit(slot.id, mem, Prepared);
    }

    method FailPreflight()
      requires Shaped(View()) && Possible(View(), Fail)
      modifies this
      ensures View() == Step(old(View()), Fail)
    {
      FinishSubmit(Rejected);
    }

    /** The checks are through: the row learns its exchange and, for a stop, the size it may still sell. */
    method PassPreflight(size: nat)
      requires Shaped(View()) && Possible(View(), Index(size))
      modifies this
      ensures View() == Step(old(View()), Index(size))
    {
      var mem := slot.mem.(indexed := true, count := size);
      var _ := Save(slot.id, mem);
      slot := Submit(slot.id, mem, Ready);
    }

    method SendOrder() returns (count: nat)
      requires Shaped(View()) && Possible(View(), Post)
      modifies this
      ensures View() == Step(old(View()), Post) && count == old(slot).mem.count
    {
      count := slot.mem.count;
      venues := venues[slot.id := InFlight(count)];
      posts := posts[slot.id := posts[slot.id] + 1];
      slot := Submit(slot.id, slot.mem.(submitted := true), Sent);
    }

    method OnRefused()
      requires Shaped(View()) && Possible(View(), ReplyRefused)
      modifies this
      ensures View() == Step(old(View()), ReplyRefused)
    {
      FinishSubmit(Rejected);
    }

    method OnAccepted()
      requires Shaped(View()) && Possible(View(), ReplyAccepted)
      modifies this
      ensures View() == Step(old(View()), ReplyAccepted)
    {
      var mem := slot.mem.(state := Accepted, hasOrder := true);
      var _ := Save(slot.id, mem);
      slot := Submit(slot.id, mem, Acked);
    }

    method OnLostReply()
      requires Shaped(View()) && Possible(View(), ReplyLost)
      modifies this
      ensures View() == Step(old(View()), ReplyLost)
    {
      FinishSubmit(Unknown);
    }

    /** `reconcile` inside the slot: the exchange's answer, then its save. */
    method OnOrderRead(order: Venue)
      requires Shaped(View()) && Possible(View(), SlotRead) && order == venues[slot.id]
      modifies this
      ensures View() == Step(old(View()), SlotRead)
    {
      var mem := Observed(slot.mem, order);
      slot := if slot.Submit? then Submit(slot.id, mem, Read) else Cancel(slot.id, mem, true);
    }

    method SaveSlotRead()
      requires Shaped(View()) && Possible(View(), SlotSave)
      modifies this
      ensures View() == Step(old(View()), SlotSave)
    {
      var _ := Save(slot.id, slot.mem);
      if slot.Submit? {
        LeaveSlot();
      } else {
        slot := Cancel(slot.id, rows[slot.id], false);
      }
    }

    /** The start of `cancel_resting`. */
    method RequestCancel(id: nat)
      requires Shaped(View()) && Possible(View(), BeginCancel(id))
      modifies this
      ensures View() == Step(old(View()), BeginCancel(id))
    {
      var mem := rows[id].(cancelRequested := true);
      var _ := Save(id, mem);
      slot := Cancel(id, mem, false);
      locks := locks[mem.ticker := BySlot];
    }

    /** A reconciliation outside the slot: load, read, save. */
    method LoadForRead(k: nat, id: nat, kind: ReaderKind)
      requires Shaped(View()) && Possible(View(), StartRead(k, id, kind))
      modifies this
      ensures View() == Step(old(View()), StartRead(k, id, kind))
    {
      readers := readers[k := Reader(id, kind, rows[id], false)];
      if kind == Worker {
        locks := locks[rows[id].ticker := ByReader(k)];
      }
    }

    method OnReaderRead(k: nat, order: Venue)
      requires Shaped(View()) && Possible(View(), ReadOrder(k)) && order == venues[readers[k].id]
      modifies this
      ensures View() == Step(old(View()), ReadOrder(k))
    {
      var r := readers[k];
      readers := readers[k := r.(mem := Observed(r.mem, order), observed := true)];
    }

    method SaveReaderRead(k: nat)
      requires Shaped(View()) && Possible(View(), SaveRead(k))
      modifies this
      ensures View() == Step(old(View()), SaveRead(k))
    {
      var r := readers[k];
      var _ := Save(r.id, r.mem);
      readers := readers - {k};
      if r.kind == Worker {
        locks := locks - {rows[r.id].ticker};
      }
    }
  }
}
