/**
  Safety over whole runs of the live order protocol, for every interleaving of
  decisions, submissions, reads, exchange moves and crashes.
 */
module LiveSafety {
  import opened Wrappers
  import opened LiveOrders
  import opened LiveInvariant

  function Init(retries: nat): World {
    World([], [], [], Idle, map[], map[], retries)
  }

  lemma InitInv(retries: nat)
    ensures Inv(Init(retries))
  {
  }

  /** Earlier rows only move forward; rows are never removed. */
  predicate Forward(w: World, w': World)
    requires Shaped(w) && Shaped(w')
  {
    && |w.rows| <= |w'.rows| && w'.retries == w.retries
    && (forall i | 0 <= i < |w.rows| :: Evolves(w.rows[i], w.venues[i], w'.rows[i], w'.venues[i]))
  }

  lemma ForwardIsTransitive(a: World, b: World, c: World)
    requires Shaped(a) && Shaped(b) && Shaped(c) && Forward(a, b) && Forward(b, c)
    ensures Forward(a, c)
  {
    forall i | 0 <= i < |a.rows| ensures Evolves(a.rows[i], a.venues[i], c.rows[i], c.venues[i]) {
      assert Evolves(a.rows[i], a.venues[i], b.rows[i], b.venues[i]);
      assert Evolves(b.rows[i], b.venues[i], c.rows[i], c.venues[i]);
    }
  }

  lemma SaveMovesForward(w: World, id: nat, mem: Row)
    requires Shaped(w) && RowsOk(w) && id < |w.rows| && CopyOk(mem, w.rows[id], w.venues[id])
    requires w.venues[id].Unsent? ==> Unresolved(w.rows[id])
    ensures Forward(w, SaveTo(w, id, mem))
  {
    SaveKeeps(w, id, mem);
  }

  lemma OneRowMovesForward(w: World, w': World, id: nat)
    requires Shaped(w) && Shaped(w') && id < |w.rows| == |w'.rows| && w'.retries == w.retries
    requires w'.rows == w.rows[id := w'.rows[id]] && w'.venues == w.venues[id := w'.venues[id]]
    requires Evolves(w.rows[id], w.venues[id], w'.rows[id], w'.venues[id])
    ensures Forward(w, w')
  {
    forall i | 0 <= i < |w.rows| ensures Evolves(w.rows[i], w.venues[i], w'.rows[i], w'.venues[i]) {
      if i != id {
        StaysPut(w.rows[i], w.venues[i]);
      }
    }
  }

  lemma SameRowsMoveForward(w: World, w': World)
    requires Shaped(w) && Shaped(w') && w'.retries == w.retries
    requires |w.rows| <= |w'.rows| && w'.rows[..|w.rows|] == w.rows && w'.venues[..|w.rows|] == w.venues
    ensures Forward(w, w')
  {
    forall i | 0 <= i < |w.rows| ensures Evolves(w.rows[i], w.venues[i], w'.rows[i], w'.venues[i]) {
      assert w'.rows[i] == w'.rows[..|w.rows|][i] && w'.venues[i] == w'.venues[..|w.rows|][i];
      StaysPut(w.rows[i], w.venues[i]);
    }
  }

  lemma PreflightMovesForward(w: World, e: Event)
    requires Inv(w) && Possible(w, e) && Shaped(Step(w, e)) && (e.Prepare? || e.Fail? || e.Index?)
    ensures Forward(w, Step(w, e))
  {
    var id := w.slot.id;
    assert SlotOk(w.slot, w.rows[id], w.venues[id]) && RowOk(w.rows[id], w.venues[id], w.posts[id]);
    OneRowMovesForward(w, Step(w, e), id);
  }

  lemma PostMovesForward(w: World, e: Event)
    requires Inv(w) && Possible(w, e) && Shaped(Step(w, e)) && (e.Post? || e.ReplyRefused?)
    ensures Forward(w, Step(w, e))
  {
    var id := w.slot.id;
    assert SlotOk(w.slot, w.rows[id], w.venues[id]) && RowOk(w.rows[id], w.venues[id], w.posts[id]);
    OneRowMovesForward(w, Step(w, e), id);
  }

  lemma ReplyMovesForward(w: World, e: Event)
    requires Inv(w) && Possible(w, e) && Shaped(Step(w, e))
    requires e.ReplyAccepted? || e.ReplyLost? || e.SlotSave? || e.CancelTouch?
    ensures Forward(w, Step(w, e))
  {
    var id := w.slot.id;
    assert SlotOk(w.slot, w.rows[id], w.venues[id]) && RowOk(w.rows[id], w.venues[id], w.posts[id]);
    var mem := if e.ReplyAccepted? then w.slot.mem.(state := Accepted, hasOrder := true)
               else if e.ReplyLost? then w.slot.mem.(state := Unknown) else w.slot.mem;
    SaveMovesForward(w, id, mem);
    assert Step(w, e).rows == SaveTo(w, id, mem).rows && Step(w, e).venues == w.venues;
  }

  lemma VenueMovesForward(w: World, e: Event)
    requires Inv(w) && Possible(w, e) && Shaped(Step(w, e))
    requires e.VenueAccepts? || e.VenueRefuses? || e.VenueFills? || e.VenueCloses?
    ensures Forward(w, Step(w, e))
  {
    assert RowOk(w.rows[e.id], w.venues[e.id], w.posts[e.id]);
    VenueMoveEvolves(w.rows[e.id], w.venues[e.id], Step(w, e).venues[e.id], w.posts[e.id]);
    OneRowMovesForward(w, Step(w, e), e.id);
  }

  lemma StepMovesForward(w: World, e: Event)
    requires Inv(w) && Possible(w, e)
    ensures Shaped(Step(w, e)) && Forward(w, Step(w, e))
  {
    StepKeepsInv(w, e);
    if e.Prepare? || e.Fail? || e.Index? {
      PreflightMovesForward(w, e);
    } else if e.Post? || e.ReplyRefused? {
      PostMovesForward(w, e);
    } else if e.ReplyAccepted? || e.ReplyLost? || e.SlotSave? || e.CancelTouch? {
      ReplyMovesForward(w, e);
    } else if e.VenueAccepts? || e.VenueRefuses? || e.VenueFills? || e.VenueCloses? {
      VenueMovesForward(w, e);
    } else if e.BeginCancel? {
      assert RowOk(w.rows[e.id], w.venues[e.id], w.posts[e.id]);
      SaveMovesForward(w, e.id, w.rows[e.id].(cancelRequested := true));
    } else if e.SaveRead? {
      var rd := w.readers[e.reader];
      assert ReaderOk(rd, w.rows[rd.id], w.venues[rd.id]);
      SaveMovesForward(w, rd.id, rd.mem);
    } else {
      OtherStepsMoveForward(w, e);
    }
  }

  lemma OtherStepsMoveForward(w: World, e: Event)
    requires Inv(w) && Possible(w, e) && Shaped(Step(w, e))
    requires || e.Decide? || e.Abandon? || e.Claim? || e.Repeat? || e.SlotRead? || e.SlotEnds?
             || e.StartRead? || e.ReadOrder? || e.DropRead? || e.Crash?
    ensures Forward(w, Step(w, e))
  {
    SameRowsMoveForward(w, Step(w, e));
  }

  predicate Runs(w: World, run: seq<Event>)
    decreases |run|
  {
    run == [] || (Shaped(w) && Possible(w, run[0]) && Runs(Step(w, run[0]), run[1..]))
  }

  function After(w: World, run: seq<Event>): World
    requires Runs(w, run)
    decreases |run|
  {
    if run == [] then w else After(Step(w, run[0]), run[1..])
  }

  lemma {:induction false} EveryRunKeepsInv(w: World, run: seq<Event>)
    requires Inv(w) && Runs(w, run)
    ensures Inv(After(w, run)) && Forward(w, After(w, run))
    decreases |run|
  {
    if run == [] {
      forall i | 0 <= i < |w.rows| ensures Evolves(w.rows[i], w.venues[i], w.rows[i], w.venues[i]) {
        StaysPut(w.rows[i], w.venues[i]);
      }
    } else {
      StepKeepsInv(w, run[0]);
      StepMovesForward(w, run[0]);
      EveryRunKeepsInv(Step(w, run[0]), run[1..]);
      ForwardIsTransitive(w, Step(w, run[0]), After(w, run));
    }
  }

  // ---- What every run guarantees -------------------------------------------

  function TrueSoldBy(r: Row, v: Venue, t: string): nat {
    if BotRow(r, t) && r.action == Sell then TrueFill(v) else 0
  }

  function TrueSold(rows: seq<Row>, venues: seq<Venue>, t: string): nat
    requires |rows| == |venues|
  {
    if rows == [] then 0
    else
      var n := |rows| - 1;
      TrueSold(rows[..n], venues[..n], t) + TrueSoldBy(rows[n], venues[n], t)
  }

  lemma {:induction false} SoldWithinExposure(rows: seq<Row>, venues: seq<Venue>, posts: seq<nat>, t: string)
    requires |rows| == |venues| == |posts|
    requires forall i | 0 <= i < |rows| :: RowOk(rows[i], venues[i], posts[i])
    ensures TrueSold(rows, venues, t) <= SellExposure(rows, venues, t)
    decreases |rows|
  {
    if rows != [] {
      var n := |rows| - 1;
      assert RowOk(rows[n], venues[n], posts[n]);
      SoldWithinExposure(rows[..n], venues[..n], posts[..n], t);
    }
  }

  /**
    With any lost replies, late acceptances, stale reads and crashes: what the bot
    has sold, plus everything its outstanding sales may still sell, never exceeds
    what it has bought.
   */
  lemma NeverOversold(retries: nat, run: seq<Event>, t: string)
    requires Runs(Init(retries), run)
    ensures var w := After(Init(retries), run);
      && |w.rows| == |w.venues|
      && TrueSold(w.rows, w.venues, t) <= SellExposure(w.rows, w.venues, t) <= TrueBought(w.rows, w.venues, t)
  {
    InitInv(retries);
    EveryRunKeepsInv(Init(retries), run);
    var w := After(Init(retries), run);
    SoldWithinExposure(w.rows, w.venues, w.posts, t);
  }

  /** At most one order of a market can still trade, and only the latest. */
  lemma OneLiveOrder(retries: nat, run: seq<Event>, i: nat, j: nat)
    requires Runs(Init(retries), run)
    requires var w := After(Init(retries), run);
             Shaped(w) && i < |w.rows| && j < |w.rows| && i != j && w.rows[i].ticker == w.rows[j].ticker
    ensures var w := After(Init(retries), run); Dead(w.rows[i], w.venues[i]) || Dead(w.rows[j], w.venues[j])
  {
    InitInv(retries);
    EveryRunKeepsInv(Init(retries), run);
  }

  /** No order is ever sent twice. */
  lemma PostedAtMostOnce(retries: nat, run: seq<Event>, i: nat)
    requires Runs(Init(retries), run) && i < |After(Init(retries), run).posts|
    ensures After(Init(retries), run).posts[i] <= 1
  {
    InitInv(retries);
    EveryRunKeepsInv(Init(retries), run);
    var w := After(Init(retries), run);
    assert RowOk(w.rows[i], w.venues[i], w.posts[i]);
  }

  /** A refunded entry attempt was never sent, and never will be. */
  lemma RefundedIsNeverSent(retries: nat, run: seq<Event>, later: seq<Event>, i: nat)
    requires Runs(Init(retries), run) && i < |After(Init(retries), run).rows|
    requires !ConsumesEntryAttempt(After(Init(retries), run).rows[i])
    requires Runs(After(Init(retries), run), later)
    ensures var w := After(After(Init(retries), run), later); i < |w.posts| && w.posts[i] == 0
  {
    InitInv(retries);
    EveryRunKeepsInv(Init(retries), run);
    var w := After(Init(retries), run);
    assert RowOk(w.rows[i], w.venues[i], w.posts[i]);
    assert Dead(w.rows[i], w.venues[i]) && w.venues[i].Unsent?;
    EveryRunKeepsInv(w, later);
    var w' := After(w, later);
    assert Evolves(w.rows[i], w.venues[i], w'.rows[i], w'.venues[i]);
    assert RowOk(w'.rows[i], w'.venues[i], w'.posts[i]);
  }

  function PostedBuyBy(r: Row, p: nat, t: string): nat {
    if BotRow(r, t) && r.action == Buy then p else 0
  }

  /** How many times the bot has sent a purchase in a market. */
  function PostedBuys(rows: seq<Row>, posts: seq<nat>, t: string): nat
    requires |rows| == |posts|
  {
    if rows == [] then 0
    else
      var n := |rows| - 1;
      PostedBuys(rows[..n], posts[..n], t) + PostedBuyBy(rows[n], posts[n], t)
  }

  lemma {:induction false} PostedConsume(rows: seq<Row>, venues: seq<Venue>, posts: seq<nat>, t: string)
    requires |rows| == |venues| == |posts|
    requires forall i | 0 <= i < |rows| :: RowOk(rows[i], venues[i], posts[i])
    ensures PostedBuys(rows, posts, t) <= Attempts(rows, t)
    decreases |rows|
  {
    if rows != [] {
      var n := |rows| - 1;
      assert RowOk(rows[n], venues[n], posts[n]);
      PostedConsume(rows[..n], venues[..n], posts[..n], t);
    }
  }

  /** The bot sends at most `retries + 1` purchases in a market over any run. */
  lemma EntriesAreBounded(retries: nat, run: seq<Event>, t: string)
    requires Runs(Init(retries), run)
    ensures var w := After(Init(retries), run); |w.rows| == |w.posts| && PostedBuys(w.rows, w.posts, t) <= retries + 1
  {
    InitInv(retries);
    EveryRunKeepsInv(Init(retries), run);
    var w := After(Init(retries), run);
    PostedConsume(w.rows, w.venues, w.posts, t);
    assert Attempts(w.rows, t) <= w.retries + 1;
  }

  /** Once a bot order of a market has traded, the bot claims no purchase there again: one entry, one side. */
  lemma NoEntryAfterATrade(retries: nat, run: seq<Event>, later: seq<Event>, i: nat, j: nat)
    requires Runs(Init(retries), run) && Runs(After(Init(retries), run), later)
    requires var w := After(Init(retries), run); Shaped(w) && i < |w.rows| && w.rows[i].origin == Bot && TrueFill(w.venues[i]) > 0
    requires var w' := After(After(Init(retries), run), later);
             i < j < |w'.rows| && w'.rows[j].origin == Bot && w'.rows[j].ticker == After(Init(retries), run).rows[i].ticker
    ensures After(After(Init(retries), run), later).rows[j].action == Sell
  {
    InitInv(retries);
    EveryRunKeepsInv(Init(retries), run);
    var w := After(Init(retries), run);
    EveryRunKeepsInv(w, later);
    var w' := After(w, later);
    assert Evolves(w.rows[i], w.venues[i], w'.rows[i], w'.venues[i]);
    assert TrueFill(w'.venues[i]) > 0;
  }
}
