/**
  The journal's own figures: when recorded bot sales stay covered by recorded bot
  purchases, exactly when one late save uncovers them, and a run in which it does.
 */
module LiveJournal {
  import opened Wrappers
  import opened LiveOrders
  import opened LiveInvariant
  import opened LiveSafety
  import opened LiveUniqueness
  import opened LiveLocks

  /** A recorded sale counts its fills, or its whole size while unresolved. */
  function RecordedBy(r: Row): nat {
    if Unresolved(r) then r.count else Filled(r)
  }

  function RecordedSaleBy(r: Row, t: string): nat {
    if BotRow(r, t) && r.action == Sell then RecordedBy(r) else 0
  }

  function RecordedSales(rows: seq<Row>, t: string): nat {
    if rows == [] then 0 else RecordedSales(rows[..|rows| - 1], t) + RecordedSaleBy(rows[|rows| - 1], t)
  }

  // ---- Every sale fits what was bought before it ------------------------------

  /** A bot sale, at its whole size, fits what earlier purchases left after earlier sales. */
  predicate SaleFits(w: World, j: nat)
    requires Shaped(w) && j < |w.rows|
  {
    var t := w.rows[j].ticker;
    BotSale(w.rows[j]) ==>
      TrueSold(w.rows[..j], w.venues[..j], t) + w.rows[j].count <= TrueBought(w.rows[..j], w.venues[..j], t)
  }

  predicate AllSalesFit(w: World)
    requires Shaped(w)
  {
    forall j | 0 <= j < |w.rows| :: SaleFits(w, j)
  }

  /** Dead orders of a market trade no more. */
  lemma {:induction false} DeadSumsStay(rows: seq<Row>, venues: seq<Venue>, rows': seq<Row>, venues': seq<Venue>, t: string)
    requires |rows| == |venues| == |rows'| == |venues'|
    requires forall i | 0 <= i < |rows| :: SameOrder(rows[i], rows'[i]) && (rows[i].ticker == t ==> venues'[i] == venues[i])
    ensures TrueSold(rows', venues', t) == TrueSold(rows, venues, t) && TrueBought(rows', venues', t) == TrueBought(rows, venues, t)
    decreases |rows|
  {
    if rows != [] {
      var n := |rows| - 1;
      assert SameOrder(rows[n], rows'[n]);
      DeadSumsStay(rows[..n], venues[..n], rows'[..n], venues'[..n], t);
    }
  }

  /** No save makes an order larger. */
  lemma CountsNeverGrow(w: World, e: Event, i: nat)
    requires Inv(w) && Possible(w, e) && i < |w.rows| && i < |Step(w, e).rows|
    ensures Step(w, e).rows[i].count <= w.rows[i].count
  {
    if SlotSaves(e) {
      assert SlotOk(w.slot, w.rows[w.slot.id], w.venues[w.slot.id]);
      SlotCountsNeverGrow(w, e, i);
    } else if e.SaveRead? {
      var rd := w.readers[e.reader];
      assert ReaderOk(rd, w.rows[rd.id], w.venues[rd.id]);
    } else if e.BeginCancel? {
    } else {
      OthersKeepRows(w, e, i);
    }
  }

  lemma SlotCountsNeverGrow(w: World, e: Event, i: nat)
    requires Shaped(w) && Possible(w, e) && SlotSaves(e) && i < |w.rows| && i < |Step(w, e).rows|
    requires w.slot != Idle && w.slot.mem.count == w.rows[w.slot.id].count
    ensures Step(w, e).rows[i].count <= w.rows[i].count
  {
    SlotSavesItsRow(w, e, i);
  }

  lemma OldSaleStillFits(w: World, e: Event, j: nat)
    requires Inv(w) && AllSalesFit(w) && Possible(w, e) && Shaped(Step(w, e)) && Forward(w, Step(w, e)) && j < |w.rows|
    ensures SaleFits(Step(w, e), j)
  {
    var w', t := Step(w, e), w.rows[j].ticker;
    assert Evolves(w.rows[j], w.venues[j], w'.rows[j], w'.venues[j]);
    assert SaleFits(w, j);
    CountsNeverGrow(w, e, j);
    forall i | 0 <= i < j ensures SameOrder(w.rows[i], w'.rows[i]) && (w.rows[i].ticker == t ==> w'.venues[i] == w.venues[i]) {
      assert Evolves(w.rows[i], w.venues[i], w'.rows[i], w'.venues[i]);
    }
    DeadSumsStay(w.rows[..j], w.venues[..j], w'.rows[..j], w'.venues[..j], t);
  }

  lemma NewSaleFits(w: World, e: Event)
    requires Inv(w) && Possible(w, e) && ClaimSucceeds(w, e) && Shaped(Step(w, e))
    ensures SaleFits(Step(w, e), |w.rows|)
  {
    var w', n := Step(w, e), |w.rows|;
    assert w'.rows[..n] == w.rows && w'.venues[..n] == w.venues;
    if e.origin == Bot {
      assert DecisionOk(w, e.ticker, Decision(e.action, e.resting, e.count));
      SoldWithinExposure(w.rows, w.venues, w.posts, e.ticker);
    }
  }

  lemma StepKeepsFit(w: World, e: Event)
    requires Inv(w) && AllSalesFit(w) && Possible(w, e) && Shaped(Step(w, e)) && Forward(w, Step(w, e))
    ensures AllSalesFit(Step(w, e))
  {
    var w' := Step(w, e);
    forall j | 0 <= j < |w'.rows| ensures SaleFits(w', j) {
      if j < |w.rows| {
        OldSaleStillFits(w, e, j);
      } else {
        OnlyClaimsAddRows(w, e);
        NewSaleFits(w, e);
      }
    }
  }

  lemma OnlyClaimsAddRows(w: World, e: Event)
    requires Shaped(w) && Possible(w, e)
    ensures |Step(w, e).rows| == |w.rows| + if ClaimSucceeds(w, e) then 1 else 0
  {
  }

  // ---- Earlier bot rows stay resolved -----------------------------------------

  /** A bot row with a later order in its market is resolved, and no task is about to reopen it. */
  predicate EarlierBotResolved(w: World)
    requires Shaped(w)
  {
    forall i, j | 0 <= i < j < |w.rows| && w.rows[i].ticker == w.rows[j].ticker && w.rows[i].origin == Bot ::
      !Unresolved(w.rows[i]) && (w.slot == Idle || w.slot.id != i)
  }

  ghost predicate JournalInv(w: World) {
    Inv(w) && AllSalesFit(w) && EarlierBotResolved(w)
  }

  lemma FreshBotReadReopensNothing(w: World, e: Event, i: nat)
    requires Inv(w) && Possible(w, e) && FreshBotRead(w, e) && i < |w.rows| && i < |Step(w, e).rows|
    requires w.rows[i].origin == Bot && Unresolved(Step(w, e).rows[i])
    ensures Unresolved(w.rows[i]) || (w.slot != Idle && w.slot.id == i)
  {
    if e.SaveRead? && w.readers[e.reader].id != i {
    } else {
      OnlySlotReopens(w, e, i);
    }
  }

  lemma ClaimKeepsEarlier(w: World, e: Event)
    requires JournalInv(w) && Possible(w, e) && ClaimSucceeds(w, e) && Shaped(Step(w, e))
    ensures EarlierBotResolved(Step(w, e))
  {
    ClaimMeansResolved(w.rows, e.ticker, e.origin, e.action);
    var w' := Step(w, e);
    forall i, j | 0 <= i < j < |w'.rows| && w'.rows[i].ticker == w'.rows[j].ticker && w'.rows[i].origin == Bot
      ensures !Unresolved(w'.rows[i]) && w'.slot.id != i
    {
      assert w'.rows[i] == w.rows[i];
    }
  }

  lemma OthersKeepEarlier(w: World, e: Event)
    requires JournalInv(w) && Possible(w, e) && FreshBotRead(w, e) && !ClaimSucceeds(w, e)
    requires Shaped(Step(w, e)) && Forward(w, Step(w, e))
    ensures EarlierBotResolved(Step(w, e))
  {
    var w' := Step(w, e);
    SlotStaysOrBegins(w, e);
    forall i, j | 0 <= i < j < |w'.rows| && w'.rows[i].ticker == w'.rows[j].ticker && w'.rows[i].origin == Bot
      ensures !Unresolved(w'.rows[i]) && (w'.slot == Idle || w'.slot.id != i)
    {
      assert Evolves(w.rows[i], w.venues[i], w'.rows[i], w'.venues[i]) && Evolves(w.rows[j], w.venues[j], w'.rows[j], w'.venues[j]);
      if Unresolved(w'.rows[i]) {
        FreshBotReadReopensNothing(w, e, i);
      }
    }
  }

  lemma {:induction false} RunKeepsJournal(w: World, run: seq<Event>)
    requires JournalInv(w) && Runs(w, run) && AllFreshBotReads(w, run)
    ensures JournalInv(After(w, run))
    decreases |run|
  {
    if run != [] {
      StepKeepsInv(w, run[0]);
      StepMovesForward(w, run[0]);
      StepKeepsFit(w, run[0]);
      if ClaimSucceeds(w, run[0]) {
        ClaimKeepsEarlier(w, run[0]);
      } else {
        OthersKeepEarlier(w, run[0]);
      }
      RunKeepsJournal(Step(w, run[0]), run[1..]);
    }
  }

  // ---- Recorded sales are covered ---------------------------------------------

  predicate BotResolved(rows: seq<Row>, t: string) {
    forall i | 0 <= i < |rows| && BotRow(rows[i], t) :: !Unresolved(rows[i])
  }

  /** Where a market's bot rows are resolved, the recorded figures are the true ones. */
  lemma {:induction false} BotFiguresAreTrue(rows: seq<Row>, venues: seq<Venue>, posts: seq<nat>, t: string)
    requires |rows| == |venues| == |posts| && BotResolved(rows, t)
    requires forall i | 0 <= i < |rows| :: RowOk(rows[i], venues[i], posts[i])
    ensures Bought(rows, t) == TrueBought(rows, venues, t)
    ensures RecordedSales(rows, t) == TrueSold(rows, venues, t) == SellExposure(rows, venues, t)
    decreases |rows|
  {
    if rows != [] {
      var n := |rows| - 1;
      assert RowOk(rows[n], venues[n], posts[n]);
      if BotRow(rows[n], t) {
        ResolvedIsDead(rows[n], venues[n], posts[n]);
      }
      BotFiguresAreTrue(rows[..n], venues[..n], posts[..n], t);
    }
  }

  /** Rows of other markets, and manual ones, count for nothing. */
  lemma {:induction false} NothingAfter(rows: seq<Row>, t: string, u: nat)
    requires u < |rows| && forall i | u < i < |rows| :: !BotRow(rows[i], t)
    ensures RecordedSales(rows, t) == RecordedSales(rows[..u], t) + RecordedSaleBy(rows[u], t)
    ensures Bought(rows, t) == Bought(rows[..u], t) + BoughtBy(rows[u], t)
    decreases |rows|
  {
    var n := |rows| - 1;
    if u < n {
      assert rows[..n][..u] == rows[..u];
      NothingAfter(rows[..n], t, u);
    }
  }

  lemma {:induction false} NothingSoldYet(rows: seq<Row>, venues: seq<Venue>, t: string)
    requires |rows| == |venues| && forall i | 0 <= i < |rows| && BotRow(rows[i], t) :: TrueFill(venues[i]) == 0
    ensures TrueSold(rows, venues, t) == 0
    decreases |rows|
  {
    if rows != [] {
      var n := |rows| - 1;
      NothingSoldYet(rows[..n], venues[..n], t);
    }
  }

  lemma OpenOrderIsCovered(w: World, t: string, u: nat)
    requires JournalInv(w) && u < |w.rows| && BotRow(w.rows[u], t) && Unresolved(w.rows[u])
    ensures RecordedSales(w.rows, t) <= Bought(w.rows, t)
  {
    NothingAfter(w.rows, t, u);
    var rows, venues, posts := w.rows[..u], w.venues[..u], w.posts[..u];
    assert BotResolved(rows, t);
    BotFiguresAreTrue(rows, venues, posts, t);
    if w.rows[u].action == Sell {
      assert SaleFits(w, u);
    } else {
      NothingSoldYet(rows, venues, t);
    }
  }

  lemma JournalIsCovered(w: World, t: string)
    requires JournalInv(w)
    ensures RecordedSales(w.rows, t) <= Bought(w.rows, t)
  {
    if u :| 0 <= u < |w.rows| && BotRow(w.rows[u], t) && Unresolved(w.rows[u]) {
      OpenOrderIsCovered(w, t, u);
    } else {
      BotFiguresAreTrue(w.rows, w.venues, w.posts, t);
      assert SellExposure(w.rows, w.venues, t) <= TrueBought(w.rows, w.venues, t);
    }
  }

  /**
    By the journal's own figures: where reads of bot rows are saved fresh, whoever made
    them, recorded bot sales, an unresolved one counted whole, never exceed recorded bot
    purchases, and only the latest order of a market can be an unresolved bot order.
   */
  lemma RecordedSalesAreCovered(retries: nat, run: seq<Event>, t: string)
    requires Runs(Init(retries), run) && AllFreshBotReads(Init(retries), run)
    ensures var w := After(Init(retries), run);
      && RecordedSales(w.rows, t) <= Bought(w.rows, t)
      && forall i, j | 0 <= i < j < |w.rows| && BotRow(w.rows[i], t) && w.rows[j].ticker == t :: !Unresolved(w.rows[i])
  {
    InitInv(retries);
    RunKeepsJournal(Init(retries), run);
    JournalIsCovered(After(Init(retries), run), t);
  }

  /** In particular while the status page leaves bot rows to the worker, whatever happens to manual rows. */
  lemma LocksKeepSalesCovered(retries: nat, run: seq<Event>, t: string)
    requires Runs(Init(retries), run) && AllLeaveBotRows(Init(retries), run)
    ensures RecordedSales(After(Init(retries), run).rows, t) <= Bought(After(Init(retries), run).rows, t)
  {
    MarketLocksKeepReadsFresh(retries, run);
    RecordedSalesAreCovered(retries, run, t);
  }

  // ---- One late save ----------------------------------------------------------

  lemma {:induction false} SumsWithOneChanged(rows: seq<Row>, id: nat, r': Row, t: string)
    requires id < |rows| && SameOrder(rows[id], r')
    ensures RecordedSales(rows[id := r'], t) == RecordedSales(rows, t) - RecordedSaleBy(rows[id], t) + RecordedSaleBy(r', t)
    ensures Bought(rows[id := r'], t) == Bought(rows, t) - BoughtBy(rows[id], t) + BoughtBy(r', t)
    decreases |rows|
  {
    var n := |rows| - 1;
    if id == n {
      assert rows[id := r'][..n] == rows[..n];
    } else {
      assert rows[id := r'][..n] == rows[..n][id := r'];
      SumsWithOneChanged(rows[..n], id, r', t);
    }
  }

  /**
    Exactly when a late save of a bot row uncovers the market: recorded sales, the reopened
    sale counted whole again, exceed what remains recorded as bought.
   */
  lemma LateSaveUncoversIff(w: World, k: nat)
    requires Inv(w) && Possible(w, SaveRead(k)) && !FreshRead(w, SaveRead(k)) && w.rows[w.readers[k].id].origin == Bot
    ensures var id, mem, rows := w.readers[k].id, w.readers[k].mem, w.rows;
      var r, t, rows' := rows[id], rows[id].ticker, Step(w, SaveRead(k)).rows;
      RecordedSales(rows', t) > Bought(rows', t)
      <==> RecordedSales(rows, t) + (if r.action == Sell then r.count - Filled(r) else 0)
           > Bought(rows, t) - (if r.action == Buy then Filled(r) - Filled(mem) else 0)
  {
    var id, mem := w.readers[k].id, w.readers[k].mem;
    var r' := Step(w, SaveRead(k)).rows[id];
    assert ReaderOk(w.readers[k], w.rows[id], w.venues[id]) && RowOk(w.rows[id], w.venues[id], w.posts[id]);
    StaleSaveReopens(w, k);
    LateSaveStores(w, k);
    SumsWithOneChanged(w.rows, id, r', w.rows[id].ticker);
  }

  lemma LateSaveStores(w: World, k: nat)
    requires Inv(w) && Possible(w, SaveRead(k)) && !FreshRead(w, SaveRead(k))
    ensures var id, mem := w.readers[k].id, w.readers[k].mem;
      var r' := Step(w, SaveRead(k)).rows[id];
      r'.count == w.rows[id].count && r'.report == mem.report && !Unresolved(w.rows[id]) && Unresolved(r')
  {
    var rd := w.readers[k];
    assert ReaderOk(rd, w.rows[rd.id], w.venues[rd.id]);
  }
}
