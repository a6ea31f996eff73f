/**
  A run in which the status page's late save of a bot purchase leaves a recorded sale
  without the purchase that covered it.
 */
module LiveLateSave {
  import opened Wrappers
  import opened LiveOrders
  import opened LiveInvariant
  import opened LiveSafety
  import opened LiveUniqueness
  import opened LiveLocks
  import opened LiveJournal

  function NewBotRow(action: Action): Row { NewRow("T", Bot, action, false, 1) }
  function BotReady(action: Action): Row { NewBotRow(action).(prepared := true, indexed := true) }
  function BotAcked(action: Action): Row { BotReady(action).(submitted := true, state := Accepted, hasOrder := true) }
  function BotDone(action: Action): Row { BotAcked(action).(report := Some(Report(1, Executed)), state := Complete) }
  function LateBuy(): Row { BotAcked(Buy).(report := Some(Report(0, Working))) }
  function LatePage(): map<nat, Reader> { map[0 := Reader(0, StatusCheck, LateBuy(), true)] }

  const Full := Order(1, 1, Executed)

  /** What the orders before the current one have left behind. */
  datatype Past = Past(rows: seq<Row>, venues: seq<Venue>, posts: seq<nat>, readers: map<nat, Reader>)

  function Start(p: Past): World {
    World(p.rows, p.venues, p.posts, Idle, p.readers, map[], 0)
  }

  /** The current order with its row, its fate, its POST count and the slot that holds it. */
  function Holding(p: Past, r: Row, v: Venue, posts: nat, mem: Row, phase: Phase): World {
    World(p.rows + [r], p.venues + [v], p.posts + [posts], Submit(|p.rows|, mem, phase), p.readers, map["T" := BySlot], 0)
  }

  function Finished(p: Past, action: Action): Past {
    Past(p.rows + [BotDone(action)], p.venues + [Full], p.posts + [1], p.readers)
  }

  predicate PastOk(p: Past) {
    && |p.rows| == |p.venues| == |p.posts|
    && (forall i | 0 <= i < |p.rows| :: !Unresolved(p.rows[i]))
    && (forall k | k in p.readers :: p.readers[k].id <= |p.rows|)
  }

  lemma ChangesLast<T>(s: seq<T>, a: T, b: T)
    ensures (s + [a])[|s| := b] == s + [b] && (s + [a])[|s|] == a
  {
  }

  function Opens(action: Action, rest: seq<Event>): seq<Event> {
    [Decide("T", Decision(action, false, 1))] + ([Claim("T", Bot, action, false, 1)] + ([Prepare] + ([Index(1)] + rest)))
  }

  lemma OpensLeads(p: Past, action: Action, rest: seq<Event>, w': World)
    requires PastOk(p) && (forall k | k in p.readers :: p.readers[k].id < |p.rows|) && Permits(p.rows, "T", 0, Decision(action, false, 1))
    requires Leads(Holding(p, BotReady(action), Unsent, 0, BotReady(action), Ready), rest, w')
    ensures Leads(Start(p), Opens(action, rest), w')
  {
    var d, r, id := Decision(action, false, 1), NewBotRow(action), |p.rows|;
    var prepared := r.(prepared := true);
    var w1 := Start(p).(locks := map["T" := ByDecision(d)]);
    var w2 := Holding(p, r, Unsent, 0, r, Claimed);
    var w3 := Holding(p, prepared, Unsent, 0, prepared, Prepared);
    ChangesLast(p.rows, r, prepared);
    ChangesLast(p.rows, prepared, BotReady(action));
    LeadsFrom(w3, Index(1), rest, Holding(p, BotReady(action), Unsent, 0, BotReady(action), Ready), w');
    LeadsFrom(w2, Prepare, [Index(1)] + rest, w3, w');
    assert !ClaimRefused(p.rows, "T", Bot, action);
    LeadsFrom(w1, Claim("T", Bot, action, false, 1), [Prepare] + ([Index(1)] + rest), w2, w');
    LeadsFrom(Start(p), Decide("T", d), [Claim("T", Bot, action, false, 1)] + ([Prepare] + ([Index(1)] + rest)), w1, w');
  }

  function Sends(id: nat, rest: seq<Event>): seq<Event> {
    [Post] + ([VenueAccepts(id)] + ([ReplyAccepted] + rest))
  }

  lemma SendsLeads(p: Past, action: Action, rest: seq<Event>, w': World)
    requires PastOk(p)
    requires Leads(Holding(p, BotAcked(action), Order(1, 0, Working), 1, BotAcked(action), Acked), rest, w')
    ensures Leads(Holding(p, BotReady(action), Unsent, 0, BotReady(action), Ready), Sends(|p.rows|, rest), w')
  {
    var id, r, sent := |p.rows|, BotReady(action), BotReady(action).(submitted := true);
    var w0 := Holding(p, r, Unsent, 0, r, Ready);
    var w1 := Holding(p, r, InFlight(1), 1, sent, Sent);
    var w2 := Holding(p, r, Order(1, 0, Working), 1, sent, Sent);
    ChangesLast(p.venues, Unsent, InFlight(1));
    ChangesLast(p.posts, 0, 1);
    ChangesLast(p.venues, InFlight(1), Order(1, 0, Working));
    ChangesLast(p.rows, r, BotAcked(action));
    LeadsFrom(w2, ReplyAccepted, rest, Holding(p, BotAcked(action), Order(1, 0, Working), 1, BotAcked(action), Acked), w');
    LeadsFrom(w1, VenueAccepts(id), [ReplyAccepted] + rest, w2, w');
    LeadsFrom(w0, Post, [VenueAccepts(id)] + ([ReplyAccepted] + rest), w1, w');
  }

  function Fills(id: nat, rest: seq<Event>): seq<Event> {
    [VenueFills(id, 1)] + ([VenueCloses(id)] + ([SlotRead] + ([SlotSave] + rest)))
  }

  lemma FillsLeads(p: Past, action: Action, rest: seq<Event>, w': World)
    requires PastOk(p) && Leads(Start(Finished(p, action)), rest, w')
    ensures Leads(Holding(p, BotAcked(action), Order(1, 0, Working), 1, BotAcked(action), Acked), Fills(|p.rows|, rest), w')
  {
    var id, r := |p.rows|, BotAcked(action);
    var w0 := Holding(p, r, Order(1, 0, Working), 1, r, Acked);
    var w1 := Holding(p, r, Order(1, 1, Working), 1, r, Acked);
    var w2 := Holding(p, r, Full, 1, r, Acked);
    ChangesLast(p.venues, Order(1, 0, Working), Order(1, 1, Working));
    ChangesLast(p.venues, Order(1, 1, Working), Full);
    ReadsAndSaves(p, action, rest, w');
    LeadsFrom(w1, VenueCloses(id), [SlotRead] + ([SlotSave] + rest), w2, w');
    LeadsFrom(w0, VenueFills(id, 1), [VenueCloses(id)] + ([SlotRead] + ([SlotSave] + rest)), w1, w');
  }

  lemma ReadsAndSaves(p: Past, action: Action, rest: seq<Event>, w': World)
    requires PastOk(p) && Leads(Start(Finished(p, action)), rest, w')
    ensures Leads(Holding(p, BotAcked(action), Full, 1, BotAcked(action), Acked), [SlotRead] + ([SlotSave] + rest), w')
  {
    var r := BotAcked(action);
    var w2 := Holding(p, r, Full, 1, r, Acked);
    var w3 := Holding(p, r, Full, 1, BotDone(action), Read);
    assert Observed(r, Full) == BotDone(action) && Stored(r, BotDone(action)) == Ok(BotDone(action));
    ChangesLast(p.rows, r, BotDone(action));
    ChangesLast(p.venues, Full, Full);
    assert map["T" := BySlot] - {"T"} == map[];
    LeadsFrom(w3, SlotSave, rest, Start(Finished(p, action)), w');
    LeadsFrom(w2, SlotRead, [SlotSave] + rest, w3, w');
  }

  const Empty := Past([], [], [], map[])
  const Watched := Past([], [], [], map[0 := Reader(0, StatusCheck, LateBuy(), true)])


  /** The purchase at work, unfilled, with whatever reads are under way. */
  function Working1(readers: map<nat, Reader>): World {
    World([BotAcked(Buy)], [Order(1, 0, Working)], [1], Submit(0, BotAcked(Buy), Acked), readers, map["T" := BySlot], 0)
  }

  function JustLoaded(): map<nat, Reader> { map[0 := Reader(0, StatusCheck, BotAcked(Buy), false)] }

  lemma PageLoads(rest: seq<Event>, w': World)
    requires Leads(Working1(JustLoaded()), rest, w')
    ensures Leads(Working1(map[]), [StartRead(0, 0, StatusCheck)] + rest, w')
  {
    LeadsFrom(Working1(map[]), StartRead(0, 0, StatusCheck), rest, Working1(JustLoaded()), w');
  }

  lemma PageReads(rest: seq<Event>, w': World)
    requires Leads(Working1(LatePage()), rest, w')
    ensures Leads(Working1(JustLoaded()), [ReadOrder(0)] + rest, w')
  {
    assert Observed(BotAcked(Buy), Order(1, 0, Working)) == LateBuy();
    LeadsFrom(Working1(JustLoaded()), ReadOrder(0), rest, Working1(LatePage()), w');
  }

  lemma WorkingIsHolding()
    ensures Holding(Empty, BotAcked(Buy), Order(1, 0, Working), 1, BotAcked(Buy), Acked) == Working1(map[])
    ensures Holding(Watched, BotAcked(Buy), Order(1, 0, Working), 1, BotAcked(Buy), Acked) == Working1(LatePage())
  {
  }

  /** The page loads the purchase while it works unfilled. */
  lemma PageReadsTheBuy(rest: seq<Event>, w': World)
    requires Leads(Holding(Watched, BotAcked(Buy), Order(1, 0, Working), 1, BotAcked(Buy), Acked), rest, w')
    ensures Leads(Holding(Empty, BotAcked(Buy), Order(1, 0, Working), 1, BotAcked(Buy), Acked),
                  [StartRead(0, 0, StatusCheck)] + ([ReadOrder(0)] + rest), w')
  {
    WorkingIsHolding();
    PageReads(rest, w');
    PageLoads([ReadOrder(0)] + rest, w');
  }

  function Bought1(): Past { Past([BotDone(Buy)], [Full], [1], LatePage()) }

  function Uncovered(): World {
    World([LateBuy(), BotDone(Sell)], [Full, Full], [1, 1], Idle, map[], map[], 0)
  }

  lemma SavesLate()
    ensures Leads(Start(Finished(Bought1(), Sell)), [SaveRead(0)] + [], Uncovered())
  {
    var w := Start(Finished(Bought1(), Sell));
    assert w.rows == [BotDone(Buy), BotDone(Sell)] && w.venues == [Full, Full] && w.posts == [1, 1];
    assert LatePage() - {0} == map[];
    assert Leads(Uncovered(), [], Uncovered());
    LeadsFrom(w, SaveRead(0), [], Uncovered(), Uncovered());
  }

  lemma BuyIsPermitted()
    ensures Permits([], "T", 0, Decision(Buy, false, 1))
  {
  }

  lemma SaleIsPermitted()
    ensures Permits([BotDone(Buy)], "T", 0, Decision(Sell, false, 1))
  {
    var rows := [BotDone(Buy)];
    assert rows[..0] == [];
    assert Bought(rows, "T") == 1 && Sold(rows, "T") == 0;
  }

  function SellPart(): seq<Event> { Opens(Sell, Sends(1, Fills(1, [SaveRead(0)] + []))) }
  function BuyPart(): seq<Event> { [StartRead(0, 0, StatusCheck)] + ([ReadOrder(0)] + Fills(0, SellPart())) }
  function LateRun(): seq<Event> { Opens(Buy, Sends(0, BuyPart())) }

  lemma SellPartLeads()
    ensures Leads(Start(Bought1()), SellPart(), Uncovered())
  {
    SavesLate();
    FillsLeads(Bought1(), Sell, [SaveRead(0)] + [], Uncovered());
    SendsLeads(Bought1(), Sell, Fills(1, [SaveRead(0)] + []), Uncovered());
    SaleIsPermitted();
    OpensLeads(Bought1(), Sell, Sends(1, Fills(1, [SaveRead(0)] + [])), Uncovered());
  }

  lemma BuyPartLeads()
    ensures Leads(Holding(Empty, BotAcked(Buy), Order(1, 0, Working), 1, BotAcked(Buy), Acked), BuyPart(), Uncovered())
  {
    SellPartLeads();
    assert Finished(Watched, Buy) == Bought1();
    FillsLeads(Watched, Buy, SellPart(), Uncovered());
    PageReadsTheBuy(Fills(0, SellPart()), Uncovered());
  }

  lemma UncoveredFigures()
    ensures RecordedSales(Uncovered().rows, "T") == 1 > Bought(Uncovered().rows, "T") == 0
  {
    var rows := Uncovered().rows;
    assert rows[..1] == [LateBuy()] && rows[..1][..0] == [];
    assert RecordedSales(rows[..1], "T") == 0 && Bought(rows[..1], "T") == 0;
  }

  /** The page read the purchase unfilled; it fills and is sold; the page's save forgets the purchase. */
  lemma LateSaveUncoversASale()
    ensures Leads(Init(0), LateRun(), Uncovered())
    ensures RecordedSales(Uncovered().rows, "T") == 1 > Bought(Uncovered().rows, "T") == 0
  {
    BuyPartLeads();
    SendsLeads(Empty, Buy, BuyPart(), Uncovered());
    BuyIsPermitted();
    OpensLeads(Empty, Buy, Sends(0, BuyPart()), Uncovered());
    assert Start(Empty) == Init(0);
    UncoveredFigures();
  }
}
