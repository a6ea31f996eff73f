/**
  The live order protocol of src/btc15/manual_trading.py and
  src/btc15/live_automation.py: a journal of orders, a client that may lose any
  reply, and an exchange that decides in its own time. Tasks interleave at their
  awaits; the submission slot and the market locks are the only exclusion.

  An order's id is its position in the journal. Quantities are hundredths of a contract.
 */
module LiveOrders {
  import opened Wrappers

  datatype Origin = Bot | Manual
  datatype Action = Buy | Sell
  datatype RowState = Submitting | Accepted | Unknown | Complete | Rejected
  datatype Status = Working | Executed | Canceled

  datatype Report = Report(fill: nat, status: Status)

  /** A journal row; `prepared` and `submitted` are the two timing stamps, `hasOrder` a known exchange id. */
  datatype Row = Row(ticker: string, origin: Origin, action: Action, resting: bool, count: nat, state: RowState,
                     indexed: bool, prepared: bool, submitted: bool, hasOrder: bool, report: Option<Report>,
                     cancelRequested: bool)

  /** What has really become of an order's POST. */
  datatype Venue = Unsent | InFlight(count: nat) | Refused | Order(count: nat, fill: nat, status: Status)

  // ---- The journal's rules -------------------------------------------------

  predicate Unresolved(r: Row) {
    r.state == Submitting || r.state == Accepted || r.state == Unknown
  }

  predicate ConfirmedResting(r: Row) {
    r.resting && r.origin == Bot && r.state == Accepted && r.report.Some? && r.report.value.status == Working
    && !r.cancelRequested
  }

  /** Only a rejection known to precede the POST is refunded. */
  predicate ConsumesEntryAttempt(r: Row) {
    !(r.state == Rejected && r.prepared && !r.submitted && !r.hasOrder && r.report.None?)
  }

  function Filled(r: Row): nat {
    if r.report.Some? then r.report.value.fill else 0
  }

  predicate BlocksClaim(r: Row, ticker: string, origin: Origin, action: Action) {
    && Unresolved(r)
    && !(ConfirmedResting(r) && r.ticker != ticker)
    && (origin != Bot || action != Sell || r.ticker == ticker)
  }

  predicate ClaimRefused(rows: seq<Row>, ticker: string, origin: Origin, action: Action) {
    exists i | 0 <= i < |rows| :: BlocksClaim(rows[i], ticker, origin, action)
  }

  function NewRow(ticker: string, origin: Origin, action: Action, resting: bool, count: nat): Row {
    Row(ticker, origin, action, resting, count, Submitting, false, false, false, false, None, false)
  }

  datatype SaveError = FillRegressed

  /** `save`: what the journal holds after writing `row` over `previous`. */
  function Stored(previous: Row, row: Row): Result<Row, SaveError> {
    if previous.resting && previous.state == Complete && Unresolved(row) then Ok(previous)
    else if previous.resting && Filled(row) < Filled(previous) then Raised(FillRegressed)
    else Ok(row.(prepared := previous.prepared || row.prepared,
                 submitted := previous.submitted || row.submitted,
                 cancelRequested := row.cancelRequested || (previous.resting && previous.cancelRequested)))
  }

  /** `reconcile` on an order that was found. */
  function Observed(r: Row, v: Venue): Row
    requires v.Order?
  {
    r.(hasOrder := true, report := Some(Report(v.fill, v.status)),
       state := if v.status == Working then Accepted else Complete)
  }

  // ---- The bot's decision --------------------------------------------------

  predicate BotRow(r: Row, t: string) {
    r.origin == Bot && r.ticker == t
  }

  function BoughtBy(r: Row, t: string): nat { if BotRow(r, t) && r.action == Buy then Filled(r) else 0 }
  function SoldBy(r: Row, t: string): nat { if BotRow(r, t) && r.action == Sell then Filled(r) else 0 }
  function AttemptBy(r: Row, t: string): nat {
    if BotRow(r, t) && r.action == Buy && ConsumesEntryAttempt(r) then 1 else 0
  }

  function Bought(rows: seq<Row>, t: string): nat {
    if rows == [] then 0 else Bought(rows[..|rows| - 1], t) + BoughtBy(rows[|rows| - 1], t)
  }

  function Sold(rows: seq<Row>, t: string): nat {
    if rows == [] then 0 else Sold(rows[..|rows| - 1], t) + SoldBy(rows[|rows| - 1], t)
  }

  function Attempts(rows: seq<Row>, t: string): nat {
    if rows == [] then 0 else Attempts(rows[..|rows| - 1], t) + AttemptBy(rows[|rows| - 1], t)
  }

  function Held(rows: seq<Row>, t: string): nat {
    if Sold(rows, t) <= Bought(rows, t) then Bought(rows, t) - Sold(rows, t) else 0
  }

  predicate OutcomePending(r: Row, t: string, held: nat) {
    Unresolved(r) && (held == 0 || r.ticker == t) && !(ConfirmedResting(r) && r.ticker != t)
  }

  predicate HasRestingRow(rows: seq<Row>, t: string) {
    exists i | 0 <= i < |rows| :: BotRow(rows[i], t) && rows[i].resting
  }

  datatype Decision = Decision(action: Action, resting: bool, count: nat)

  /**
    What `_step_market` may submit for a market. Prices, cooldowns and holdings
    only narrow this further.
   */
  predicate Permits(rows: seq<Row>, t: string, retries: nat, d: Decision) {
    var held := Held(rows, t);
    && d.count > 0
    && !(Bought(rows, t) > 0 && held == 0)
    && (forall i | 0 <= i < |rows| :: !OutcomePending(rows[i], t, held))
    && (if held > 0
        then d.action == Sell && d.count <= held && (d.resting ==> !HasRestingRow(rows, t))
        else d.action == Buy && !d.resting && Attempts(rows, t) < retries + 1)
  }

  // ---- The world -----------------------------------------------------------

  datatype Phase = Claimed | Prepared | Ready | Sent | Acked | Read

  /** The holder of the submission slot, with the row it keeps in memory. */
  datatype Slot =
    | Idle
    | Submit(id: nat, mem: Row, phase: Phase)
    | Cancel(id: nat, mem: Row, observed: bool)

  /** The bot's worker reconciles under the market lock; the status page under none. */
  datatype ReaderKind = Worker | StatusCheck

  datatype Reader = Reader(id: nat, kind: ReaderKind, mem: Row, observed: bool)

  datatype Owner = ByDecision(decision: Decision) | BySlot | ByReader(reader: nat)

  datatype World = World(rows: seq<Row>, venues: seq<Venue>, posts: seq<nat>, slot: Slot,
                         readers: map<nat, Reader>, locks: map<string, Owner>, retries: nat)

  datatype Event =
    | Decide(ticker: string, decision: Decision)
    | Abandon(ticker: string)
    | Claim(ticker: string, origin: Origin, action: Action, resting: bool, count: nat)
    | Repeat(id: nat)
    | Prepare
    | Fail
    | Index(size: nat)
    | Post
    | ReplyRefused
    | ReplyAccepted
    | ReplyLost
    | SlotRead
    | SlotSave
    | BeginCancel(id: nat)
    | CancelTouch
    | SlotEnds
    | StartRead(reader: nat, id: nat, kind: ReaderKind)
    | ReadOrder(reader: nat)
    | SaveRead(reader: nat)
    | DropRead(reader: nat)
    | VenueAccepts(id: nat)
    | VenueRefuses(id: nat)
    | VenueFills(id: nat, quantity: nat)
    | VenueCloses(id: nat)
    | Crash

  function SaveTo(w: World, id: nat, row: Row): World
    requires id < |w.rows|
  {
    match Stored(w.rows[id], row)
    case Ok(stored) => w.(rows := w.rows[id := stored])
    case Raised(_) => w
  }

  function Release(w: World, ticker: string, bot: bool): World {
    w.(slot := Idle, locks := if bot then w.locks - {ticker} else w.locks)
  }

  predicate Shaped(w: World) {
    && |w.venues| == |w.rows| == |w.posts|
    && (w.slot != Idle ==> w.slot.id < |w.rows|)
    && (forall k | k in w.readers :: w.readers[k].id < |w.rows|)
  }

  predicate Possible(w: World, e: Event)
    requires Shaped(w)
  {
    match e
    case Decide(t, d) => t !in w.locks && Permits(w.rows, t, w.retries, d)
    case Abandon(t) => t in w.locks && w.locks[t].ByDecision?
    case Claim(t, origin, action, resting, count) =>
      && w.slot == Idle && count > 0
      && (resting ==> origin == Bot && action == Sell)
      && (origin == Bot ==> t in w.locks && w.locks[t] == ByDecision(Decision(action, resting, count)))
    case Repeat(id) => id < |w.rows| && w.slot == Idle
    case Prepare => w.slot.Submit? && w.slot.phase == Claimed
    case Fail => w.slot.Submit? && (w.slot.phase == Prepared || w.slot.phase == Ready)
    case Index(size) =>
      && w.slot.Submit? && w.slot.phase == Prepared && 0 < size <= w.slot.mem.count
      && (size < w.slot.mem.count ==> w.slot.mem.origin == Bot && w.slot.mem.action == Sell && !w.slot.mem.resting)
    case Post => w.slot.Submit? && w.slot.phase == Ready
    case ReplyRefused => w.slot.Submit? && w.slot.phase == Sent && w.venues[w.slot.id].Refused?
    case ReplyAccepted => w.slot.Submit? && w.slot.phase == Sent && w.venues[w.slot.id].Order?
    case ReplyLost => w.slot.Submit? && (w.slot.phase == Sent || w.slot.phase == Acked)
    case SlotRead =>
      && w.slot != Idle && w.venues[w.slot.id].Order?
      && (w.slot.Submit? ==> w.slot.phase == Acked) && (w.slot.Cancel? ==> w.slot.mem.indexed)
    case SlotSave => w.slot != Idle && (w.slot.Submit? ==> w.slot.phase == Read) && (w.slot.Cancel? ==> w.slot.observed)
    case BeginCancel(id) =>
      && w.slot == Idle && id < |w.rows| && w.rows[id].resting && w.rows[id].origin == Bot && Unresolved(w.rows[id])
      && w.rows[id].ticker !in w.locks
    case CancelTouch => w.slot.Cancel?
    case SlotEnds => w.slot != Idle
    case StartRead(k, id, kind) =>
      && k !in w.readers && id < |w.rows| && Unresolved(w.rows[id]) && w.rows[id].indexed
      && (kind == Worker ==> w.rows[id].ticker !in w.locks)
    case ReadOrder(k) => k in w.readers && w.venues[w.readers[k].id].Order?
    case SaveRead(k) => k in w.readers && w.readers[k].observed
    case DropRead(k) => k in w.readers
    case VenueAccepts(id) => id < |w.rows| && w.venues[id].InFlight?
    case VenueRefuses(id) => id < |w.rows| && w.venues[id].InFlight?
    case VenueFills(id, q) =>
      id < |w.rows| && w.venues[id].Order? && w.venues[id].status == Working && w.venues[id].fill + q <= w.venues[id].count
    case VenueCloses(id) => id < |w.rows| && w.venues[id].Order? && w.venues[id].status == Working
    case Crash => true
  }

  function FreeReader(w: World, k: nat): World
    requires Shaped(w) && k in w.readers
  {
    var r := w.readers[k];
    w.(readers := w.readers - {k}, locks := if r.kind == Worker then w.locks - {w.rows[r.id].ticker} else w.locks)
  }

  function Step(w: World, e: Event): World
    requires Shaped(w) && Possible(w, e)
  {
    match e
    case Decide(t, d) => w.(locks := w.locks[t := ByDecision(d)])
    case Abandon(t) => w.(locks := w.locks - {t})
    case Claim(t, origin, action, resting, count) =>
      if ClaimRefused(w.rows, t, origin, action) then w.(locks := if origin == Bot then w.locks - {t} else w.locks)
      else
        var row := NewRow(t, origin, action, resting, count);
        w.(rows := w.rows + [row], venues := w.venues + [Unsent], posts := w.posts + [0],
           slot := Submit(|w.rows|, row, Claimed),
           locks := if origin == Bot then w.locks[t := BySlot] else w.locks)
    case Repeat(_) => w
    case Prepare =>
      var mem := w.slot.mem.(prepared := true);
      SaveTo(w, w.slot.id, mem).(slot := Submit(w.slot.id, mem, Prepared))
    case Fail =>
      Release(SaveTo(w, w.slot.id, w.slot.mem.(state := Rejected)), w.slot.mem.ticker, w.slot.mem.origin == Bot)
    case Index(size) =>
      var mem := w.slot.mem.(indexed := true, count := size);
      SaveTo(w, w.slot.id, mem).(slot := Submit(w.slot.id, mem, Ready))
    case Post =>
      w.(venues := w.venues[w.slot.id := InFlight(w.slot.mem.count)], posts := w.posts[w.slot.id := w.posts[w.slot.id] + 1],
         slot := Submit(w.slot.id, w.slot.mem.(submitted := true), Sent))
    case ReplyRefused =>
      Release(SaveTo(w, w.slot.id, w.slot.mem.(state := Rejected)), w.slot.mem.ticker, w.slot.mem.origin == Bot)
    case ReplyAccepted =>
      var mem := w.slot.mem.(state := Accepted, hasOrder := true);
      SaveTo(w, w.slot.id, mem).(slot := Submit(w.slot.id, mem, Acked))
    case ReplyLost =>
      Release(SaveTo(w, w.slot.id, w.slot.mem.(state := Unknown)), w.slot.mem.ticker, w.slot.mem.origin == Bot)
    case SlotRead =>
      var mem := Observed(w.slot.mem, w.venues[w.slot.id]);
      w.(slot := if w.slot.Submit? then Submit(w.slot.id, mem, Read) else Cancel(w.slot.id, mem, true))
    case SlotSave =>
      var saved := SaveTo(w, w.slot.id, w.slot.mem);
      if w.slot.Submit? then Release(saved, w.slot.mem.ticker, w.slot.mem.origin == Bot)
      else saved.(slot := Cancel(w.slot.id, saved.rows[w.slot.id], false))
    case BeginCancel(id) =>
      var mem := w.rows[id].(cancelRequested := true);
      SaveTo(w, id, mem).(slot := Cancel(id, mem, false), locks := w.locks[mem.ticker := BySlot])
    case CancelTouch => SaveTo(w, w.slot.id, w.slot.mem)
    case SlotEnds => Release(w, w.slot.mem.ticker, w.slot.mem.origin == Bot)
    case StartRead(k, id, kind) =>
      w.(readers := w.readers[k := Reader(id, kind, w.rows[id], false)],
         locks := if kind == Worker then w.locks[w.rows[id].ticker := ByReader(k)] else w.locks)
    case ReadOrder(k) =>
      var r := w.readers[k];
      w.(readers := w.readers[k := r.(mem := Observed(r.mem, w.venues[r.id]), observed := true)])
    case SaveRead(k) => FreeReader(SaveTo(w, w.readers[k].id, w.readers[k].mem), k)
    case DropRead(k) => FreeReader(w, k)
    case VenueAccepts(id) => w.(venues := w.venues[id := Order(w.venues[id].count, 0, Working)])
    case VenueRefuses(id) => w.(venues := w.venues[id := Refused])
    case VenueFills(id, q) => w.(venues := w.venues[id := w.venues[id].(fill := w.venues[id].fill + q)])
    case VenueCloses(id) =>
      var v := w.venues[id];
      w.(venues := w.venues[id := v.(status := if v.fill == v.count then Executed else Canceled)])
    case Crash => w.(slot := Idle, readers := map[], locks := map[])
  }

  /** The events by which the slot's holder saves its row. */
  predicate SlotSaves(e: Event) {
    e.Prepare? || e.Fail? || e.Index? || e.ReplyRefused? || e.ReplyAccepted? || e.ReplyLost? || e.SlotSave? || e.CancelTouch?
  }
}
