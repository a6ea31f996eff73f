/**
  Rebuilding remote books from a lossy, sequence-numbered stream: `Engine._ingest`
  and `Engine.invalidate` (src/btc15/engine.py) in collector-managed mode.

  The exchange is a feed that says what each (connection, subscription, sequence
  number) carries. The network may lose, delay, repeat or reorder rows and change
  connection at any time; it cannot forge one. Clock checks, malformed input and
  failures of later processing are inputs of a row.
 */
module Replication {
  import opened Wrappers
  import opened OrderBook

  datatype Payload =
    | BookMessage(message: Message)
    | MarketMessage(ticker: Ticker)                      // trade, ticker
    | Connected
    | Transport                                          // disconnect, stale, error
    | Metadata(watchlist: Option<set<Ticker>>, listed: set<Ticker>, voided: set<Ticker>)
    | Lifecycle(voided: set<Ticker>)
    | Other

  datatype Row = Row(
    received: int,
    connection: string,
    sid: Option<int>,
    number: Option<int>,
    payload: Payload,
    held: set<Ticker>,       // positions and active orders when the row is applied
    clockJump: bool,
    malformed: bool,         // the body raises while it is being applied
    processingFails: bool)   // `process` raises afterwards

  datatype Engine = Engine(
    connection: Option<string>,
    sequences: map<int, int>,
    books: map<Ticker, BookState>,
    bookSids: map<Ticker, int>,
    watchlist: Option<set<Ticker>>,
    integrityFailed: bool)

  const Fresh := Engine(None, map[], map[], map[], None, false)

  // ---- One row -------------------------------------------------------------

  function Voided(books: map<Ticker, BookState>, voided: set<Ticker>): map<Ticker, BookState> {
    map t | t in books :: if t in voided then books[t].(valid := false) else books[t]
  }

  function Invalidate(s: Engine): Engine {
    s.(integrityFailed := true, bookSids := map[], books := Voided(s.books, s.books.Keys))
  }

  /** A change of connection identity, then the local clock check. */
  function AtBoundary(s: Engine, row: Row): Engine {
    var s1 := if s.connection == Some(row.connection) then s
              else var i := Invalidate(s);
                   i.(connection := Some(row.connection), sequences := map[],
                      integrityFailed := !row.payload.Connected?);
    if row.clockJump then Invalidate(s1) else s1
  }

  predicate Unsequenced(row: Row) {
    row.sid.None? || row.number.None? || row.sid.value < 0 || row.number.value < 0
  }

  predicate Gap(s: Engine, row: Row) {
    row.sid.Some? && row.number.Some? && row.sid.value in s.sequences && row.number.value != s.sequences[row.sid.value] + 1
  }

  function Counted(s: Engine, row: Row): Engine {
    if row.sid.Some? && row.number.Some? then s.(sequences := s.sequences[row.sid.value := row.number.value]) else s
  }

  function MarketOf(p: Payload): Option<Ticker> {
    match p
    case BookMessage(m) => Some(m.ticker)
    case MarketMessage(t) => Some(t)
    case _ => None
  }

  predicate Ignored(s: Engine, row: Row) {
    MarketOf(row.payload).Some? && s.watchlist.Some? && MarketOf(row.payload).value !in s.watchlist.value
  }

  function Select(s: Engine, selected: set<Ticker>): Engine {
    s.(watchlist := Some(selected),
       books := map t | t in s.books :: if t in selected then s.books[t] else EmptyBook,
       bookSids := map t | t in s.bookSids && (t in s.books ==> t in selected) :: s.bookSids[t])
  }

  function List(s: Engine, listed: set<Ticker>): Engine {
    s.(books := s.books + map t | t in listed && t !in s.books :: EmptyBook)
  }

  /** The body of the `try` block; false means it raised. */
  ghost function Apply(s: Engine, row: Row): (Engine, bool) {
    if row.malformed then (s, false)
    else
      match row.payload
      case Metadata(watchlist, listed, voided) =>
        var s1 := if watchlist.Some? then Select(s, watchlist.value + row.held) else s;
        var s2 := List(s1, listed);
        (s2.(books := Voided(s2.books, voided)), true)
      case Lifecycle(voided) => (s.(books := Voided(s.books, voided)), true)
      case Transport => (Invalidate(s), true)
      case BookMessage(m) =>
        if m.ticker !in s.books then (s, true)
        else if m.Snapshot? then
          var b := AfterSnapshot(m, row.received);
          if !b.valid then (s.(books := s.books[m.ticker := b]), false)
          else (s.(books := s.books[m.ticker := b], bookSids := s.bookSids[m.ticker := row.sid.GetOr(0)]), true)
        else if m.ticker !in s.bookSids || Some(s.bookSids[m.ticker]) != row.sid then (s, false)
        else
          (match AfterDelta(s.books[m.ticker], m, row.received)
           case Ok(b) => (s.(books := s.books[m.ticker := b]), true)
           case Raised(b) => (s.(books := s.books[m.ticker := b]), false))
      case _ => (s, true)
  }

  ghost function Ingest(s: Engine, row: Row): Engine {
    var s0 := AtBoundary(s, row);
    if row.payload.BookMessage? && Unsequenced(row) then Invalidate(s0)
    else if Gap(s0, row) then Counted(Invalidate(s0), row)
    else
      var s1 := Counted(s0, row);
      if Ignored(s1, row) then s1
      else
        var (s2, ok) := Apply(s1, row);
        if !ok || row.processingFails then Invalidate(s2) else s2
  }

  /** Whether the row was taken: what the caller is told. */
  ghost predicate Accepted(s: Engine, row: Row) {
    var s0 := AtBoundary(s, row);
    && !(row.payload.BookMessage? && Unsequenced(row)) && !Gap(s0, row)
    && (Ignored(Counted(s0, row), row) || (Apply(Counted(s0, row), row).1 && !row.processingFails))
  }

  ghost function After(s: Engine, rows: seq<Row>): Engine {
    if rows == [] then s else Ingest(After(s, rows[..|rows| - 1]), rows[|rows| - 1])
  }

  // ---- The exchange --------------------------------------------------------

  /** What the exchange sent under a connection, subscription and sequence number, if a book message. */
  type Feed = (string, int, nat) -> Option<Message>

  /** A row is genuine: only book messages of the feed appear under their own numbers. */
  ghost predicate Genuine(feed: Feed, row: Row) {
    row.sid.Some? && row.number.Some? && row.sid.value >= 0 && row.number.value >= 0 ==>
      feed(row.connection, row.sid.value, row.number.value)
      == if row.payload.BookMessage? then Some(row.payload.message) else None
  }

  /** The exchange's own ladder of one market: both sides keyed by YES price. */
  datatype Ladder = Ladder(yes: Levels, no: Levels)

  function Listed(pairs: seq<(int, int)>): Levels {
    if pairs == [] then map[]
    else
      var (p, q) := pairs[|pairs| - 1];
      var rest := Listed(pairs[..|pairs| - 1]);
      if q > 0 then rest[p := q] else rest
  }

  function Changed(levels: Levels, price: int, change: int): Levels {
    var q := Depth(levels, price) + change;
    if q != 0 then levels[price := q] else levels - {price}
  }

  function Publish(before: Option<Ladder>, m: Message, t: Ticker): Option<Ladder> {
    if m.ticker != t then before
    else match m
      case Snapshot(_, yes, no, _) => Some(Ladder(Listed(yes), Listed(no)))
      case Delta(_, side, price, change, _) =>
        if before.None? then None
        else if side == Yes then Some(before.value.(yes := Changed(before.value.yes, price, change)))
        else Some(before.value.(no := Changed(before.value.no, price, change)))
  }

  /** The ladder of `t` right after sequence number `n` of a subscription. */
  ghost function Published(feed: Feed, connection: string, sid: int, t: Ticker, n: nat): Option<Ladder>
    decreases n
  {
    var before := if n == 0 then None else Published(feed, connection, sid, t, n - 1);
    var sent := feed(connection, sid, n);
    if sent.None? then before else Publish(before, sent.value, t)
  }

  /** The client's book is the exchange's ladder, NO levels turned to NO prices. */
  ghost predicate Mirrors(b: BookState, l: Ladder) {
    && b.yes == l.yes
    && (forall p :: p in b.no <==> ONE - p in l.no)
    && (forall p | p in b.no :: b.no[p] == l.no[ONE - p])
  }

  // ---- What every row keeps ------------------------------------------------

  ghost predicate Tracked(s: Engine, feed: Feed, t: Ticker)
    requires t in s.books
  {
    && Sound(s.books[t])
    && (s.watchlist.Some? ==> t in s.watchlist.value)
    && s.connection.Some? && t in s.bookSids && s.bookSids[t] in s.sequences
    && var sid := s.bookSids[t];
       var n := s.sequences[sid];
       && sid >= 0 && n >= 0
       && Published(feed, s.connection.value, sid, t, n).Some?
       && Mirrors(s.books[t], Published(feed, s.connection.value, sid, t, n).value)
  }

  ghost predicate Inv(s: Engine, feed: Feed) {
    forall t | t in s.books && s.books[t].valid :: Tracked(s, feed, t)
  }

  lemma InvalidIsSafe(s: Engine, feed: Feed)
    ensures forall t | t in Invalidate(s).books :: !Invalidate(s).books[t].valid
    ensures Inv(Invalidate(s), feed)
  {
  }

  lemma {:induction false} ListedIsCollected(pairs: seq<(int, int)>)
    ensures Collect(pairs, false) == Listed(pairs)
    ensures forall p :: p in Collect(pairs, true) <==> ONE - p in Listed(pairs)
    ensures forall p | p in Collect(pairs, true) :: Collect(pairs, true)[p] == Listed(pairs)[ONE - p]
    decreases |pairs|
  {
    if pairs != [] {
      ListedIsCollected(pairs[..|pairs| - 1]);
    }
  }

  lemma SnapshotMirrors(m: Message, received: int, before: Option<Ladder>)
    requires m.Snapshot?
    ensures Publish(before, m, m.ticker).Some?
    ensures Mirrors(AfterSnapshot(m, received), Publish(before, m, m.ticker).value)
  {
    ListedIsCollected(m.yes);
    ListedIsCollected(m.no);
  }

  lemma DeltaMirrors(b: BookState, l: Ladder, m: Message, received: int)
    requires m.Delta? && Mirrors(b, l) && AfterDelta(b, m, received).Ok?
    ensures Publish(Some(l), m, m.ticker).Some?
    ensures Mirrors(AfterDelta(b, m, received).value, Publish(Some(l), m, m.ticker).value)
  {
  }

  lemma BoundaryKeeps(s: Engine, feed: Feed, row: Row)
    requires Inv(s, feed)
    ensures Inv(AtBoundary(s, row), feed)
    ensures AtBoundary(s, row).connection == Some(row.connection)
  {
  }

  /** Accepting the next number of a subscription moves every other market of it along unchanged. */
  lemma CountedKeeps(s: Engine, feed: Feed, row: Row, t: Ticker)
    requires Inv(s, feed) && s.connection == Some(row.connection) && Genuine(feed, row)
    requires !Gap(s, row) && (row.payload.BookMessage? ==> !Unsequenced(row))
    requires t in s.books && s.books[t].valid
    requires row.payload.BookMessage? ==> row.payload.message.ticker != t || Ignored(s, row)
    ensures Tracked(Counted(s, row), feed, t)
  {
    assert Tracked(s, feed, t);
    if row.sid.Some? && row.number.Some? && row.sid.value == s.bookSids[t] {
      var sid, n := s.bookSids[t], s.sequences[s.bookSids[t]];
      assert row.number.value == n + 1;
      var sent := feed(row.connection, sid, n + 1);
      assert Ignored(s, row) && row.payload.BookMessage? ==> row.payload.message.ticker != t;
      assert sent.Some? ==> sent.value.ticker != t;
      assert Published(feed, row.connection, sid, t, n + 1) == Published(feed, row.connection, sid, t, n);
    }
  }

  lemma OthersCarryOver(s: Engine, s': Engine, feed: Feed, t: Ticker)
    requires t in s.books && t in s'.books && s'.books[t] == s.books[t] && Tracked(s, feed, t)
    requires s'.connection == s.connection && s'.sequences == s.sequences
    requires t in s'.bookSids && s'.bookSids[t] == s.bookSids[t]
    requires s'.watchlist == s.watchlist || (s'.watchlist.Some? && t in s'.watchlist.value)
    ensures Tracked(s', feed, t)
  {
  }

  /** A valid book that takes the next message of its own subscription. */
  lemma BookMessageKeeps(s: Engine, feed: Feed, row: Row)
    requires Inv(s, feed) && s.connection == Some(row.connection) && Genuine(feed, row)
    requires row.payload.BookMessage? && !Unsequenced(row) && !Gap(s, row) && !row.malformed
    requires !Ignored(Counted(s, row), row) && row.payload.message.ticker in s.books
    requires Apply(Counted(s, row), row).1
    ensures var s2 := Apply(Counted(s, row), row).0;
            s2.books[row.payload.message.ticker].valid && Tracked(s2, feed, row.payload.message.ticker)
  {
    var m := row.payload.message;
    var t, sid, n := m.ticker, row.sid.value, row.number.value;
    var s1 := Counted(s, row);
    var before := if n == 0 then None else Published(feed, row.connection, sid, t, n - 1);
    assert Published(feed, row.connection, sid, t, n) == Publish(before, m, t);
    if m.Snapshot? {
      SnapshotIsSound(m, row.received);
      SnapshotMirrors(m, row.received, before);
    } else {
      var b := s1.books[t];
      assert b.valid && Tracked(s, feed, t);
      assert s.sequences[sid] == n - 1;
      DeltaKeepsSound(b, m, row.received);
      DeltaMirrors(b, before.value, m, row.received);
    }
  }

  /** A book still valid after a body that did not write it was there before, under the same subscription. */
  lemma ApplyCarries(s: Engine, row: Row, t: Ticker)
    requires Apply(s, row).1
    requires t in Apply(s, row).0.books && Apply(s, row).0.books[t].valid
    requires row.payload.BookMessage? ==> row.payload.message.ticker != t
    ensures t in s.books && s.books[t] == Apply(s, row).0.books[t]
    ensures Apply(s, row).0.connection == s.connection && Apply(s, row).0.sequences == s.sequences
    ensures t in s.bookSids ==> t in Apply(s, row).0.bookSids && Apply(s, row).0.bookSids[t] == s.bookSids[t]
    ensures var w := Apply(s, row).0.watchlist; w == s.watchlist || (w.Some? && t in w.value)
  {
    match row.payload
    case Metadata(watchlist, listed, voided) =>
      var s1 := if watchlist.Some? then Select(s, watchlist.value + row.held) else s;
      var s2 := List(s1, listed);
      assert t in s2.books && s2.books[t] == Apply(s, row).0.books[t];
      assert t in s1.books && s1.books[t] == s2.books[t];
      assert t in s.books;
    case Transport =>
      InvalidIsSafe(s, (c, i, n) => None);
      assert false;
    case _ =>
  }

  lemma ApplyKeeps(s: Engine, feed: Feed, row: Row)
    requires Inv(s, feed) && s.connection == Some(row.connection) && Genuine(feed, row)
    requires (row.payload.BookMessage? ==> !Unsequenced(row)) && !Gap(s, row)
    requires !Ignored(Counted(s, row), row) && Apply(Counted(s, row), row).1
    ensures Inv(Apply(Counted(s, row), row).0, feed)
  {
    var s1 := Counted(s, row);
    var s2 := Apply(s1, row).0;
    forall t | t in s2.books && s2.books[t].valid
      ensures Tracked(s2, feed, t)
    {
      if row.payload.BookMessage? && row.payload.message.ticker == t {
        BookMessageKeepsOwn(s, feed, row);
      } else {
        ApplyCarries(s1, row, t);
        CountedKeeps(s, feed, row, t);
        OthersCarryOver(s1, s2, feed, t);
      }
    }
  }

  lemma BookMessageKeepsOwn(s: Engine, feed: Feed, row: Row)
    requires Inv(s, feed) && s.connection == Some(row.connection) && Genuine(feed, row)
    requires row.payload.BookMessage? && !Unsequenced(row) && !Gap(s, row)
    requires !Ignored(Counted(s, row), row) && Apply(Counted(s, row), row).1
    requires row.payload.message.ticker in Apply(Counted(s, row), row).0.books
    ensures Tracked(Apply(Counted(s, row), row).0, feed, row.payload.message.ticker)
  {
    assert row.payload.message.ticker in s.books;
    BookMessageKeeps(s, feed, row);
  }

  /** One row, whatever it is and whenever it arrives. */
  lemma IngestKeeps(s: Engine, feed: Feed, row: Row)
    requires Inv(s, feed) && Genuine(feed, row)
    ensures Inv(Ingest(s, row), feed)
  {
    var s0 := AtBoundary(s, row);
    BoundaryKeeps(s, feed, row);
    if row.payload.BookMessage? && Unsequenced(row) {
      InvalidIsSafe(s0, feed);
    } else if Gap(s0, row) {
      InvalidIsSafe(s0, feed);
    } else {
      var s1 := Counted(s0, row);
      if Ignored(s1, row) {
        forall t | t in s1.books && s1.books[t].valid
          ensures Tracked(s1, feed, t)
        {
          CountedKeeps(s0, feed, row, t);
        }
      } else {
        var (s2, ok) := Apply(s1, row);
        if !ok || row.processingFails {
          InvalidIsSafe(s2, feed);
        } else {
          ApplyKeeps(s0, feed, row);
        }
      }
    }
  }

  /**
    The main result: for every stream of genuine rows with any losses, repeats,
    reconnects, resubscriptions and watchlist changes, a book marked valid equals
    the exchange's ladder at the last accepted number of its subscription, holds
    only positive levels strictly inside (0, 1), and is not crossed.
   */
  lemma {:induction false} EveryStreamIsReplicated(feed: Feed, rows: seq<Row>)
    requires forall i | 0 <= i < |rows| :: Genuine(feed, rows[i])
    ensures Inv(After(Fresh, rows), feed)
    decreases |rows|
  {
    if rows != [] {
      EveryStreamIsReplicated(feed, rows[..|rows| - 1]);
      IngestKeeps(After(Fresh, rows[..|rows| - 1]), feed, rows[|rows| - 1]);
    }
  }

  /** Only a snapshot can make a book valid: no book is believed across a gap, a reconnect or a transport error. */
  lemma OnlySnapshotsRevive(s: Engine, row: Row, t: Ticker)
    requires t in s.books ==> !s.books[t].valid
    requires t in Ingest(s, row).books && Ingest(s, row).books[t].valid
    ensures row.payload.BookMessage? && row.payload.message.Snapshot? && row.payload.message.ticker == t
    ensures !Gap(AtBoundary(s, row), row) && !Unsequenced(row)
  {
    var s0 := AtBoundary(s, row);
    assert t in s0.books ==> !s0.books[t].valid;
    var s1 := Counted(s0, row);
    if !Gap(s0, row) && !Ignored(s1, row) && Apply(s1, row).1 && !row.processingFails
       && !(row.payload.BookMessage? && Unsequenced(row)) {
      if !(row.payload.BookMessage? && row.payload.message.ticker == t) {
        ApplyCarries(s1, row, t);
      }
    }
  }

  /** The exchange never publishes an impossible ladder: empty levels, prices outside (0, 1), or a cross. */
  ghost predicate Possible(l: Ladder) {
    && Inside(l.yes) && Inside(l.no)
    && (forall p | p in l.yes :: l.yes[p] > 0) && (forall p | p in l.no :: l.no[p] > 0)
    && (forall p, q | p in l.yes && q in l.no :: p <= q)
  }

  lemma MirrorOfPossible(b: BookState, l: Ladder)
    requires Mirrors(b, l) && Possible(l)
    ensures Sound(b)
  {
  }

  // ---- Deltas of a possible ladder are accepted ------------------------------

  lemma StaysPositive(levels: Levels, price: int, change: int)
    requires forall p | p in Changed(levels, price, change) :: Changed(levels, price, change)[p] > 0
    ensures Depth(levels, price) + change >= 0
  {
    if Depth(levels, price) + change != 0 {
      assert price in Changed(levels, price, change);
    }
  }

  lemma NotCrossed(yes: Levels, no: Levels, ladderNo: Levels)
    requires forall q | q in no :: ONE - q in ladderNo
    requires forall p, q | p in yes && q in ladderNo :: p <= q
    ensures !Crossed(yes, no)
  {
    forall p, q | p in yes && q in no ensures p + q <= ONE {
      assert ONE - q in ladderNo;
    }
  }

  /** A delta is taken when its price is inside, its level stays nonnegative and nothing crosses. */
  lemma TakenWhen(b: BookState, m: Message, received: int, q: int)
    requires m.Delta? && m.side != Unknown && 0 < m.price < ONE && b.valid && q >= 0
    requires m.side == Yes ==> q == Depth(b.yes, m.price) + m.change && !Crossed(SetDepth(b.yes, m.price, q), b.no)
    requires m.side == No ==> q == Depth(b.no, ONE - m.price) + m.change && !Crossed(b.yes, SetDepth(b.no, ONE - m.price, q))
    ensures AfterDelta(b, m, received).Ok?
  {
  }

  lemma NoKeysTurn(b: BookState, l: Ladder)
    requires Mirrors(b, l)
    ensures forall q | q in b.no :: ONE - q in l.no
  {
  }

  lemma TurnedDepth(b: BookState, l: Ladder, price: int)
    requires Mirrors(b, l)
    ensures Depth(b.no, ONE - price) == Depth(l.no, price)
  {
    assert ONE - price in b.no <==> ONE - (ONE - price) in l.no;
  }

  lemma TurnedChange(no: Levels, levels: Levels, price: int, q: int, no': Levels, levels': Levels)
    requires forall p | p in no :: ONE - p in levels
    requires no' == SetDepth(no, ONE - price, q) && levels' == SetDepth(levels, price, q)
    ensures forall p | p in no' :: ONE - p in levels'
  {
    forall p | p in no' ensures ONE - p in levels' {
      if p != ONE - price { assert p in no; }
    }
  }

  lemma YesDeltaAccepted(b: BookState, l: Ladder, m: Message, received: int)
    requires m.Delta? && m.side == Yes && 0 < m.price < ONE && b.valid && Mirrors(b, l)
    requires Possible(Ladder(Changed(l.yes, m.price, m.change), l.no))
    ensures AfterDelta(b, m, received).Ok?
  {
    var q := Depth(l.yes, m.price) + m.change;
    assert q >= 0 by { StaysPositive(l.yes, m.price, m.change); }
    NoKeysTurn(b, l);
    NotCrossed(Changed(l.yes, m.price, m.change), b.no, l.no);
    TakenWhen(b, m, received, q);
  }

  lemma NoDeltaAccepted(b: BookState, l: Ladder, m: Message, received: int)
    requires m.Delta? && m.side == No && 0 < m.price < ONE && b.valid && Mirrors(b, l)
    requires Possible(Ladder(l.yes, Changed(l.no, m.price, m.change)))
    ensures AfterDelta(b, m, received).Ok?
  {
    var q := Depth(l.no, m.price) + m.change;
    assert q >= 0 by { StaysPositive(l.no, m.price, m.change); }
    NoKeysTurn(b, l);
    TurnedDepth(b, l, m.price);
    var no := SetDepth(b.no, ONE - m.price, q);
    TurnedChange(b.no, l.no, m.price, q, no, Changed(l.no, m.price, m.change));
    NotCrossed(b.yes, no, Changed(l.no, m.price, m.change));
    TakenWhen(b, m, received, q);
  }

  lemma DeltaAccepted(b: BookState, l: Ladder, m: Message, received: int)
    requires m.Delta? && m.side != Unknown && 0 < m.price < ONE && b.valid && Mirrors(b, l)
    requires Possible(Publish(Some(l), m, m.ticker).value)
    ensures AfterDelta(b, m, received).Ok?
  {
    if m.side == Yes {
      YesDeltaAccepted(b, l, m, received);
    } else {
      NoDeltaAccepted(b, l, m, received);
    }
  }

  // ---- Streams without a gap -------------------------------------------------

  /** The last number seen of a subscription. */
  function LastNumber(rows: seq<Row>, sid: int): Option<int> {
    if rows == [] then None
    else
      var row := rows[|rows| - 1];
      if row.sid == Some(sid) && row.number.Some? then row.number else LastNumber(rows[..|rows| - 1], sid)
  }

  /** The subscription under which a market was last snapshotted. */
  function BegunUnder(rows: seq<Row>, t: Ticker): Option<int> {
    if rows == [] then None
    else
      var row := rows[|rows| - 1];
      if row.payload.BookMessage? && row.payload.message.Snapshot? && row.payload.message.ticker == t then row.sid
      else BegunUnder(rows[..|rows| - 1], t)
  }

  /** A message of a listed and watched market that its subscription's snapshot and ladder allow. */
  ghost predicate Proper(feed: Feed, earlier: seq<Row>, row: Row)
    requires row.payload.BookMessage? && !Unsequenced(row)
  {
    var m := row.payload.message;
    var l := Published(feed, row.connection, row.sid.value, m.ticker, row.number.value);
    && (l.Some? ==> Possible(l.value))
    && (m.Delta? ==> m.side != Unknown && 0 < m.price < ONE && BegunUnder(earlier, m.ticker) == row.sid)
  }

  /** The next row of an uninterrupted stream: numbers follow on, nothing fails, and messages are proper. */
  ghost predicate InOrderRow(feed: Feed, connection: string, markets: set<Ticker>, earlier: seq<Row>, row: Row) {
    && row.connection == connection && !row.clockJump && !row.malformed && !row.processingFails
    && (row.payload.BookMessage? || row.payload.MarketMessage? || row.payload.Other?)
    && (row.sid.Some? && row.number.Some? && LastNumber(earlier, row.sid.value).Some? ==>
          row.number.value == LastNumber(earlier, row.sid.value).value + 1)
    && (row.payload.BookMessage? ==>
          !Unsequenced(row) && (row.payload.message.ticker in markets ==> Proper(feed, earlier, row)))
  }

  ghost predicate InOrder(feed: Feed, connection: string, markets: set<Ticker>, rows: seq<Row>) {
    forall i | 0 <= i < |rows| :: InOrderRow(feed, connection, markets, rows[..i], rows[i]) && Genuine(feed, rows[i])
  }

  predicate Watched(s: Engine, t: Ticker) {
    t in s.books && (s.watchlist.Some? ==> t in s.watchlist.value)
  }

  /** The engine has followed the stream from its start: numbers, subscriptions and valid books agree with it. */
  ghost predicate Follows(s: Engine, connection: string, markets: set<Ticker>, rows: seq<Row>) {
    && s.connection == Some(connection)
    && (forall t :: t in markets <==> Watched(s, t))
    && (forall sid :: if sid in s.sequences then LastNumber(rows, sid) == Some(s.sequences[sid]) else LastNumber(rows, sid).None?)
    && (forall t | t in markets ::
          if t in s.bookSids then BegunUnder(rows, t) == Some(s.bookSids[t]) && s.books[t].valid else BegunUnder(rows, t).None?)
  }

  lemma Shorter(rows: seq<Row>, row: Row)
    ensures (rows + [row])[..|rows|] == rows && (rows + [row])[|rows|] == row
  {
  }

  lemma SnapshotAccepted(s: Engine, feed: Feed, row: Row)
    requires row.payload.BookMessage? && row.payload.message.Snapshot? && !Unsequenced(row) && Genuine(feed, row)
    requires var l := Published(feed, row.connection, row.sid.value, row.payload.message.ticker, row.number.value);
             l.Some? ==> Possible(l.value)
    ensures AfterSnapshot(row.payload.message, row.received).valid
  {
    var m := row.payload.message;
    var t, sid, n := m.ticker, row.sid.value, row.number.value;
    var before := if n == 0 then None else Published(feed, row.connection, sid, t, n - 1);
    assert Published(feed, row.connection, sid, t, n) == Publish(before, m, t);
    SnapshotMirrors(m, row.received, before);
    MirrorOfPossible(AfterSnapshot(m, row.received), Publish(before, m, t).value);
  }

  lemma NextDeltaAccepted(s: Engine, feed: Feed, row: Row)
    requires Inv(s, feed) && s.connection == Some(row.connection) && Genuine(feed, row)
    requires row.payload.BookMessage? && row.payload.message.Delta? && !Unsequenced(row) && !Gap(s, row)
    requires var m := row.payload.message;
      && m.ticker in s.books && s.books[m.ticker].valid && m.side != Unknown && 0 < m.price < ONE
      && m.ticker in s.bookSids && s.bookSids[m.ticker] == row.sid.value
    requires var l := Published(feed, row.connection, row.sid.value, row.payload.message.ticker, row.number.value);
             l.Some? ==> Possible(l.value)
    ensures AfterDelta(s.books[row.payload.message.ticker], row.payload.message, row.received).Ok?
  {
    var m := row.payload.message;
    var t, sid, n := m.ticker, row.sid.value, row.number.value;
    assert Tracked(s, feed, t);
    assert s.sequences[sid] == n - 1;
    var before := Published(feed, row.connection, sid, t, n - 1);
    assert Published(feed, row.connection, sid, t, n) == Publish(before, m, t);
    DeltaAccepted(s.books[t], before.value, m, row.received);
  }

  /** The body of an in-order row succeeds and changes at most the message's own book, which ends valid. */
  lemma InOrderApplies(s: Engine, feed: Feed, connection: string, markets: set<Ticker>, earlier: seq<Row>, row: Row)
    requires Follows(s, connection, markets, earlier) && Inv(s, feed)
    requires InOrderRow(feed, connection, markets, earlier, row) && Genuine(feed, row)
    ensures AtBoundary(s, row) == s && !Gap(s, row)
    ensures var s1 := Counted(s, row);
      if row.payload.BookMessage? && row.payload.message.ticker in markets then
        && !Ignored(s1, row) && Apply(s1, row).1
        && var m := row.payload.message;
           var b := Apply(s1, row).0.books[m.ticker];
           && b.valid
           && Apply(s1, row).0 == s1.(books := s1.books[m.ticker := b],
                                      bookSids := if m.Snapshot? then s1.bookSids[m.ticker := row.sid.value] else s1.bookSids)
      else Ignored(s1, row) || (Apply(s1, row).1 && Apply(s1, row).0 == s1)
  {
    if row.payload.BookMessage? && row.payload.message.ticker in markets {
      var m := row.payload.message;
      assert Watched(s, m.ticker);
      if m.Snapshot? {
        SnapshotAccepted(s, feed, row);
      } else {
        assert m.ticker in s.bookSids;
        NextDeltaAccepted(s, feed, row);
      }
    } else if row.payload.BookMessage? {
      assert !Watched(s, row.payload.message.ticker);
    }
  }

  lemma NumbersFollow(s: Engine, s': Engine, rows: seq<Row>, row: Row)
    requires s'.sequences == Counted(s, row).sequences
    requires forall sid :: if sid in s.sequences then LastNumber(rows, sid) == Some(s.sequences[sid]) else LastNumber(rows, sid).None?
    ensures forall sid :: if sid in s'.sequences then LastNumber(rows + [row], sid) == Some(s'.sequences[sid])
                          else LastNumber(rows + [row], sid).None?
  {
    Shorter(rows, row);
  }

  /** What an in-order row leaves: its number counted, and one book and subscription changed if it is proper. */
  lemma InOrderIngests(s: Engine, feed: Feed, connection: string, markets: set<Ticker>, earlier: seq<Row>, row: Row) returns (b: BookState)
    requires Follows(s, connection, markets, earlier) && Inv(s, feed)
    requires InOrderRow(feed, connection, markets, earlier, row) && Genuine(feed, row)
    ensures b.valid
    ensures var s1 := Counted(s, row);
      Ingest(s, row) ==
        if row.payload.BookMessage? && row.payload.message.ticker in markets then
          var m := row.payload.message;
          s1.(books := s1.books[m.ticker := b], bookSids := if m.Snapshot? then s1.bookSids[m.ticker := row.sid.value] else s1.bookSids)
        else s1
  {
    InOrderApplies(s, feed, connection, markets, earlier, row);
    b := EmptyBook.(valid := true);
    if row.payload.BookMessage? && row.payload.message.ticker in markets {
      b := Apply(Counted(s, row), row).0.books[row.payload.message.ticker];
    }
  }

  lemma InOrderFollows(s: Engine, feed: Feed, connection: string, markets: set<Ticker>, earlier: seq<Row>, row: Row)
    requires Follows(s, connection, markets, earlier) && Inv(s, feed)
    requires InOrderRow(feed, connection, markets, earlier, row) && Genuine(feed, row)
    ensures Follows(Ingest(s, row), connection, markets, earlier + [row])
  {
    var s' := Ingest(s, row);
    var b := InOrderIngests(s, feed, connection, markets, earlier, row);
    NumbersFollow(s, s', earlier, row);
    Shorter(earlier, row);
    forall t ensures t in markets <==> Watched(s', t) {
      assert t in markets <==> Watched(s, t);
    }
    forall t | t in markets
      ensures if t in s'.bookSids then BegunUnder(earlier + [row], t) == Some(s'.bookSids[t]) && s'.books[t].valid
              else BegunUnder(earlier + [row], t).None?
    {
      assert Watched(s, t);
    }
  }

  /** An engine just connected: nothing counted, no book valid. */
  ghost predicate JustConnected(s: Engine, connection: string, markets: set<Ticker>) {
    && s.connection == Some(connection) && s.sequences == map[] && s.bookSids == map[]
    && (forall t | t in s.books :: !s.books[t].valid)
    && (forall t :: t in markets <==> Watched(s, t))
  }

  lemma {:induction false} StreamFollows(s: Engine, feed: Feed, connection: string, markets: set<Ticker>, rows: seq<Row>)
    requires JustConnected(s, connection, markets) && InOrder(feed, connection, markets, rows)
    ensures Inv(After(s, rows), feed) && Follows(After(s, rows), connection, markets, rows)
    decreases |rows|
  {
    if rows != [] {
      var earlier, row := rows[..|rows| - 1], rows[|rows| - 1];
      forall i | 0 <= i < |earlier| ensures InOrderRow(feed, connection, markets, earlier[..i], earlier[i]) && Genuine(feed, earlier[i]) {
        assert earlier[..i] == rows[..i] && earlier[i] == rows[i];
      }
      StreamFollows(s, feed, connection, markets, earlier);
      assert InOrderRow(feed, connection, markets, rows[..|earlier|], rows[|earlier|]);
      InOrderFollows(After(s, earlier), feed, connection, markets, earlier, row);
      IngestKeeps(After(s, earlier), feed, row);
      assert rows == earlier + [row];
    }
  }

  /**
    The other half: nothing is invalidated needlessly. After any uninterrupted stream of
    proper messages over a new connection, every watched market snapshotted so far is valid.
   */
  lemma InOrderStreamStaysValid(s: Engine, feed: Feed, connection: string, markets: set<Ticker>, rows: seq<Row>, t: Ticker)
    requires JustConnected(s, connection, markets) && InOrder(feed, connection, markets, rows)
    requires t in markets && BegunUnder(rows, t).Some?
    ensures t in After(s, rows).books && After(s, rows).books[t].valid
  {
    StreamFollows(s, feed, connection, markets, rows);
    assert Watched(After(s, rows), t);
  }

  // ---- The object ----------------------------------------------------------

  lemma VoidedIs(before: map<Ticker, BookState>, after: map<Ticker, BookState>, voided: set<Ticker>)
    requires after.Keys == before.Keys
    requires forall t | t in after :: after[t] == if t in voided then before[t].(valid := false) else before[t]
    ensures after == Voided(before, voided)
  {
  }

  lemma SelectIs(s: Engine, s': Engine, selected: set<Ticker>)
    requires s' == s.(watchlist := Some(selected), books := s'.books, bookSids := s.bookSids - (s.books.Keys - selected))
    requires s'.books.Keys == s.books.Keys
    requires forall t | t in s'.books :: s'.books[t] == if t in selected then s.books[t] else EmptyBook
    ensures s' == Select(s, selected)
  {
    assert s'.books == Select(s, selected).books;
    assert s'.bookSids == Select(s, selected).bookSids;
  }

  lemma RemoveOneMore(before: map<Ticker, int>, sids: map<Ticker, int>, gone: set<Ticker>, todo: set<Ticker>, t: Ticker)
    requires todo <= gone && t in todo && sids == before - (gone - todo)
    ensures sids - {t} == before - (gone - (todo - {t}))
  {
  }

  /** The engine fields `_ingest` writes; the books are objects updated in place. */
  class CollectorEngine {
    var connection: Option<string>
    var sequences: map<int, int>
    var books: map<Ticker, Book>
    var bookSids: map<Ticker, int>
    var watchlist: Option<set<Ticker>>
    var integrityFailed: bool

    /** No two markets share a book object. */
    ghost predicate Valid()
      reads this`books
    {
      forall t, u | t in books && u in books && t != u :: books[t] != books[u]
    }

    ghost function Shelf(): map<Ticker, BookState>
      reads this`books, books.Values
    {
      map t | t in books :: books[t].View()
    }

    ghost function View(): Engine
      reads this, books.Values
    {
      Engine(connection, sequences, Shelf(), bookSids, watchlist, integrityFailed)
    }

    constructor ()
      ensures Valid() && View() == Fresh
    {
      connection, sequences, books, bookSids := None, map[], map[], map[];
      watchlist, integrityFailed := None, false;
    }

    method VoidBooks(voided: set<Ticker>)
      requires Valid()
      modifies books.Values
      ensures Shelf() == Voided(old(Shelf()), voided)
    {
      var todo := books.Keys;
      while todo != {}
        invariant todo <= books.Keys
        invariant forall t | t in books :: books[t].View() ==
                    if t !in todo && t in voided then old(books[t].View()).(valid := false) else old(books[t].View())
        decreases |todo|
      {
        var t: Ticker :| t in todo;
        if t in voided {
          books[t].valid := false;
        }
        todo := todo - {t};
      }
      VoidedIs(old(Shelf()), Shelf(), voided);
    }

    method InvalidateAll()
      requires Valid()
      modifies this`integrityFailed, this`bookSids, books.Values
      ensures Valid() && View() == Invalidate(old(View()))
    {
      integrityFailed := true;
      bookSids := map[];
      VoidBooks(books.Keys);
    }

    /** `self.books[t] = Book()`. */
    method PutEmpty(t: Ticker)
      requires Valid()
      modifies this`books
      ensures Valid() && books.Keys == old(books.Keys) + {t}
      ensures fresh(books[t]) && books[t].View() == EmptyBook
      ensures forall u | u in books && u != t :: books[u] == old(books[u])
    {
      var empty := new Book();
      books := books[t := empty];
    }

    method EmptyBooks(gone: set<Ticker>)
      requires Valid() && gone <= books.Keys
      modifies this`books, this`bookSids
      ensures Valid() && books.Keys == old(books.Keys) && bookSids == old(bookSids) - gone
      ensures forall t | t in books && t !in gone :: books[t] == old(books[t])
      ensures forall t | t in gone :: fresh(books[t]) && books[t].View() == EmptyBook
    {
      var todo := gone;
      while todo != {}
        invariant todo <= gone && Valid() && books.Keys == old(books.Keys)
        invariant forall t | t in books && (t !in gone || t in todo) :: books[t] == old(books[t])
        invariant forall t | t in gone && t !in todo :: fresh(books[t]) && books[t].View() == EmptyBook
        invariant bookSids == old(bookSids) - (gone - todo)
        decreases |todo|
      {
        var t: Ticker :| t in todo;
        PutEmpty(t);
        RemoveOneMore(old(bookSids), bookSids, gone, todo, t);
        bookSids := bookSids - {t};
        todo := todo - {t};
      }
    }

    method SelectWatchlist(selected: set<Ticker>)
      requires Valid()
      modifies this`watchlist, this`books, this`bookSids
      ensures Valid() && fresh(books.Values - old(books.Values))
      ensures View() == Select(old(View()), selected)
    {
      EmptyBooks(books.Keys - selected);
      watchlist := Some(selected);
      forall t | t in books ensures Shelf()[t] == if t in selected then old(Shelf())[t] else EmptyBook {
        assert t in books.Keys - selected <==> t !in selected;
      }
      SelectIs(old(View()), View(), selected);
    }

    method ListMarkets(listed: set<Ticker>)
      requires Valid()
      modifies this`books
      ensures Valid() && fresh(books.Values - old(books.Values))
      ensures View() == List(old(View()), listed)
    {
      AddBooks(listed);
      assert Shelf() == List(old(View()), listed).books;
    }

    method PutIfMissing(t: Ticker)
      requires Valid()
      modifies this`books
      ensures Valid()
      ensures forall u :: u in books <==> u in old(books) || u == t
      ensures forall u | u in old(books) :: books[u] == old(books[u])
      ensures t !in old(books) ==> fresh(books[t]) && books[t].View() == EmptyBook
    {
      if t !in books {
        PutEmpty(t);
      }
    }

    /** Unlisted tickers get empty books; no other book changes hands. */
    method AddBooks(listed: set<Ticker>)
      requires Valid()
      modifies this`books
      ensures Valid()
      ensures forall t :: t in books <==> t in old(books) || t in listed
      ensures forall t | t in old(books) :: books[t] == old(books[t])
      ensures forall t | t in books && t !in old(books) :: fresh(books[t]) && books[t].View() == EmptyBook
    {
      ghost var before := books;
      var todo := listed;
      while todo != {}
        invariant Valid() && todo <= listed
        invariant forall t :: t in books <==> t in before || (t in listed && t !in todo)
        invariant forall t | t in before :: books[t] == before[t]
        invariant forall t | t in books && t !in before :: fresh(books[t]) && books[t].View() == EmptyBook
        decreases |todo|
      {
        var t: Ticker :| t in todo;
        PutIfMissing(t);
        todo := todo - {t};
      }
    }

    /** The `try` block; false means it raised and the caller invalidates. */
    method ApplyBody(row: Row) returns (ok: bool)
      requires Valid()
      modifies this, books.Values
      ensures Valid() && fresh(books.Values - old(books.Values))
      ensures (View(), ok) == Apply(old(View()), row)
    {
      if row.malformed {
        return false;
      }
      match row.payload
      case Metadata(selection, listed, voided) =>
        if selection.Some? {
          SelectWatchlist(selection.value + row.held);
        }
        ListMarkets(listed);
        VoidBooks(voided);
        return true;
      case Lifecycle(voided) =>
        VoidBooks(voided);
        return true;
      case Transport =>
        InvalidateAll();
        return true;
      case BookMessage(m) =>
        ok := ApplyBookMessage(row, m);
      case _ =>
        return true;
    }

    method ApplyBookMessage(row: Row, m: Message) returns (ok: bool)
      requires Valid() && row.payload == BookMessage(m) && !row.malformed
      modifies this`bookSids, books.Values
      ensures Valid()
      ensures (View(), ok) == Apply(old(View()), row)
    {
      var t := m.ticker;
      if t !in books {
        return true;
      }
      if m.Snapshot? {
        ok := books[t].ApplySnapshot(m, row.received);
        if ok {
          bookSids := bookSids[t := row.sid.GetOr(0)];
        }
      } else {
        if t !in bookSids || Some(bookSids[t]) != row.sid {
          return false;
        }
        ok := books[t].ApplyDelta(m, row.received);
      }
      ghost var b := books[t].View();
      assert Shelf() == old(Shelf())[t := b];
    }

    method CrossBoundary(row: Row)
      requires Valid()
      modifies this, books.Values
      ensures Valid() && books == old(books)
      ensures View() == AtBoundary(old(View()), row)
    {
      if connection != Some(row.connection) {
        InvalidateAll();
        connection := Some(row.connection);
        sequences := map[];
        integrityFailed := !row.payload.Connected?;
      }
      if row.clockJump {
        InvalidateAll();
      }
    }

    /** The sequence check; false means a gap, after which nothing is valid. */
    method CountNumber(row: Row) returns (ok: bool)
      requires Valid()
      modifies this, books.Values
      ensures Valid() && books == old(books)
      ensures ok <==> !Gap(old(View()), row)
      ensures View() == Counted(if ok then old(View()) else Invalidate(old(View())), row)
    {
      ok := true;
      if row.sid.Some? && row.number.Some? {
        var sid, number := row.sid.value, row.number.value;
        if sid in sequences && number != sequences[sid] + 1 {
          InvalidateAll();
          ok := false;
        }
        sequences := sequences[sid := number];
      }
    }

    method IngestRow(row: Row) returns (valid: bool)
      requires Valid()
      modifies this, books.Values
      ensures Valid() && fresh(books.Values - old(books.Values))
      ensures View() == Ingest(old(View()), row)
      ensures valid <==> Accepted(old(View()), row)
    {
      CrossBoundary(row);
      if row.payload.BookMessage? && Unsequenced(row) {
        InvalidateAll();
        return false;
      }
      var counted := CountNumber(row);
      if !counted {
        return false;
      }
      var market := MarketOf(row.payload);
      if market.Some? && watchlist.Some? && market.value !in watchlist.value {
        return true;
      }
      valid := ApplyBody(row);
      if !valid || row.processingFails {
        InvalidateAll();
        valid := false;
      }
    }
  }
}
