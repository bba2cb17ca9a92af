/** The bookings table, its constraints, and the read-through cache in front of it:
    services/booking-service/internal/repository/booking_repository.go and migrations/0001_init.sql. */
module BookingStore {
  import opened Basics
  import opened Intervals
  import opened BookingDomain

  type Rows = map<BookingId, Booking>

  datatype Store = Store(rows: Rows, cache: map<BookingId, Booking>)

  /** How the database and Redis answer the statements of one repository call. */
  datatype ReadEnv = ReadEnv(redisUp: bool, dbOk: bool, setOk: bool)
  datatype WriteEnv = WriteEnv(dbOk: bool, delOk: bool, setOk: bool, now: Time)
  datatype InsertEnv = InsertEnv(id: BookingId, checkOk: bool, dbOk: bool, setOk: bool, now: Time)

  /** The conflict query. */
  predicate HasConflict(rows: Rows, spotId: int, start: Time, end: Time) {
    exists id :: id in rows && rows[id].spotId == spotId && IsLive(rows[id].status)
                 && SqlOverlap(start, end, rows[id].start, rows[id].end)
  }

  /** Two rows that the exclusion constraint refuses to keep together. */
  predicate Collide(a: Booking, b: Booking) {
    IsLive(a.status) && IsLive(b.status) && a.spotId == b.spotId && RangesMeet(a.start, a.end, b.start, b.end)
  }

  /** The CHECK and the exclusion constraint, evaluated for the row that a statement writes. */
  predicate Admits(rows: Rows, b: Booking) {
    b.start < b.end && forall id | id in rows && id != b.id :: !Collide(b, rows[id])
  }

  /** The table as its constraints keep it. */
  predicate Sound(rows: Rows) {
    && (forall id | id in rows :: rows[id].id == id && rows[id].start < rows[id].end)
    && (forall i, j | i in rows && j in rows && i != j :: !Collide(rows[i], rows[j]))
  }

  function NewBooking(input: CreateInput, id: BookingId, now: Time): Booking {
    Booking(id, input.userId, input.parkingId, input.spotId, input.plate, input.start, input.end,
            Pending, "", now, now, None)
  }

  function WithStatus(b: Booking, status: Status, reason: string, now: Time): Booking {
    b.(status := status, cancelReason := reason, updatedAt := now,
       cancelledAt := if status == Cancelled then Some(now) else None)
  }

  function InsertRow(rows: Rows, b: Booking): Outcome<Rows> {
    if b.id in rows || !Admits(rows, b) then Err(DependencyFailed) else Ok(rows[b.id := b])
  }

  function UpdateRow(rows: Rows, id: BookingId, status: Status, reason: string, now: Time): Outcome<Rows> {
    if id !in rows then Err(BookingNotFound)
    else
      var b := WithStatus(rows[id], status, reason, now);
      if Admits(rows, b) then Ok(rows[id := b]) else Err(DependencyFailed)
  }

  function SetCache(s: Store, b: Booking, ok: bool): Store {
    if ok then s.(cache := s.cache[b.id := b]) else s
  }

  function DropCache(s: Store, id: BookingId, ok: bool): Store {
    if ok then s.(cache := s.cache - {id}) else s
  }

  function CreateSpec(s: Store, input: CreateInput, env: InsertEnv): (Store, Outcome<Booking>) {
    if !env.checkOk then (s, Err(DependencyFailed))
    else if HasConflict(s.rows, input.spotId, input.start, input.end) then (s, Err(BookingConflict))
    else if !env.dbOk then (s, Err(DependencyFailed))
    else
      var b := NewBooking(input, env.id, env.now);
      match InsertRow(s.rows, b)
      case Err(e) => (s, Err(e))
      case Ok(rows) => (SetCache(s.(rows := rows), b, env.setOk), Ok(b))
  }

  function DirectRead(rows: Rows, id: BookingId): Outcome<Booking> {
    if id == "" then Err(InvalidInput) else if id in rows then Ok(rows[id]) else Err(BookingNotFound)
  }

  function GetSpec(s: Store, id: BookingId, env: ReadEnv): (Store, Outcome<Booking>) {
    if id == "" then (s, Err(InvalidInput))
    else if env.redisUp && id in s.cache then (s, Ok(s.cache[id]))
    else if !env.dbOk then (s, Err(DependencyFailed))
    else if id !in s.rows then (s, Err(BookingNotFound))
    else (SetCache(s, s.rows[id], env.setOk), Ok(s.rows[id]))
  }

  function UpdateSpec(s: Store, id: BookingId, status: Status, reason: string, env: WriteEnv)
    : (Store, Outcome<Booking>)
  {
    if !env.dbOk then (s, Err(DependencyFailed))
    else match UpdateRow(s.rows, id, status, reason, env.now)
      case Err(e) => (s, Err(e))
      case Ok(rows) => (SetCache(DropCache(s.(rows := rows), id, env.delOk), rows[id], env.setOk), Ok(rows[id]))
  }

  // ---------------------------------------------------------------- what every statement keeps

  lemma InsertKeepsSound(rows: Rows, b: Booking)
    requires Sound(rows) && InsertRow(rows, b).Ok?
    ensures Sound(InsertRow(rows, b).value)
  {
    var after := InsertRow(rows, b).value;
    forall i, j | i in after && j in after && i != j
      ensures !Collide(after[i], after[j])
    {
      if i != b.id && j != b.id { assert i in rows && j in rows; }
    }
  }

  lemma UpdateKeepsSound(rows: Rows, id: BookingId, status: Status, reason: string, now: Time)
    requires Sound(rows) && UpdateRow(rows, id, status, reason, now).Ok?
    ensures Sound(UpdateRow(rows, id, status, reason, now).value)
  {
    var after := UpdateRow(rows, id, status, reason, now).value;
    forall i, j | i in after && j in after && i != j
      ensures !Collide(after[i], after[j])
    {
      if i != id && j != id { assert i in rows && j in rows; }
    }
  }

  /** With nothing interleaved, the conflict query decides exactly what the exclusion constraint would. */
  lemma ConflictQueryForeseesConstraint(rows: Rows, input: CreateInput, id: BookingId, now: Time)
    requires Sound(rows) && id !in rows && input.start < input.end
    ensures InsertRow(rows, NewBooking(input, id, now)).Ok?
            <==> !HasConflict(rows, input.spotId, input.start, input.end)
  {
    var b := NewBooking(input, id, now);
    forall i | i in rows
      ensures Collide(b, rows[i]) <==> (rows[i].spotId == input.spotId && IsLive(rows[i].status)
                                        && SqlOverlap(input.start, input.end, rows[i].start, rows[i].end))
    {
      SqlOverlapIsRangeOverlap(input.start, input.end, rows[i].start, rows[i].end);
    }
  }

  // ---------------------------------------------------------------- cache runs

  predicate Coherent(s: Store) {
    forall id | id in s.cache :: id in s.rows && s.cache[id] == s.rows[id]
  }

  datatype Event =
    | Creates(input: CreateInput, insert: InsertEnv)
    | Reads(id: BookingId, read: ReadEnv)
    | Updates(id: BookingId, status: Status, reason: string, write: WriteEnv)
    | Expires(id: BookingId)

  function Apply(s: Store, ev: Event): Store {
    match ev
    case Creates(input, env) => CreateSpec(s, input, env).0
    case Reads(id, env) => GetSpec(s, id, env).0
    case Updates(id, status, reason, env) => UpdateSpec(s, id, status, reason, env).0
    case Expires(id) => DropCache(s, id, true)
  }

  function Replay(events: seq<Event>): Store {
    if events == [] then Store(map[], map[])
    else Apply(Replay(events[..|events| - 1]), events[|events| - 1])
  }

  predicate RefreshesCache(ev: Event) {
    ev.Updates? ==> ev.write.delOk || ev.write.setOk
  }

  lemma UpdateKeepsCoherent(s: Store, id: BookingId, status: Status, reason: string, env: WriteEnv)
    requires Coherent(s) && Sound(s.rows) && (env.delOk || env.setOk || id !in s.cache)
    ensures Coherent(UpdateSpec(s, id, status, reason, env).0)
  {
    if id in s.rows {
      assert WithStatus(s.rows[id], status, reason, env.now).id == id;
    }
  }

  lemma {:induction false} ReplayIsCoherent(events: seq<Event>)
    requires forall ev | ev in events :: RefreshesCache(ev)
    ensures Coherent(Replay(events)) && Sound(Replay(events).rows)
  {
    if events != [] {
      var before, ev := events[..|events| - 1], events[|events| - 1];
      ReplayIsCoherent(before);
      var s := Replay(before);
      assert RefreshesCache(ev);
      match ev
      case Creates(input, env) =>
        if CreateSpec(s, input, env).1.Ok? { InsertKeepsSound(s.rows, NewBooking(input, env.id, env.now)); }
      case Updates(id, status, reason, env) =>
        if UpdateSpec(s, id, status, reason, env).1.Ok? {
          UpdateKeepsSound(s.rows, id, status, reason, env.now);
          UpdateKeepsCoherent(s, id, status, reason, env);
        }
      case _ =>
    }
  }

  /** After any serial history with arbitrary expiry, a read answers what the table holds, or reports a database
      error. */
  lemma ReadsEqualDatabase(events: seq<Event>, id: BookingId, env: ReadEnv)
    requires forall ev | ev in events :: RefreshesCache(ev)
    ensures var (s', r) := GetSpec(Replay(events), id, env);
            && (r == DirectRead(Replay(events).rows, id) || (r == Err(DependencyFailed) && !env.dbOk))
            && s'.rows == Replay(events).rows
  {
    ReplayIsCoherent(events);
  }

  /** Exactly when one update leaves a coherent cache coherent: a cache command got through, or nothing was cached. */
  lemma UpdateStaysCoherentExactly(s: Store, id: BookingId, status: Status, reason: string, env: WriteEnv)
    requires Coherent(s) && Sound(s.rows)
    requires UpdateSpec(s, id, status, reason, env).1.Ok? && s.rows[id].status != status
    ensures Coherent(UpdateSpec(s, id, status, reason, env).0) <==> env.delOk || env.setOk || id !in s.cache
  {
    var s' := UpdateSpec(s, id, status, reason, env).0;
    assert s'.rows[id].status == status;
    if env.delOk || env.setOk || id !in s.cache {
      UpdateKeepsCoherent(s, id, status, reason, env);
    }
    if !env.delOk && !env.setOk && id in s.cache {
      assert s'.cache[id] == s.rows[id];
    }
  }

  // ---------------------------------------------------------------- packing

  /** The live bookings of a spot that lie inside the window [a, b). */
  function LiveInside(rows: Rows, spotId: int, a: Time, b: Time): set<BookingId> {
    set id | id in rows && IsLive(rows[id].status) && rows[id].spotId == spotId && a <= rows[id].start
      && rows[id].end <= b
  }

  function RangesOf(rows: Rows, ids: set<BookingId>): map<BookingId, Interval>
    requires ids <= rows.Keys
  {
    map id | id in ids :: Interval(rows[id].start, rows[id].end)
  }

  /** A spot is never promised for longer than the window lasts. */
  lemma SpotNeverOversold(rows: Rows, spotId: int, a: Time, b: Time)
    requires Sound(rows) && a <= b
    ensures var ids := LiveInside(rows, spotId, a, b);
            TotalLength(RangesOf(rows, ids), ids) <= b - a
  {
    var ids := LiveInside(rows, spotId, a, b);
    var ranges := RangesOf(rows, ids);
    forall i, j | i in ranges && j in ranges && i != j
      ensures !RangesMeet(ranges[i].start, ranges[i].end, ranges[j].start, ranges[j].end)
    {
      assert !Collide(rows[i], rows[j]);
    }
    DisjointRangesFit(ranges, ids, a, b);
  }
}
