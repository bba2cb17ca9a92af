/** The same operations cut at every SQL statement, Redis command and HTTP call, for any number of calls at once.
    The replies that a call will get are drawn when it begins; the state that it meets is whatever the others left. */
module BookingInterleaving {
  import opened Basics
  import opened Intervals
  import opened BookingDomain
  import opened BookingStore
  import opened ParkingSpots
  import opened BookingFlow
  import opened BookingRuns
  import opened BookingMatching
  import opened BookingHistory

  type CallId = nat

  /** The next statement of a running call. */
  datatype Pc =
    | SelectSpot(input: CreateInput, create: CreateEnv)          // ReserveSpot, first statement
    | ReserveUpdate(input: CreateInput, create: CreateEnv)       // ReserveSpot, second statement
    | ConflictQuery(input: CreateInput, create: CreateEnv)
    | InsertBooking(input: CreateInput, create: CreateEnv)
    | CacheNew(booking: Booking, setOk: bool)
    | FillCache(op: Op, seen: Booking)                           // GetByID missed the cache
    | UpdateBooking(op: Op, seen: Booking)
    | DeleteCached(op: Op, booking: Booking)
    | SetCached(op: Op, booking: Booking)
    | OccupySpot(spot: int, result: Outcome<Booking>)
    | ReleaseSelect(spot: int, result: Outcome<Booking>)         // ReleaseSpot, first statement
    | ReleaseUpdate(spot: int, result: Outcome<Booking>)         // ReleaseSpot, second statement

  datatype State = State(world: World, calls: map<CallId, Pc>, results: map<CallId, Outcome<Booking>>)

  datatype Event =
    | Begin(call: CallId, op: Op)
    | Advance(call: CallId)
    | Environment(op: Op)          // a cached entry expires, a spot is added

  function Next(s: State, call: CallId, world: World, pc: Pc): State {
    s.(world := world, calls := s.calls[call := pc])
  }

  function Return(s: State, call: CallId, world: World, r: Outcome<Booking>): State {
    State(world, s.calls - {call}, s.results[call := r])
  }

  ghost function BeginCall(s: State, call: CallId, op: Op): State {
    if op.Create? then BeginCreate(s, call, Prepare(s.world.parking, op.raw, op.create), op.create)
    else if IsChange(op) then BeginChange(s, call, op)
    else s
  }

  function BeginCreate(s: State, call: CallId, prepared: Outcome<CreateInput>, env: CreateEnv): State {
    match prepared
    case Err(e) => Return(s, call, s.world, Err(e))
    case Ok(input) => Next(s, call, s.world, SelectSpot(input, env))
  }

  /** `GetByID`: the cached entry, or the row and then the cache. */
  function BeginChange(s: State, call: CallId, op: Op): State
    requires IsChange(op)
  {
    var store, env := s.world.store, op.env;
    if op.id == "" then Return(s, call, s.world, Err(InvalidInput))
    else if env.read.redisUp && op.id in store.cache then Decide(s, call, op, store.cache[op.id])
    else if !env.read.dbOk then Return(s, call, s.world, Err(DependencyFailed))
    else if op.id !in store.rows then Return(s, call, s.world, Err(BookingNotFound))
    else Next(s, call, s.world, FillCache(op, store.rows[op.id]))
  }

  /** The check between the read and the update. */
  function Decide(s: State, call: CallId, op: Op, seen: Booking): State
    requires IsChange(op)
  {
    if CanTransition(seen.status, Target(op)) && (op.Start? ==> seen.start <= op.env.clock)
    then Next(s, call, s.world, UpdateBooking(op, seen))
    else Return(s, call, s.world, Err(InvalidStatusTransition))
  }

  /** What follows the cache commands: the call about the spot, or the end. */
  function AfterUpdate(s: State, call: CallId, op: Op, b: Booking): State
    requires IsChange(op)
  {
    var r := if op.Confirm? || op.Cancel? then Published(Ok(b), op.env) else Ok(b);
    if op.Confirm? || b.spotId <= 0 || op.env.spotCall.Unreachable? then Return(s, call, s.world, r)
    else if op.Start? then Next(s, call, s.world, OccupySpot(b.spotId, r))
    else Next(s, call, s.world, ReleaseSelect(b.spotId, r))
  }

  function AdvanceCall(s: State, call: CallId): State
    requires call in s.calls
  {
    var w := s.world;
    match s.calls[call]
    case SelectSpot(input, env) =>
      if env.reserve.Unreachable? || input.spotId !in w.parking.spots
        || w.parking.spots[input.spotId].status != Available
      then Return(s, call, w, Err(NormalizeParkingError(CLIENT_WORDING)))
      else Next(s, call, w, ReserveUpdate(input, env))
    case ReserveUpdate(input, env) =>
      var reserved := w.(parking := WithSpotStatus(w.parking, input.spotId, Reserved));
      if env.reserve.ReplyLost? then Return(s, call, reserved, Err(NormalizeParkingError(CLIENT_WORDING)))
      else Next(s, call, reserved, ConflictQuery(input, env))
    case ConflictQuery(input, env) =>
      if !env.insert.checkOk then Undo(s, call, input, env, DependencyFailed)
      else if HasConflict(w.store.rows, input.spotId, input.start, input.end)
        then Undo(s, call, input, env, BookingConflict)
      else Next(s, call, w, InsertBooking(input, env))
    case InsertBooking(input, env) =>
      var b := NewBooking(input, env.insert.id, env.insert.now);
      if !env.insert.dbOk then Undo(s, call, input, env, DependencyFailed)
      else (match InsertRow(w.store.rows, b)
            case Err(e) => Undo(s, call, input, env, e)
            case Ok(rows) => Next(s, call, w.(store := w.store.(rows := rows)), CacheNew(b, env.insert.setOk)))
    case CacheNew(b, setOk) => Return(s, call, w.(store := SetCache(w.store, b, setOk)), Ok(b))
    case FillCache(op, seen) =>
      if !IsChange(op) then s
      else Decide(s.(world := w.(store := SetCache(w.store, seen, op.env.read.setOk))), call, op, seen)
    case UpdateBooking(op, seen) =>
      if !IsChange(op) then s
      else if !op.env.write.dbOk then Return(s, call, w, Err(DependencyFailed))
      else (match UpdateRow(w.store.rows, op.id, Target(op), ReasonOf(op), op.env.write.now)
            case Err(e) => Return(s, call, w, Err(e))
            case Ok(rows) => Next(s, call, w.(store := w.store.(rows := rows)), DeleteCached(op, rows[op.id])))
    case DeleteCached(op, b) =>
      if !IsChange(op) then s
      else Next(s, call, w.(store := DropCache(w.store, op.id, op.env.write.delOk)), SetCached(op, b))
    case SetCached(op, b) =>
      if !IsChange(op) then s
      else AfterUpdate(s.(world := w.(store := SetCache(w.store, b, op.env.write.setOk))), call, op, b)
    case OccupySpot(spot, r) => Return(s, call, w.(parking := WithSpotStatus(w.parking, spot, Occupied)), r)
    case ReleaseSelect(spot, r) =>
      if spot in w.parking.spots && w.parking.spots[spot].status == Reserved
      then Next(s, call, w, ReleaseUpdate(spot, r))
      else Return(s, call, w, r)
    case ReleaseUpdate(spot, r) => Return(s, call, w.(parking := WithSpotStatus(w.parking, spot, Available)), r)
  }

  /** The insert failed: give the spot back, ignoring how that goes. */
  function Undo(s: State, call: CallId, input: CreateInput, env: CreateEnv, e: Error): State {
    if env.release.Unreachable? then Return(s, call, s.world, Err(e))
    else Next(s, call, s.world, ReleaseSelect(input.spotId, Err(e)))
  }

  ghost function Step(s: State, ev: Event): State {
    match ev
    case Begin(call, op) => if call in s.calls then s else BeginCall(s, call, op)
    case Advance(call) => if call in s.calls then AdvanceCall(s, call) else s
    case Environment(op) =>
      if op.CacheExpires? || op.AddSpot? then s.(world := BookingRuns.Step(s.world, op)) else s
  }

  ghost function RunFrom(s: State, events: seq<Event>): State {
    if events == [] then s else Step(RunFrom(s, events[..|events| - 1]), events[|events| - 1])
  }

  ghost function Initial(totals: map<int, nat>): State {
    State(BookingRuns.Run(totals, []), map[], map[])
  }

  // ---------------------------------------------------------------- safety for every schedule

  /** A statement leaves the table alone, inserts one admitted pending row, or updates one admitted row. */
  ghost predicate TableMove(rows: Rows, rows': Rows) {
    || rows' == rows
    || (exists b :: Inserts(rows, rows', b))
    || (exists op :: Updates(rows, rows', op))
  }

  predicate Inserts(rows: Rows, rows': Rows, b: Booking) {
    InsertRow(rows, b) == Ok(rows') && b.status == Pending && WellMarked(b)
  }

  predicate Updates(rows: Rows, rows': Rows, op: Op) {
    IsChange(op) && UpdateRow(rows, op.id, Target(op), ReasonOf(op), op.env.write.now) == Ok(rows')
  }

  lemma BeginOnTable(s: State, call: CallId, op: Op)
    ensures BeginCall(s, call, op).world == s.world
  {
    if op.Create? {
      var prepared := Prepare(s.world.parking, op.raw, op.create);
      assert BeginCreate(s, call, prepared, op.create).world == s.world;
    } else if IsChange(op) {
      assert BeginChange(s, call, op).world == s.world;
    }
  }

  lemma DecideOnTable(s: State, call: CallId, op: Op, b: Booking)
    requires IsChange(op)
    ensures Decide(s, call, op, b).world == s.world && AfterUpdate(s, call, op, b).world == s.world
  {
  }

  /** The bookings table after the statement before which a call stands. */
  function RowsAfter(rows: Rows, pc: Pc): Rows {
    match pc
    case InsertBooking(input, env) =>
      var inserted := InsertRow(rows, NewBooking(input, env.insert.id, env.insert.now));
      if env.insert.dbOk && inserted.Ok? then inserted.value else rows
    case UpdateBooking(op, _) =>
      if !IsChange(op) || !op.env.write.dbOk then rows
      else
        var updated := UpdateRow(rows, op.id, Target(op), ReasonOf(op), op.env.write.now);
        if updated.Ok? then updated.value else rows
    case _ => rows
  }

  /** The spots after that statement. */
  function ParkingAfter(p: Parking, pc: Pc): Parking {
    match pc
    case ReserveUpdate(input, _) => WithSpotStatus(p, input.spotId, Reserved)
    case OccupySpot(spot, _) => WithSpotStatus(p, spot, Occupied)
    case ReleaseUpdate(spot, _) => WithSpotStatus(p, spot, Available)
    case _ => p
  }

  predicate HasEffect(w: World, w': World, pc: Pc) {
    w'.store.rows == RowsAfter(w.store.rows, pc) && w'.parking == ParkingAfter(w.parking, pc)
  }

  lemma CreationHasEffect(s: State, call: CallId)
    requires call in s.calls
    requires var pc := s.calls[call];
             pc.SelectSpot? || pc.ReserveUpdate? || pc.ConflictQuery? || pc.InsertBooking? || pc.CacheNew?
    ensures HasEffect(s.world, AdvanceCall(s, call).world, s.calls[call])
  {
  }

  lemma ChangeHasEffect(s: State, call: CallId)
    requires call in s.calls
    requires var pc := s.calls[call];
             pc.FillCache? || pc.UpdateBooking? || pc.DeleteCached? || pc.SetCached?
    ensures HasEffect(s.world, AdvanceCall(s, call).world, s.calls[call])
  {
    var w, pc := s.world, s.calls[call];
    if IsChange(pc.op) {
      if pc.FillCache? {
        DecideOnTable(s.(world := w.(store := SetCache(w.store, pc.seen, pc.op.env.read.setOk))), call, pc.op, pc.seen);
      } else if pc.SetCached? {
        DecideOnTable(s.(world := w.(store := SetCache(w.store, pc.booking, pc.op.env.write.setOk))), call, pc.op,
                      pc.booking);
      }
    }
  }

  lemma AdvanceHasEffect(s: State, call: CallId)
    requires call in s.calls
    ensures HasEffect(s.world, AdvanceCall(s, call).world, s.calls[call])
  {
    var pc := s.calls[call];
    if pc.SelectSpot? || pc.ReserveUpdate? || pc.ConflictQuery? || pc.InsertBooking? || pc.CacheNew? {
      CreationHasEffect(s, call);
    } else if pc.FillCache? || pc.UpdateBooking? || pc.DeleteCached? || pc.SetCached? {
      ChangeHasEffect(s, call);
    }
  }

  lemma EffectOnTable(rows: Rows, pc: Pc)
    ensures TableMove(rows, RowsAfter(rows, pc))
  {
    var rows' := RowsAfter(rows, pc);
    if rows' != rows {
      if pc.InsertBooking? {
        assert Inserts(rows, rows', NewBooking(pc.input, pc.create.insert.id, pc.create.insert.now));
      } else {
        assert Updates(rows, rows', pc.op);
      }
    }
  }

  lemma StatementOnTable(s: State, ev: Event)
    ensures TableMove(s.world.store.rows, Step(s, ev).world.store.rows)
  {
    match ev
    case Begin(call, op) => BeginOnTable(s, call, op);
    case Environment(op) =>
    case Advance(call) =>
      if call in s.calls {
        AdvanceHasEffect(s, call);
        EffectOnTable(s.world.store.rows, s.calls[call]);
      }
  }

  ghost predicate AllWellMarked(rows: Rows) {
    forall id | id in rows :: WellMarked(rows[id])
  }

  lemma MoveKeepsTable(rows: Rows, rows': Rows)
    requires Sound(rows) && AllWellMarked(rows) && TableMove(rows, rows')
    ensures Sound(rows') && AllWellMarked(rows')
  {
    if b :| Inserts(rows, rows', b) {
      InsertKeepsSound(rows, b);
    } else if op :| Updates(rows, rows', op) {
      UpdateKeepsSound(rows, op.id, Target(op), ReasonOf(op), op.env.write.now);
      UpdateIsWellMarked(rows, op.id, Target(op), ReasonOf(op), op.env.write.now);
    }
  }

  lemma {:induction false} EveryScheduleKeepsTable(totals: map<int, nat>, events: seq<Event>)
    ensures var rows := RunFrom(Initial(totals), events).world.store.rows;
            Sound(rows) && AllWellMarked(rows)
  {
    if events != [] {
      var before, ev := events[..|events| - 1], events[|events| - 1];
      EveryScheduleKeepsTable(totals, before);
      var s := RunFrom(Initial(totals), before);
      StatementOnTable(s, ev);
      MoveKeepsTable(s.world.store.rows, Step(s, ev).world.store.rows);
    }
  }

  /** Under every schedule, stale reads and revived cancellations included: two live bookings of one spot never
      share an instant, the live bookings of a spot fit into any window that holds them, and cancellation marks
      are set exactly on cancelled rows. */
  lemma NoDoubleBooking(totals: map<int, nat>, events: seq<Event>, i: BookingId, j: BookingId,
                        t: Time, a: Time, b: Time)
    requires a <= b
    ensures var rows := RunFrom(Initial(totals), events).world.store.rows;
            && (i in rows && j in rows && i != j && IsLive(rows[i].status) && IsLive(rows[j].status)
                && rows[i].spotId == rows[j].spotId
                ==> !(Covers(rows[i].start, rows[i].end, t) && Covers(rows[j].start, rows[j].end, t)))
            && (i in rows ==> WellMarked(rows[i]))
            && (forall spot :: var ids := LiveInside(rows, spot, a, b); TotalLength(RangesOf(rows, ids), ids) <= b - a)
  {
    EveryScheduleKeepsTable(totals, events);
    var rows := RunFrom(Initial(totals), events).world.store.rows;
    if i in rows && j in rows && i != j {
      assert !Collide(rows[i], rows[j]);
      SqlOverlapIsRangeOverlap(rows[i].start, rows[i].end, rows[j].start, rows[j].end);
    }
    forall spot
      ensures var ids := LiveInside(rows, spot, a, b); TotalLength(RangesOf(rows, ids), ids) <= b - a
    {
      SpotNeverOversold(rows, spot, a, b);
    }
  }

  // ---------------------------------------------------------------- uninterrupted calls are the serial operations

  /** The call runs on its own for `n` statements. */
  ghost function Alone(s: State, call: CallId, n: nat): State
    decreases n
  {
    if n == 0 then s else Alone(Step(s, Advance(call)), call, n - 1)
  }

  ghost function ResultOf(w: World, op: Op): Outcome<Booking>
    requires IsChange(op) || op.Create?
  {
    match op
    case Create(raw, env) => CreateBooking(w, raw, env).1
    case Confirm(id, env) => ConfirmBooking(w, id, env).1
    case Cancel(id, reason, env) => CancelBooking(w, id, reason, env).1
    case Start(id, env) => StartBooking(w, id, env).1
    case Complete(id, env) => CompleteBooking(w, id, env).1
  }

  lemma {:induction false} FinishedCallStays(s: State, call: CallId, n: nat)
    requires call !in s.calls
    ensures Alone(s, call, n) == s
  {
    if n > 0 { FinishedCallStays(s, call, n - 1); }
  }

  lemma LaterStepsHideEarlier(s: State, call: CallId, w: World, pc: Pc, w2: World, pc2: Pc, r: Outcome<Booking>)
    ensures Next(Next(s, call, w, pc), call, w2, pc2) == Next(s, call, w2, pc2)
    ensures Return(Next(s, call, w, pc), call, w2, r) == Return(s, call, w2, r)
  {
    assert s.calls[call := pc][call := pc2] == s.calls[call := pc2];
    assert s.calls[call := pc] - {call} == s.calls - {call};
  }

  lemma ReturnsAtOnce(s: State, call: CallId, w: World, pc: Pc, w2: World, r: Outcome<Booking>, n: nat)
    requires n >= 1
    requires AdvanceCall(Next(s, call, w, pc), call) == Return(Next(s, call, w, pc), call, w2, r)
    ensures Alone(Next(s, call, w, pc), call, n) == Return(s, call, w2, r)
  {
    LaterStepsHideEarlier(s, call, w, pc, w2, pc, r);
    FinishedCallStays(Return(s, call, w2, r), call, n - 1);
  }

  lemma GoesOn(s: State, call: CallId, w: World, pc: Pc, w2: World, pc2: Pc, n: nat)
    requires n >= 1
    requires AdvanceCall(Next(s, call, w, pc), call) == Next(Next(s, call, w, pc), call, w2, pc2)
    ensures Alone(Next(s, call, w, pc), call, n) == Alone(Next(s, call, w2, pc2), call, n - 1)
  {
    LaterStepsHideEarlier(s, call, w, pc, w2, pc2, Err(InvalidInput));
  }

  lemma FreeAlone(s: State, call: CallId, w: World, spot: int, r: Outcome<Booking>, n: nat)
    requires n >= 1
    ensures Alone(Next(s, call, w, ReleaseUpdate(spot, r)), call, n)
         == Return(s, call, w.(parking := WithSpotStatus(w.parking, spot, Available)), r)
  {
    ReturnsAtOnce(s, call, w, ReleaseUpdate(spot, r), w.(parking := WithSpotStatus(w.parking, spot, Available)), r, n);
  }

  lemma ReleaseAlone(s: State, call: CallId, w: World, spot: int, r: Outcome<Booking>, n: nat)
    requires n >= 2
    ensures Alone(Next(s, call, w, ReleaseSelect(spot, r)), call, n)
         == Return(s, call, w.(parking := ReleaseSpec(w.parking, spot, true).0), r)
  {
    if spot in w.parking.spots && w.parking.spots[spot].status == Reserved {
      GoesOn(s, call, w, ReleaseSelect(spot, r), w, ReleaseUpdate(spot, r), n);
      FreeAlone(s, call, w, spot, r, n - 1);
    } else {
      ReturnsAtOnce(s, call, w, ReleaseSelect(spot, r), w, r, n);
    }
  }

  /** A failed insert and its compensation. */
  lemma UndoAlone(s: State, call: CallId, w: World, pc: Pc, input: CreateInput, env: CreateEnv, e: Error, n: nat)
    requires n >= 3
    requires AdvanceCall(Next(s, call, w, pc), call) == Undo(Next(s, call, w, pc), call, input, env, e)
    ensures Alone(Next(s, call, w, pc), call, n)
         == Return(s, call, w.(parking := CallRelease(w.parking, input.spotId, env.release)), Err(e))
  {
    if env.release.Unreachable? {
      ReturnsAtOnce(s, call, w, pc, w, Err(e), n);
    } else {
      GoesOn(s, call, w, pc, w, ReleaseSelect(input.spotId, Err(e)), n);
      ReleaseAlone(s, call, w, input.spotId, Err(e), n - 1);
    }
  }

  lemma InsertAlone(s: State, call: CallId, w: World, input: CreateInput, env: CreateEnv, n: nat)
    requires n >= 4
    ensures var (store, r) := CreateSpec(w.store, input, env.insert);
            Alone(Next(s, call, w, ConflictQuery(input, env)), call, n)
              == Return(s, call,
                        World(store, if r.Ok? then w.parking else CallRelease(w.parking, input.spotId, env.release)), r)
  {
    var query := ConflictQuery(input, env);
    if !env.insert.checkOk {
      UndoAlone(s, call, w, query, input, env, DependencyFailed, n);
    } else if HasConflict(w.store.rows, input.spotId, input.start, input.end) {
      UndoAlone(s, call, w, query, input, env, BookingConflict, n);
    } else {
      GoesOn(s, call, w, query, w, InsertBooking(input, env), n);
      AdmittedAlone(s, call, w, input, env, n - 1);
    }
  }

  /** The insert, after a conflict query that found nothing. */
  lemma AdmittedAlone(s: State, call: CallId, w: World, input: CreateInput, env: CreateEnv, n: nat)
    requires n >= 3 && env.insert.checkOk && !HasConflict(w.store.rows, input.spotId, input.start, input.end)
    ensures var (store, r) := CreateSpec(w.store, input, env.insert);
            Alone(Next(s, call, w, InsertBooking(input, env)), call, n)
              == Return(s, call,
                        World(store, if r.Ok? then w.parking else CallRelease(w.parking, input.spotId, env.release)), r)
  {
    var b, insert := NewBooking(input, env.insert.id, env.insert.now), InsertBooking(input, env);
    var inserted := InsertRow(w.store.rows, b);
    if !env.insert.dbOk {
      UndoAlone(s, call, w, insert, input, env, DependencyFailed, n);
    } else if inserted.Err? {
      UndoAlone(s, call, w, insert, input, env, inserted.error, n);
    } else {
      var w2 := w.(store := w.store.(rows := inserted.value));
      GoesOn(s, call, w, insert, w2, CacheNew(b, env.insert.setOk), n);
      ReturnsAtOnce(s, call, w2, CacheNew(b, env.insert.setOk), w2.(store := SetCache(w2.store, b, env.insert.setOk)),
                    Ok(b), n - 1);
    }
  }

  lemma ReservedAlone(s: State, call: CallId, w: World, input: CreateInput, env: CreateEnv, n: nat)
    requires n >= 5 && env.reserve.Answered?
    ensures var reserved := WithSpotStatus(w.parking, input.spotId, Reserved);
            var (store, r) := CreateSpec(w.store, input, env.insert);
              Alone(Next(s, call, w, ReserveUpdate(input, env)), call, n)
                == Return(s, call,
                          World(store, if r.Ok? then reserved else CallRelease(reserved, input.spotId, env.release)), r)
  {
    var reserved := w.(parking := WithSpotStatus(w.parking, input.spotId, Reserved));
    GoesOn(s, call, w, ReserveUpdate(input, env), reserved, ConflictQuery(input, env), n);
    InsertAlone(s, call, reserved, input, env, n - 1);
  }

  lemma CommitAlone(s: State, call: CallId, w: World, input: CreateInput, env: CreateEnv, n: nat)
    requires n >= 6
    ensures Alone(Next(s, call, w, SelectSpot(input, env)), call, n)
         == Return(s, call, Commit(w, input, env).0, Commit(w, input, env).1)
  {
    var refused: Outcome<Booking> := Err(NormalizeParkingError(CLIENT_WORDING));
    var select, update := SelectSpot(input, env), ReserveUpdate(input, env);
    if env.reserve.Unreachable? || input.spotId !in w.parking.spots
      || w.parking.spots[input.spotId].status != Available {
      ReturnsAtOnce(s, call, w, select, w, refused, n);
    } else {
      GoesOn(s, call, w, select, w, update, n);
      if env.reserve.ReplyLost? {
        ReturnsAtOnce(s, call, w, update, w.(parking := WithSpotStatus(w.parking, input.spotId, Reserved)), refused,
                      n - 1);
      } else {
        ReservedAlone(s, call, w, input, env, n - 1);
      }
    }
  }

  /** The statements after the check of a status change. */
  lemma UpdateAlone(s: State, call: CallId, w: World, op: Op, seen: Booking, n: nat)
    requires n >= 5 && IsChange(op)
    ensures var (store, r) := UpdateSpec(w.store, op.id, Target(op), ReasonOf(op), op.env.write);
            Alone(Next(s, call, w, UpdateBooking(op, seen)), call, n)
              == Return(s, call, World(store, if r.Ok? then SpotAfter(op, w.parking, r.value.spotId) else w.parking),
                        if op.Confirm? || op.Cancel? then Published(r, op.env) else r)
  {
    var update := UpdateBooking(op, seen);
    var updated := UpdateRow(w.store.rows, op.id, Target(op), ReasonOf(op), op.env.write.now);
    if !op.env.write.dbOk {
      ReturnsAtOnce(s, call, w, update, w, Err(DependencyFailed), n);
    } else if updated.Err? {
      ReturnsAtOnce(s, call, w, update, w, Err(updated.error), n);
    } else {
      UpdatedAlone(s, call, w, op, seen, updated.value, n);
    }
  }

  lemma UpdateGoesOn(s: State, call: CallId, w: World, op: Op, seen: Booking, rows: Rows, n: nat)
    requires n >= 1 && IsChange(op) && op.env.write.dbOk && op.id in rows
    requires UpdateRow(w.store.rows, op.id, Target(op), ReasonOf(op), op.env.write.now) == Ok(rows)
    ensures Alone(Next(s, call, w, UpdateBooking(op, seen)), call, n)
         == Alone(Next(s, call, w.(store := w.store.(rows := rows)), DeleteCached(op, rows[op.id])), call, n - 1)
  {
    GoesOn(s, call, w, UpdateBooking(op, seen), w.(store := w.store.(rows := rows)), DeleteCached(op, rows[op.id]), n);
  }

  lemma DeleteGoesOn(s: State, call: CallId, w: World, op: Op, b: Booking, n: nat)
    requires n >= 1 && IsChange(op)
    ensures Alone(Next(s, call, w, DeleteCached(op, b)), call, n)
         == Alone(Next(s, call, w.(store := DropCache(w.store, op.id, op.env.write.delOk)), SetCached(op, b)), call,
                  n - 1)
  {
    GoesOn(s, call, w, DeleteCached(op, b), w.(store := DropCache(w.store, op.id, op.env.write.delOk)),
           SetCached(op, b), n);
  }

  lemma UpdatedAlone(s: State, call: CallId, w: World, op: Op, seen: Booking, rows: Rows, n: nat)
    requires n >= 5 && IsChange(op) && op.env.write.dbOk && op.id in rows
    requires UpdateRow(w.store.rows, op.id, Target(op), ReasonOf(op), op.env.write.now) == Ok(rows)
    ensures var (store, r) := UpdateSpec(w.store, op.id, Target(op), ReasonOf(op), op.env.write);
              && r == Ok(rows[op.id])
              && Alone(Next(s, call, w, UpdateBooking(op, seen)), call, n)
                 == Return(s, call, World(store, SpotAfter(op, w.parking, r.value.spotId)),
                           if op.Confirm? || op.Cancel? then Published(r, op.env) else r)
  {
    var b := rows[op.id];
    var w2 := w.(store := w.store.(rows := rows));
    var w3 := w2.(store := DropCache(w2.store, op.id, op.env.write.delOk));
    var w4 := w3.(store := SetCache(w3.store, b, op.env.write.setOk));
    UpdateGoesOn(s, call, w, op, seen, rows, n);
    CachedAlone(s, call, w2, w3, w4, op, b, n - 1);
    UpdatedStore(w, w4, op, rows);
  }

  /** The two cache commands and the call for the spot. */
  lemma CachedAlone(s: State, call: CallId, w: World, dropped: World, w': World, op: Op, b: Booking, n: nat)
    requires n >= 4 && IsChange(op) && dropped == w.(store := DropCache(w.store, op.id, op.env.write.delOk))
    requires w' == dropped.(store := SetCache(dropped.store, b, op.env.write.setOk))
    ensures Alone(Next(s, call, w, DeleteCached(op, b)), call, n)
         == Return(s, call, w'.(parking := SpotAfter(op, w'.parking, b.spotId)),
                   if op.Confirm? || op.Cancel? then Published(Ok(b), op.env) else Ok(b))
  {
    DeleteGoesOn(s, call, w, op, b, n);
    SpotCallAlone(s, call, dropped, w', op, b, n - 1);
  }

  lemma UpdatedStore(w: World, w': World, op: Op, rows: Rows)
    requires IsChange(op) && op.env.write.dbOk && op.id in rows
    requires UpdateRow(w.store.rows, op.id, Target(op), ReasonOf(op), op.env.write.now) == Ok(rows)
    requires var dropped := DropCache(w.store.(rows := rows), op.id, op.env.write.delOk);
             w' == World(SetCache(dropped, rows[op.id], op.env.write.setOk), w.parking)
    ensures UpdateSpec(w.store, op.id, Target(op), ReasonOf(op), op.env.write) == (w'.store, Ok(rows[op.id]))
  {
  }

  lemma SpotCallAlone(s: State, call: CallId, w: World, w': World, op: Op, b: Booking, n: nat)
    requires n >= 3 && IsChange(op) && w' == w.(store := SetCache(w.store, b, op.env.write.setOk))
    ensures Alone(Next(s, call, w, SetCached(op, b)), call, n)
         == Return(s, call, w'.(parking := SpotAfter(op, w'.parking, b.spotId)),
                   if op.Confirm? || op.Cancel? then Published(Ok(b), op.env) else Ok(b))
  {
    var r := if op.Confirm? || op.Cancel? then Published(Ok(b), op.env) else Ok(b);
    if op.Confirm? || b.spotId <= 0 || op.env.spotCall.Unreachable? {
      ReturnsAtOnce(s, call, w, SetCached(op, b), w', r, n);
    } else if op.Start? {
      GoesOn(s, call, w, SetCached(op, b), w', OccupySpot(b.spotId, r), n);
      OccupyAlone(s, call, w', b.spotId, r, n - 1);
    } else {
      ReleaseCallAlone(s, call, w, w', op, b, r, n);
    }
  }

  lemma ReleaseCallAlone(s: State, call: CallId, w: World, w': World, op: Op, b: Booking, r: Outcome<Booking>, n: nat)
    requires n >= 3 && (op.Cancel? || op.Complete?) && w' == w.(store := SetCache(w.store, b, op.env.write.setOk))
    requires b.spotId > 0 && !op.env.spotCall.Unreachable?
    requires r == if op.Cancel? then Published(Ok(b), op.env) else Ok(b)
    ensures Alone(Next(s, call, w, SetCached(op, b)), call, n)
         == Return(s, call, w'.(parking := SpotAfter(op, w'.parking, b.spotId)), r)
  {
    GoesOn(s, call, w, SetCached(op, b), w', ReleaseSelect(b.spotId, r), n);
    ReleaseAlone(s, call, w', b.spotId, r, n - 1);
  }

  lemma OccupyAlone(s: State, call: CallId, w: World, spot: int, r: Outcome<Booking>, n: nat)
    requires n >= 1
    ensures Alone(Next(s, call, w, OccupySpot(spot, r)), call, n)
         == Return(s, call, w.(parking := WithSpotStatus(w.parking, spot, Occupied)), r)
  {
    ReturnsAtOnce(s, call, w, OccupySpot(spot, r), w.(parking := WithSpotStatus(w.parking, spot, Occupied)), r, n);
  }

  /** The serial operation from its read on. */
  function AfterRead(w: World, op: Op, seen: Booking): (World, Outcome<Booking>)
    requires IsChange(op)
  {
    if !(CanTransition(seen.status, Target(op)) && (op.Start? ==> seen.start <= op.env.clock))
    then (w, Err(InvalidStatusTransition))
    else
      var (store, r) := UpdateSpec(w.store, op.id, Target(op), ReasonOf(op), op.env.write);
      (World(store, if r.Ok? then SpotAfter(op, w.parking, r.value.spotId) else w.parking),
       if op.Confirm? || op.Cancel? then Published(r, op.env) else r)
  }

  lemma DecideAlone(s: State, call: CallId, op: Op, seen: Booking, n: nat)
    requires n >= 5 && IsChange(op) && call !in s.calls
    ensures Alone(Decide(s, call, op, seen), call, n)
         == Return(s, call, AfterRead(s.world, op, seen).0, AfterRead(s.world, op, seen).1)
  {
    if CanTransition(seen.status, Target(op)) && (op.Start? ==> seen.start <= op.env.clock) {
      UpdateAlone(s, call, s.world, op, seen, n);
    } else {
      FinishedCallStays(Decide(s, call, op, seen), call, n);
    }
  }

  lemma SerialIsReadThenRest(w: World, op: Op)
    requires IsChange(op)
    ensures var (store, r) := GetSpec(w.store, op.id, op.env.read);
              (BookingRuns.Step(w, op), ResultOf(w, op))
                == match r
                   case Err(e) => (w.(store := store), Err(e))
                   case Ok(seen) => AfterRead(w.(store := store), op, seen)
  {
    match op
    case Confirm(_, _) => ConfirmIsReadThenRest(w, op);
    case Cancel(_, _, _) => CancelIsReadThenRest(w, op);
    case Start(_, _) => StartIsReadThenRest(w, op);
    case Complete(_, _) => CompleteIsReadThenRest(w, op);
  }

  lemma ConfirmIsReadThenRest(w: World, op: Op)
    requires op.Confirm?
    ensures var (store, r) := GetSpec(w.store, op.id, op.env.read);
              (BookingRuns.Step(w, op), ResultOf(w, op))
                == match r
                   case Err(e) => (w.(store := store), Err(e))
                   case Ok(seen) => AfterRead(w.(store := store), op, seen)
  {
  }

  lemma CancelIsReadThenRest(w: World, op: Op)
    requires op.Cancel?
    ensures var (store, r) := GetSpec(w.store, op.id, op.env.read);
              (BookingRuns.Step(w, op), ResultOf(w, op))
                == match r
                   case Err(e) => (w.(store := store), Err(e))
                   case Ok(seen) => AfterRead(w.(store := store), op, seen)
  {
  }

  lemma StartIsReadThenRest(w: World, op: Op)
    requires op.Start?
    ensures var (store, r) := GetSpec(w.store, op.id, op.env.read);
              (BookingRuns.Step(w, op), ResultOf(w, op))
                == match r
                   case Err(e) => (w.(store := store), Err(e))
                   case Ok(seen) => AfterRead(w.(store := store), op, seen)
  {
  }

  lemma CompleteIsReadThenRest(w: World, op: Op)
    requires op.Complete?
    ensures var (store, r) := GetSpec(w.store, op.id, op.env.read);
              (BookingRuns.Step(w, op), ResultOf(w, op))
                == match r
                   case Err(e) => (w.(store := store), Err(e))
                   case Ok(seen) => AfterRead(w.(store := store), op, seen)
  {
  }

  /** A status change that nothing interrupts does what the serial operation does. */
  lemma ChangeAlone(s: State, call: CallId, op: Op, n: nat)
    requires n >= 6 && IsChange(op) && call !in s.calls
    ensures Alone(BeginChange(s, call, op), call, n)
         == Return(s, call, BookingRuns.Step(s.world, op), ResultOf(s.world, op))
  {
    SerialIsReadThenRest(s.world, op);
    match GetSpec(s.world.store, op.id, op.env.read).1
    case Err(e) => FailedReadAlone(s, call, op, e, n);
    case Ok(seen) => ReadAlone(s, call, op, seen, n);
  }

  lemma FailedReadAlone(s: State, call: CallId, op: Op, e: Error, n: nat)
    requires IsChange(op) && call !in s.calls && GetSpec(s.world.store, op.id, op.env.read).1 == Err(e)
    ensures GetSpec(s.world.store, op.id, op.env.read).0 == s.world.store
    ensures Alone(BeginChange(s, call, op), call, n) == Return(s, call, s.world, Err(e))
  {
    FinishedCallStays(BeginChange(s, call, op), call, n);
  }

  lemma ReadAlone(s: State, call: CallId, op: Op, seen: Booking, n: nat)
    requires n >= 6 && IsChange(op) && call !in s.calls && GetSpec(s.world.store, op.id, op.env.read).1 == Ok(seen)
    ensures var w := s.world.(store := GetSpec(s.world.store, op.id, op.env.read).0);
              Alone(BeginChange(s, call, op), call, n)
                == Return(s, call, AfterRead(w, op, seen).0, AfterRead(w, op, seen).1)
  {
    if op.env.read.redisUp && op.id in s.world.store.cache {
      DecideAlone(s, call, op, seen, n);
    } else {
      DecideAfterFill(s, call, op, seen,
                      s.(world := s.world.(store := SetCache(s.world.store, seen, op.env.read.setOk))), n - 1);
    }
  }

  lemma DecideAfterFill(s: State, call: CallId, op: Op, seen: Booking, filled: State, n: nat)
    requires n >= 5 && IsChange(op) && call !in s.calls
    requires filled == s.(world := s.world.(store := SetCache(s.world.store, seen, op.env.read.setOk)))
    ensures Alone(AdvanceCall(Next(s, call, s.world, FillCache(op, seen)), call), call, n)
         == Return(filled, call, AfterRead(filled.world, op, seen).0, AfterRead(filled.world, op, seen).1)
  {
    var fill := Next(s, call, s.world, FillCache(op, seen));
    var w2 := filled.world;
    LaterStepsHideEarlier(s, call, s.world, FillCache(op, seen), w2, UpdateBooking(op, seen),
                          Err(InvalidStatusTransition));
    assert AdvanceCall(fill, call) == Decide(fill.(world := w2), call, op, seen);
    assert Decide(fill.(world := w2), call, op, seen) == Decide(filled, call, op, seen);
    DecideAlone(filled, call, op, seen, n);
  }

  /** Seven statements on its own make every operation the serial one: same stores, same result. */
  lemma UninterruptedIsSerial(s: State, call: CallId, op: Op)
    requires (IsChange(op) || op.Create?) && call !in s.calls
    ensures var end := Alone(Step(s, Begin(call, op)), call, 6);
              && end.world == BookingRuns.Step(s.world, op)
              && end.calls == s.calls && end.results == s.results[call := ResultOf(s.world, op)]
  {
    assert s.calls - {call} == s.calls;
    if op.Create? {
      CreateAlone(s, call, op);
    } else {
      ChangeAlone(s, call, op, 6);
    }
  }

  lemma CreateAlone(s: State, call: CallId, op: Op)
    requires op.Create? && call !in s.calls
    ensures Alone(BeginCreate(s, call, Prepare(s.world.parking, op.raw, op.create), op.create), call, 6)
         == Return(s, call, BookingRuns.Step(s.world, op), ResultOf(s.world, op))
  {
    var prepared := Prepare(s.world.parking, op.raw, op.create);
    if prepared.Ok? {
      CommitAlone(s, call, s.world, prepared.value, op.create, 6);
    } else {
      FinishedCallStays(BeginCreate(s, call, prepared, op.create), call, 6);
    }
  }

  // ---------------------------------------------------------------- what only serial runs keep

  /** A confirmation that has read the booking before a complete cancellation of it, and updates afterwards, revives it:
      both calls report success, the row is live again without its marks, and its spot is AVAILABLE. */
  lemma CancelledBookingRevived(s: State, s1: State, s2: State, s3: State, p: CallId, q: CallId, confirm: Op,
                                cancel: Op)
    requires p != q && p !in s.calls && q !in s.calls && Consistent(s.world)
    requires confirm.Confirm? && confirm.env.read.redisUp && confirm.env.write.dbOk && confirm.env.publishOk
    requires CancelReady(s.world, cancel) && confirm.id == cancel.id && s.world.store.rows[cancel.id].status == Pending
    requires s1 == Step(s, Begin(p, confirm)) && s2 == Alone(Step(s1, Begin(q, cancel)), q, 6) && s3 == Alone(s2, p, 5)
    ensures p in s3.results && s3.results[p].Ok? && q in s3.results && s3.results[q].Ok?
    ensures cancel.id in s2.world.store.rows && s2.world.store.rows[cancel.id].status == Cancelled
    ensures cancel.id in s3.world.store.rows
    ensures var b := s3.world.store.rows[cancel.id];
            && b.status == Confirmed && b.cancelReason == "" && b.cancelledAt == None
            && b.spotId in s3.world.parking.spots && s3.world.parking.spots[b.spotId].status == Available
  {
    var b := s.world.store.rows[cancel.id];
    assert s1 == Next(s, p, s.world, UpdateBooking(confirm, b));
    UninterruptedIsSerial(s1, q, cancel);
    CancelAnswered(s.world, cancel);
    ConfirmLands(s, s2, s3, p, confirm, b);
  }

  lemma StandsAt(s: State, call: CallId, pc: Pc)
    requires call in s.calls && s.calls[call] == pc
    ensures s == Next(s, call, s.world, pc)
  {
    assert s.calls[call := pc] == s.calls;
  }

  /** The held-up confirmation finishes on whatever row it finds. */
  lemma ConfirmLands(s: State, s2: State, s3: State, p: CallId, confirm: Op, seen: Booking)
    requires confirm.Confirm? && confirm.env.write.dbOk && confirm.env.publishOk && Consistent(s.world)
    requires p in s2.calls && s2.calls[p] == UpdateBooking(confirm, seen) && s3 == Alone(s2, p, 5)
    requires LiveAt(s.world, confirm.id) && confirm.id in s2.world.store.rows
    requires s2.world.store.rows == s.world.store.rows[confirm.id := s2.world.store.rows[confirm.id]]
    requires s2.world.store.rows[confirm.id].id == confirm.id
    requires s2.world.store.rows[confirm.id].spotId == s.world.store.rows[confirm.id].spotId
    requires s2.world.store.rows[confirm.id].start < s2.world.store.rows[confirm.id].end
    ensures var b := WithStatus(s2.world.store.rows[confirm.id], Confirmed, "", confirm.env.write.now);
              && s3.results == s2.results[p := Ok(b)] && s3.world.store.rows == s2.world.store.rows[confirm.id := b]
              && s3.world.parking == s2.world.parking
  {
    StandsAt(s2, p, UpdateBooking(confirm, seen));
    RevivalIsAdmitted(s.world, s2.world, confirm.id, confirm.env.write.now);
    UpdateAlone(s2, p, s2.world, confirm, seen, 5);
  }

  ghost predicate CancelReady(w: World, op: Op) {
    && op.Cancel? && op.id != "" && op.id in w.store.cache && op.id in w.store.rows
    && op.env.read.redisUp && op.env.write.dbOk && op.env.spotCall.Answered? && op.env.publishOk
    && Waits(w.store.rows[op.id].status)
    && w.store.rows[op.id].spotId in w.parking.spots && w.parking.spots[w.store.rows[op.id].spotId].status == Reserved
  }

  lemma CancelAnswered(w: World, op: Op)
    requires Consistent(w) && CancelReady(w, op)
    ensures var w', b := BookingRuns.Step(w, op), w.store.rows[op.id];
              && ResultOf(w, op).Ok?
              && w'.store.rows
                 == w.store.rows[op.id := WithStatus(b, Cancelled, CancelReason(op.reason), op.env.write.now)]
              && w'.parking == WithSpotStatus(w.parking, b.spotId, Available)
  {
    CancelledByTransition(w, op, CancelReason(op.reason));
  }

  lemma CancelledByTransition(w: World, op: Op, reason: string)
    requires Consistent(w) && CancelReady(w, op)
    ensures var (store, r) := Transition(w.store, op.id, Cancelled, reason, op.env);
            var b := WithStatus(w.store.rows[op.id], Cancelled, reason, op.env.write.now);
              r == Ok(b) && store.rows == w.store.rows[op.id := b]
  {
    TransitionShape(w.store, op.id, Cancelled, reason, op.env);
    AdmitsDead(w.store.rows, WithStatus(w.store.rows[op.id], Cancelled, reason, op.env.write.now));
  }

  lemma AdmitsDead(rows: Rows, b: Booking)
    requires b.start < b.end && !IsLive(b.status)
    ensures Admits(rows, b)
  {
  }

  lemma RevivalIsAdmitted(w: World, w2: World, id: BookingId, now: Time)
    requires Consistent(w) && LiveAt(w, id) && id in w2.store.rows
    requires w2.store.rows == w.store.rows[id := w2.store.rows[id]]
    requires w2.store.rows[id].id == id && w2.store.rows[id].spotId == w.store.rows[id].spotId
    requires w2.store.rows[id].start < w2.store.rows[id].end
    ensures Admits(w2.store.rows, WithStatus(w2.store.rows[id], Confirmed, "", now))
  {
    var revived := WithStatus(w2.store.rows[id], Confirmed, "", now);
    forall i | i in w2.store.rows && i != id
      ensures !Collide(revived, w2.store.rows[i])
    {
      if IsLive(w.store.rows[i].status) { assert LiveAt(w, i); }
    }
  }

  /** Two creations that have both seen the spot AVAILABLE. At different times both are booked, on one spot.
      At overlapping times the loser meets BookingConflict, and its compensation frees the winner's spot. */
  lemma RaceForOneSpot(s: State, t: State, mid: State, end: State, p: CallId, q: CallId,
                       one: Op, two: Op, a: CreateInput, b: CreateInput)
    requires p != q && p !in s.calls && q !in s.calls && Consistent(s.world) && one.Create? && two.Create?
    requires Prepare(s.world.parking, one.raw, one.create) == Ok(a)
    requires Prepare(s.world.parking, two.raw, two.create) == Ok(b)
    requires a.spotId == b.spotId && a.spotId in s.world.parking.spots
    requires s.world.parking.spots[a.spotId].status == Available
    requires AllAnswer(s.world, a, one.create) && AllAnswer(s.world, b, two.create) && two.create.release.Answered?
    requires one.create.insert.id != two.create.insert.id
    requires t == Step(Step(Step(Step(s, Begin(p, one)), Advance(p)), Begin(q, two)), Advance(q))
    requires mid == Alone(t, p, 5) && end == Alone(mid, q, 5)
    ensures RaceEnds(end, p, q, a, b, one.create, two.create)
  {
    PreparedSpot(s.world.parking, one.raw, one.create);
    PreparedSpot(s.world.parking, two.raw, two.create);
    ReservedSpotHasNoConflict(s.world, a);
    BothReserving(s, t, p, q, one, two, a, b);
    FirstFinishes(s, t, mid, p, q, a, b, one.create, two.create, 5);
    SecondFinishes(s, mid, end, p, q, a, b, one.create, two.create, 5);
  }

  ghost predicate RaceEnds(end: State, p: CallId, q: CallId, a: CreateInput, b: CreateInput, ea: CreateEnv,
                           eb: CreateEnv) {
    var w := end.world;
    && p in end.results && end.results[p].Ok? && q in end.results
    && LiveAt(w, ea.insert.id) && w.store.rows[ea.insert.id].spotId == a.spotId && a.spotId in w.parking.spots
    && if RangesMeet(a.start, a.end, b.start, b.end)
       then end.results[q] == Err(BookingConflict) && w.parking.spots[a.spotId].status == Available
       else end.results[q].Ok? && LiveAt(w, eb.insert.id) && w.store.rows[eb.insert.id].spotId == a.spotId
  }

  lemma BothReserving(s: State, t: State, p: CallId, q: CallId, one: Op, two: Op, a: CreateInput, b: CreateInput)
    requires p != q && p !in s.calls && q !in s.calls && one.Create? && two.Create?
    requires Prepare(s.world.parking, one.raw, one.create) == Ok(a)
    requires Prepare(s.world.parking, two.raw, two.create) == Ok(b)
    requires a.spotId == b.spotId && a.spotId in s.world.parking.spots
    requires s.world.parking.spots[a.spotId].status == Available
    requires one.create.reserve.Answered? && two.create.reserve.Answered?
    requires t == Step(Step(Step(Step(s, Begin(p, one)), Advance(p)), Begin(q, two)), Advance(q))
    ensures t == Next(Next(s, p, s.world, ReserveUpdate(a, one.create)), q, s.world, ReserveUpdate(b, two.create))
  {
    var w := s.world;
    LaterStepsHideEarlier(s, p, w, SelectSpot(a, one.create), w, ReserveUpdate(a, one.create), Err(InvalidInput));
    var s1 := Next(s, p, w, ReserveUpdate(a, one.create));
    assert Step(Step(s, Begin(p, one)), Advance(p)) == s1;
    LaterStepsHideEarlier(s1, q, w, SelectSpot(b, two.create), w, ReserveUpdate(b, two.create), Err(InvalidInput));
  }

  lemma FirstFinishes(s: State, t: State, mid: State, p: CallId, q: CallId,
                      a: CreateInput, b: CreateInput, ea: CreateEnv, eb: CreateEnv, n: nat)
    requires p != q && p !in s.calls && q !in s.calls && Consistent(s.world)
    requires t == Next(Next(s, p, s.world, ReserveUpdate(a, ea)), q, s.world, ReserveUpdate(b, eb))
    requires n >= 5 && mid == Alone(t, p, n)
    requires a.spotId in s.world.parking.spots && NoLiveAtSpot(s.world, a.spotId) && a.start < a.end
    requires AllAnswer(s.world, a, ea)
    ensures var row := NewBooking(a, ea.insert.id, ea.insert.now);
              && p in mid.results && mid.results[p] == Ok(row) && q in mid.calls && mid.calls[q] == ReserveUpdate(b, eb)
              && mid.world.store.rows == s.world.store.rows[row.id := row]
              && mid.world.parking == WithSpotStatus(s.world.parking, a.spotId, Reserved)
  {
    var w := s.world;
    var rival := Next(s, q, w, ReserveUpdate(b, eb));
    assert t == Next(rival, p, w, ReserveUpdate(a, ea)) by {
      assert s.calls[p := ReserveUpdate(a, ea)][q := ReserveUpdate(b, eb)]
             == s.calls[q := ReserveUpdate(b, eb)][p := ReserveUpdate(a, ea)];
    }
    ReservedAlone(rival, p, w, a, ea, n);
    IdleSpotInsert(w, a, ea);
  }

  lemma SecondFinishes(s: State, mid: State, end: State, p: CallId, q: CallId,
                       a: CreateInput, b: CreateInput, ea: CreateEnv, eb: CreateEnv, n: nat)
    requires p != q && Consistent(s.world) && a.spotId == b.spotId && NoLiveAtSpot(s.world, a.spotId)
    requires a.spotId in s.world.parking.spots && a.start < a.end && b.start < b.end
    requires AllAnswer(s.world, a, ea) && AllAnswer(s.world, b, eb) && eb.release.Answered?
    requires ea.insert.id != eb.insert.id
    requires var row := NewBooking(a, ea.insert.id, ea.insert.now);
              && p in mid.results && mid.results[p] == Ok(row) && q in mid.calls && mid.calls[q] == ReserveUpdate(b, eb)
              && mid.world.store.rows == s.world.store.rows[row.id := row]
              && mid.world.parking == WithSpotStatus(s.world.parking, a.spotId, Reserved)
    requires n >= 5 && end == Alone(mid, q, n)
    ensures RaceEnds(end, p, q, a, b, ea, eb)
  {
    StandsAt(mid, q, ReserveUpdate(b, eb));
    ReservedAlone(mid, q, mid.world, b, eb, n);
    SecondInsert(s.world, mid.world.store, a, b, ea, eb);
  }

  lemma IdleSpotInsert(w: World, input: CreateInput, env: CreateEnv)
    requires Consistent(w) && NoLiveAtSpot(w, input.spotId) && input.start < input.end
    requires env.insert.checkOk && env.insert.dbOk && env.insert.id !in w.store.rows
    ensures var (store, r) := CreateSpec(w.store, input, env.insert);
              && r == Ok(NewBooking(input, env.insert.id, env.insert.now))
                 && store.rows == w.store.rows[env.insert.id := r.value]
  {
    assert forall id | id in w.store.rows && IsLive(w.store.rows[id].status) :: LiveAt(w, id);
    ConflictQueryForeseesConstraint(w.store.rows, input, env.insert.id, env.insert.now);
  }

  lemma SecondInsert(w: World, store: Store, a: CreateInput, b: CreateInput, ea: CreateEnv, eb: CreateEnv)
    requires Consistent(w) && NoLiveAtSpot(w, a.spotId) && a.spotId == b.spotId && a.start < a.end && b.start < b.end
    requires store.rows == w.store.rows[ea.insert.id := NewBooking(a, ea.insert.id, ea.insert.now)]
    requires eb.insert.checkOk && eb.insert.dbOk && eb.insert.id !in store.rows && ea.insert.id !in w.store.rows
    ensures var (after, r) := CreateSpec(store, b, eb.insert);
              if RangesMeet(a.start, a.end, b.start, b.end) then r == Err(BookingConflict) && after == store
              else && r == Ok(NewBooking(b, eb.insert.id, eb.insert.now))
                   && after.rows == store.rows[eb.insert.id := r.value]
  {
    SqlOverlapIsRangeOverlap(b.start, b.end, a.start, a.end);
    assert RangesMeet(b.start, b.end, a.start, a.end) == RangesMeet(a.start, a.end, b.start, b.end);
    var i := ea.insert.id;
    assert i in store.rows && store.rows[i].spotId == b.spotId;
    forall id | id in store.rows && id != i && IsLive(store.rows[id].status)
      ensures store.rows[id].spotId != b.spotId
    {
      assert LiveAt(w, id);
    }
    assert HasConflict(store.rows, b.spotId, b.start, b.end) <==> RangesMeet(a.start, a.end, b.start, b.end);
    var nb := NewBooking(b, eb.insert.id, eb.insert.now);
    if !RangesMeet(a.start, a.end, b.start, b.end) {
      assert Admits(store.rows, nb);
    }
  }
}
