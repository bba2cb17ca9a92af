/** What holds after every serial history of booking operations: one call after another, over any replies,
    when nobody but the booking service sets the status of a spot. */
module BookingRuns {
  import opened Basics
  import opened BookingDomain
  import opened BookingStore
  import opened ParkingSpots
  import opened BookingFlow

  datatype Op =
    | Create(raw: CreateInput, create: CreateEnv)
    | Confirm(id: BookingId, env: ChangeEnv)
    | Cancel(id: BookingId, reason: string, env: ChangeEnv)
    | Start(id: BookingId, env: ChangeEnv)
    | Complete(id: BookingId, env: ChangeEnv)
    | Read(id: BookingId, read: ReadEnv)
    | CacheExpires(id: BookingId)
    | AddSpot(lot: int, number: string)

  ghost function Step(w: World, op: Op): World {
    match op
    case Create(raw, env) => CreateBooking(w, raw, env).0
    case Confirm(id, env) => ConfirmBooking(w, id, env).0
    case Cancel(id, reason, env) => CancelBooking(w, id, reason, env).0
    case Start(id, env) => StartBooking(w, id, env).0
    case Complete(id, env) => CompleteBooking(w, id, env).0
    case Read(id, read) => w.(store := GetSpec(w.store, id, read).0)
    case CacheExpires(id) => w.(store := DropCache(w.store, id, true))
    case AddSpot(lot, number) => w.(parking := InsertSpot(w.parking, lot, number))
  }

  ghost function Run(totals: map<int, nat>, ops: seq<Op>): World {
    if ops == [] then World(Store(map[], map[]), Parking(map[], totals, 1))
    else Step(Run(totals, ops[..|ops| - 1]), ops[|ops| - 1])
  }

  lemma RunSnoc(totals: map<int, nat>, ops: seq<Op>, op: Op)
    ensures Run(totals, ops + [op]) == Step(Run(totals, ops), op)
  {
    assert (ops + [op])[..|ops|] == ops;
  }

  predicate IsChange(op: Op) {
    op.Confirm? || op.Cancel? || op.Start? || op.Complete?
  }

  /** Of the two cache commands behind a status update at least one gets through. */
  predicate KeepsCache(op: Op) {
    IsChange(op) ==> op.env.write.delOk || op.env.write.setOk
  }

  /** The parking service carries out what it is asked to, and a reservation that it makes is not reported as failed. */
  predicate ParkingAnswers(op: Op) {
    && (IsChange(op) ==> op.env.spotCall.Answered?)
    && (op.Create? ==> !op.create.reserve.ReplyLost? && op.create.release.Answered?)
  }

  // ---------------------------------------------------------------- one live booking per spot

  predicate LiveAt(w: World, id: BookingId) {
    id in w.store.rows && IsLive(w.store.rows[id].status)
  }

  ghost predicate Consistent(w: World) {
    var rows := w.store.rows;
    && Sound(rows) && Coherent(w.store) && ValidIds(w.parking)
    && (forall id | id in rows :: rows[id].spotId in w.parking.spots)
    && (forall id | LiveAt(w, id) :: w.parking.spots[rows[id].spotId].status in {Reserved, Occupied})
    && (forall i, j | LiveAt(w, i) && LiveAt(w, j) && rows[i].spotId == rows[j].spotId :: i == j)
  }

  lemma PickedSpot(p: Parking, lot: int, env: CreateEnv)
    requires PickSpot(p, lot, env).Ok?
    ensures var spot := PickSpot(p, lot, env).value; spot in p.spots && p.spots[spot].lot == lot && spot > 0
  {
    var candidates := Candidates(p, lot);
    assert candidates[env.pick % |candidates|] in candidates;
  }

  lemma LookedUpSpot(p: Parking, input: CreateInput, env: CreateEnv)
    requires Lookups(p, input, env).Ok?
    ensures var found := Lookups(p, input, env).value;
            && found == input.(spotId := found.spotId)
            && found.spotId in p.spots && p.spots[found.spotId].lot == input.parkingId
  {
    if input.spotId <= 0 { PickedSpot(p, input.parkingId, env); }
  }

  lemma ValidRange(raw: CreateInput)
    requires Validate(raw).Ok?
    ensures Validate(raw).value.start < Validate(raw).value.end
  {
  }

  lemma PreparedSpot(p: Parking, raw: CreateInput, env: CreateEnv)
    requires Prepare(p, raw, env).Ok?
    ensures var input := Prepare(p, raw, env).value;
            && input.spotId in p.spots && p.spots[input.spotId].lot == input.parkingId
            && input.start < input.end
            && Validate(raw).Ok? && input == Validate(raw).value.(spotId := input.spotId)
  {
    ValidRange(raw);
    LookedUpSpot(p, Validate(raw).value, env);
  }

  /** The reservation admits only spots without a live booking, so the conflict query finds nothing and the insert
      stands. */
  lemma ReservedSpotHasNoConflict(w: World, input: CreateInput)
    requires Consistent(w) && input.spotId in w.parking.spots && w.parking.spots[input.spotId].status == Available
    ensures !HasConflict(w.store.rows, input.spotId, input.start, input.end)
    ensures forall id | LiveAt(w, id) :: w.store.rows[id].spotId != input.spotId
  {
    forall id | LiveAt(w, id) ensures w.store.rows[id].spotId != input.spotId {
    }
    assert forall id | id in w.store.rows && IsLive(w.store.rows[id].status) :: LiveAt(w, id);
  }

  ghost predicate NoLiveAtSpot(w: World, spot: int) {
    forall id | LiveAt(w, id) :: w.store.rows[id].spotId != spot
  }

  lemma IdleSpotMayChange(w: World, spot: int, status: SpotStatus)
    requires Consistent(w) && NoLiveAtSpot(w, spot)
    ensures Consistent(w.(parking := WithSpotStatus(w.parking, spot, status)))
  {
    var w' := w.(parking := WithSpotStatus(w.parking, spot, status));
    assert forall id | LiveAt(w', id) :: LiveAt(w, id);
  }

  lemma NewRowKeepsConsistent(w: World, store: Store, b: Booking)
    requires Consistent(w) && NoLiveAtSpot(w, b.spotId) && b.id !in w.store.rows
    requires store.rows == w.store.rows[b.id := b] && Sound(store.rows) && Coherent(store)
    requires b.spotId in w.parking.spots && w.parking.spots[b.spotId].status == Reserved
    ensures Consistent(w.(store := store))
  {
    var w' := w.(store := store);
    assert forall id | LiveAt(w', id) :: id == b.id || LiveAt(w, id);
  }

  lemma InsertKeepsConsistent(w: World, input: CreateInput, env: InsertEnv)
    requires Consistent(w) && NoLiveAtSpot(w, input.spotId)
    requires input.spotId in w.parking.spots && w.parking.spots[input.spotId].status == Reserved
    ensures Consistent(w.(store := CreateSpec(w.store, input, env).0))
  {
    var b := NewBooking(input, env.id, env.now);
    var (store, r) := CreateSpec(w.store, input, env);
    if r.Ok? {
      InsertKeepsSound(w.store.rows, b);
      assert b.id !in w.store.rows && store.rows == w.store.rows[b.id := b];
      NewRowKeepsConsistent(w, store, b);
    }
  }

  /** Reserving, inserting and compensating keep the invariant, and the insert never meets a conflict. */
  lemma CommitKeepsConsistent(w: World, input: CreateInput, env: CreateEnv)
    requires Consistent(w) && input.spotId in w.parking.spots
    ensures Consistent(Commit(w, input, env).0)
    ensures Commit(w, input, env).1 != Err(BookingConflict)
  {
    var spot := input.spotId;
    if w.parking.spots[spot].status == Available && !env.reserve.Unreachable? {
      ReservedSpotHasNoConflict(w, input);
      var reserved := w.(parking := WithSpotStatus(w.parking, spot, Reserved));
      IdleSpotMayChange(w, spot, Reserved);
      assert CallReserve(w.parking, spot, env.reserve) == (reserved.parking, env.reserve.Answered?);
      if env.reserve.Answered? {
        InsertKeepsConsistent(reserved, input, env.insert);
        IdleSpotMayChange(reserved, spot, Available);
        var after := Commit(w, input, env).0;
        if CreateSpec(w.store, input, env.insert).1.Ok? {
          assert after == reserved.(store := CreateSpec(w.store, input, env.insert).0);
        } else {
          assert after == World(w.store, CallRelease(reserved.parking, spot, env.release));
        }
      }
    }
  }

  /** What becomes of a creation that has its spot: a reservation that is not answered or refused always reads as
      invalid input, and a conflict is only reported by the query that follows a reservation of an AVAILABLE spot. */
  lemma RefusedReservationExactly(w: World, input: CreateInput, env: CreateEnv)
    ensures var p, r := w.parking, Commit(w, input, env).1;
            var reserved := && env.reserve.Answered?
                            && input.spotId in p.spots && p.spots[input.spotId].status == Available;
            && (r == Err(InvalidInput) <==> !reserved)
            && (r == Err(BookingConflict) <==>
                  && reserved && env.insert.checkOk
                  && HasConflict(w.store.rows, input.spotId, input.start, input.end))
  {
  }

  lemma CreateKeepsConsistent(w: World, raw: CreateInput, env: CreateEnv)
    requires Consistent(w)
    ensures Consistent(CreateBooking(w, raw, env).0)
  {
    var prepared := Prepare(w.parking, raw, env);
    if prepared.Ok? {
      PreparedSpot(w.parking, raw, env);
      CommitKeepsConsistent(w, prepared.value, env);
    }
  }

  /** A status update of a row, with the spot of that row released, occupied or left alone. */
  lemma UpdateKeepsConsistent(w: World, id: BookingId, next: Status, reason: string, env: WriteEnv, parking: Parking)
    requires Consistent(w) && (env.delOk || env.setOk)
    requires UpdateSpec(w.store, id, next, reason, env).1.Ok?
    requires IsLive(next) ==> IsLive(w.store.rows[id].status)
    requires SpotMayMove(w, id, next, parking)
    ensures Consistent(World(UpdateSpec(w.store, id, next, reason, env).0, parking))
  {
    UpdateKeepsSound(w.store.rows, id, next, reason, env.now);
    UpdateKeepsCoherent(w.store, id, next, reason, env);
    MovedRowKeepsConsistent(w, World(UpdateSpec(w.store, id, next, reason, env).0, parking), id, next);
  }

  predicate SpotMayMove(w: World, id: BookingId, next: Status, parking: Parking)
    requires id in w.store.rows
  {
    var row := w.store.rows[id];
    || parking == w.parking
    || (IsLive(next) && parking == WithSpotStatus(w.parking, row.spotId, Occupied))
    || (!IsLive(next) && IsLive(row.status) && parking == WithSpotStatus(w.parking, row.spotId, Available))
  }

  lemma MovedRowKeepsConsistent(w: World, w': World, id: BookingId, next: Status)
    requires Consistent(w) && Sound(w'.store.rows) && Coherent(w'.store)
    requires id in w.store.rows && (IsLive(next) ==> IsLive(w.store.rows[id].status))
    requires id in w'.store.rows && w'.store.rows == w.store.rows[id := w'.store.rows[id]]
    requires w'.store.rows[id].status == next && w'.store.rows[id].spotId == w.store.rows[id].spotId
    requires SpotMayMove(w, id, next, w'.parking)
    ensures Consistent(w')
  {
    forall i | LiveAt(w', i)
      ensures LiveAt(w, i) && w'.store.rows[i].spotId == w.store.rows[i].spotId
      ensures w'.parking.spots[w'.store.rows[i].spotId].status in {Reserved, Occupied}
    {
      if i != id { assert w'.store.rows[i] == w.store.rows[i]; }
    }
  }

  lemma ReadKeepsConsistent(w: World, id: BookingId, env: ReadEnv)
    requires Consistent(w)
    ensures var (store, r) := GetSpec(w.store, id, env);
            Consistent(w.(store := store)) && store.rows == w.store.rows
            && (r.Ok? ==> id in w.store.rows && r.value == w.store.rows[id])
  {
  }

  function Target(op: Op): Status
    requires IsChange(op)
  {
    match op
    case Confirm(_, _) => Confirmed
    case Cancel(_, _, _) => Cancelled
    case Start(_, _) => Active
    case Complete(_, _) => Completed
  }

  function ReasonOf(op: Op): string {
    if op.Cancel? then CancelReason(op.reason) else ""
  }

  /** The stored row allows the change: the transition table, and for a start also the clock. */
  predicate Permitted(w: World, op: Op)
    requires IsChange(op)
  {
    && op.id != "" && op.id in w.store.rows
    && CanTransition(w.store.rows[op.id].status, Target(op))
    && (op.Start? ==> w.store.rows[op.id].start <= op.env.clock)
  }

  /** What a change does to its spot when the row was updated. */
  function SpotAfter(op: Op, p: Parking, spot: int): Parking
    requires IsChange(op)
  {
    if spot <= 0 || op.Confirm? then p
    else if op.Start? then CallOccupy(p, spot, op.env.spotCall)
    else CallRelease(p, spot, op.env.spotCall)
  }

  /** The read succeeded, the stored row allows the change, and the update went through. */
  predicate Happens(w: World, op: Op)
    requires IsChange(op)
  {
    && Permitted(w, op)
    && GetSpec(w.store, op.id, op.env.read).1.Ok?
    && UpdateSpec(GetSpec(w.store, op.id, op.env.read).0, op.id, Target(op), ReasonOf(op), op.env.write).1.Ok?
  }

  /** With a coherent cache all four operations are one guarded update of the row and one call for its spot. */
  ghost predicate HasShape(w: World, w': World, op: Op)
    requires IsChange(op)
  {
    var seen := GetSpec(w.store, op.id, op.env.read).0;
    && seen.rows == w.store.rows
    && w' == if Happens(w, op)
             then World(UpdateSpec(seen, op.id, Target(op), ReasonOf(op), op.env.write).0,
                        SpotAfter(op, w.parking, w.store.rows[op.id].spotId))
             else w.(store := seen)
  }

  /** `transition` is a read, the check of the table on the stored row, and the update. */
  lemma TransitionShape(s: Store, id: BookingId, next: Status, reason: string, env: ChangeEnv)
    requires Coherent(s)
    ensures var (seen, r) := GetSpec(s, id, env.read);
            && seen.rows == s.rows && (r.Ok? ==> id in s.rows && r.value == s.rows[id])
            && (id == "" ==> seen == s && r.Err?)
            && Transition(s, id, next, reason, env) ==
                 if r.Err? then (seen, Err(r.error))
                 else if !CanTransition(s.rows[id].status, next) then (seen, Err(InvalidStatusTransition))
                 else UpdateSpec(seen, id, next, reason, env.write)
  {
  }

  lemma FailedUpdateKeepsStore(s: Store, id: BookingId, next: Status, reason: string, env: WriteEnv)
    ensures var (after, r) := UpdateSpec(s, id, next, reason, env);
            if r.Err? then after == s else id in s.rows && r.value.spotId == s.rows[id].spotId
  {
  }

  lemma ConfirmShape(w: World, op: Op)
    requires Coherent(w.store) && op.Confirm?
    ensures HasShape(w, Step(w, op), op)
  {
    TransitionShape(w.store, op.id, Confirmed, "", op.env);
    FailedUpdateKeepsStore(GetSpec(w.store, op.id, op.env.read).0, op.id, Confirmed, "", op.env.write);
  }

  lemma CancelShape(w: World, op: Op)
    requires Coherent(w.store) && op.Cancel?
    ensures HasShape(w, Step(w, op), op)
  {
    var reason := CancelReason(op.reason);
    TransitionShape(w.store, op.id, Cancelled, reason, op.env);
    FailedUpdateKeepsStore(GetSpec(w.store, op.id, op.env.read).0, op.id, Cancelled, reason, op.env.write);
  }

  lemma StartShape(w: World, op: Op)
    requires Coherent(w.store) && op.Start?
    ensures HasShape(w, Step(w, op), op)
  {
  }

  lemma CompleteShape(w: World, op: Op)
    requires Coherent(w.store) && op.Complete?
    ensures HasShape(w, Step(w, op), op)
  {
    TransitionShape(w.store, op.id, Completed, "", op.env);
    FailedUpdateKeepsStore(GetSpec(w.store, op.id, op.env.read).0, op.id, Completed, "", op.env.write);
  }

  lemma ChangeShape(w: World, op: Op)
    requires Coherent(w.store) && IsChange(op)
    ensures HasShape(w, Step(w, op), op)
  {
    match op
    case Confirm(_, _) => ConfirmShape(w, op);
    case Cancel(_, _, _) => CancelShape(w, op);
    case Start(_, _) => StartShape(w, op);
    case Complete(_, _) => CompleteShape(w, op);
  }

  /** What a status operation makes of the row and its spot. */
  ghost predicate HasChanged(w: World, w': World, op: Op)
    requires IsChange(op)
  {
    if Happens(w, op)
    then && op.id in w.store.rows
         && w'.store.rows
            == w.store.rows[op.id := WithStatus(w.store.rows[op.id], Target(op), ReasonOf(op), op.env.write.now)]
         && w'.parking == SpotAfter(op, w.parking, w.store.rows[op.id].spotId)
    else w'.store.rows == w.store.rows && w'.parking == w.parking
  }

  lemma UpdatedRow(s: Store, id: BookingId, next: Status, reason: string, env: WriteEnv)
    requires UpdateSpec(s, id, next, reason, env).1.Ok?
    ensures id in s.rows
    ensures UpdateSpec(s, id, next, reason, env).0.rows == s.rows[id := WithStatus(s.rows[id], next, reason, env.now)]
  {
  }

  lemma ShapeHasChanged(w: World, w': World, op: Op)
    requires IsChange(op) && HasShape(w, w', op)
    ensures HasChanged(w, w', op)
  {
    if Happens(w, op) {
      UpdatedRow(GetSpec(w.store, op.id, op.env.read).0, op.id, Target(op), ReasonOf(op), op.env.write);
    }
  }

  lemma ChangeEffect(w: World, op: Op)
    requires Coherent(w.store) && IsChange(op)
    ensures HasChanged(w, Step(w, op), op)
  {
    ChangeShape(w, op);
    ShapeHasChanged(w, Step(w, op), op);
  }

  /** A change calls for its spot what the invariant allows for the new status. */
  lemma SpotAfterMayMove(w: World, op: Op)
    requires IsChange(op) && Permitted(w, op)
    ensures SpotMayMove(w, op.id, Target(op), SpotAfter(op, w.parking, w.store.rows[op.id].spotId))
    ensures IsLive(Target(op)) ==> IsLive(w.store.rows[op.id].status)
  {
  }

  lemma ShapeKeepsConsistent(w: World, w': World, op: Op)
    requires Consistent(w) && IsChange(op) && KeepsCache(op) && HasShape(w, w', op)
    ensures Consistent(w')
  {
    ReadKeepsConsistent(w, op.id, op.env.read);
    if Happens(w, op) {
      SpotAfterMayMove(w, op);
      var seen := w.(store := GetSpec(w.store, op.id, op.env.read).0);
      UpdateKeepsConsistent(seen, op.id, Target(op), ReasonOf(op), op.env.write, w'.parking);
    }
  }

  lemma ChangeKeepsConsistent(w: World, op: Op)
    requires Consistent(w) && KeepsCache(op) && IsChange(op)
    ensures Consistent(Step(w, op))
  {
    ChangeShape(w, op);
    ShapeKeepsConsistent(w, Step(w, op), op);
  }

  lemma NewSpotKeepsConsistent(w: World, lot: int, number: string)
    requires Consistent(w)
    ensures Consistent(w.(parking := InsertSpot(w.parking, lot, number)))
  {
  }

  lemma StepKeepsConsistent(w: World, op: Op)
    requires Consistent(w) && KeepsCache(op)
    ensures Consistent(Step(w, op))
  {
    match op
    case Create(raw, env) => CreateKeepsConsistent(w, raw, env);
    case AddSpot(lot, number) => NewSpotKeepsConsistent(w, lot, number);
    case CacheExpires(id) =>
    case Read(id, read) => ReadKeepsConsistent(w, id, read);
    case _ => ChangeKeepsConsistent(w, op);
  }

  lemma {:induction false} RunIsConsistent(totals: map<int, nat>, ops: seq<Op>)
    requires forall op | op in ops :: KeepsCache(op)
    ensures Consistent(Run(totals, ops))
  {
    if ops != [] {
      var before := ops[..|ops| - 1];
      RunIsConsistent(totals, before);
      assert KeepsCache(ops[|ops| - 1]);
      StepKeepsConsistent(Run(totals, before), ops[|ops| - 1]);
    }
  }

  /** On a serial run no creation answers with a booking conflict: not when its spot is taken, since a refused
      reservation reads as invalid input, and not when it is free, since it then has no live booking. */
  lemma NoCreationConflicts(totals: map<int, nat>, ops: seq<Op>, raw: CreateInput, env: CreateEnv)
    requires forall op | op in ops :: KeepsCache(op)
    ensures CreateBooking(Run(totals, ops), raw, env).1 != Err(BookingConflict)
  {
    RunIsConsistent(totals, ops);
    var w := Run(totals, ops);
    var prepared := Prepare(w.parking, raw, env);
    if prepared.Ok? {
      PreparedSpot(w.parking, raw, env);
      CommitKeepsConsistent(w, prepared.value, env);
    } else {
      LookupsFindNoConflict(w.parking, raw, env);
    }
  }

  lemma LookupsFindNoConflict(p: Parking, raw: CreateInput, env: CreateEnv)
    ensures Prepare(p, raw, env) != Err(BookingConflict)
  {
    ValidationFindsNoConflict(raw);
    if Validate(raw).Ok? { ChoiceFindsNoConflict(p, Validate(raw).value, env); }
  }

  lemma ValidationFindsNoConflict(raw: CreateInput)
    ensures Validate(raw) != Err(BookingConflict)
  {
  }

  lemma ChoiceFindsNoConflict(p: Parking, input: CreateInput, env: CreateEnv)
    ensures Lookups(p, input, env) != Err(BookingConflict)
  {
  }

  /** Whatever the parking service answers or loses: a spot never has two live bookings,
      and a spot with a live booking is never offered as AVAILABLE. */
  lemma OneLiveBookingPerSpot(totals: map<int, nat>, ops: seq<Op>)
    requires forall op | op in ops :: KeepsCache(op)
    ensures var w := Run(totals, ops);
            && (forall i, j | LiveAt(w, i) && LiveAt(w, j)
                && w.store.rows[i].spotId == w.store.rows[j].spotId :: i == j)
            && (forall id | LiveAt(w, id) ::
                  w.store.rows[id].spotId in w.parking.spots
                  && w.parking.spots[w.store.rows[id].spotId].status != Available)
  {
    RunIsConsistent(totals, ops);
  }
}
