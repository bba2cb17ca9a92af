/** Serial histories in which the parking service answers: RESERVED and OCCUPIED spots are accounted for, booking by
    booking. */
module BookingMatching {
  import opened Basics
  import opened BookingDomain
  import opened BookingStore
  import opened ParkingSpots
  import opened BookingFlow
  import opened BookingRuns

  predicate Waits(s: Status) {
    s.Pending? || s.Confirmed?
  }

  predicate HasBegun(s: Status) {
    s.Active? || s.Completed?
  }

  function WaitingIds(w: World): set<BookingId> {
    set id | id in w.store.rows && Waits(w.store.rows[id].status)
  }

  function BegunIds(w: World): set<BookingId> {
    set id | id in w.store.rows && HasBegun(w.store.rows[id].status)
  }

  function SpotsWith(w: World, status: SpotStatus): set<int> {
    set s | s in w.parking.spots && w.parking.spots[s].status == status
  }

  function SpotOf(w: World): map<BookingId, int> {
    map id | id in w.store.rows :: w.store.rows[id].spotId
  }

  /** `ids` and `spots` correspond one to one by the spot that each booking names. */
  ghost predicate Corresponds(w: World, ids: set<BookingId>, spots: set<int>)
    requires ids <= w.store.rows.Keys
  {
    && (forall i, j | i in ids && j in ids && w.store.rows[i].spotId == w.store.rows[j].spotId :: i == j)
    && (forall id | id in ids :: w.store.rows[id].spotId in spots)
    && (forall s | s in spots :: exists id :: id in ids && w.store.rows[id].spotId == s)
  }

  ghost predicate Matched(w: World) {
    && Corresponds(w, WaitingIds(w), SpotsWith(w, Reserved))
    && Corresponds(w, BegunIds(w), SpotsWith(w, Occupied))
    && SpotsWith(w, Maintenance) == {}
  }

  /** One row and its spot move together. */
  lemma MoveKeepsMatched(w: World, w': World, id: BookingId, status: SpotStatus)
    requires Matched(w) && id in w.store.rows && id in w'.store.rows
    requires w'.store.rows == w.store.rows[id := w'.store.rows[id]]
    requires w'.store.rows[id].spotId == w.store.rows[id].spotId
    requires w'.parking == WithSpotStatus(w.parking, w.store.rows[id].spotId, status)
    requires var before, after := w.store.rows[id].status, w'.store.rows[id].status;
             || (Waits(before) && Waits(after) && status == Reserved)
             || (Waits(before) && after == Cancelled && status == Available)
             || (Waits(before) && HasBegun(after) && status == Occupied)
             || (HasBegun(before) && HasBegun(after) && status == Occupied)
    ensures Matched(w')
  {
    OnlyThisMoves(w, w', id, status);
    WitnessesSurvive(w, w', id, WaitingIds(w), WaitingIds(w'), SpotsWith(w, Reserved), SpotsWith(w', Reserved));
    WitnessesSurvive(w, w', id, BegunIds(w), BegunIds(w'), SpotsWith(w, Occupied), SpotsWith(w', Occupied));
  }

  lemma OnlyThisMoves(w: World, w': World, id: BookingId, status: SpotStatus)
    requires Matched(w) && id in w.store.rows && id in w'.store.rows
    requires Waits(w.store.rows[id].status) || HasBegun(w.store.rows[id].status)
    requires w'.store.rows == w.store.rows[id := w'.store.rows[id]]
    requires w'.parking == WithSpotStatus(w.parking, w.store.rows[id].spotId, status)
    ensures var spot := w.store.rows[id].spotId;
            && spot in w.parking.spots && spot in w'.parking.spots && w'.parking.spots[spot].status == status
            && (forall other | other != id ::
                  && (other in WaitingIds(w') <==> other in WaitingIds(w))
                  && (other in BegunIds(w') <==> other in BegunIds(w))
                  && (other in WaitingIds(w) + BegunIds(w) ==> w.store.rows[other].spotId != spot))
            && (forall s | s != spot ::
                  && (s in SpotsWith(w', Reserved) <==> s in SpotsWith(w, Reserved))
                  && (s in SpotsWith(w', Occupied) <==> s in SpotsWith(w, Occupied))
                  && (s in SpotsWith(w', Maintenance) <==> s in SpotsWith(w, Maintenance)))
  {
    assert id in WaitingIds(w) || id in BegunIds(w);
  }

  lemma WitnessesSurvive(w: World, w': World, id: BookingId,
                         ids: set<BookingId>, ids': set<BookingId>, spots: set<int>, spots': set<int>)
    requires id in w.store.rows && id in w'.store.rows
    requires w'.store.rows == w.store.rows[id := w'.store.rows[id]]
    requires w'.store.rows[id].spotId == w.store.rows[id].spotId
    requires ids <= w.store.rows.Keys && Corresponds(w, ids, spots)
    requires ids' <= ids + {id} && ids - {id} <= ids'
    requires forall other | other in ids && other != id :: w.store.rows[other].spotId != w.store.rows[id].spotId
    requires forall s | s != w.store.rows[id].spotId :: s in spots' <==> s in spots
    requires w.store.rows[id].spotId in spots' <==> id in ids'
    ensures Corresponds(w', ids', spots')
  {
    forall s | s in spots'
      ensures exists i :: i in ids' && w'.store.rows[i].spotId == s
    {
      if s == w.store.rows[id].spotId {
        assert id in ids' && w'.store.rows[id].spotId == s;
      } else {
        var i :| i in ids && w.store.rows[i].spotId == s;
        assert i in ids' && w'.store.rows[i].spotId == s;
      }
    }
  }

  lemma ChangeKeepsMatched(w: World, op: Op)
    requires Consistent(w) && Matched(w) && IsChange(op) && ParkingAnswers(op)
    ensures Matched(Step(w, op))
  {
    ChangeEffect(w, op);
    ChangedStaysMatched(w, Step(w, op), op);
  }

  lemma ChangedStaysMatched(w: World, w': World, op: Op)
    requires Consistent(w) && Matched(w) && IsChange(op) && ParkingAnswers(op) && HasChanged(w, w', op)
    ensures Matched(w')
  {
    if Happens(w, op) {
      var spot := w.store.rows[op.id].spotId;
      assert op.id in WaitingIds(w) || op.id in BegunIds(w);
      assert w.parking.spots[spot].status == if Waits(w.store.rows[op.id].status) then Reserved else Occupied;
      var status := if op.Confirm? then Reserved else if op.Cancel? then Available else Occupied;
      assert w'.parking.spots == WithSpotStatus(w.parking, spot, status).spots;
      MoveKeepsMatched(w, w', op.id, status);
    } else {
      SameTablesKeepMatched(w, w');
    }
  }

  /** A new pending booking takes an available spot. */
  lemma NewBookingKeepsMatched(w: World, w': World, b: Booking)
    requires Matched(w) && b.id !in w.store.rows && b.status == Pending
    requires b.spotId in w.parking.spots && w.parking.spots[b.spotId].status == Available
    requires w'.store.rows == w.store.rows[b.id := b] && w'.parking == WithSpotStatus(w.parking, b.spotId, Reserved)
    ensures Matched(w')
  {
    assert WaitingIds(w') == WaitingIds(w) + {b.id};
    assert BegunIds(w') == BegunIds(w);
    assert SpotsWith(w', Reserved) == SpotsWith(w, Reserved) + {b.spotId};
    assert SpotsWith(w', Occupied) == SpotsWith(w, Occupied);
    assert SpotsWith(w', Maintenance) == SpotsWith(w, Maintenance);
    AddingKeepsPairs(w, w', WaitingIds(w), SpotsWith(w, Reserved), b);
    OthersKeepPairs(w, w', BegunIds(w), SpotsWith(w, Occupied), b);
  }

  lemma OthersKeepPairs(w: World, w': World, ids: set<BookingId>, spots: set<int>, b: Booking)
    requires b.id !in w.store.rows && w'.store.rows == w.store.rows[b.id := b]
    requires ids <= w.store.rows.Keys && Corresponds(w, ids, spots)
    ensures ids <= w'.store.rows.Keys && Corresponds(w', ids, spots)
  {
    assert forall id | id in ids :: w'.store.rows[id] == w.store.rows[id];
    forall s | s in spots
      ensures exists id :: id in ids && w'.store.rows[id].spotId == s
    {
      var id :| id in ids && w.store.rows[id].spotId == s;
      assert w'.store.rows[id].spotId == s;
    }
  }

  lemma AddingKeepsPairs(w: World, w': World, ids: set<BookingId>, spots: set<int>, b: Booking)
    requires b.id !in w.store.rows && w'.store.rows == w.store.rows[b.id := b]
    requires ids <= w.store.rows.Keys && Corresponds(w, ids, spots) && b.spotId !in spots
    ensures Corresponds(w', ids + {b.id}, spots + {b.spotId})
  {
    OthersKeepPairs(w, w', ids, spots, b);
    JoinKeepsPairs(w', ids, spots, b.id);
  }

  /** One more pair, of a booking and a spot that are both new. */
  lemma JoinKeepsPairs(w: World, ids: set<BookingId>, spots: set<int>, id: BookingId)
    requires ids <= w.store.rows.Keys && id in w.store.rows && Corresponds(w, ids, spots)
    requires w.store.rows[id].spotId !in spots
    ensures Corresponds(w, ids + {id}, spots + {w.store.rows[id].spotId})
  {
    var spot := w.store.rows[id].spotId;
    forall s | s in spots + {spot} ensures exists i :: i in ids + {id} && w.store.rows[i].spotId == s {
      if s == spot {
        assert id in ids + {id};
      } else {
        var i :| i in ids && w.store.rows[i].spotId == s;
        assert i in ids + {id};
      }
    }
  }

  lemma CommitKeepsMatched(w: World, input: CreateInput, env: CreateEnv)
    requires Consistent(w) && Matched(w) && input.spotId in w.parking.spots
    requires !env.reserve.ReplyLost? && env.release.Answered?
    ensures Matched(Commit(w, input, env).0)
  {
    var spot, w' := input.spotId, Commit(w, input, env).0;
    var (store, r) := CreateSpec(w.store, input, env.insert);
    if w.parking.spots[spot].status == Available && env.reserve.Answered? && r.Ok? {
      NewBookingKeepsMatched(w, w', r.value);
    } else {
      assert w'.store.rows == w.store.rows;
      assert w'.parking.spots == w.parking.spots;
      SameTablesKeepMatched(w, w');
    }
  }

  lemma SameTablesKeepMatched(w: World, w': World)
    requires Matched(w) && w'.store.rows == w.store.rows && w'.parking.spots == w.parking.spots
    ensures Matched(w')
  {
    assert WaitingIds(w') == WaitingIds(w) && BegunIds(w') == BegunIds(w);
    assert forall status :: SpotsWith(w', status) == SpotsWith(w, status);
  }

  lemma StepKeepsMatched(w: World, op: Op)
    requires Consistent(w) && Matched(w) && ParkingAnswers(op)
    ensures Matched(Step(w, op))
  {
    match op
    case Create(raw, env) =>
      if Prepare(w.parking, raw, env).Ok? {
        PreparedSpot(w.parking, raw, env);
        CommitKeepsMatched(w, Prepare(w.parking, raw, env).value, env);
      }
    case AddSpot(lot, number) =>
      var w' := Step(w, op);
      assert WaitingIds(w') == WaitingIds(w) && BegunIds(w') == BegunIds(w);
      assert forall status | status != Available :: SpotsWith(w', status) == SpotsWith(w, status);
    case CacheExpires(id) => SameTablesKeepMatched(w, Step(w, op));
    case Read(id, read) =>
      ReadKeepsConsistent(w, id, read);
      SameTablesKeepMatched(w, Step(w, op));
    case _ => ChangeKeepsMatched(w, op);
  }

  lemma {:induction false} RunIsMatched(totals: map<int, nat>, ops: seq<Op>)
    requires forall op | op in ops :: KeepsCache(op) && ParkingAnswers(op)
    ensures Matched(Run(totals, ops)) && Consistent(Run(totals, ops))
  {
    RunIsConsistent(totals, ops);
    if ops != [] {
      var before, last := ops[..|ops| - 1], ops[|ops| - 1];
      RunIsMatched(totals, before);
      assert KeepsCache(last) && ParkingAnswers(last);
      StepKeepsMatched(Run(totals, before), last);
    }
  }

  lemma CorrespondenceCounts(w: World, ids: set<BookingId>, spots: set<int>)
    requires ids <= w.store.rows.Keys && Corresponds(w, ids, spots)
    ensures |ids| == |spots|
  {
    var image := set id | id in ids :: SpotOf(w)[id];
    forall s ensures s in spots <==> s in image {
      if s in spots {
        var id :| id in ids && w.store.rows[id].spotId == s;
        assert SpotOf(w)[id] == s;
      }
      if s in image { var id :| id in ids && SpotOf(w)[id] == s; }
    }
    assert spots == image;
    InjectionKeepsSize(ids, spots, SpotOf(w));
  }

  /** RESERVED spots are, one for one, the spots of the pending and confirmed bookings;
      OCCUPIED spots are, one for one, the spots of the bookings that were ever started. */
  lemma SpotsMatchBookings(totals: map<int, nat>, ops: seq<Op>)
    requires forall op | op in ops :: KeepsCache(op) && ParkingAnswers(op)
    ensures var w := Run(totals, ops);
            && Corresponds(w, WaitingIds(w), SpotsWith(w, Reserved)) && |WaitingIds(w)| == |SpotsWith(w, Reserved)|
            && Corresponds(w, BegunIds(w), SpotsWith(w, Occupied)) && |BegunIds(w)| == |SpotsWith(w, Occupied)|
            && |BegunIds(w)| <= |w.parking.spots|
  {
    RunIsMatched(totals, ops);
    var w := Run(totals, ops);
    CorrespondenceCounts(w, WaitingIds(w), SpotsWith(w, Reserved));
    CorrespondenceCounts(w, BegunIds(w), SpotsWith(w, Occupied));
    SubsetSize(SpotsWith(w, Occupied), w.parking.spots.Keys);
  }

  predicate StaysOccupied(before: Parking, after: Parking, spot: int) {
    spot in before.spots && before.spots[spot].status == Occupied ==>
      spot in after.spots && after.spots[spot].status == Occupied
  }

  lemma CallsLeaveOccupied(p: Parking, id: int, call: CallOutcome, spot: int)
    ensures StaysOccupied(p, CallReserve(p, id, call).0, spot)
    ensures StaysOccupied(p, CallRelease(p, id, call), spot)
    ensures StaysOccupied(p, CallOccupy(p, id, call), spot)
  {
  }

  lemma CommitLeavesOccupied(w: World, input: CreateInput, env: CreateEnv, spot: int)
    ensures StaysOccupied(w.parking, Commit(w, input, env).0.parking, spot)
  {
    CallsLeaveOccupied(w.parking, input.spotId, env.reserve, spot);
    CallsLeaveOccupied(CallReserve(w.parking, input.spotId, env.reserve).0, input.spotId, env.release, spot);
  }

  lemma CancelLeavesOccupied(w: World, id: BookingId, reason: string, env: ChangeEnv, spot: int)
    ensures StaysOccupied(w.parking, CancelBooking(w, id, reason, env).0.parking, spot)
  {
    var r := Transition(w.store, id, Cancelled, CancelReason(reason), env).1;
    if r.Ok? { CallsLeaveOccupied(w.parking, r.value.spotId, env.spotCall, spot); }
  }

  lemma StartLeavesOccupied(w: World, id: BookingId, env: ChangeEnv, spot: int)
    ensures StaysOccupied(w.parking, StartBooking(w, id, env).0.parking, spot)
  {
    var r := UpdateSpec(GetSpec(w.store, id, env.read).0, id, Active, "", env.write).1;
    if r.Ok? { CallsLeaveOccupied(w.parking, r.value.spotId, env.spotCall, spot); }
  }

  lemma CompleteLeavesOccupied(w: World, id: BookingId, env: ChangeEnv, spot: int)
    ensures StaysOccupied(w.parking, CompleteBooking(w, id, env).0.parking, spot)
  {
    var r := Transition(w.store, id, Completed, "", env).1;
    if r.Ok? { CallsLeaveOccupied(w.parking, r.value.spotId, env.spotCall, spot); }
  }

  /** No operation of the booking service ever takes a spot out of OCCUPIED, whatever the replies are:
      `ReleaseSpot` refuses it, so completing a booking does not make its spot available again. */
  lemma OccupiedForever(w: World, op: Op, spot: int)
    requires ValidIds(w.parking) && spot in w.parking.spots && w.parking.spots[spot].status == Occupied
    ensures spot in Step(w, op).parking.spots && Step(w, op).parking.spots[spot].status == Occupied
  {
    match op
    case Create(raw, env) =>
      var prepared := Prepare(w.parking, raw, env);
      if prepared.Ok? { CommitLeavesOccupied(w, prepared.value, env, spot); }
    case Confirm(_, _) =>
    case Cancel(id, reason, env) => CancelLeavesOccupied(w, id, reason, env, spot);
    case Start(id, env) => StartLeavesOccupied(w, id, env, spot);
    case Complete(id, env) => CompleteLeavesOccupied(w, id, env, spot);
    case Read(_, _) =>
    case CacheExpires(_) =>
    case AddSpot(_, _) =>
  }

  // ---------------------------------------------------------------- CreateBooking, exactly

  /** Everything answers, and the id drawn for the new row is unused. */
  predicate AllAnswer(w: World, input: CreateInput, env: CreateEnv) {
    && env.user.Found? && env.lot.Found? && env.spot.Found? && input.parkingId in w.parking.totals
    && env.listOk && env.reserve.Answered?
    && env.insert.checkOk && env.insert.dbOk && env.insert.id !in w.store.rows
  }

  lemma IdleSpotTakesBooking(w: World, input: CreateInput, env: CreateEnv)
    requires Sound(w.store.rows) && NoLiveAtSpot(w, input.spotId) && AllAnswer(w, input, env) && input.start < input.end
    requires input.spotId in w.parking.spots && w.parking.spots[input.spotId].status == Available
    ensures var (w', r) := Commit(w, input, env);
            && r == Ok(NewBooking(input, env.insert.id, env.insert.now))
            && w' == World(SetCache(w.store.(rows := w.store.rows[env.insert.id := r.value]), r.value,
                                    env.insert.setOk),
                           WithSpotStatus(w.parking, input.spotId, Reserved))
  {
    assert forall id | id in w.store.rows && IsLive(w.store.rows[id].status) :: LiveAt(w, id);
    ConflictQueryForeseesConstraint(w.store.rows, input, env.insert.id, env.insert.now);
  }

  lemma CommitSucceeds(w: World, input: CreateInput, env: CreateEnv)
    requires Consistent(w) && AllAnswer(w, input, env) && input.start < input.end
    requires input.spotId in w.parking.spots && w.parking.spots[input.spotId].status == Available
    ensures var (w', r) := Commit(w, input, env);
            && r == Ok(NewBooking(input, env.insert.id, env.insert.now))
            && w'.store.rows == w.store.rows[env.insert.id := r.value]
            && w'.parking == WithSpotStatus(w.parking, input.spotId, Reserved)
  {
    ReservedSpotHasNoConflict(w, input);
    IdleSpotTakesBooking(w, input, env);
  }

  /** A quick booking fails for want of a spot exactly when the lot has no AVAILABLE spot;
      otherwise, for every random draw, it books the drawn available spot of that lot. */
  lemma QuickBookingExactly(totals: map<int, nat>, ops: seq<Op>, raw: CreateInput, env: CreateEnv)
    requires forall op | op in ops :: KeepsCache(op)
    requires Validate(raw).Ok? && Validate(raw).value.spotId == 0
    requires AllAnswer(Run(totals, ops), Validate(raw).value, env)
    ensures var w := Run(totals, ops);
            var input := Validate(raw).value;
            var (w', r) := CreateBooking(w, raw, env);
            && (r == Err(NoAvailableSpots) <==> AvailableIn(w.parking, input.parkingId) == {})
            && (r.Err? ==> w' == w && r == Err(NoAvailableSpots))
            && (r.Ok? ==> && r.value.spotId in AvailableIn(w.parking, input.parkingId)
                          && r.value == NewBooking(input.(spotId := r.value.spotId), env.insert.id, env.insert.now)
                          && w'.store.rows == w.store.rows[env.insert.id := r.value]
                          && w'.parking == WithSpotStatus(w.parking, r.value.spotId, Reserved))
  {
    RunIsConsistent(totals, ops);
    var w, input := Run(totals, ops), Validate(raw).value;
    QuickPrepare(w.parking, raw, input, env);
    if AvailableIn(w.parking, input.parkingId) != {} {
      ValidRange(raw);
      CommitSucceeds(w, Prepare(w.parking, raw, env).value, env);
    }
  }

  /** The lookups of a quick booking, when all of them answer. */
  lemma QuickPrepare(p: Parking, raw: CreateInput, input: CreateInput, env: CreateEnv)
    requires ValidIds(p) && Validate(raw) == Ok(input) && input.spotId == 0
    requires env.user.Found? && env.lot.Found? && input.parkingId in p.totals && env.listOk
    ensures var prepared := Prepare(p, raw, env);
            if AvailableIn(p, input.parkingId) == {} then prepared == Err(NoAvailableSpots)
            else && prepared.Ok? && prepared.value == input.(spotId := prepared.value.spotId)
                 && prepared.value.spotId in AvailableIn(p, input.parkingId)
  {
    PickedIsAvailable(p, input.parkingId, env);
  }

  lemma PickedIsAvailable(p: Parking, lot: int, env: CreateEnv)
    requires ValidIds(p) && env.listOk
    ensures if AvailableIn(p, lot) == {} then PickSpot(p, lot, env) == Err(NoAvailableSpots)
            else PickSpot(p, lot, env).Ok? && PickSpot(p, lot, env).value in AvailableIn(p, lot)
  {
    var candidates := Candidates(p, lot);
    if candidates == [] {
      assert forall s :: s in AvailableIn(p, lot) ==> s in candidates;
    } else {
      var chosen := candidates[env.pick % |candidates|];
      assert chosen in candidates;
      assert chosen in AvailableIn(p, lot);
    }
  }

  /** And every available spot is drawn by some random number. */
  lemma EveryAvailableSpotCanBeDrawn(w: World, lot: int, spot: int, env: CreateEnv)
    requires ValidIds(w.parking) && spot in AvailableIn(w.parking, lot) && env.listOk
    ensures exists pick: nat :: PickSpot(w.parking, lot, env.(pick := pick)) == Ok(spot)
  {
    var candidates := Candidates(w.parking, lot);
    assert spot in candidates;
    var pick: nat :| 0 <= pick < |candidates| && candidates[pick] == spot;
    SmallRemainder(pick, |candidates|);
    assert PickSpot(w.parking, lot, env.(pick := pick)) == Ok(spot);
  }

  lemma SmallRemainder(a: nat, b: nat)
    requires a < b
    ensures a % b == a
  {
  }

  lemma NamedPrepare(p: Parking, raw: CreateInput, env: CreateEnv)
    requires Validate(raw).Ok? && Validate(raw).value.spotId > 0
    requires env.user.Found? && env.lot.Found? && env.spot.Found? && Validate(raw).value.parkingId in p.totals
    ensures var input := Validate(raw).value;
            if input.spotId in p.spots && p.spots[input.spotId].lot == input.parkingId
            then Prepare(p, raw, env) == Ok(input) else Prepare(p, raw, env).Err?
  {
    var input := Validate(raw).value;
    assert input.(spotId := input.spotId) == input;
  }

  /** A booking of a named spot succeeds exactly when the spot belongs to the lot and is AVAILABLE,
      whatever time is asked for: an AVAILABLE spot has no live booking at all. */
  lemma NamedBookingExactly(totals: map<int, nat>, ops: seq<Op>, raw: CreateInput, env: CreateEnv)
    requires forall op | op in ops :: KeepsCache(op)
    requires Validate(raw).Ok? && Validate(raw).value.spotId > 0
    requires AllAnswer(Run(totals, ops), Validate(raw).value, env)
    ensures var w := Run(totals, ops);
            var input := Validate(raw).value;
            CreateBooking(w, raw, env).1.Ok? <==> input.spotId in AvailableIn(w.parking, input.parkingId)
  {
    RunIsConsistent(totals, ops);
    var w, input := Run(totals, ops), Validate(raw).value;
    NamedPrepare(w.parking, raw, env);
    if input.spotId in AvailableIn(w.parking, input.parkingId) {
      ValidateIsStable(raw);
      CommitSucceeds(w, input, env);
    } else if Prepare(w.parking, raw, env).Ok? {
      assert !CallReserve(w.parking, input.spotId, env.reserve).1;
    }
  }
}
