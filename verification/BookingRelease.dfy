/** When a completed booking gives its spot back: serial runs, with any replies of the parking service. */
module BookingRelease {
  import opened Basics
  import opened BookingDomain
  import opened BookingStore
  import opened ParkingSpots
  import opened BookingFlow
  import opened BookingRuns

  /** The operation starts the booking, and its call to set the spot OCCUPIED takes effect. */
  predicate Occupies(w: World, op: Op, id: BookingId) {
    op.Start? && op.id == id && Happens(w, op) && !op.env.spotCall.Unreachable?
  }

  ghost predicate OccupiesAt(totals: map<int, nat>, ops: seq<Op>, id: BookingId, n: nat) {
    n < |ops| && Occupies(Run(totals, ops[..n]), ops[n], id)
  }

  /** Some operation of the run was such a start. */
  ghost predicate WasOccupied(totals: map<int, nat>, ops: seq<Op>, id: BookingId) {
    exists n: nat :: OccupiesAt(totals, ops, id, n)
  }

  lemma OccupiesInFront(totals: map<int, nat>, ops: seq<Op>, id: BookingId, n: nat)
    requires ops != []
    ensures var last := |ops| - 1;
            && (n < last ==> (OccupiesAt(totals, ops[..last], id, n) <==> OccupiesAt(totals, ops, id, n)))
            && (OccupiesAt(totals, ops, id, last) <==> Occupies(Run(totals, ops[..last]), ops[last], id))
  {
    var last := |ops| - 1;
    if n < last { assert ops[..last][..n] == ops[..n]; }
  }

  lemma LastOccupies(totals: map<int, nat>, ops: seq<Op>, id: BookingId)
    requires ops != []
    ensures var last := |ops| - 1;
            WasOccupied(totals, ops, id) <==>
              WasOccupied(totals, ops[..last], id) || Occupies(Run(totals, ops[..last]), ops[last], id)
  {
    var last := |ops| - 1;
    OccupiesInFront(totals, ops, id, last);
    forall n: nat | n != last
      ensures OccupiesAt(totals, ops, id, n) <==> OccupiesAt(totals, ops[..last], id, n)
    {
      if n < last { OccupiesInFront(totals, ops, id, n); }
    }
    if n: nat :| OccupiesAt(totals, ops[..last], id, n) { assert OccupiesAt(totals, ops, id, n); }
  }

  predicate OnOccupied(w: World, id: BookingId) {
    && id in w.store.rows && w.store.rows[id].spotId in w.parking.spots
    && w.parking.spots[w.store.rows[id].spotId].status == Occupied
  }

  /** A live booking stands on an OCCUPIED spot exactly when its own start has occupied it; bookings that have not begun
      were not started. */
  ghost predicate Tracks(w: World, id: BookingId, occupied: bool) {
    && (LiveAt(w, id) ==> (OnOccupied(w, id) <==> occupied))
    && (occupied ==> id in w.store.rows && w.store.rows[id].status in {Active, Completed})
  }

  lemma CommitMoves(w: World, input: CreateInput, env: CreateEnv, id: BookingId)
    requires Consistent(w) && input.spotId in w.parking.spots
    ensures var w' := Commit(w, input, env).0;
            && (LiveAt(w, id) ==>
                  && LiveAt(w', id) && w'.store.rows[id] == w.store.rows[id]
                  && (OnOccupied(w', id) <==> OnOccupied(w, id)))
            && (id in w.store.rows ==> id in w'.store.rows && w'.store.rows[id] == w.store.rows[id])
            && (id !in w.store.rows && id in w'.store.rows ==>
                  w'.store.rows[id].status == Pending && !OnOccupied(w', id))
  {
  }

  lemma CreateTracks(w: World, raw: CreateInput, env: CreateEnv, id: BookingId, occupied: bool)
    requires Consistent(w) && Tracks(w, id, occupied)
    ensures Tracks(CreateBooking(w, raw, env).0, id, occupied)
  {
    var prepared := Prepare(w.parking, raw, env);
    if prepared.Ok? {
      PreparedSpot(w.parking, raw, env);
      CommitMoves(w, prepared.value, env, id);
    }
  }

  lemma ChangeTracks(w: World, w': World, op: Op, id: BookingId, occupied: bool)
    requires Consistent(w) && IsChange(op) && HasChanged(w, w', op) && Tracks(w, id, occupied)
    ensures Tracks(w', id, occupied || Occupies(w, op, id))
  {
    if Happens(w, op) {
      if op.id == id { OwnChangeTracks(w, w', op, occupied); } else { OtherChangeTracks(w, w', op, id, occupied); }
    }
  }

  lemma OwnChangeTracks(w: World, w': World, op: Op, occupied: bool)
    requires Consistent(w) && IsChange(op) && HasChanged(w, w', op) && Happens(w, op) && Tracks(w, op.id, occupied)
    ensures Tracks(w', op.id, occupied || Occupies(w, op, op.id))
  {
    assert LiveAt(w, op.id) && w.store.rows[op.id].spotId in w.parking.spots && w.store.rows[op.id].spotId > 0;
  }

  lemma OtherChangeTracks(w: World, w': World, op: Op, id: BookingId, occupied: bool)
    requires Consistent(w) && IsChange(op) && HasChanged(w, w', op) && Happens(w, op) && op.id != id
    requires Tracks(w, id, occupied)
    ensures Tracks(w', id, occupied)
  {
    assert LiveAt(w, op.id);
    if LiveAt(w, id) { assert w.store.rows[id].spotId != w.store.rows[op.id].spotId; }
  }

  lemma StepTracks(w: World, op: Op, id: BookingId, occupied: bool)
    requires Consistent(w) && Tracks(w, id, occupied)
    ensures Tracks(Step(w, op), id, occupied || Occupies(w, op, id))
  {
    match op
    case Create(raw, env) => CreateTracks(w, raw, env, id, occupied);
    case AddSpot(_, _) =>
    case CacheExpires(_) =>
    case Read(readId, read) => ReadKeepsConsistent(w, readId, read);
    case _ =>
      ChangeEffect(w, op);
      ChangeTracks(w, Step(w, op), op, id, occupied);
  }

  lemma {:induction false} RunTracks(totals: map<int, nat>, ops: seq<Op>, id: BookingId)
    requires forall op | op in ops :: KeepsCache(op)
    ensures Consistent(Run(totals, ops)) && Tracks(Run(totals, ops), id, WasOccupied(totals, ops, id))
  {
    RunIsConsistent(totals, ops);
    if ops != [] {
      var before := ops[..|ops| - 1];
      RunTracks(totals, before, id);
      LastOccupies(totals, ops, id);
      StepTracks(Run(totals, before), ops[|ops| - 1], id, WasOccupied(totals, before, id));
    } else {
      assert !WasOccupied(totals, ops, id);
    }
  }

  /** After any serial run, the spot of a live booking is OCCUPIED exactly when the call of its own start took effect,
      and RESERVED otherwise. */
  lemma OccupiedExactly(totals: map<int, nat>, ops: seq<Op>, id: BookingId)
    requires forall op | op in ops :: KeepsCache(op)
    requires LiveAt(Run(totals, ops), id)
    ensures var w := Run(totals, ops);
            && w.store.rows[id].spotId in w.parking.spots
            && w.parking.spots[w.store.rows[id].spotId].status
               == if WasOccupied(totals, ops, id) then Occupied else Reserved
  {
    RunTracks(totals, ops, id);
  }

  /** A completion that succeeds gives the spot back exactly when the call that should have set it OCCUPIED never took
      effect and the release does; the spot stays as it was otherwise. */
  lemma CompletionFreesExactly(totals: map<int, nat>, ops: seq<Op>, id: BookingId, env: ChangeEnv)
    requires forall op | op in ops :: KeepsCache(op)
    requires CompleteBooking(Run(totals, ops), id, env).1.Ok?
    ensures var w := Run(totals, ops);
            var w' := CompleteBooking(w, id, env).0;
            && LiveAt(w, id)
            && var spot := w.store.rows[id].spotId;
               && spot in w.parking.spots && spot in w'.parking.spots
               && w.parking.spots[spot].status != Available
               && (w'.parking.spots[spot].status == Available <==>
                     !WasOccupied(totals, ops, id) && !env.spotCall.Unreachable?)
               && (w'.parking.spots[spot].status != Available ==> w'.parking == w.parking)
  {
    var w := Run(totals, ops);
    RunIsConsistent(totals, ops);
    CompletionReleases(w, id, env);
    OccupiedExactly(totals, ops, id);
  }

  lemma CompletionReleases(w: World, id: BookingId, env: ChangeEnv)
    requires Consistent(w) && CompleteBooking(w, id, env).1.Ok?
    ensures LiveAt(w, id) && w.store.rows[id].spotId > 0
    ensures CompleteBooking(w, id, env).0.parking == CallRelease(w.parking, w.store.rows[id].spotId, env.spotCall)
  {
    TransitionShape(w.store, id, Completed, "", env);
    FailedUpdateKeepsStore(GetSpec(w.store, id, env.read).0, id, Completed, "", env.write);
  }
}
