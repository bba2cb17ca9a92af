/** Exactly when interleaved calls break what serial runs keep: the order of the statuses, and that the spot of a live
    booking is not offered as AVAILABLE. */
module BookingRaces {
  import opened BookingDomain
  import opened BookingStore
  import opened ParkingSpots
  import opened BookingFlow
  import opened BookingRuns
  import opened BookingHistory
  import Micro = BookingInterleaving

  // ---------------------------------------------------------------- statuses

  /** The step is the update of a status change, which has read and checked the booking some time before; it gets
      through, and the constraints admit the row as it is now with the new status. */
  predicate WritesStatus(s: Micro.State, ev: Micro.Event, id: BookingId, next: Status) {
    && ev.Advance? && ev.call in s.calls && s.calls[ev.call].UpdateBooking? && id in s.world.store.rows
    && var op := s.calls[ev.call].op;
       && IsChange(op) && op.id == id && op.env.write.dbOk && Target(op) == next
       && Admits(s.world.store.rows, WithStatus(s.world.store.rows[id], next, ReasonOf(op), op.env.write.now))
  }

  lemma EffectOnRow(rows: Rows, pc: Micro.Pc, id: BookingId)
    requires id in rows
    ensures id in Micro.RowsAfter(rows, pc)
    ensures Micro.RowsAfter(rows, pc)[id] ==
      if pc.UpdateBooking? && IsChange(pc.op) && pc.op.id == id && pc.op.env.write.dbOk
         && Admits(rows, WithStatus(rows[id], Target(pc.op), ReasonOf(pc.op), pc.op.env.write.now))
      then WithStatus(rows[id], Target(pc.op), ReasonOf(pc.op), pc.op.env.write.now)
      else rows[id]
  {
  }

  /** A row takes another status in one step exactly when such an update writes it. */
  lemma StatusChangesExactly(s: Micro.State, ev: Micro.Event, id: BookingId, next: Status)
    requires id in s.world.store.rows && s.world.store.rows[id].status != next
    ensures id in Micro.Step(s, ev).world.store.rows
    ensures Micro.Step(s, ev).world.store.rows[id].status == next <==> WritesStatus(s, ev, id, next)
  {
    match ev
    case Begin(call, op) => Micro.BeginOnTable(s, call, op);
    case Environment(_) =>
    case Advance(call) =>
      if call in s.calls {
        Micro.AdvanceHasEffect(s, call);
        EffectOnRow(s.world.store.rows, s.calls[call], id);
      }
  }

  /** A completed or cancelled booking is live again after one step exactly when a confirmation or a start that read it
      before writes its status now. */
  lemma RevivedExactly(s: Micro.State, ev: Micro.Event, id: BookingId)
    requires id in s.world.store.rows && !IsLive(s.world.store.rows[id].status)
    ensures LiveAt(Micro.Step(s, ev).world, id)
            <==> WritesStatus(s, ev, id, Confirmed) || WritesStatus(s, ev, id, Active)
  {
    StatusChangesExactly(s, ev, id, Pending);
    StatusChangesExactly(s, ev, id, Confirmed);
    StatusChangesExactly(s, ev, id, Active);
  }

  // ---------------------------------------------------------------- the order of the statuses

  ghost function After(totals: map<int, nat>, events: seq<Micro.Event>): Micro.State {
    Micro.RunFrom(Micro.Initial(totals), events)
  }

  /** The statuses that one booking takes under a schedule, without repetitions in a row. */
  ghost function ScheduleHistory(totals: map<int, nat>, events: seq<Micro.Event>, id: BookingId): seq<Status> {
    if events == [] then []
    else Extended(ScheduleHistory(totals, events[..|events| - 1], id), After(totals, events).world.store.rows, id)
  }

  predicate OutOfOrder(from: Status, to: Status) {
    to != from && !CanTransition(from, to)
  }

  /** The step writes a status to which the row as it is now may not change. */
  predicate BreaksOrder(s: Micro.State, ev: Micro.Event, id: BookingId) {
    exists next :: WritesStatus(s, ev, id, next) && OutOfOrder(s.world.store.rows[id].status, next)
  }

  ghost predicate BreaksOrderAt(totals: map<int, nat>, events: seq<Micro.Event>, id: BookingId, n: nat) {
    n < |events| && BreaksOrder(After(totals, events[..n]), events[n], id)
  }

  /** The history ends in the present status, and there is one as soon as there is a row. */
  ghost predicate EndsAt(h: seq<Status>, rows: Rows, id: BookingId) {
    (id in rows <==> h != []) && (id in rows ==> h[|h| - 1] == rows[id].status)
  }

  lemma PathExtendsExactly(h: seq<Status>, next: Status)
    requires h != []
    ensures IsPath(h + [next]) <==> IsPath(h) && CanTransition(h[|h| - 1], next)
  {
    var more := h + [next];
    if IsPath(more) {
      assert CanTransition(more[|h| - 1], more[|h|]);
      forall k | 0 <= k < |h| - 1 ensures CanTransition(h[k], h[k + 1]) {
        assert more[k] == h[k] && more[k + 1] == h[k + 1];
      }
      assert more[0] == h[0];
    }
    if IsPath(h) && CanTransition(h[|h| - 1], next) { PathGrows(h, next); }
  }

  lemma NewRowIsPending(s: Micro.State, ev: Micro.Event, id: BookingId)
    requires id !in s.world.store.rows && id in Micro.Step(s, ev).world.store.rows
    ensures Micro.Step(s, ev).world.store.rows[id].status == Pending
  {
    match ev
    case Begin(call, op) => Micro.BeginOnTable(s, call, op);
    case Environment(_) =>
    case Advance(call) => if call in s.calls { Micro.AdvanceHasEffect(s, call); }
  }

  lemma BreaksOrderExactly(s: Micro.State, ev: Micro.Event, id: BookingId)
    ensures id !in s.world.store.rows ==> !BreaksOrder(s, ev, id)
    ensures var rows, rows' := s.world.store.rows, Micro.Step(s, ev).world.store.rows;
            id in rows ==> id in rows' && (BreaksOrder(s, ev, id) <==> OutOfOrder(rows[id].status, rows'[id].status))
  {
    var rows, rows' := s.world.store.rows, Micro.Step(s, ev).world.store.rows;
    if id in rows {
      StatusChangesExactly(s, ev, id, if rows[id].status == Pending then Active else Pending);
      var now := rows'[id].status;
      if now != rows[id].status { StatusChangesExactly(s, ev, id, now); }
      forall next | next != rows[id].status && WritesStatus(s, ev, id, next) ensures next == now {
        StatusChangesExactly(s, ev, id, next);
      }
    }
  }

  lemma HistoryMoves(h: seq<Status>, rows: Rows, rows': Rows, id: BookingId)
    requires EndsAt(h, rows, id) && (id in rows ==> id in rows')
    requires id !in rows && id in rows' ==> rows'[id].status == Pending
    ensures EndsAt(Extended(h, rows', id), rows', id)
    ensures IsPath(Extended(h, rows', id)) <==>
      IsPath(h) && !(id in rows && OutOfOrder(rows[id].status, rows'[id].status))
  {
    if id in rows && rows'[id].status != rows[id].status { PathExtendsExactly(h, rows'[id].status); }
  }

  lemma StepExtendsHistory(h: seq<Status>, s: Micro.State, ev: Micro.Event, id: BookingId)
    requires EndsAt(h, s.world.store.rows, id)
    ensures var rows' := Micro.Step(s, ev).world.store.rows;
            && EndsAt(Extended(h, rows', id), rows', id)
            && (IsPath(Extended(h, rows', id)) <==> IsPath(h) && !BreaksOrder(s, ev, id))
  {
    var rows, rows' := s.world.store.rows, Micro.Step(s, ev).world.store.rows;
    BreaksOrderExactly(s, ev, id);
    if id !in rows && id in rows' { NewRowIsPending(s, ev, id); }
    HistoryMoves(h, rows, rows', id);
  }

  lemma BreaksInFront(totals: map<int, nat>, events: seq<Micro.Event>, id: BookingId, n: nat)
    requires events != []
    ensures var last := |events| - 1;
            && (n < last ==> (BreaksOrderAt(totals, events[..last], id, n) <==> BreaksOrderAt(totals, events, id, n)))
            && (BreaksOrderAt(totals, events, id, last)
                <==> BreaksOrder(After(totals, events[..last]), events[last], id))
  {
    var last := |events| - 1;
    if n < last { assert events[..last][..n] == events[..n]; }
  }

  /** Under a schedule the statuses of a booking follow the transition table, as they do on serial runs, exactly when no
      update ever writes a status to which the row, as the update finds it, may not change. */
  lemma {:induction false} LifecycleExactly(totals: map<int, nat>, events: seq<Micro.Event>, id: BookingId)
    ensures EndsAt(ScheduleHistory(totals, events, id), After(totals, events).world.store.rows, id)
    ensures IsPath(ScheduleHistory(totals, events, id)) <==> !exists n: nat :: BreaksOrderAt(totals, events, id, n)
  {
    if events == [] {
      assert id !in Micro.Initial(totals).world.store.rows;
    } else {
      var last := |events| - 1;
      var before := events[..last];
      LifecycleExactly(totals, before, id);
      StepExtendsHistory(ScheduleHistory(totals, before, id), After(totals, before), events[last], id);
      forall n: nat | BreaksOrderAt(totals, events, id, n) ensures n == last || BreaksOrderAt(totals, before, id, n) {
        BreaksInFront(totals, events, id, n);
      }
      BreaksInFront(totals, events, id, last);
      if n: nat :| BreaksOrderAt(totals, before, id, n) { BreaksInFront(totals, events, id, n); }
    }
  }

  // ---------------------------------------------------------------- known spots

  predicate NeedsSpot(pc: Micro.Pc, spot: int) {
    (pc.ReserveUpdate? || pc.ConflictQuery? || pc.InsertBooking?) && pc.input.spotId == spot
  }

  /** Every booking, and every booking about to be made, names a spot that exists. */
  ghost predicate SpotsKnown(s: Micro.State) {
    && ValidIds(s.world.parking)
    && (forall id | id in s.world.store.rows :: s.world.store.rows[id].spotId in s.world.parking.spots)
    && (forall c, spot | c in s.calls && NeedsSpot(s.calls[c], spot) :: spot in s.world.parking.spots)
  }

  lemma StatusKeepsSpots(p: Parking, spot: int, status: SpotStatus)
    ensures WithSpotStatus(p, spot, status).spots.Keys == p.spots.Keys
    ensures ValidIds(p) ==> ValidIds(WithSpotStatus(p, spot, status))
  {
  }

  lemma EffectKeepsSpots(w: World, w': World, pc: Micro.Pc)
    requires Micro.HasEffect(w, w', pc)
    ensures w'.parking.spots.Keys == w.parking.spots.Keys && (ValidIds(w.parking) ==> ValidIds(w'.parking))
    ensures forall id | id in w'.store.rows ::
              || (id in w.store.rows && w'.store.rows[id].spotId == w.store.rows[id].spotId)
              || NeedsSpot(pc, w'.store.rows[id].spotId)
  {
    match pc
    case ReserveUpdate(input, _) => StatusKeepsSpots(w.parking, input.spotId, Reserved);
    case OccupySpot(spot, _) => StatusKeepsSpots(w.parking, spot, Occupied);
    case ReleaseUpdate(spot, _) => StatusKeepsSpots(w.parking, spot, Available);
    case _ =>
  }

  lemma CreationNeedsKnownSpot(s: Micro.State, call: Micro.CallId, c: Micro.CallId, spot: int)
    requires call in s.calls
    requires var pc := s.calls[call];
             pc.SelectSpot? || pc.ReserveUpdate? || pc.ConflictQuery? || pc.InsertBooking? || pc.CacheNew?
    requires var s' := Micro.AdvanceCall(s, call); c in s'.calls && NeedsSpot(s'.calls[c], spot)
    ensures (c in s.calls && NeedsSpot(s.calls[c], spot)) || spot in s.world.parking.spots
  {
  }

  lemma ChangeNeedsNoSpot(s: Micro.State, call: Micro.CallId, c: Micro.CallId, spot: int)
    requires call in s.calls
    requires var pc := s.calls[call];
             !pc.SelectSpot? && !pc.ReserveUpdate? && !pc.ConflictQuery? && !pc.InsertBooking? && !pc.CacheNew?
    requires var s' := Micro.AdvanceCall(s, call); c in s'.calls && NeedsSpot(s'.calls[c], spot)
    ensures c in s.calls && NeedsSpot(s.calls[c], spot)
  {
  }

  lemma NextNeedsKnownSpot(s: Micro.State, call: Micro.CallId, c: Micro.CallId, spot: int)
    requires call in s.calls
    requires var s' := Micro.AdvanceCall(s, call); c in s'.calls && NeedsSpot(s'.calls[c], spot)
    ensures (c in s.calls && NeedsSpot(s.calls[c], spot)) || spot in s.world.parking.spots
  {
    var pc := s.calls[call];
    if pc.SelectSpot? || pc.ReserveUpdate? || pc.ConflictQuery? || pc.InsertBooking? || pc.CacheNew? {
      CreationNeedsKnownSpot(s, call, c, spot);
    } else {
      ChangeNeedsNoSpot(s, call, c, spot);
    }
  }

  lemma BeginNeedsNoSpot(s: Micro.State, call: Micro.CallId, op: Op, c: Micro.CallId, spot: int)
    requires call !in s.calls
    requires var s' := Micro.BeginCall(s, call, op); c in s'.calls && NeedsSpot(s'.calls[c], spot)
    ensures c in s.calls && NeedsSpot(s.calls[c], spot)
  {
    if op.Create? {
      BeginCreateNeedsNoSpot(s, call, Prepare(s.world.parking, op.raw, op.create), op.create, c, spot);
    } else if IsChange(op) {
      BeginChangeNeedsNoSpot(s, call, op, c, spot);
    }
  }

  lemma BeginCreateNeedsNoSpot(s: Micro.State, call: Micro.CallId, prepared: Outcome<CreateInput>, env: CreateEnv,
                               c: Micro.CallId, spot: int)
    requires call !in s.calls
    requires var s' := Micro.BeginCreate(s, call, prepared, env); c in s'.calls && NeedsSpot(s'.calls[c], spot)
    ensures c in s.calls && NeedsSpot(s.calls[c], spot)
  {
  }

  lemma BeginChangeNeedsNoSpot(s: Micro.State, call: Micro.CallId, op: Op, c: Micro.CallId, spot: int)
    requires call !in s.calls && IsChange(op)
    requires var s' := Micro.BeginChange(s, call, op); c in s'.calls && NeedsSpot(s'.calls[c], spot)
    ensures c in s.calls && NeedsSpot(s.calls[c], spot)
  {
  }

  lemma StepKeepsSpotsKnown(s: Micro.State, ev: Micro.Event)
    requires SpotsKnown(s)
    ensures SpotsKnown(Micro.Step(s, ev))
  {
    var s' := Micro.Step(s, ev);
    match ev
    case Begin(call, op) =>
      if call !in s.calls {
        Micro.BeginOnTable(s, call, op);
        forall c, spot | c in s'.calls && NeedsSpot(s'.calls[c], spot) ensures spot in s'.world.parking.spots {
          BeginNeedsNoSpot(s, call, op, c, spot);
        }
      }
    case Environment(_) =>
    case Advance(call) =>
      if call in s.calls {
        Micro.AdvanceHasEffect(s, call);
        EffectKeepsSpots(s.world, s'.world, s.calls[call]);
        forall c, spot | c in s'.calls && NeedsSpot(s'.calls[c], spot) ensures spot in s'.world.parking.spots {
          NextNeedsKnownSpot(s, call, c, spot);
        }
      }
  }

  lemma {:induction false} ScheduleKeepsSpotsKnown(totals: map<int, nat>, events: seq<Micro.Event>)
    ensures SpotsKnown(After(totals, events))
  {
    if events != [] {
      ScheduleKeepsSpotsKnown(totals, events[..|events| - 1]);
      StepKeepsSpotsKnown(After(totals, events[..|events| - 1]), events[|events| - 1]);
    }
  }

  // ---------------------------------------------------------------- exposed bookings

  predicate Offered(p: Parking, spot: int) {
    spot in p.spots && p.spots[spot].status == Available
  }

  /** A live booking on an AVAILABLE spot. */
  predicate Exposed(w: World, id: BookingId) {
    LiveAt(w, id) && Offered(w.parking, w.store.rows[id].spotId)
  }

  /** The step is the second statement of a release of this spot. */
  predicate Frees(s: Micro.State, ev: Micro.Event, spot: int) {
    ev.Advance? && ev.call in s.calls && s.calls[ev.call].ReleaseUpdate? && s.calls[ev.call].spot == spot
  }

  /** The step inserts the booking, and its constraints admit it. */
  predicate Books(s: Micro.State, ev: Micro.Event, id: BookingId) {
    && ev.Advance? && ev.call in s.calls && s.calls[ev.call].InsertBooking? && id !in s.world.store.rows
    && var input, env := s.calls[ev.call].input, s.calls[ev.call].create.insert;
       env.id == id && env.dbOk && Admits(s.world.store.rows, NewBooking(input, id, env.now))
  }

  predicate Revives(s: Micro.State, ev: Micro.Event, id: BookingId) {
    && id in s.world.store.rows && !IsLive(s.world.store.rows[id].status)
    && (WritesStatus(s, ev, id, Confirmed) || WritesStatus(s, ev, id, Active))
  }

  function SpotOf(s: Micro.State, ev: Micro.Event, id: BookingId): int
    requires Books(s, ev, id) || Revives(s, ev, id)
  {
    if id in s.world.store.rows then s.world.store.rows[id].spotId else s.calls[ev.call].input.spotId
  }

  /** A booking that is not live is live after one step exactly when the step inserts or revives it; a live one stays so
      exactly when the step does not complete or cancel it. */
  lemma LiveExactly(s: Micro.State, ev: Micro.Event, id: BookingId)
    ensures var w' := Micro.Step(s, ev).world;
            && (!LiveAt(s.world, id) ==> (LiveAt(w', id) <==> Books(s, ev, id) || Revives(s, ev, id)))
            && (LiveAt(s.world, id) ==>
                  (LiveAt(w', id) <==> !WritesStatus(s, ev, id, Completed) && !WritesStatus(s, ev, id, Cancelled)))
            && (LiveAt(s.world, id) && LiveAt(w', id) ==> w'.store.rows[id].spotId == s.world.store.rows[id].spotId)
            && (!LiveAt(s.world, id) && LiveAt(w', id) ==> w'.store.rows[id].spotId == SpotOf(s, ev, id))
  {
    match ev
    case Begin(call, op) => Micro.BeginOnTable(s, call, op);
    case Environment(_) =>
    case Advance(call) =>
      if call in s.calls {
        Micro.AdvanceHasEffect(s, call);
        if id in s.world.store.rows {
          EffectOnRow(s.world.store.rows, s.calls[call], id);
          if IsLive(s.world.store.rows[id].status) {
            StatusChangesExactly(s, ev, id, Completed);
            StatusChangesExactly(s, ev, id, Cancelled);
          } else {
            RevivedExactly(s, ev, id);
          }
        }
      }
  }

  /** The ways to expose a booking: its spot is released while it is live, or it comes to life on an AVAILABLE spot. */
  predicate Exposes(s: Micro.State, ev: Micro.Event, id: BookingId) {
    || (LiveAt(s.world, id) && Frees(s, ev, s.world.store.rows[id].spotId))
    || ((Books(s, ev, id) || Revives(s, ev, id)) && Offered(s.world.parking, SpotOf(s, ev, id)))
  }

  /** In every schedule, a booking is exposed by the next step exactly when that step releases its spot while it is live
      or brings it to life on an AVAILABLE spot. */
  lemma ExposedExactly(totals: map<int, nat>, events: seq<Micro.Event>, ev: Micro.Event, id: BookingId)
    requires !Exposed(After(totals, events).world, id)
    ensures var s := After(totals, events); Exposed(Micro.Step(s, ev).world, id) <==> Exposes(s, ev, id)
  {
    var s := After(totals, events);
    ScheduleKeepsSpotsKnown(totals, events);
    LiveExactly(s, ev, id);
    match ev
    case Begin(call, op) => Micro.BeginOnTable(s, call, op);
    case Environment(_) =>
    case Advance(call) => if call in s.calls { Micro.AdvanceHasEffect(s, call); }
  }

  predicate Share(w: World, i: BookingId, j: BookingId) {
    LiveAt(w, i) && LiveAt(w, j) && w.store.rows[i].spotId == w.store.rows[j].spotId
  }

  /** The step brings `i` to life on the spot of the live booking `j`. */
  predicate Joins(s: Micro.State, ev: Micro.Event, i: BookingId, j: BookingId) {
    && LiveAt(s.world, j) && (Books(s, ev, i) || Revives(s, ev, i))
    && SpotOf(s, ev, i) == s.world.store.rows[j].spotId
  }

  /** Two bookings that are not both live on one spot are so after one step exactly when the step inserts or revives one
      of them on the spot of the other. */
  lemma SharedExactly(s: Micro.State, ev: Micro.Event, i: BookingId, j: BookingId)
    requires i != j && !Share(s.world, i, j)
    ensures Share(Micro.Step(s, ev).world, i, j) <==>
      Joins(s, ev, i, j) || Joins(s, ev, j, i)
  {
    LiveExactly(s, ev, i);
    LiveExactly(s, ev, j);
  }
}
