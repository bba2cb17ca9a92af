/** The statuses that one booking passes through, and what goes wrong when both cache commands of an update are lost. */
module BookingHistory {
  import opened Basics
  import opened BookingDomain
  import opened BookingStore
  import opened ParkingSpots
  import opened BookingFlow
  import opened BookingRuns
  import opened BookingMatching

  /** The statuses of a booking in the order in which it took them, without repetitions in a row. */
  ghost function History(totals: map<int, nat>, ops: seq<Op>, id: BookingId): seq<Status> {
    if ops == [] then [] else Extended(History(totals, ops[..|ops| - 1], id), Run(totals, ops).store.rows, id)
  }

  function Extended(h: seq<Status>, rows: Rows, id: BookingId): seq<Status> {
    if id !in rows || (h != [] && h[|h| - 1] == rows[id].status) then h else h + [rows[id].status]
  }

  /** cancelled_at and a non-empty reason are there exactly when the booking is cancelled. */
  predicate WellMarked(b: Booking) {
    && (b.status == Cancelled <==> b.cancelledAt.Some?)
    && (b.status == Cancelled <==> b.cancelReason != "")
  }

  predicate IsPath(h: seq<Status>) {
    && (h != [] ==> h[0] == Pending)
    && (forall k | 0 <= k < |h| - 1 :: CanTransition(h[k], h[k + 1]))
  }

  lemma UpdateIsWellMarked(rows: Rows, id: BookingId, next: Status, reason: string, now: Time)
    requires UpdateRow(rows, id, next, reason, now).Ok?
    requires reason != "" <==> next == Cancelled
    ensures WellMarked(UpdateRow(rows, id, next, reason, now).value[id])
  {
  }

  /** One operation adds at most one row, pending, or moves one row along the transition table; no row disappears. */
  lemma RowsMoveForward(w: World, op: Op, id: BookingId)
    requires Consistent(w)
    ensures var rows, rows' := w.store.rows, Step(w, op).store.rows;
            && (id in rows ==>
                  && id in rows'
                  && (rows'[id] == rows[id]
                      || (&& IsChange(op) && op.id == id && CanTransition(rows[id].status, rows'[id].status)
                          && rows'[id] == WithStatus(rows[id], Target(op), ReasonOf(op), op.env.write.now)
                          && WellMarked(rows'[id])
                          && (rows'[id].status == Active ==> op.Start? && rows[id].start <= op.env.clock))))
            && (id !in rows && id in rows' ==> op.Create? && rows'[id].status == Pending && WellMarked(rows'[id]))
  {
    match op
    case Create(raw, env) =>
      var prepared := Prepare(w.parking, raw, env);
      if prepared.Ok? { CommitAddsPending(w, prepared.value, env, id); }
    case Read(_, _) => ReadKeepsConsistent(w, op.id, op.read);
    case CacheExpires(_) =>
    case AddSpot(_, _) =>
    case _ =>
      ChangeEffect(w, op);
      WithStatusIsWellMarked(w.store.rows, op);
  }

  lemma WithStatusIsWellMarked(rows: Rows, op: Op)
    requires IsChange(op)
    ensures forall id | id in rows :: WellMarked(WithStatus(rows[id], Target(op), ReasonOf(op), op.env.write.now))
  {
  }

  lemma CommitAddsPending(w: World, input: CreateInput, env: CreateEnv, id: BookingId)
    ensures var rows, rows' := w.store.rows, Commit(w, input, env).0.store.rows;
            && (id in rows ==> id in rows' && rows'[id] == rows[id])
            && (id !in rows && id in rows' ==> rows'[id].status == Pending && WellMarked(rows'[id]))
  {
  }

  lemma {:induction false} PathsClimb(h: seq<Status>, k: nat)
    requires IsPath(h) && k < |h|
    ensures k <= Rank(h[k])
  {
    if k > 0 {
      PathsClimb(h, k - 1);
      TransitionsClimb(h[k - 1], h[k]);
    }
  }

  lemma PathsAreShort(h: seq<Status>)
    requires IsPath(h)
    ensures |h| <= 4
  {
    if h != [] { PathsClimb(h, |h| - 1); }
  }

  lemma PathGrows(h: seq<Status>, next: Status)
    requires IsPath(h) && if h == [] then next == Pending else CanTransition(h[|h| - 1], next)
    ensures IsPath(h + [next])
  {
    var more := h + [next];
    forall k | 0 <= k < |more| - 1 ensures CanTransition(more[k], more[k + 1]) {
      if k == |h| - 1 { assert more[k] == h[|h| - 1]; }
    }
  }

  ghost predicate Follows(h: seq<Status>, rows: Rows, id: BookingId) {
    && IsPath(h) && (id in rows <==> h != [])
    && (id in rows ==> h[|h| - 1] == rows[id].status && WellMarked(rows[id]))
  }

  lemma StepExtends(h: seq<Status>, w: World, op: Op, id: BookingId)
    requires Consistent(w) && Follows(h, w.store.rows, id)
    ensures Follows(Extended(h, Step(w, op).store.rows, id), Step(w, op).store.rows, id)
  {
    RowsMoveForward(w, op, id);
    MoveExtends(h, w.store.rows, Step(w, op).store.rows, id);
  }

  /** A row that stays, comes as pending or moves along the table keeps its history a path. */
  lemma MoveExtends(h: seq<Status>, rows: Rows, rows': Rows, id: BookingId)
    requires Follows(h, rows, id) && (id in rows ==> id in rows')
    requires id in rows && rows'[id] != rows[id] ==>
               CanTransition(rows[id].status, rows'[id].status) && WellMarked(rows'[id])
    requires id !in rows && id in rows' ==> rows'[id].status == Pending && WellMarked(rows'[id])
    ensures Follows(Extended(h, rows', id), rows', id)
  {
    if id in rows' && (h == [] || h[|h| - 1] != rows'[id].status) { PathGrows(h, rows'[id].status); }
  }

  lemma {:induction false} HistoryFollowsRow(totals: map<int, nat>, ops: seq<Op>, id: BookingId)
    requires forall op | op in ops :: KeepsCache(op)
    ensures Follows(History(totals, ops, id), Run(totals, ops).store.rows, id)
  {
    if ops != [] {
      var before := ops[..|ops| - 1];
      HistoryFollowsRow(totals, before, id);
      RunIsConsistent(totals, before);
      StepExtends(History(totals, before, id), Run(totals, before), ops[|ops| - 1], id);
    }
  }

  /** Every booking walks a path of the transition table from PENDING, so it changes status at most three times,
      never leaves COMPLETED or CANCELLED, and carries its cancellation marks exactly while it is cancelled. */
  lemma HistoryIsPath(totals: map<int, nat>, ops: seq<Op>, id: BookingId)
    requires forall op | op in ops :: KeepsCache(op)
    ensures var h, rows := History(totals, ops, id), Run(totals, ops).store.rows;
            && IsPath(h) && |h| <= 4
            && (id in rows <==> h != [])
            && (id in rows ==> h[|h| - 1] == rows[id].status && WellMarked(rows[id]))
  {
    HistoryFollowsRow(totals, ops, id);
    PathsAreShort(History(totals, ops, id));
  }

  lemma FinalRowStays(w: World, op: Op, id: BookingId)
    requires Consistent(w) && id in w.store.rows && !IsLive(w.store.rows[id].status)
    ensures id in Step(w, op).store.rows && Step(w, op).store.rows[id] == w.store.rows[id]
  {
    RowsMoveForward(w, op, id);
    TransitionsClimb(w.store.rows[id].status, Step(w, op).store.rows[id].status);
  }

  /** The row is there, final, and as it was. */
  predicate Frozen(rows: Rows, rows': Rows, id: BookingId) {
    id in rows && !IsLive(rows[id].status) ==> id in rows' && rows'[id] == rows[id]
  }

  lemma StepFreezes(rows: Rows, w: World, w': World, op: Op, id: BookingId)
    requires Consistent(w) && w' == Step(w, op) && Frozen(rows, w.store.rows, id)
    ensures Frozen(rows, w'.store.rows, id)
  {
    if id in rows && !IsLive(rows[id].status) { FinalRowStays(w, op, id); }
  }

  /** Once final, always final: nothing that happens later in the run changes a completed or cancelled row. */
  lemma {:induction false} FinalRowsAreFrozen(totals: map<int, nat>, ops: seq<Op>, n: nat, id: BookingId)
    requires n <= |ops| && forall op | op in ops :: KeepsCache(op)
    ensures Frozen(Run(totals, ops[..n]).store.rows, Run(totals, ops).store.rows, id)
    decreases |ops|
  {
    if n == |ops| {
      assert ops[..n] == ops;
    } else {
      var before := ops[..|ops| - 1];
      assert before[..n] == ops[..n];
      FinalRowsAreFrozen(totals, before, n, id);
      RunIsConsistent(totals, before);
      StepFreezes(Run(totals, ops[..n]).store.rows, Run(totals, before), Run(totals, ops), ops[|ops| - 1], id);
    }
  }

  // ---------------------------------------------------------------- both cache commands lost

  /** A request that is stored as it was sent. */
  predicate Accepted(raw: CreateInput) {
    Validate(raw) == Ok(raw) && raw.spotId > 0
  }

  /** Two requests for one spot at different times, one after the other. */
  ghost predicate TwoRequests(w: World, first: CreateInput, second: CreateInput, a: BookingId, b: BookingId) {
    && Accepted(first) && Accepted(second)
    && first.spotId == second.spotId && first.parkingId == second.parkingId
    && !Intervals.RangesMeet(first.start, first.end, second.start, second.end)
    && a != b && a != "" && b != "" && a !in w.store.rows && b !in w.store.rows
    && Consistent(w) && first.spotId in AvailableIn(w.parking, first.parkingId) && first.parkingId in w.parking.totals
  }

  /** A creation with every reply as it should be. */
  predicate SmoothCreate(w: World, op: Op, raw: CreateInput, id: BookingId) {
    op.Create? && op.raw == raw && AllAnswer(w, raw, op.create) && op.create.insert.id == id && op.create.insert.setOk
  }

  /** A cancellation that reaches the table and the spot, but whose two cache commands are lost. */
  predicate LossyCancel(op: Op, id: BookingId) {
    op.Cancel? && op.id == id && id != "" && op.env.read.redisUp && op.env.write.dbOk
    && !op.env.write.delOk && !op.env.write.setOk && op.env.spotCall.Answered?
  }

  predicate CachedConfirm(op: Op, id: BookingId) {
    op.Confirm? && op.id == id && id != "" && op.env.read.redisUp && op.env.write.dbOk
  }

  /** When a cancellation loses both cache commands, the stale entry lets the cancelled booking be confirmed,
      and its spot then has two live bookings: the cache condition of the theorems cannot be dropped. */
  lemma StaleCacheRevivesBooking(w: World, w1: World, w2: World, w3: World, w4: World, book: Op, cancel: Op, rebook: Op,
                                 confirm: Op,
                                 first: CreateInput, second: CreateInput, a: BookingId, b: BookingId)
    requires TwoRequests(w, first, second, a, b)
    requires SmoothCreate(w, book, first, a) && LossyCancel(cancel, a)
    requires SmoothCreate(w, rebook, second, b) && CachedConfirm(confirm, a)
    requires w1 == Step(w, book) && w2 == Step(w1, cancel) && w3 == Step(w2, rebook) && w4 == Step(w3, confirm)
    ensures LiveAt(w1, a) && a in w2.store.rows && w2.store.rows[a].status == Cancelled
    ensures LiveAt(w4, a) && LiveAt(w4, b) && w4.store.rows[a].spotId == w4.store.rows[b].spotId
    ensures w4.store.rows[a].status == Confirmed && w4.store.rows[a].cancelReason == ""
  {
    BookedAndLost(w, w1, w2, book, cancel, first, a);
    StaysSmooth(w, w2, rebook, second, b, a);
    BookedAndRevived(w2, w3, w4, rebook, confirm, first, second, a, b);
  }

  lemma StaysSmooth(w: World, w2: World, op: Op, raw: CreateInput, id: BookingId, other: BookingId)
    requires SmoothCreate(w, op, raw, id) && id != other
    requires w2.store.rows.Keys == w.store.rows.Keys + {other} && w2.parking.totals == w.parking.totals
    ensures SmoothCreate(w2, op, raw, id)
  {
    assert id !in w2.store.rows.Keys;
  }

  /** The table says cancelled, the cache still says pending, and the spot can be booked again. */
  ghost predicate StaleAfter(w: World, first: CreateInput, a: BookingId) {
    && Sound(w.store.rows) && NoLiveAtSpot(w, first.spotId) && first.spotId in AvailableIn(w.parking, first.parkingId)
    && a in w.store.rows && a in w.store.cache && w.store.cache[a].status == Pending
    && var row := w.store.rows[a];
       row.status == Cancelled && row.id == a && row.spotId == first.spotId && row.start == first.start
         && row.end == first.end
  }

  lemma BookedAndLost(w: World, w1: World, w2: World, create: Op, cancel: Op, first: CreateInput, a: BookingId)
    requires Accepted(first) && Consistent(w) && a !in w.store.rows
    requires first.spotId in AvailableIn(w.parking, first.parkingId)
    requires SmoothCreate(w, create, first, a) && LossyCancel(cancel, a)
    requires w1 == Step(w, create) && w2 == Step(w1, cancel)
    ensures LiveAt(w1, a) && StaleAfter(w2, first, a)
    ensures w2.store.rows.Keys == w.store.rows.Keys + {a} && w2.parking.totals == w.parking.totals
  {
    ReservedSpotHasNoConflict(w, first);
    CreateStores(w, create, first, a);
    ValidateIsStable(first);
    LostAfter(w, w1, w2, NewBooking(first, a, create.create.insert.now), cancel, first);
  }

  lemma LostAfter(w: World, w1: World, w2: World, row: Booking, cancel: Op, first: CreateInput)
    requires Consistent(w) && NoLiveAtSpot(w, first.spotId) && first.spotId in AvailableIn(w.parking, first.parkingId)
    requires row.id !in w.store.rows && row.status == Pending && row.spotId == first.spotId > 0
    requires row.start == first.start && row.end == first.end && first.start < first.end
    requires w1 == World(Store(w.store.rows[row.id := row], w.store.cache[row.id := row]),
                         WithSpotStatus(w.parking, first.spotId, Reserved))
    requires LossyCancel(cancel, row.id) && w2 == Step(w1, cancel)
    ensures StaleAfter(w2, first, row.id)
    ensures w2.store.rows.Keys == w.store.rows.Keys + {row.id} && w2.parking.totals == w.parking.totals
  {
    LostCancel(w1, cancel);
    BackToIdle(w, w1, w2, cancel, first, row.id);
  }

  lemma BookedAndRevived(w2: World, w3: World, w4: World, create: Op, confirm: Op,
                         first: CreateInput, second: CreateInput, a: BookingId, b: BookingId)
    requires StaleAfter(w2, first, a) && a != b && Accepted(first) && Accepted(second)
    requires first.spotId == second.spotId && first.parkingId == second.parkingId
    requires !Intervals.RangesMeet(first.start, first.end, second.start, second.end)
    requires SmoothCreate(w2, create, second, b) && CachedConfirm(confirm, a)
    requires w3 == Step(w2, create) && w4 == Step(w3, confirm)
    ensures LiveAt(w4, a) && LiveAt(w4, b) && w4.store.rows[a].spotId == w4.store.rows[b].spotId
    ensures w4.store.rows[a].status == Confirmed && w4.store.rows[a].cancelReason == ""
  {
    ValidateIsStable(first);
    CreateStores(w2, create, second, b);
    RevivalAdmitted(w2, w3, first, second, a, b, confirm.env.write.now);
    StaleConfirm(w3, confirm);
  }

  lemma LostCancel(w: World, op: Op)
    requires op.Cancel? && LossyCancel(op, op.id)
    requires op.id in w.store.rows && w.store.rows[op.id].status == Pending
    requires w.store.rows[op.id].start < w.store.rows[op.id].end
    requires op.id in w.store.cache && w.store.cache[op.id] == w.store.rows[op.id] && w.store.rows[op.id].spotId > 0
    ensures Step(w, op) ==
              World(w.store.(rows := w.store.rows[op.id := Revoked(w.store.rows[op.id], op)]),
                    CallRelease(w.parking, w.store.rows[op.id].spotId, Answered))
  {
    assert Admits(w.store.rows, Revoked(w.store.rows[op.id], op));
  }

  function Revoked(b: Booking, op: Op): Booking
    requires op.Cancel?
  {
    WithStatus(b, Cancelled, CancelReason(op.reason), op.env.write.now)
  }

  lemma BackToIdle(w: World, w1: World, w2: World, op: Op, first: CreateInput, a: BookingId)
    requires Consistent(w) && NoLiveAtSpot(w, first.spotId) && a !in w.store.rows && first.start < first.end
    requires first.spotId in AvailableIn(w.parking, first.parkingId) && op.Cancel?
    requires a in w1.store.rows && w1.store.rows[a].id == a && w1.store.rows[a].start < w1.store.rows[a].end
    requires w1.store.rows == w.store.rows[a := w1.store.rows[a]]
    requires w1.parking == WithSpotStatus(w.parking, first.spotId, Reserved)
    requires w2.store.rows == w1.store.rows[a := Revoked(w1.store.rows[a], op)]
    requires w2.parking == CallRelease(w1.parking, first.spotId, Answered)
    ensures Sound(w2.store.rows) && NoLiveAtSpot(w2, first.spotId)
    ensures first.spotId in AvailableIn(w2.parking, first.parkingId) && w2.parking.totals == w.parking.totals
  {
    forall id | LiveAt(w2, id) ensures w2.store.rows[id].spotId != first.spotId { assert LiveAt(w, id); }
  }

  lemma RevivalAdmitted(w2: World, w3: World, first: CreateInput, second: CreateInput, a: BookingId, b: BookingId,
                        now: Time)
    requires a != b && b !in w2.store.rows && first.spotId == second.spotId && first.start < first.end
    requires !Intervals.RangesMeet(first.start, first.end, second.start, second.end)
    requires a in w2.store.rows && w2.store.rows[a].id == a && w2.store.rows[a].spotId == first.spotId
    requires w2.store.rows[a].start == first.start && w2.store.rows[a].end == first.end
    requires b in w3.store.rows && w3.store.rows[b].start == second.start && w3.store.rows[b].end == second.end
    requires NoLiveAtSpot(w2, first.spotId) && w3.store.rows == w2.store.rows[b := w3.store.rows[b]]
    ensures Admits(w3.store.rows, WithStatus(w3.store.rows[a], Confirmed, "", now))
  {
    var revived := WithStatus(w3.store.rows[a], Confirmed, "", now);
    forall id | id in w3.store.rows && id != a
      ensures !Collide(revived, w3.store.rows[id])
    {
      if id != b && IsLive(w3.store.rows[id].status) { assert LiveAt(w2, id); }
    }
  }

  lemma StaleConfirm(w: World, op: Op)
    requires op.Confirm? && CachedConfirm(op, op.id)
    requires op.id in w.store.rows && op.id in w.store.cache && w.store.cache[op.id].status == Pending
    requires Admits(w.store.rows, WithStatus(w.store.rows[op.id], Confirmed, "", op.env.write.now))
    ensures Step(w, op).store.rows
            == w.store.rows[op.id := WithStatus(w.store.rows[op.id], Confirmed, "", op.env.write.now)]
  {
  }

  lemma CreateStores(w: World, op: Op, raw: CreateInput, id: BookingId)
    requires Accepted(raw) && SmoothCreate(w, op, raw, id)
    requires raw.spotId in AvailableIn(w.parking, raw.parkingId)
    requires Sound(w.store.rows) && NoLiveAtSpot(w, raw.spotId)
    ensures var b := NewBooking(raw, id, op.create.insert.now);
            Step(w, op) == World(Store(w.store.rows[id := b], w.store.cache[id := b]),
                                 WithSpotStatus(w.parking, raw.spotId, Reserved))
  {
    NamedPrepare(w.parking, raw, op.create);
    ValidateIsStable(raw);
    IdleSpotTakesBooking(w, raw, op.create);
  }
}
