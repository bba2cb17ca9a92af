/** What the booking operations store and answer, said field by field and case by case. */
module BookingAnswers {
  import opened Basics
  import opened GoText
  import opened WordsOfText
  import opened BookingDomain
  import opened BookingStore
  import opened ParkingSpots
  import opened BookingFlow
  import opened BookingRuns
  import opened BookingRaces
  import Micro = BookingInterleaving

  // ---------------------------------------------------------------- creating

  /** What `Validate` asks of a request. */
  predicate Acceptable(raw: CreateInput) {
    && !AllSpace(raw.userId) && raw.parkingId > 0 && !AllSpace(raw.plate) && raw.spotId >= 0
    && raw.start != 0 && raw.end != 0 && raw.start < raw.end
  }

  lemma NothingLeftExactly(s: string)
    ensures TrimSpace(s) == "" <==> AllSpace(s)
  {
    var pre, post := TrimSplits(s);
    var t := TrimSpace(s);
    TrimSpaceExactly(s);
    if t == "" {
      assert s == pre + post;
    } else {
      assert s[|pre|] == t[0];
    }
  }

  lemma ValidateIs(raw: CreateInput, input: CreateInput)
    requires input == raw.(userId := TrimSpace(raw.userId), plate := NormalizeVehiclePlate(raw.plate))
    ensures Validate(raw) ==
      if |input.userId| > 0 && |input.plate| > 0 && raw.parkingId > 0 && raw.spotId >= 0
         && raw.start != 0 && raw.end != 0 && raw.start < raw.end
      then Ok(input) else Err(InvalidInput)
  {
  }

  lemma CleanUser(s: string, user: string)
    requires user == TrimSpace(s)
    ensures IsTrimmed(s, user) && (|user| > 0 <==> !AllSpace(s))
  {
    NothingLeftExactly(s);
    TrimSpaceExactly(s);
  }

  lemma CleanPlate(s: string, plate: string)
    requires plate == NormalizeVehiclePlate(s)
    ensures IsPlateOf(s, plate) && (|plate| > 0 <==> !AllSpace(s))
  {
    NoWordExactly(s);
    NormalizedText(s);
  }

  /** `input` is the request with its user and its plate cleaned. */
  ghost predicate Cleans(raw: CreateInput, input: CreateInput) {
    && IsTrimmed(raw.userId, input.userId) && IsPlateOf(raw.plate, input.plate)
    && input.parkingId == raw.parkingId && input.spotId == raw.spotId
    && input.start == raw.start && input.end == raw.end
  }

  ghost predicate Validated(raw: CreateInput, r: Outcome<CreateInput>) {
    if Acceptable(raw) then r.Ok? && Cleans(raw, r.value) else r == Err(InvalidInput)
  }

  lemma OutcomeExactly(raw: CreateInput, input: CreateInput, r: Outcome<CreateInput>)
    requires Cleans(raw, input)
    requires (|input.userId| > 0 <==> !AllSpace(raw.userId)) && (|input.plate| > 0 <==> !AllSpace(raw.plate))
    requires r == if |input.userId| > 0 && |input.plate| > 0 && raw.parkingId > 0 && raw.spotId >= 0
                     && raw.start != 0 && raw.end != 0 && raw.start < raw.end
                  then Ok(input) else Err(InvalidInput)
    ensures Validated(raw, r)
  {
  }

  lemma InputIsClean(raw: CreateInput, input: CreateInput)
    requires input == raw.(userId := TrimSpace(raw.userId), plate := NormalizeVehiclePlate(raw.plate))
    ensures Cleans(raw, input)
    ensures (|input.userId| > 0 <==> !AllSpace(raw.userId)) && (|input.plate| > 0 <==> !AllSpace(raw.plate))
  {
    CleanUser(raw.userId, input.userId);
    CleanPlate(raw.plate, input.plate);
  }

  /** A request is accepted exactly when it is `Acceptable`, and then cleaned. */
  lemma ValidateExactly(raw: CreateInput)
    ensures Validated(raw, Validate(raw))
  {
    var input := raw.(userId := TrimSpace(raw.userId), plate := NormalizeVehiclePlate(raw.plate));
    InputIsClean(raw, input);
    ValidateIs(raw, input);
    OutcomeExactly(raw, input, Validate(raw));
  }

  /** The user and the lot are known to the services that are asked. */
  predicate Known(p: Parking, input: CreateInput, env: CreateEnv) {
    env.user.Found? && env.lot.Found? && input.parkingId in p.totals
  }

  /** A named spot is one of the lot; without a name, the lot has an AVAILABLE one. */
  ghost predicate HasSpot(p: Parking, input: CreateInput, env: CreateEnv) {
    if input.spotId > 0
    then env.spot.Found? && input.spotId in p.spots && p.spots[input.spotId].lot == input.parkingId
    else env.listOk && AvailableIn(p, input.parkingId) != {}
  }

  lemma PickAnswers(p: Parking, lot: int, env: CreateEnv)
    requires ValidIds(p)
    ensures var r := PickSpot(p, lot, env);
            && (r == Err(DependencyFailed) <==> !env.listOk)
            && (r == Err(NoAvailableSpots) <==> env.listOk && AvailableIn(p, lot) == {})
            && (r.Ok? <==> env.listOk && AvailableIn(p, lot) != {})
            && (r.Ok? ==> r.value in AvailableIn(p, lot) && r.value > 0)
  {
    var candidates := Candidates(p, lot);
    assert forall s :: s in candidates <==> s in AvailableIn(p, lot);
    if candidates == [] {
      assert AvailableIn(p, lot) == {};
    } else {
      assert candidates[0] in AvailableIn(p, lot);
      if env.listOk { PickedIsListed(p, lot, env); }
    }
  }

  lemma PickedIsListed(p: Parking, lot: int, env: CreateEnv)
    requires ValidIds(p) && env.listOk && Candidates(p, lot) != []
    ensures PickSpot(p, lot, env).Ok? && PickSpot(p, lot, env).value in AvailableIn(p, lot)
  {
    var candidates := Candidates(p, lot);
    assert candidates[env.pick % |candidates|] in candidates;
  }

  /** The lookups: which error is answered when, and what goes on to the reservation. */
  lemma LookupAnswers(p: Parking, input: CreateInput, env: CreateEnv)
    requires ValidIds(p) && input.spotId >= 0
    ensures var r, known := Lookups(p, input, env), Known(p, input, env);
            && (r == Err(UserNotFound) <==> env.user.CodeNotFound?)
            && (r == Err(ParkingLotNotFound) <==>
                  env.user.Found? && (env.lot.CodeNotFound? || (env.lot.Found? && input.parkingId !in p.totals)))
            && (r == Err(ParkingSpotNotFound) <==>
                  known && input.spotId > 0
                  && (env.spot.CodeNotFound? || (env.spot.Found? && input.spotId !in p.spots)))
            && (r == Err(NoAvailableSpots) <==>
                  known && input.spotId == 0 && env.listOk && AvailableIn(p, input.parkingId) == {})
            && (r == Err(DependencyFailed) <==> known && input.spotId == 0 && !env.listOk)
            && (r.Ok? <==> known && HasSpot(p, input, env))
            && r != Err(BookingConflict) && r != Err(BookingNotFound) && r != Err(InvalidStatusTransition)
  {
    PickAnswers(p, input.parkingId, env);
  }

  lemma LookupsKeep(p: Parking, input: CreateInput, env: CreateEnv)
    requires ValidIds(p) && input.spotId >= 0 && Lookups(p, input, env).Ok?
    ensures var found := Lookups(p, input, env).value;
            && found.userId == input.userId && found.parkingId == input.parkingId && found.plate == input.plate
            && found.start == input.start && found.end == input.end
            && found.spotId in p.spots && p.spots[found.spotId].lot == input.parkingId
            && (if input.spotId > 0 then found.spotId == input.spotId
                else found.spotId in AvailableIn(p, input.parkingId))
  {
    PickAnswers(p, input.parkingId, env);
  }

  /** The row that a creation stores, its cache entry and its spot. */
  lemma CommitStores(w: World, input: CreateInput, env: CreateEnv)
    requires Commit(w, input, env).1.Ok?
    ensures var (w', r) := Commit(w, input, env);
            var b := r.value;
            && b.id == env.insert.id && b.userId == input.userId && b.parkingId == input.parkingId
            && b.spotId == input.spotId && b.plate == input.plate && b.start == input.start && b.end == input.end
            && b.status == Pending && b.cancelReason == "" && b.cancelledAt == None
            && b.createdAt == env.insert.now && b.updatedAt == env.insert.now
            && b.id !in w.store.rows && w'.store.rows == w.store.rows[b.id := b]
            && w'.store.cache == (if env.insert.setOk then w.store.cache[b.id := b] else w.store.cache)
            && SpotTaken(w.parking, w'.parking, input.spotId)
  {
  }

  /** An AVAILABLE spot has become RESERVED, and nothing else has changed. */
  predicate SpotTaken(p: Parking, p': Parking, spot: int) {
    && spot in p.spots && p.spots[spot].status == Available
    && p' == p.(spots := p.spots[spot := p.spots[spot].(status := Reserved)])
  }

  /** A creation that succeeds stores what was asked for, and answers the stored row: the user without surrounding white
      space, the plate's words in upper case, the lot and the times as they came, the named spot or an AVAILABLE one. */
  lemma CreationStoresRequest(w: World, raw: CreateInput, env: CreateEnv)
    requires ValidIds(w.parking) && CreateBooking(w, raw, env).1.Ok?
    ensures var (w', r) := CreateBooking(w, raw, env);
            var b := r.value;
            && IsTrimmed(raw.userId, b.userId) && IsPlateOf(raw.plate, b.plate)
            && b.parkingId == raw.parkingId && b.start == raw.start && b.end == raw.end
            && b.spotId in AvailableIn(w.parking, raw.parkingId) && (raw.spotId > 0 ==> b.spotId == raw.spotId)
            && b.status == Pending && b.cancelReason == "" && b.cancelledAt == None
            && b.id == env.insert.id && b.createdAt == env.insert.now && b.updatedAt == env.insert.now
            && b.id !in w.store.rows && w'.store.rows == w.store.rows[b.id := b]
            && w'.store.cache == (if env.insert.setOk then w.store.cache[b.id := b] else w.store.cache)
            && SpotTaken(w.parking, w'.parking, b.spotId)
  {
    ValidateExactly(raw);
    var input := Validate(raw).value;
    LookupsKeep(w.parking, input, env);
    CommitStores(w, Lookups(w.parking, input, env).value, env);
  }

  /** The statements behind the lookups, when there is no conflict to meet. */
  lemma CommitAnswers(w: World, input: CreateInput, env: CreateEnv)
    requires Consistent(w) && input.spotId in w.parking.spots && input.start < input.end
    ensures var r := Commit(w, input, env).1;
            var reserved := w.parking.spots[input.spotId].status == Available && env.reserve.Answered?;
            var inserted := env.insert.checkOk && env.insert.dbOk && env.insert.id !in w.store.rows;
            && (r.Ok? <==> reserved && inserted)
            && (r == Err(DependencyFailed) <==> reserved && !inserted)
            && (r == Err(InvalidInput) <==> !reserved)
  {
    RefusedReservationExactly(w, input, env);
    if w.parking.spots[input.spotId].status == Available {
      ReservedSpotHasNoConflict(w, input);
      assert forall id | id in w.store.rows && IsLive(w.store.rows[id].status) :: LiveAt(w, id);
      if env.insert.id !in w.store.rows {
        ConflictQueryForeseesConstraint(w.store.rows, input, env.insert.id, env.insert.now);
      }
    }
  }

  /** The answer of CreateBooking on serial runs, case by case; in every other case it is ErrInvalidInput. */
  lemma CreationAnswersExactly(totals: map<int, nat>, ops: seq<Op>, raw: CreateInput, env: CreateEnv)
    requires forall op | op in ops :: KeepsCache(op)
    ensures var w := Run(totals, ops);
            var p, r := w.parking, CreateBooking(w, raw, env).1;
            var known := Acceptable(raw) && Known(p, raw, env);
            var inserted := env.insert.checkOk && env.insert.dbOk && env.insert.id !in w.store.rows;
            var free := && known && HasSpot(p, raw, env) && env.reserve.Answered?
                        && (raw.spotId > 0 ==> raw.spotId in AvailableIn(p, raw.parkingId));
            && (r.Ok? <==> free && inserted)
            && (r == Err(UserNotFound) <==> Acceptable(raw) && env.user.CodeNotFound?)
            && (r == Err(ParkingLotNotFound) <==>
                  Acceptable(raw) && env.user.Found?
                  && (env.lot.CodeNotFound? || (env.lot.Found? && raw.parkingId !in p.totals)))
            && (r == Err(ParkingSpotNotFound) <==>
                  known && raw.spotId > 0 && (env.spot.CodeNotFound? || (env.spot.Found? && raw.spotId !in p.spots)))
            && (r == Err(NoAvailableSpots) <==>
                  known && raw.spotId == 0 && env.listOk && AvailableIn(p, raw.parkingId) == {})
            && (r == Err(DependencyFailed) <==>
                  (known && raw.spotId == 0 && !env.listOk) || (free && !inserted))
            && r != Err(BookingConflict) && r != Err(BookingNotFound) && r != Err(InvalidStatusTransition)
  {
    RunIsConsistent(totals, ops);
    var w := Run(totals, ops);
    ValidateExactly(raw);
    if Acceptable(raw) {
      var input := Validate(raw).value;
      LookupAnswers(w.parking, input, env);
      if Lookups(w.parking, input, env).Ok? {
        LookupsKeep(w.parking, input, env);
        CommitAnswers(w, Lookups(w.parking, input, env).value, env);
      }
    }
  }

  /** What the texts of the parking client would stand for, if it told them: a spot that does not exist, a conflict with
      another booking, or else an invalid request. */
  lemma ParkingTextsExactly(text: Wording)
    ensures NormalizeParkingError(text) == ParkingSpotNotFound <==> text == SaysNotFound
    ensures NormalizeParkingError(text) == BookingConflict <==> text == SaysUnavailable
    ensures NormalizeParkingError(text) == InvalidInput <==> text == SaysInvalid || text == SaysOther
  {
  }

  /** What happens by itself: a cached booking expires, or a spot is added; nothing else changes. */
  lemma EnvironmentExactly(w: World, id: BookingId, lot: int, number: string)
    ensures var w' := Step(w, CacheExpires(id));
            w'.store.rows == w.store.rows && w'.parking == w.parking && w'.store.cache == w.store.cache - {id}
    ensures var w' := Step(w, AddSpot(lot, number));
            && w'.store == w.store && w'.parking.totals == w.parking.totals
            && w'.parking.spots == w.parking.spots[w.parking.nextId := Spot(lot, number, Available)]
  {
  }

  // ---------------------------------------------------------------- changing the status

  /** The row after a confirmation, cancellation, start or completion: the new status with its marks, and the rest as it
      was. */
  ghost predicate ChangedBy(b: Booking, n: Booking, op: Op)
    requires IsChange(op)
  {
    && n.id == b.id && n.userId == b.userId && n.parkingId == b.parkingId && n.spotId == b.spotId
    && n.plate == b.plate && n.start == b.start && n.end == b.end && n.createdAt == b.createdAt
    && n.updatedAt == op.env.write.now
    && n.status == (if op.Confirm? then Confirmed else if op.Cancel? then Cancelled
                    else if op.Start? then Active else Completed)
    && n.cancelledAt == (if op.Cancel? then Some(op.env.write.now) else None)
    && (!op.Cancel? ==> n.cancelReason == "")
    && (op.Cancel? ==> IsReason(op.reason, n.cancelReason))
  }

  /** The given reason without surrounding white space, or "cancelled" when that leaves nothing. */
  ghost predicate IsReason(given: string, stored: string) {
    if AllSpace(given) then stored == "cancelled" else IsTrimmed(given, stored)
  }

  lemma WithStatusChanges(b: Booking, op: Op)
    requires IsChange(op)
    ensures ChangedBy(b, WithStatus(b, Target(op), ReasonOf(op), op.env.write.now), op)
  {
    if op.Cancel? {
      NothingLeftExactly(op.reason);
      TrimSpaceExactly(op.reason);
    }
  }

  /** The table lets the status change now, and a start is not too early. */
  predicate Allowed(b: Booking, op: Op)
    requires IsChange(op)
  {
    match op
    case Confirm(_, _) => b.status == Pending
    case Cancel(_, _, _) => b.status == Pending || b.status == Confirmed
    case Start(_, env) => b.status == Confirmed && b.start <= env.clock
    case Complete(_, _) => b.status == Active
  }

  predicate ReadAnswers(s: Store, id: BookingId, env: ReadEnv) {
    (env.redisUp && id in s.cache) || env.dbOk
  }

  /** The booking is read, the change is allowed, and the update reaches the database. */
  predicate TakesEffect(w: World, op: Op)
    requires IsChange(op)
  {
    && op.id != "" && op.id in w.store.rows && ReadAnswers(w.store, op.id, op.env.read)
    && Allowed(w.store.rows[op.id], op) && op.env.write.dbOk
  }

  lemma TakesEffectExactly(w: World, op: Op)
    requires Consistent(w) && IsChange(op)
    ensures Happens(w, op) <==> TakesEffect(w, op)
  {
    ReadKeepsConsistent(w, op.id, op.env.read);
    if op.id in w.store.rows && Permitted(w, op) {
      StatusIsAdmitted(w.store.rows, op.id, Target(op), ReasonOf(op), op.env.write.now);
    }
  }

  lemma StatusIsAdmitted(rows: Rows, id: BookingId, next: Status, reason: string, now: Time)
    requires Sound(rows) && id in rows && IsLive(rows[id].status)
    ensures UpdateRow(rows, id, next, reason, now).Ok?
  {
    assert forall other | other in rows && other != id :: !Collide(rows[id], rows[other]);
  }

  /** On a right cache a status operation changes its own row as `ChangedBy` says, exactly when it takes effect, and no
      other row. */
  lemma StatusChangeKeepsRest(w: World, op: Op, id: BookingId)
    requires Consistent(w) && IsChange(op) && id in w.store.rows
    ensures id in Step(w, op).store.rows
    ensures var b, n := w.store.rows[id], Step(w, op).store.rows[id];
            if id == op.id && TakesEffect(w, op) then ChangedBy(b, n, op) else n == b
  {
    ChangeEffect(w, op);
    TakesEffectExactly(w, op);
    WithStatusChanges(w.store.rows[id], op);
  }

  lemma ReadAnswersExactly(w: World, id: BookingId, env: ReadEnv)
    requires Consistent(w)
    ensures var r := GetSpec(w.store, id, env).1;
            && (r == Err(InvalidInput) <==> id == "")
            && (r == Err(BookingNotFound) <==> id != "" && id !in w.store.rows && env.dbOk)
            && (r == Err(DependencyFailed) <==> id != "" && !ReadAnswers(w.store, id, env))
            && (r.Ok? <==> id != "" && id in w.store.rows && ReadAnswers(w.store, id, env))
            && (r.Ok? ==> r.value == w.store.rows[id])
  {
    ReadKeepsConsistent(w, id, env);
    if id in w.store.cache { assert id in w.store.rows; }
  }

  /** A read writes nothing but a missing cache entry, which becomes the row when that command gets through. */
  lemma ReadFillsExactly(s: Store, id: BookingId, env: ReadEnv)
    requires Coherent(s) && Sound(s.rows)
    ensures var s' := GetSpec(s, id, env).0;
            var misses := id != "" && !(env.redisUp && id in s.cache) && env.dbOk && id in s.rows;
            s'.rows == s.rows && s'.cache == if misses && env.setOk then s.cache[id := s.rows[id]] else s.cache
  {
  }

  /** What a status operation answers when its read and its update go as they go. */
  lemma ChangeResult(w: World, op: Op)
    requires Consistent(w) && IsChange(op)
    ensures var read, r := GetSpec(w.store, op.id, op.env.read).1, Micro.ResultOf(w, op);
            && (read.Err? ==> r == Err(read.error))
            && (read.Ok? && !Allowed(read.value, op) ==> r == Err(InvalidStatusTransition))
            && (read.Ok? && Allowed(read.value, op) && !op.env.write.dbOk ==> r == Err(DependencyFailed))
            && (TakesEffect(w, op) ==>
                  op.id in Step(w, op).store.rows
                  && r == if (op.Confirm? || op.Cancel?) && !op.env.publishOk then Err(DependencyFailed)
                          else Ok(Step(w, op).store.rows[op.id]))
  {
    Micro.SerialIsReadThenRest(w, op);
    ReadKeepsConsistent(w, op.id, op.env.read);
    if TakesEffect(w, op) {
      var seen, b := w.(store := GetSpec(w.store, op.id, op.env.read).0), w.store.rows[op.id];
      StatusIsAdmitted(w.store.rows, op.id, Target(op), ReasonOf(op), op.env.write.now);
      RestAnswers(seen, op, b);
    }
  }

  /** The update after a read of the row as it is stored. */
  lemma RestAnswers(w: World, op: Op, b: Booking)
    requires IsChange(op) && op.id in w.store.rows && b == w.store.rows[op.id] && Allowed(b, op) && op.env.write.dbOk
    requires UpdateRow(w.store.rows, op.id, Target(op), ReasonOf(op), op.env.write.now).Ok?
    ensures var (w', r) := Micro.AfterRead(w, op, b);
            && op.id in w'.store.rows
            && r == if (op.Confirm? || op.Cancel?) && !op.env.publishOk then Err(DependencyFailed)
                    else Ok(w'.store.rows[op.id])
  {
  }

  /** The answer of a status operation, case by case. An error does not mean that nothing happened: a confirmation and a
      cancellation answer one after taking effect exactly when publishing fails. */
  lemma ChangeAnswersExactly(totals: map<int, nat>, ops: seq<Op>, op: Op)
    requires (forall o | o in ops :: KeepsCache(o)) && IsChange(op)
    ensures var w := Run(totals, ops);
            var rows, r := w.store.rows, Micro.ResultOf(w, op);
            var readable := op.id != "" && ReadAnswers(w.store, op.id, op.env.read);
            var told := op.Confirm? || op.Cancel? ==> op.env.publishOk;
            && (r == Err(InvalidInput) <==> op.id == "")
            && (r == Err(BookingNotFound) <==> readable && op.id !in rows)
            && (r == Err(InvalidStatusTransition) <==> readable && op.id in rows && !Allowed(rows[op.id], op))
            && (r.Ok? <==> TakesEffect(w, op) && told)
            && (r.Ok? ==> op.id in Step(w, op).store.rows && r.value == Step(w, op).store.rows[op.id])
            && (r.Err? && TakesEffect(w, op) <==> TakesEffect(w, op) && !told)
            && (r.Err? ==> r.error in {InvalidInput, BookingNotFound, InvalidStatusTransition, DependencyFailed})
  {
    RunIsConsistent(totals, ops);
    var w := Run(totals, ops);
    ReadAnswersExactly(w, op.id, op.env.read);
    ChangeResult(w, op);
  }

  /** In every schedule one statement leaves a row as it is, or is the update of a status operation on it and changes it
      as `ChangedBy` says. */
  lemma EveryUpdateKeepsRest(s: Micro.State, ev: Micro.Event, id: BookingId)
    requires id in s.world.store.rows
    ensures id in Micro.Step(s, ev).world.store.rows
    ensures var b, n := s.world.store.rows[id], Micro.Step(s, ev).world.store.rows[id];
            || n == b
            || (&& ev.Advance? && ev.call in s.calls && s.calls[ev.call].UpdateBooking?
                && var op := s.calls[ev.call].op;
                   IsChange(op) && op.id == id && op.env.write.dbOk && ChangedBy(b, n, op))
  {
    match ev
    case Begin(call, op) => Micro.BeginOnTable(s, call, op);
    case Environment(_) =>
    case Advance(call) =>
      if call in s.calls {
        Micro.AdvanceHasEffect(s, call);
        EffectOnRow(s.world.store.rows, s.calls[call], id);
        if s.calls[call].UpdateBooking? && IsChange(s.calls[call].op) {
          WithStatusChanges(s.world.store.rows[id], s.calls[call].op);
        }
      }
  }

  /** In every schedule a row comes from the insert of a creation, with the input that this call carries. */
  lemma EveryInsertStoresInput(s: Micro.State, ev: Micro.Event, id: BookingId)
    requires id !in s.world.store.rows && id in Micro.Step(s, ev).world.store.rows
    ensures var b := Micro.Step(s, ev).world.store.rows[id];
            && ev.Advance? && ev.call in s.calls && s.calls[ev.call].InsertBooking?
            && var input, env := s.calls[ev.call].input, s.calls[ev.call].create.insert;
               && b.id == id == env.id && b.userId == input.userId && b.parkingId == input.parkingId
               && b.spotId == input.spotId && b.plate == input.plate && b.start == input.start && b.end == input.end
               && b.status == Pending && b.cancelReason == "" && b.cancelledAt == None
               && b.createdAt == env.now && b.updatedAt == env.now
  {
    match ev
    case Begin(call, op) => Micro.BeginOnTable(s, call, op);
    case Environment(_) =>
    case Advance(call) => if call in s.calls { Micro.AdvanceHasEffect(s, call); }
  }

  /** And this input is the request, prepared, of the call that began. */
  lemma BeginCarriesRequest(s: Micro.State, call: Micro.CallId, op: Op)
    requires call !in s.calls && op.Create? && ValidIds(s.world.parking)
    requires call in Micro.Step(s, Micro.Begin(call, op)).calls
    ensures var pc := Micro.Step(s, Micro.Begin(call, op)).calls[call];
            && pc.SelectSpot? && pc.create == op.create
            && IsTrimmed(op.raw.userId, pc.input.userId) && IsPlateOf(op.raw.plate, pc.input.plate)
            && pc.input.parkingId == op.raw.parkingId && pc.input.start == op.raw.start && pc.input.end == op.raw.end
            && (op.raw.spotId > 0 ==> pc.input.spotId == op.raw.spotId)
  {
    ValidateExactly(op.raw);
    if Validate(op.raw).Ok? && Lookups(s.world.parking, Validate(op.raw).value, op.create).Ok? {
      LookupsKeep(s.world.parking, Validate(op.raw).value, op.create);
    }
  }
}
