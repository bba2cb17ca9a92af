/** Runs from an empty table and one parking spot that show the exceptions to the theorems really happen. */
module BookingScenarios {
  import opened Basics
  import opened GoText
  import opened BookingDomain
  import opened BookingStore
  import opened ParkingSpots
  import opened BookingFlow
  import opened BookingRuns
  import opened BookingMatching
  import opened BookingHistory
  import opened BookingRaces
  import opened BookingAnswers
  import Micro = BookingInterleaving

  const TOTALS: map<int, nat> := map[1 := 1]

  /** A request for spot 1 of lot 1, with a one-letter user and plate. */
  function Request(c: char, start: Time, end: Time): CreateInput {
    CreateInput([c], 1, 1, [c], start, end)
  }

  predicate IsLetter(c: char) {
    !IsSpace(c) && UpperChar(c) == c
  }

  /** Every reply as it should be. */
  function SmoothEnv(id: BookingId): CreateEnv {
    CreateEnv(Found, Found, Found, true, 0, Answered, InsertEnv(id, true, true, true, 1), Answered)
  }

  function Replies(cacheUp: bool): ChangeEnv {
    ChangeEnv(ReadEnv(true, true, true), WriteEnv(true, cacheUp, cacheUp, 2), Answered, true, 0)
  }

  lemma OneLetter(c: char)
    requires IsLetter(c)
    ensures TrimSpace([c]) == [c] && NormalizeVehiclePlate([c]) == [c]
  {
    assert TrimLeft([c]) == [c] && TrimRight([c]) == [c];
    assert IsWord([c]);
    FieldsOfJoin([[c]]);
    assert JoinWithSpace([[c]]) == [c];
    assert ToUpper([c]) == [c];
  }

  lemma StoredAsSent(i: CreateInput)
    requires i.userId != "" && TrimSpace(i.userId) == i.userId && i.plate != ""
    requires NormalizeVehiclePlate(i.plate) == i.plate
    requires i.parkingId > 0 && i.spotId > 0 && 0 < i.start < i.end
    ensures Accepted(i)
  {
  }

  lemma RequestIsAccepted(c: char, start: Time, end: Time)
    requires IsLetter(c) && 0 < start < end
    ensures Accepted(Request(c, start, end))
  {
    OneLetter(c);
    StoredAsSent(Request(c, start, end));
  }

  lemma OneSpotWorld()
    ensures var w := Run(TOTALS, [AddSpot(1, "A")]);
            w == World(Store(map[], map[]), Parking(map[1 := Spot(1, "A", Available)], TOTALS, 2)) && Consistent(w)
  {
    assert [AddSpot(1, "A")][..0] == [];
    assert Run(TOTALS, []) == World(Store(map[], map[]), Parking(map[], TOTALS, 1));
  }

  // ---------------------------------------------------------------- a stale cache, serially

  /** Book, cancel with both cache commands lost, book again at another time, confirm the first booking. */
  function LossyRun(c: char, a: BookingId, b: BookingId): seq<Op> {
    [AddSpot(1, "A")] + [Create(Request(c, 10, 20), SmoothEnv(a))] + [Cancel(a, "", Replies(false))]
      + [Create(Request(c, 30, 40), SmoothEnv(b))] + [Confirm(a, Replies(true))]
  }

  /** Every operation but one gets a cache command through. */
  predicate OneLossAt(ops: seq<Op>, k: nat) {
    k < |ops| && forall i | 0 <= i < |ops| && i != k :: KeepsCache(ops[i])
  }

  lemma OnlyTheCancellation(c: char, a: BookingId, b: BookingId)
    ensures OneLossAt(LossyRun(c, a, b), 2)
  {
    var ops := LossyRun(c, a, b);
    assert !IsChange(ops[0]) && !IsChange(ops[1]) && !IsChange(ops[3]) && ops[4] == Confirm(a, Replies(true));
  }

  lemma LossyRunEnds(c: char, a: BookingId, b: BookingId)
    requires IsLetter(c) && a != "" && b != "" && a != b
    ensures Share(Run(TOTALS, LossyRun(c, a, b)), a, b)
  {
    var o0, o1 := Create(Request(c, 10, 20), SmoothEnv(a)), Cancel(a, "", Replies(false));
    var o2, o3 := Create(Request(c, 30, 40), SmoothEnv(b)), Confirm(a, Replies(true));
    RequestIsAccepted(c, 10, 20);
    RequestIsAccepted(c, 30, 40);
    OneSpotWorld();
    var w := Run(TOTALS, [AddSpot(1, "A")]);
    assert TwoRequests(w, Request(c, 10, 20), Request(c, 30, 40), a, b);
    var w1, w2, w3, w4 := FourOps([AddSpot(1, "A")], o0, o1, o2, o3);
    StaleCacheRevivesBooking(w, w1, w2, w3, w4, o0, o1, o2, o3, Request(c, 10, 20), Request(c, 30, 40), a, b);
  }

  /** One lost pair of cache commands in a serial run, and a spot has two live bookings. */
  lemma StaleCacheInARun(c: char, a: BookingId, b: BookingId)
    requires IsLetter(c) && a != "" && b != "" && a != b
    ensures exists ops, k: nat :: OneLossAt(ops, k) && Share(Run(TOTALS, ops), a, b)
  {
    LossyRunEnds(c, a, b);
    OnlyTheCancellation(c, a, b);
  }

  lemma FourOps(ops: seq<Op>, o0: Op, o1: Op, o2: Op, o3: Op) returns (w1: World, w2: World, w3: World, w4: World)
    ensures w1 == Step(Run(TOTALS, ops), o0) && w2 == Step(w1, o1) && w3 == Step(w2, o2) && w4 == Step(w3, o3)
    ensures Run(TOTALS, ops + [o0] + [o1] + [o2] + [o3]) == w4
  {
    RunSnoc(TOTALS, ops, o0);
    RunSnoc(TOTALS, ops + [o0], o1);
    RunSnoc(TOTALS, ops + [o0] + [o1], o2);
    RunSnoc(TOTALS, ops + [o0] + [o1] + [o2], o3);
    w1 := Step(Run(TOTALS, ops), o0);
    w2 := Step(w1, o1);
    w3 := Step(w2, o2);
    w4 := Step(w3, o3);
  }

  // ---------------------------------------------------------------- an error that is none

  /** A serial run that keeps the cache right ends here. */
  ghost predicate Reached(w: World) {
    exists ops :: Run(TOTALS, ops) == w && forall op | op in ops :: KeepsCache(op)
  }

  lemma StepIsReached(w: World, op: Op)
    requires Reached(w) && KeepsCache(op)
    ensures Reached(Step(w, op))
  {
    var ops :| Run(TOTALS, ops) == w && forall o | o in ops :: KeepsCache(o);
    var more := ops + [op];
    RunSnoc(TOTALS, ops, op);
    forall o | o in more ensures KeepsCache(o) { if o !in ops { assert o == op; } }
    assert Run(TOTALS, more) == Step(w, op);
  }

  lemma ReachedHasIds(w: World)
    requires Reached(w)
    ensures ValidIds(w.parking)
  {
    var ops :| Run(TOTALS, ops) == w && forall o | o in ops :: KeepsCache(o);
    RunIsConsistent(TOTALS, ops);
  }

  lemma FirstCreationSucceeds(w: World, raw: CreateInput, a: BookingId)
    requires Reached(w) && w.store.rows == map[] && w.parking.spots == map[1 := Spot(1, "A", Available)]
    requires 1 in w.parking.totals && Acceptable(raw) && raw.parkingId == 1 && raw.spotId == 1
    ensures CreateBooking(w, raw, SmoothEnv(a)).1.Ok?
  {
    var ops :| Run(TOTALS, ops) == w && forall o | o in ops :: KeepsCache(o);
    assert 1 in AvailableIn(w.parking, 1);
    CreationAnswersExactly(TOTALS, ops, raw, SmoothEnv(a));
  }

  lemma UnpublishedConfirmation(w: World, op: Op)
    requires Reached(w) && op.Confirm? && op.id != "" && op.id in w.store.rows
    requires w.store.rows[op.id].status == Pending
    requires op.id in w.store.cache && op.env.read.redisUp && op.env.write.dbOk && !op.env.publishOk
    ensures TakesEffect(w, op) && Micro.ResultOf(w, op).Err?
  {
    var ops :| Run(TOTALS, ops) == w && forall o | o in ops :: KeepsCache(o);
    ChangeAnswersExactly(TOTALS, ops, op);
  }

  lemma FirstBookingIsPending(w: World, w': World, raw: CreateInput, a: BookingId)
    requires Reached(w) && w.store.rows == map[] && w.parking.spots == map[1 := Spot(1, "A", Available)]
    requires 1 in w.parking.totals && Acceptable(raw) && raw.parkingId == 1 && raw.spotId == 1
    requires w' == Step(w, Create(raw, SmoothEnv(a)))
    ensures a in w'.store.rows && w'.store.rows[a].status == Pending && a in w'.store.cache
  {
    FirstCreationSucceeds(w, raw, a);
    ReachedHasIds(w);
    CreatedIsPending(w, w', raw, SmoothEnv(a));
  }

  lemma CreatedIsPending(w: World, w': World, raw: CreateInput, env: CreateEnv)
    requires ValidIds(w.parking) && CreateBooking(w, raw, env).1.Ok? && env.insert.setOk
    requires w' == Step(w, Create(raw, env))
    ensures var id := env.insert.id;
            id in w'.store.rows && w'.store.rows[id].status == Pending && id in w'.store.cache
  {
    assert w' == CreateBooking(w, raw, env).0;
    CreationStoresRequest(w, raw, env);
  }

  lemma OneSpotIsReached() returns (w: World)
    ensures Reached(w) && w.store.rows == map[] && w.parking.spots == map[1 := Spot(1, "A", Available)]
    ensures 1 in w.parking.totals
  {
    w := Run(TOTALS, [AddSpot(1, "A")]);
    OneSpotWorld();
    assert forall o | o in [AddSpot(1, "A")] :: KeepsCache(o);
  }

  /** After one booking with every reply as it should be, a confirmation whose event cannot be published answers an
      error and has confirmed the booking. */
  lemma ChangedDespiteErrorInARun(raw: CreateInput, a: BookingId, op: Op)
    requires Acceptable(raw) && raw.parkingId == 1 && raw.spotId == 1
    requires op.Confirm? && op.id == a != ""
    requires op.env.read.redisUp && op.env.write.dbOk && !op.env.publishOk
    ensures exists ops :: TakesEffect(Run(TOTALS, ops), op) && Micro.ResultOf(Run(TOTALS, ops), op).Err?
  {
    var w := OneSpotIsReached();
    var w' := Step(w, Create(raw, SmoothEnv(a)));
    StepIsReached(w, Create(raw, SmoothEnv(a)));
    FirstBookingIsPending(w, w', raw, a);
    UnpublishedConfirmation(w', op);
  }

  // ---------------------------------------------------------------- schedules

  function Advances(call: Micro.CallId, n: nat): seq<Micro.Event> {
    if n == 0 then [] else [Micro.Advance(call)] + Advances(call, n - 1)
  }

  lemma {:induction false} RunsOn(s: Micro.State, events: seq<Micro.Event>, more: seq<Micro.Event>)
    ensures Micro.RunFrom(s, events + more) == Micro.RunFrom(Micro.RunFrom(s, events), more)
    decreases |more|
  {
    if more == [] {
      assert events + more == events;
    } else {
      var front := more[..|more| - 1];
      assert (events + more)[..|events + more| - 1] == events + front;
      RunsOn(s, events, front);
    }
  }

  lemma OneEvent(s: Micro.State, ev: Micro.Event)
    ensures Micro.RunFrom(s, [ev]) == Micro.Step(s, ev)
  {
    assert [ev][..0] == [];
    assert Micro.RunFrom(s, []) == s;
  }

  lemma {:induction false} AdvancesAlone(s: Micro.State, call: Micro.CallId, n: nat)
    ensures Micro.RunFrom(s, Advances(call, n)) == Micro.Alone(s, call, n)
    decreases n
  {
    if n > 0 {
      OneEvent(s, Micro.Advance(call));
      RunsOn(s, [Micro.Advance(call)], Advances(call, n - 1));
      AdvancesAlone(Micro.Step(s, Micro.Advance(call)), call, n - 1);
    }
  }

  ghost predicate Reachable(s: Micro.State) {
    exists events :: Micro.RunFrom(Micro.Initial(TOTALS), events) == s
  }

  lemma StepsAreReachable(s: Micro.State, ev: Micro.Event)
    requires Reachable(s)
    ensures Reachable(Micro.Step(s, ev))
  {
    var events :| Micro.RunFrom(Micro.Initial(TOTALS), events) == s;
    RunsOn(Micro.Initial(TOTALS), events, [ev]);
    OneEvent(s, ev);
    assert Micro.RunFrom(Micro.Initial(TOTALS), events + [ev]) == Micro.Step(s, ev);
  }

  lemma AloneIsReachable(s: Micro.State, call: Micro.CallId, n: nat)
    requires Reachable(s)
    ensures Reachable(Micro.Alone(s, call, n))
  {
    var events :| Micro.RunFrom(Micro.Initial(TOTALS), events) == s;
    RunsOn(Micro.Initial(TOTALS), events, Advances(call, n));
    AdvancesAlone(s, call, n);
    assert Micro.RunFrom(Micro.Initial(TOTALS), events + Advances(call, n)) == Micro.Alone(s, call, n);
  }

  lemma OneSpotState() returns (s: Micro.State)
    ensures Reachable(s) && s.calls == map[] && Consistent(s.world)
    ensures s.world == World(Store(map[], map[]), Parking(map[1 := Spot(1, "A", Available)], TOTALS, 2))
  {
    var start := Micro.Initial(TOTALS);
    var ev := Micro.Environment(AddSpot(1, "A"));
    assert Micro.RunFrom(start, []) == start;
    StepsAreReachable(start, ev);
    s := Micro.Step(start, ev);
    OneSpotWorld();
    RunSnoc(TOTALS, [], AddSpot(1, "A"));
    assert [] + [AddSpot(1, "A")] == [AddSpot(1, "A")];
  }

  /** Both ends of the race for one spot are reached: two bookings on it, or a booking whose spot is AVAILABLE again. */
  lemma RaceInARun(c: char, meet: bool, i: BookingId, j: BookingId)
    requires IsLetter(c) && i != j
    ensures exists end: Micro.State ::
              var second := if meet then Request(c, 15, 25) else Request(c, 30, 40);
              Reachable(end) && Micro.RaceEnds(end, 1, 2, Request(c, 10, 20), second, SmoothEnv(i), SmoothEnv(j))
  {
    var a, b := Request(c, 10, 20), if meet then Request(c, 15, 25) else Request(c, 30, 40);
    var one, two := Create(a, SmoothEnv(i)), Create(b, SmoothEnv(j));
    RequestIsAccepted(c, a.start, a.end);
    RequestIsAccepted(c, b.start, b.end);
    var s := OneSpotState();
    NamedPrepare(s.world.parking, a, one.create);
    NamedPrepare(s.world.parking, b, two.create);
    var s1 := Micro.Step(s, Micro.Begin(1, one));
    var s2 := Micro.Step(s1, Micro.Advance(1));
    var s3 := Micro.Step(s2, Micro.Begin(2, two));
    var t := Micro.Step(s3, Micro.Advance(2));
    StepsAreReachable(s, Micro.Begin(1, one));
    StepsAreReachable(s1, Micro.Advance(1));
    StepsAreReachable(s2, Micro.Begin(2, two));
    StepsAreReachable(s3, Micro.Advance(2));
    var mid := Micro.Alone(t, 1, 5);
    AloneIsReachable(t, 1, 5);
    AloneIsReachable(mid, 2, 5);
    Micro.RaceForOneSpot(s, t, mid, Micro.Alone(mid, 2, 5), 1, 2, one, two, a, b);
  }

  /** A schedule revives a cancelled booking, although every reply arrives. */
  lemma RevivalInARun(c: char, a: BookingId)
    requires IsLetter(c) && a != ""
    ensures exists before: Micro.State, end: Micro.State ::
              && Reachable(before) && Reachable(end)
              && a in before.world.store.rows && before.world.store.rows[a].status == Cancelled
              && Exposed(end.world, a) && end.world.store.rows[a].status == Confirmed
  {
    var create := Create(Request(c, 10, 20), SmoothEnv(a));
    RequestIsAccepted(c, 10, 20);
    var s0 := OneSpotState();
    var s := Micro.Alone(Micro.Step(s0, Micro.Begin(0, create)), 0, 6);
    StepsAreReachable(s0, Micro.Begin(0, create));
    AloneIsReachable(Micro.Step(s0, Micro.Begin(0, create)), 0, 6);
    BookedAlone(s0, s, create, Request(c, 10, 20), a);
    var before, end := RevivedFrom(s, Confirm(a, Replies(true)), Cancel(a, "", Replies(true)));
  }

  lemma RevivedFrom(s: Micro.State, confirm: Op, cancel: Op) returns (before: Micro.State, end: Micro.State)
    requires Reachable(s) && s.calls == map[] && Consistent(s.world) && Micro.CancelReady(s.world, cancel)
    requires confirm.Confirm? && confirm.env.read.redisUp && confirm.env.write.dbOk && confirm.env.publishOk
    requires confirm.id == cancel.id && s.world.store.rows[cancel.id].status == Pending
    ensures Reachable(before) && Reachable(end) && confirm.id in before.world.store.rows
    ensures before.world.store.rows[confirm.id].status == Cancelled
    ensures Exposed(end.world, confirm.id) && end.world.store.rows[confirm.id].status == Confirmed
  {
    var s1 := Micro.Step(s, Micro.Begin(1, confirm));
    var s1' := Micro.Step(s1, Micro.Begin(2, cancel));
    before := Micro.Alone(s1', 2, 6);
    end := Micro.Alone(before, 1, 5);
    StepsAreReachable(s, Micro.Begin(1, confirm));
    StepsAreReachable(s1, Micro.Begin(2, cancel));
    AloneIsReachable(s1', 2, 6);
    AloneIsReachable(before, 1, 5);
    Micro.CancelledBookingRevived(s, s1, before, end, 1, 2, confirm, cancel);
  }

  lemma BookedAlone(s0: Micro.State, s: Micro.State, create: Op, raw: CreateInput, id: BookingId)
    requires s0.calls == map[] && Consistent(s0.world) && Accepted(raw) && SmoothCreate(s0.world, create, raw, id)
    requires raw.spotId in AvailableIn(s0.world.parking, raw.parkingId)
    requires s == Micro.Alone(Micro.Step(s0, Micro.Begin(0, create)), 0, 6)
    ensures s.calls == map[] && Consistent(s.world)
    ensures var b, store := NewBooking(raw, id, create.create.insert.now), s0.world.store;
            s.world == World(Store(store.rows[id := b], store.cache[id := b]),
                             WithSpotStatus(s0.world.parking, raw.spotId, Reserved))
  {
    Micro.UninterruptedIsSerial(s0, 0, create);
    ValidateIsStable(raw);
    BookedConsistently(s0.world, raw, create.create);
    BookedSerially(s0.world, create, raw, id);
  }

  lemma BookedConsistently(w: World, raw: CreateInput, env: CreateEnv)
    requires Consistent(w) && AllAnswer(w, raw, env) && raw.start < raw.end && env.insert.setOk
    requires raw.spotId in AvailableIn(w.parking, raw.parkingId)
    ensures var b := NewBooking(raw, env.insert.id, env.insert.now);
            Consistent(World(Store(w.store.rows[b.id := b], w.store.cache[b.id := b]),
                             WithSpotStatus(w.parking, raw.spotId, Reserved)))
  {
    ReservedSpotHasNoConflict(w, raw);
    IdleSpotTakesBooking(w, raw, env);
    CommitKeepsConsistent(w, raw, env);
  }

  lemma BookedSerially(w: World, create: Op, raw: CreateInput, id: BookingId)
    requires Consistent(w) && Accepted(raw) && SmoothCreate(w, create, raw, id)
    requires raw.spotId in AvailableIn(w.parking, raw.parkingId)
    ensures var b, w' := NewBooking(raw, id, create.create.insert.now), Step(w, create);
            w' == World(Store(w.store.rows[id := b], w.store.cache[id := b]),
                        WithSpotStatus(w.parking, raw.spotId, Reserved))
  {
    ReservedSpotHasNoConflict(w, raw);
    CreateStores(w, create, raw, id);
  }
}
