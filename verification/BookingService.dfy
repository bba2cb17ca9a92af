/** services/booking-service/internal/service/booking_service.go as the object it is, over its two collaborators. */
module BookingService {
  import opened Basics
  import opened GoText
  import opened BookingDomain
  import opened BookingRepository
  import opened ParkingSpots
  import opened BookingFlow

  class Service {
    const repo: Repository
    const parking: SpotUsecase

    constructor (repo: Repository, parking: SpotUsecase)
      ensures this.repo == repo && this.parking == parking
    {
      this.repo, this.parking := repo, parking;
    }

    ghost function State(): World
      reads repo, parking
    {
      World(repo.State(), parking.State())
    }

    method CreateBooking(raw: CreateInput, env: CreateEnv) returns (r: Outcome<Booking>)
      modifies repo, parking
      ensures (State(), r) == BookingFlow.CreateBooking(old(State()), raw, env)
    {
      var validated := Validate(raw);
      if validated.Err? {
        return Err(validated.error);
      }
      var found := LookUp(validated.value, env);
      if found.Err? {
        return Err(found.error);
      }
      r := ReserveAndStore(found.value, env);
    }

    /** The part of CreateBooking that writes: reserve, insert, and give the spot back when the insert fails. */
    method ReserveAndStore(input: CreateInput, env: CreateEnv) returns (r: Outcome<Booking>)
      modifies repo, parking
      ensures (State(), r) == Commit(old(State()), input, env)
    {
      var reserved := ReserveCall(input.spotId, env.reserve);
      if !reserved {
        return Err(NormalizeParkingError(CLIENT_WORDING));
      }
      r := repo.Create(input, env.insert);
      if r.Err? {
        ReleaseCall(input.spotId, env.release);
      }
    }

    /** The part of CreateBooking that asks for the user, the lot and the spot, and picks a spot if none is named. */
    method LookUp(input: CreateInput, env: CreateEnv) returns (r: Outcome<CreateInput>)
      ensures r == Lookups(parking.State(), input, env)
    {
      if !env.user.Found? {
        return Err(NormalizeDependencyError(env.user, UserNotFound));
      }
      var lot := if env.lot.Found? && input.parkingId !in parking.totals then CodeNotFound else env.lot;
      if !lot.Found? {
        return Err(NormalizeDependencyError(lot, ParkingLotNotFound));
      }
      if input.spotId <= 0 {
        var picked := PickRandomAvailableSpot(input.parkingId, env);
        return if picked.Ok? then Ok(input.(spotId := picked.value)) else Err(picked.error);
      }
      var spot := if env.spot.Found? && input.spotId !in parking.spots then CodeNotFound else env.spot;
      if !spot.Found? {
        return Err(NormalizeDependencyError(spot, ParkingSpotNotFound));
      }
      if input.spotId in parking.spots && parking.spots[input.spotId].lot != input.parkingId {
        return Err(InvalidInput);
      }
      assert input == input.(spotId := input.spotId);
      return Ok(input);
    }

    method PickRandomAvailableSpot(lot: int, env: CreateEnv) returns (r: Outcome<int>)
      ensures r == PickSpot(parking.State(), lot, env)
    {
      if !env.listOk {
        return Err(DependencyFailed);
      }
      var spots := parking.GetSpotsByParking(lot);
      var candidates: seq<int> := [];
      for i := 0 to |spots|
        invariant forall id | id in spots :: id in parking.spots
        invariant candidates == WhereAvailable(parking.spots, spots[..i])
      {
        assert spots[..i + 1][..i] == spots[..i];
        if parking.spots[spots[i]].status == Available {
          candidates := candidates + [spots[i]];
        }
      }
      assert spots[..|spots|] == spots;
      FilteredListing(parking.State(), lot);
      if |candidates| == 0 {
        return Err(NoAvailableSpots);
      }
      var chosen := candidates[env.pick % |candidates|];
      if chosen <= 0 {
        return Err(InvalidInput);
      }
      return Ok(chosen);
    }

    method ConfirmBooking(id: BookingId, env: ChangeEnv) returns (r: Outcome<Booking>)
      modifies repo
      ensures (State(), r) == BookingFlow.ConfirmBooking(old(State()), id, env)
    {
      r := Transit(id, Confirmed, "", env);
      if r.Ok? && !env.publishOk {
        return Err(DependencyFailed);
      }
    }

    method CancelBooking(id: BookingId, reason: string, env: ChangeEnv) returns (r: Outcome<Booking>)
      modifies repo, parking
      ensures (State(), r) == BookingFlow.CancelBooking(old(State()), id, reason, env)
    {
      var text := TrimSpace(reason);
      if text == "" {
        text := "cancelled";
      }
      r := Transit(id, Cancelled, text, env);
      if r.Err? {
        return;
      }
      if r.value.spotId > 0 {
        ReleaseCall(r.value.spotId, env.spotCall);
      }
      if !env.publishOk {
        return Err(DependencyFailed);
      }
    }

    method StartBooking(id: BookingId, env: ChangeEnv) returns (r: Outcome<Booking>)
      modifies repo, parking
      ensures (State(), r) == BookingFlow.StartBooking(old(State()), id, env)
    {
      r := repo.GetByID(id, env.read);
      if r.Err? {
        return;
      }
      if r.value.status != Confirmed {
        return Err(InvalidStatusTransition);
      }
      if env.clock < r.value.start {
        return Err(InvalidStatusTransition);
      }
      r := repo.UpdateStatus(id, Active, "", env.write);
      if r.Err? {
        return;
      }
      if r.value.spotId > 0 && !env.spotCall.Unreachable? {
        var _ := parking.UpdateSpotStatus(r.value.spotId, Occupied, true);
      }
    }

    method CompleteBooking(id: BookingId, env: ChangeEnv) returns (r: Outcome<Booking>)
      modifies repo, parking
      ensures (State(), r) == BookingFlow.CompleteBooking(old(State()), id, env)
    {
      r := Transit(id, Completed, "", env);
      if r.Ok? && r.value.spotId > 0 {
        ReleaseCall(r.value.spotId, env.spotCall);
      }
    }

    method Transit(id: BookingId, next: Status, reason: string, env: ChangeEnv) returns (r: Outcome<Booking>)
      modifies repo
      ensures (repo.State(), r) == Transition(old(repo.State()), id, next, reason, env)
    {
      if id == "" {
        return Err(InvalidInput);
      }
      r := repo.GetByID(id, env.read);
      if r.Err? {
        return;
      }
      if !CanTransition(r.value.status, next) {
        return Err(InvalidStatusTransition);
      }
      r := repo.UpdateStatus(id, next, reason, env.write);
    }

    method ReserveCall(id: int, call: CallOutcome) returns (ok: bool)
      modifies parking`spots
      ensures (parking.State(), ok) == CallReserve(old(parking.State()), id, call)
    {
      ok := false;
      if !call.Unreachable? {
        var reply := parking.ReserveSpot(id, true);
        ok := reply.Ok? && call.Answered?;
      }
    }

    method ReleaseCall(id: int, call: CallOutcome)
      modifies parking`spots
      ensures parking.State() == CallRelease(old(parking.State()), id, call)
    {
      if !call.Unreachable? {
        var _ := parking.ReleaseSpot(id, true);
      }
    }
  }

  function WhereAvailable(spots: map<int, Spot>, ids: seq<int>): (r: seq<int>)
    requires forall id | id in ids :: id in spots
    ensures forall id :: id in r <==> id in ids && spots[id].status == Available
  {
    if ids == [] then []
    else
      var rest, last := WhereAvailable(spots, ids[..|ids| - 1]), ids[|ids| - 1];
      if spots[last].status == Available then rest + [last] else rest
  }

  predicate Increasing(ids: seq<int>) {
    forall i, j | 0 <= i < j < |ids| :: ids[i] < ids[j]
  }

  lemma {:induction false} FilterKeepsIncreasing(spots: map<int, Spot>, ids: seq<int>)
    requires forall id | id in ids :: id in spots
    requires Increasing(ids)
    ensures Increasing(WhereAvailable(spots, ids))
  {
    if ids != [] {
      var front, last := ids[..|ids| - 1], ids[|ids| - 1];
      FilterKeepsIncreasing(spots, front);
      var rest := WhereAvailable(spots, front);
      forall i | 0 <= i < |rest| ensures rest[i] < last {
        assert rest[i] in rest;
      }
    }
  }

  /** Filtering the listing of a lot gives the same candidates as listing its available spots. */
  lemma FilteredListing(p: Parking, lot: int)
    ensures WhereAvailable(p.spots, Ascending(SpotsOf(p, lot))) == Candidates(p, lot)
  {
    var list := Ascending(SpotsOf(p, lot));
    FilterKeepsIncreasing(p.spots, list);
    IncreasingIsUnique(WhereAvailable(p.spots, list), Candidates(p, lot));
  }

  lemma NonEmptyHasElement<T>(s: seq<T>)
    ensures s != [] ==> exists x :: x in s
  {
    if s != [] { assert s[0] in s; }
  }

  lemma {:induction false} IncreasingIsUnique(a: seq<int>, b: seq<int>)
    requires Increasing(a) && Increasing(b) && forall x :: x in a <==> x in b
    ensures a == b
  {
    NonEmptyHasElement(a);
    NonEmptyHasElement(b);
    if a != [] {
      assert a[0] in b && b[0] in a;
      var i :| 0 <= i < |b| && b[i] == a[0];
      var j :| 0 <= j < |a| && a[j] == b[0];
      assert a[0] == b[0];
      forall x ensures x in a[1..] <==> x in b[1..] {
        if x in a[1..] { var k :| 1 <= k < |a| && a[k] == x; assert x in b; }
        if x in b[1..] { var k :| 1 <= k < |b| && b[k] == x; assert x in a; }
      }
      IncreasingIsUnique(a[1..], b[1..]);
    }
  }
}
