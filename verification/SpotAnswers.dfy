/** What the operations on parking spots store and answer, case by case. */
module SpotAnswers {
  import opened Basics
  import opened GoText
  import opened WordsOfText
  import opened ParkingSpots
  import Capacity = SpotCapacity

  /** The checks of CreateSpot: the first one that fails gives the answer. */
  lemma CheckAnswersExactly(p: Parking, lot: int, number: string, dbOk: bool)
    ensures var r := CreateSpotCheck(p, lot, number, dbOk);
            var named := lot > 0 && !AllSpace(number);
            && (r == Err(ParkingRequired) <==> lot <= 0)
            && (r == Err(NumberRequired) <==> lot > 0 && AllSpace(number))
            && (r == Err(ParkingNotFound) <==> named && lot !in p.totals)
            && (r == Err(Database) <==> named && lot in p.totals && !dbOk)
            && (r == Err(LimitReached) <==>
                  named && lot in p.totals && dbOk && |set id | id in p.spots
                    && p.spots[id].lot == lot| >= p.totals[lot])
            && (r.Ok? ==> IsTrimmed(number, r.value))
            && (r.Err? ==> r.error in {ParkingRequired, NumberRequired, ParkingNotFound, Database, LimitReached})
  {
    TrimSpaceExactly(number);
    var pre, post := TrimSplits(number);
    var t := TrimSpace(number);
    if t == "" { assert number == pre + post; } else { assert number[|pre|] == t[0]; }
    assert SpotsOf(p, lot) == set id | id in p.spots && p.spots[id].lot == lot;
  }

  /** A new spot is AVAILABLE, under the next id, in the given lot; the other spots and the lots stay. */
  lemma InsertStoresExactly(p: Parking, lot: int, number: string)
    ensures var p' := InsertSpot(p, lot, number);
            && p'.spots.Keys == p.spots.Keys + {p.nextId} && p'.totals == p.totals && p'.nextId == p.nextId + 1
            && p'.spots[p.nextId].lot == lot && p'.spots[p.nextId].number == number
            && p'.spots[p.nextId].status == Available
            && forall id | id in p.spots && id != p.nextId :: p'.spots[id] == p.spots[id]
  {
  }

  /** The spot has this status now and is the same otherwise; nothing else has changed. */
  predicate OnlyStatus(p: Parking, p': Parking, id: int, status: SpotStatus) {
    && p'.totals == p.totals && p'.nextId == p.nextId && p'.spots.Keys == p.spots.Keys
    && (forall other | other in p.spots && other != id :: p'.spots[other] == p.spots[other])
    && (id in p.spots ==>
          && p'.spots[id].lot == p.spots[id].lot && p'.spots[id].number == p.spots[id].number
          && p'.spots[id].status == status)
  }

  lemma ReserveExactly(p: Parking, id: int, dbOk: bool)
    ensures var (p', r) := ReserveSpec(p, id, dbOk);
            && (r == Err(Database) <==> !dbOk)
            && (r == Err(SpotNotFound) <==> dbOk && id !in p.spots)
            && (r == Err(NotAvailable) <==> dbOk && id in p.spots && p.spots[id].status != Available)
            && (r.Ok? <==> dbOk && id in p.spots && p.spots[id].status == Available)
            && (if r.Ok? then OnlyStatus(p, p', id, Reserved) else p' == p)
  {
  }

  lemma ReleaseExactly(p: Parking, id: int, dbOk: bool)
    ensures var (p', r) := ReleaseSpec(p, id, dbOk);
            && (r == Err(Database) <==> !dbOk)
            && (r == Err(SpotNotFound) <==> dbOk && id !in p.spots)
            && (r == Err(NotReserved) <==> dbOk && id in p.spots && p.spots[id].status != Reserved)
            && (r.Ok? <==> dbOk && id in p.spots && p.spots[id].status == Reserved)
            && (if r.Ok? then OnlyStatus(p, p', id, Available) else p' == p)
  {
  }

  /** Setting a status asks for nothing, not even that the spot exists. */
  lemma UpdateStatusExactly(p: Parking, id: int, status: SpotStatus, dbOk: bool)
    ensures var (p', r) := UpdateSpotSpec(p, id, status, dbOk);
            && (r.Ok? <==> dbOk) && (r.Err? ==> r == Err(Database))
            && (if dbOk && id in p.spots then OnlyStatus(p, p', id, status) else p' == p)
  {
  }

  /** The steps of concurrent calls: a check writes nothing and lets the call on exactly when it succeeds, an insert
      stores what the call was let on with, and a delete takes away its spot alone. */
  lemma CapacityStepsExactly(s: Capacity.State, ev: Capacity.Event)
    ensures var s' := Capacity.Step(s, ev);
            match ev
            case Check(call, lot, number, dbOk) =>
              && s'.parking == s.parking
              && (call !in s.inFlight ==>
                    && (call in s'.inFlight <==> CreateSpotCheck(s.parking, lot, number, dbOk).Ok?)
                    && (call in s'.inFlight ==>
                          s'.inFlight[call].lot == lot && IsTrimmed(number, s'.inFlight[call].number)))
            case Insert(call, dbOk) =>
              if call in s.inFlight && dbOk
              then s'.parking == InsertSpot(s.parking, s.inFlight[call].lot, s.inFlight[call].number)
                   && call !in s'.inFlight
              else s'.parking == s.parking
            case Delete(spot) =>
              && s'.inFlight == s.inFlight && s'.parking.totals == s.parking.totals
              && s'.parking.nextId == s.parking.nextId && spot !in s'.parking.spots
              && forall id | id in s.parking.spots && id != spot ::
                   id in s'.parking.spots && s'.parking.spots[id] == s.parking.spots[id]
  {
    if ev.Check? { CheckAnswersExactly(s.parking, ev.lot, ev.number, ev.dbOk); }
  }
}
