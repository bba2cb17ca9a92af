/** services/parking-service/internal/usecase/spot_usecase.go over the tables of its repository. */
module ParkingSpots {
  import opened Basics
  import opened GoText

  datatype SpotStatus = Available | Reserved | Occupied | Maintenance

  datatype Spot = Spot(lot: int, number: string, status: SpotStatus)

  /** `spots`, the `total_spots` of every parking lot, and the sequence behind `SERIAL` ids. */
  datatype Parking = Parking(spots: map<int, Spot>, totals: map<int, nat>, nextId: int)

  datatype SpotError =
    | ParkingRequired | NumberRequired | ParkingNotFound | LimitReached
    | SpotNotFound | NotAvailable | NotReserved | Database

  type SpotOutcome<+T> = Result<T, SpotError>

  function SpotsOf(p: Parking, lot: int): set<int> {
    set id | id in p.spots && p.spots[id].lot == lot
  }

  function AvailableIn(p: Parking, lot: int): set<int> {
    set id | id in p.spots && p.spots[id].lot == lot && p.spots[id].status == Available
  }

  function WithSpotStatus(p: Parking, id: int, status: SpotStatus): Parking {
    if id in p.spots then p.(spots := p.spots[id := p.spots[id].(status := status)]) else p
  }

  function InsertSpot(p: Parking, lot: int, number: string): Parking {
    p.(spots := p.spots[p.nextId := Spot(lot, number, Available)], nextId := p.nextId + 1)
  }

  function DeleteSpot(p: Parking, id: int): Parking {
    p.(spots := p.spots - {id})
  }

  /** The checks that precede the insert: lot and number given, lot known, limit not reached. */
  function CreateSpotCheck(p: Parking, lot: int, number: string, dbOk: bool): SpotOutcome<string> {
    var trimmed := TrimSpace(number);
    if lot <= 0 then Err(ParkingRequired)
    else if trimmed == "" then Err(NumberRequired)
    else if lot !in p.totals then Err(ParkingNotFound)
    else if !dbOk then Err(Database)
    else if |SpotsOf(p, lot)| >= p.totals[lot] then Err(LimitReached)
    else Ok(trimmed)
  }

  function ReserveSpec(p: Parking, id: int, dbOk: bool): (Parking, SpotOutcome<()>) {
    if !dbOk then (p, Err(Database))
    else if id !in p.spots then (p, Err(SpotNotFound))
    else if p.spots[id].status != Available then (p, Err(NotAvailable))
    else (WithSpotStatus(p, id, Reserved), Ok(()))
  }

  function ReleaseSpec(p: Parking, id: int, dbOk: bool): (Parking, SpotOutcome<()>) {
    if !dbOk then (p, Err(Database))
    else if id !in p.spots then (p, Err(SpotNotFound))
    else if p.spots[id].status != Reserved then (p, Err(NotReserved))
    else (WithSpotStatus(p, id, Available), Ok(()))
  }

  /** A row is written whether or not it exists: `UPDATE ... WHERE id = $2` on no row is no error. */
  function UpdateSpotSpec(p: Parking, id: int, status: SpotStatus, dbOk: bool): (Parking, SpotOutcome<()>) {
    if !dbOk then (p, Err(Database)) else (WithSpotStatus(p, id, status), Ok(()))
  }

  predicate ValidIds(p: Parking) {
    p.nextId >= 1 && forall id | id in p.spots :: 1 <= id < p.nextId
  }

  lemma AppendMoves(front: seq<int>, x: int, back: seq<int>)
    ensures front + ([x] + back) == (front + [x]) + back
  {
  }

  method Least(ids: set<int>) returns (m: int)
    requires |ids| > 0
    ensures IsLeast(m, ids)
  {
    LeastExists(ids);
    m :| m in ids && IsLeast(m, ids);
  }

  method InOrder(all: set<int>) returns (list: seq<int>)
    ensures list == Ascending(all)
  {
    var ids := all;
    list := [];
    while |ids| > 0
      invariant list + Ascending(ids) == Ascending(all)
      decreases |ids|
    {
      var m := Least(ids);
      AscendingTakesLeast(ids, m);
      AppendMoves(list, m, Ascending(ids - {m}));
      list := list + [m];
      ids := ids - {m};
    }
    assert ids == {};
  }

  class SpotUsecase {
    var spots: map<int, Spot>
    var totals: map<int, nat>
    var nextId: int

    ghost function State(): Parking
      reads this
    {
      Parking(spots, totals, nextId)
    }

    constructor (totals: map<int, nat>)
      ensures State() == Parking(map[], totals, 1) && ValidIds(State())
    {
      this.spots, this.totals, this.nextId := map[], totals, 1;
    }

    method CreateSpot(lot: int, number: string, countOk: bool, insertOk: bool) returns (r: SpotOutcome<int>)
      requires ValidIds(State())
      modifies this
      ensures ValidIds(State())
      ensures var check := CreateSpotCheck(old(State()), lot, number, countOk);
              match check
              case Err(e) => State() == old(State()) && r == Err(e)
              case Ok(trimmed) =>
                if insertOk
                then State() == InsertSpot(old(State()), lot, trimmed) && r == Ok(old(nextId))
                  && old(nextId) !in old(spots)
                else State() == old(State()) && r == Err(Database)
    {
      var trimmed := TrimSpace(number);
      if lot <= 0 {
        return Err(ParkingRequired);
      }
      if trimmed == "" {
        return Err(NumberRequired);
      }
      if lot !in totals {
        return Err(ParkingNotFound);
      }
      if !countOk {
        return Err(Database);
      }
      var count := |set id | id in spots && spots[id].lot == lot|;
      assert (set id | id in spots && spots[id].lot == lot) == SpotsOf(State(), lot);
      if count >= totals[lot] {
        return Err(LimitReached);
      }
      if !insertOk {
        return Err(Database);
      }
      var id := nextId;
      spots := spots[id := Spot(lot, trimmed, Available)];
      nextId := nextId + 1;
      return Ok(id);
    }

    method ReserveSpot(id: int, dbOk: bool) returns (r: SpotOutcome<()>)
      modifies this`spots
      ensures (State(), r) == ReserveSpec(old(State()), id, dbOk)
    {
      if !dbOk {
        return Err(Database);
      }
      if id !in spots {
        return Err(SpotNotFound);
      }
      if spots[id].status != Available {
        return Err(NotAvailable);
      }
      r := UpdateSpotStatus(id, Reserved, true);
    }

    method ReleaseSpot(id: int, dbOk: bool) returns (r: SpotOutcome<()>)
      modifies this`spots
      ensures (State(), r) == ReleaseSpec(old(State()), id, dbOk)
    {
      if !dbOk {
        return Err(Database);
      }
      if id !in spots {
        return Err(SpotNotFound);
      }
      if spots[id].status != Reserved {
        return Err(NotReserved);
      }
      r := UpdateSpotStatus(id, Available, true);
    }

    /** The spots of a lot in the order of the query, `ORDER BY id`. */
    method GetSpotsByParking(lot: int) returns (list: seq<int>)
      ensures list == Ascending(SpotsOf(State(), lot))
    {
      var ids := set id | id in spots && spots[id].lot == lot;
      assert ids == SpotsOf(State(), lot);
      list := InOrder(ids);
    }

    method UpdateSpotStatus(id: int, status: SpotStatus, dbOk: bool) returns (r: SpotOutcome<()>)
      modifies this`spots
      ensures (State(), r) == UpdateSpotSpec(old(State()), id, status, dbOk)
    {
      if !dbOk {
        return Err(Database);
      }
      if id in spots {
        spots := spots[id := spots[id].(status := status)];
      }
      return Ok(());
    }
  }
}
