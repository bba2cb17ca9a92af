/** How far concurrent CreateSpot calls can overrun the size of a lot: the count and the insert of
    services/parking-service/internal/usecase/spot_usecase.go are two statements with nothing between them held. */
module SpotCapacity {
  import opened Basics
  import opened ParkingSpots
  import GoText

  type CallId = nat

  /** A call that has passed the limit check and not inserted yet. */
  datatype Pending = Pending(lot: int, number: string)

  datatype State = State(parking: Parking, inFlight: map<CallId, Pending>)

  datatype Event =
    | Check(call: CallId, lot: int, number: string, dbOk: bool)
    | Insert(call: CallId, dbOk: bool)
    | Delete(spot: int)

  function Step(s: State, ev: Event): State {
    match ev
    case Check(call, lot, number, dbOk) =>
      if call in s.inFlight then s
      else (match CreateSpotCheck(s.parking, lot, number, dbOk)
            case Err(_) => s
            case Ok(trimmed) => s.(inFlight := s.inFlight[call := Pending(lot, trimmed)]))
    case Insert(call, dbOk) =>
      if call !in s.inFlight then s
      else
        var job := s.inFlight[call];
        State(if dbOk then InsertSpot(s.parking, job.lot, job.number) else s.parking, s.inFlight - {call})
    case Delete(spot) => s.(parking := DeleteSpot(s.parking, spot))
  }

  function Run(totals: map<int, nat>, events: seq<Event>): State {
    if events == [] then State(Parking(map[], totals, 1), map[])
    else Step(Run(totals, events[..|events| - 1]), events[|events| - 1])
  }

  function InFlightFor(s: State, lot: int): set<CallId> {
    set c | c in s.inFlight && s.inFlight[c].lot == lot
  }

  /** At no moment are more than `k` calls for the lot between their check and their insert. */
  predicate AtMostInFlight(totals: map<int, nat>, events: seq<Event>, lot: int, k: nat) {
    && |InFlightFor(Run(totals, events), lot)| <= k
    && (events == [] || AtMostInFlight(totals, events[..|events| - 1], lot, k))
  }

  lemma {:induction false} RunKeepsIds(totals: map<int, nat>, events: seq<Event>)
    ensures ValidIds(Run(totals, events).parking) && Run(totals, events).parking.totals == totals
  {
    if events != [] { RunKeepsIds(totals, events[..|events| - 1]); }
  }

  /** The bound, with the calls that may still insert counted in. */
  lemma {:induction false} SpotsPlusInFlight(totals: map<int, nat>, events: seq<Event>, lot: int, k: nat)
    requires lot in totals && k >= 1 && AtMostInFlight(totals, events, lot, k)
    ensures var s := Run(totals, events);
            |SpotsOf(s.parking, lot)| + |InFlightFor(s, lot)| <= totals[lot] + k - 1
  {
    if events == [] {
      assert SpotsOf(Run(totals, events).parking, lot) == {} && InFlightFor(Run(totals, events), lot) == {};
    } else {
      var before, ev := events[..|events| - 1], events[|events| - 1];
      SpotsPlusInFlight(totals, before, lot, k);
      RunKeepsIds(totals, before);
      var s := Run(totals, before);
      var s' := Step(s, ev);
      StepMovesOne(s, ev, lot);
    }
  }

  lemma StepMovesOne(s: State, ev: Event, lot: int)
    requires ValidIds(s.parking) && lot in s.parking.totals
    ensures var s' := Step(s, ev);
            var spots, spots' := |SpotsOf(s.parking, lot)|, |SpotsOf(s'.parking, lot)|;
            || (spots' < s.parking.totals[lot] && spots' == spots)
            || spots' + |InFlightFor(s', lot)| <= spots + |InFlightFor(s, lot)|
  {
    match ev
    case Check(call, l, number, dbOk) =>
      if l != lot { assert InFlightFor(Step(s, ev), lot) == InFlightFor(s, lot); }
    case Insert(call, dbOk) =>
      if call in s.inFlight { InsertMovesOne(s, call, dbOk, lot); }
    case Delete(spot) =>
      var s' := Step(s, ev);
      assert InFlightFor(s', lot) == InFlightFor(s, lot);
      SubsetSize(SpotsOf(s'.parking, lot), SpotsOf(s.parking, lot));
  }

  /** An insert turns one call in flight for a lot into at most one spot of that lot. */
  lemma InsertMovesOne(s: State, call: CallId, dbOk: bool, lot: int)
    requires ValidIds(s.parking) && call in s.inFlight
    ensures var s' := Step(s, Insert(call, dbOk));
            && (if s.inFlight[call].lot == lot
                then InFlightFor(s', lot) == InFlightFor(s, lot) - {call}
                  && |InFlightFor(s', lot)| == |InFlightFor(s, lot)| - 1
                else InFlightFor(s', lot) == InFlightFor(s, lot))
            && |SpotsOf(s'.parking, lot)| == |SpotsOf(s.parking, lot)|
                                        + if dbOk && s.inFlight[call].lot == lot then 1 else 0
  {
    var s' := Step(s, Insert(call, dbOk));
    assert InFlightFor(s', lot) == InFlightFor(s, lot) - {call};
    if dbOk {
      InsertAddsOne(s.parking, s.inFlight[call].lot, s.inFlight[call].number, lot);
    }
  }

  lemma InsertAddsOne(p: Parking, target: int, number: string, lot: int)
    requires ValidIds(p)
    ensures |SpotsOf(InsertSpot(p, target, number), lot)| == |SpotsOf(p, lot)| + if target == lot then 1 else 0
  {
    var id, p' := p.nextId, InsertSpot(p, target, number);
    assert id !in p.spots && p'.spots == p.spots[id := Spot(target, number, Available)];
    if target == lot {
      assert SpotsOf(p', lot) == SpotsOf(p, lot) + {id};
    } else {
      assert SpotsOf(p', lot) == SpotsOf(p, lot);
    }
  }

  /** Whatever is interleaved with whatever, k overlapping calls overrun a lot by at most k - 1 spots. */
  lemma OverrunBound(totals: map<int, nat>, events: seq<Event>, lot: int, k: nat)
    requires lot in totals && k >= 1 && AtMostInFlight(totals, events, lot, k)
    ensures |SpotsOf(Run(totals, events).parking, lot)| <= totals[lot] + k - 1
  {
    SpotsPlusInFlight(totals, events, lot, k);
  }

  // ---------------------------------------------------------------- the bound is reached

  /** `n` calls that each run alone. */
  function OneByOne(lot: int, number: string, n: nat): seq<Event> {
    if n == 0 then [] else OneByOne(lot, number, n - 1) + [Check(0, lot, number, true)] + [Insert(0, true)]
  }

  /** `k` further calls that all count before any of them inserts, and the first `j` of the inserts. */
  function Overlapping(lot: int, number: string, n: nat, k: nat): seq<Event> {
    if k == 0 then OneByOne(lot, number, n) else Overlapping(lot, number, n, k - 1) + [Check(k, lot, number, true)]
  }

  function Landing(lot: int, number: string, n: nat, k: nat, j: nat): seq<Event> {
    if j == 0 then Overlapping(lot, number, n, k) else Landing(lot, number, n, k, j - 1) + [Insert(j, true)]
  }

  lemma RunSnoc(totals: map<int, nat>, events: seq<Event>, ev: Event, lot: int, k: nat)
    ensures Run(totals, events + [ev]) == Step(Run(totals, events), ev)
    ensures AtMostInFlight(totals, events, lot, k) && |InFlightFor(Run(totals, events + [ev]), lot)| <= k
        ==> AtMostInFlight(totals, events + [ev], lot, k)
  {
    assert (events + [ev])[..|events|] == events;
  }

  /** A check that passes puts its call in flight. */
  lemma CheckJoins(s: State, call: CallId, lot: int, number: string)
    requires lot > 0 && lot in s.parking.totals && call !in s.inFlight
    requires number != "" && GoText.TrimSpace(number) == number
    requires |SpotsOf(s.parking, lot)| < s.parking.totals[lot]
    ensures var s' := Step(s, Check(call, lot, number, true));
            && s' == s.(inFlight := s.inFlight[call := Pending(lot, number)])
            && |InFlightFor(s', lot)| == |InFlightFor(s, lot)| + 1
  {
    var s' := Step(s, Check(call, lot, number, true));
    assert InFlightFor(s', lot) == InFlightFor(s, lot) + {call};
  }

  lemma {:induction false} OneByOneFills(totals: map<int, nat>, lot: int, number: string, n: nat, k: nat)
    requires lot > 0 && lot in totals && n <= totals[lot] && k >= 1
    requires number != "" && GoText.TrimSpace(number) == number
    ensures var s := Run(totals, OneByOne(lot, number, n));
            |SpotsOf(s.parking, lot)| == n && s.inFlight == map[]
    ensures AtMostInFlight(totals, OneByOne(lot, number, n), lot, k)
  {
    if n == 0 {
      assert SpotsOf(Run(totals, []).parking, lot) == {};
      assert InFlightFor(Run(totals, []), lot) == {};
    } else {
      OneByOneFills(totals, lot, number, n - 1, k);
      var before, check := OneByOne(lot, number, n - 1), Check(0, lot, number, true);
      RunKeepsIds(totals, before);
      OneCallAlone(Run(totals, before), lot, number);
      RunSnoc(totals, before, check, lot, k);
      RunSnoc(totals, before + [check], Insert(0, true), lot, k);
      assert OneByOne(lot, number, n) == before + [check] + [Insert(0, true)];
    }
  }

  lemma OneCallAlone(s: State, lot: int, number: string)
    requires ValidIds(s.parking) && s.inFlight == map[] && lot > 0 && lot in s.parking.totals
    requires number != "" && GoText.TrimSpace(number) == number
    requires |SpotsOf(s.parking, lot)| < s.parking.totals[lot]
    ensures var mid := Step(s, Check(0, lot, number, true));
            var end := Step(mid, Insert(0, true));
            && |InFlightFor(mid, lot)| == 1 && |InFlightFor(end, lot)| == 0 && end.inFlight == map[]
            && |SpotsOf(end.parking, lot)| == |SpotsOf(s.parking, lot)| + 1
  {
    assert InFlightFor(s, lot) == {};
    CheckJoins(s, 0, lot, number);
    InsertMovesOne(Step(s, Check(0, lot, number, true)), 0, true, lot);
  }

  /** The lot has `n` spots, and exactly the calls 1 to `j`, all for this lot, have counted and not yet inserted. */
  ghost predicate Queued(s: State, lot: int, n: nat, j: nat) {
    && |SpotsOf(s.parking, lot)| == n && |InFlightFor(s, lot)| == j
    && (forall c :: c in s.inFlight <==> 1 <= c <= j)
    && (forall c | c in s.inFlight :: s.inFlight[c].lot == lot)
  }

  lemma QueueGrows(s: State, lot: int, number: string, n: nat, j: nat)
    requires lot > 0 && lot in s.parking.totals && n < s.parking.totals[lot] && Queued(s, lot, n, j)
    requires number != "" && GoText.TrimSpace(number) == number
    ensures Queued(Step(s, Check(j + 1, lot, number, true)), lot, n, j + 1)
  {
    CheckJoins(s, j + 1, lot, number);
  }

  lemma {:induction false} ChecksQueueUp(totals: map<int, nat>, lot: int, number: string, n: nat, j: nat, k: nat)
    requires lot > 0 && lot in totals && n < totals[lot] && j <= k && k >= 1
    requires number != "" && GoText.TrimSpace(number) == number
    ensures Queued(Run(totals, Overlapping(lot, number, n, j)), lot, n, j)
    ensures AtMostInFlight(totals, Overlapping(lot, number, n, j), lot, k)
  {
    if j == 0 {
      OneByOneFills(totals, lot, number, n, k);
      assert InFlightFor(Run(totals, OneByOne(lot, number, n)), lot) == {};
    } else {
      ChecksQueueUp(totals, lot, number, n, j - 1, k);
      var before := Overlapping(lot, number, n, j - 1);
      RunKeepsIds(totals, before);
      QueueGrows(Run(totals, before), lot, number, n, j - 1);
      RunSnoc(totals, before, Check(j, lot, number, true), lot, k);
    }
  }

  lemma {:induction false} InsertsLand(totals: map<int, nat>, lot: int, number: string, n: nat, k: nat, j: nat)
    requires lot > 0 && lot in totals && n < totals[lot] && j <= k && k >= 1
    requires number != "" && GoText.TrimSpace(number) == number
    ensures var s := Run(totals, Landing(lot, number, n, k, j));
            && |SpotsOf(s.parking, lot)| == n + j && |InFlightFor(s, lot)| == k - j
            && (forall c :: c in s.inFlight <==> j < c <= k)
            && (forall c | c in s.inFlight :: s.inFlight[c].lot == lot)
    ensures AtMostInFlight(totals, Landing(lot, number, n, k, j), lot, k)
  {
    if j == 0 {
      ChecksQueueUp(totals, lot, number, n, k, k);
    } else {
      InsertsLand(totals, lot, number, n, k, j - 1);
      var before := Landing(lot, number, n, k, j - 1);
      RunKeepsIds(totals, before);
      InsertMovesOne(Run(totals, before), j, true, lot);
      RunSnoc(totals, before, Insert(j, true), lot, k);
    }
  }

  /** The bound is exact: for every lot and every k there is a schedule with at most k calls in flight
      that ends with TotalSpots + k - 1 spots. */
  lemma OverrunIsReached(totals: map<int, nat>, lot: int, number: string, k: nat)
    requires lot > 0 && lot in totals && totals[lot] >= 1 && k >= 1
    requires number != "" && GoText.TrimSpace(number) == number
    ensures exists events :: && AtMostInFlight(totals, events, lot, k)
                             && |SpotsOf(Run(totals, events).parking, lot)| == totals[lot] + k - 1
  {
    var n := totals[lot] - 1;
    InsertsLand(totals, lot, number, n, k, k);
    assert AtMostInFlight(totals, Landing(lot, number, n, k, k), lot, k);
  }
}
