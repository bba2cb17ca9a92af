/** services/booking-service/internal/domain/booking.go. */
module BookingDomain {
  import opened Basics
  import opened GoText

  datatype Status = Pending | Confirmed | Active | Completed | Cancelled

  type BookingId = string

  datatype Booking = Booking(
    id: BookingId, userId: string, parkingId: int, spotId: int, plate: string,
    start: Time, end: Time, status: Status, cancelReason: string,
    createdAt: Time, updatedAt: Time, cancelledAt: Option<Time>)

  datatype CreateInput = CreateInput(
    userId: string, parkingId: int, spotId: int, plate: string, start: Time, end: Time)

  datatype Error =
    | BookingNotFound | InvalidInput | BookingConflict | InvalidStatusTransition
    | UserNotFound | ParkingLotNotFound | ParkingSpotNotFound | NoAvailableSpots
    | DependencyFailed   // a wrapped database, listing or publishing error

  type Outcome<+T> = Result<T, Error>

  /** Go's zero `time.Time`, which `IsZero` recognises. */
  const ZERO_TIME: Time := 0

  /** The statuses that the exclusion constraint and the conflict query speak about. */
  predicate IsLive(s: Status) {
    s.Pending? || s.Confirmed? || s.Active?
  }

  predicate CanTransition(from: Status, to: Status) {
    match from
    case Pending => to.Confirmed? || to.Cancelled?
    case Confirmed => to.Active? || to.Cancelled?
    case Active => to.Completed?
    case _ => false
  }

  function NormalizeVehiclePlate(value: string): string {
    ToUpper(JoinWithSpace(Fields(TrimSpace(value))))
  }

  function Validate(i: CreateInput): Outcome<CreateInput> {
    var input := i.(userId := TrimSpace(i.userId), plate := NormalizeVehiclePlate(i.plate));
    if input.userId == "" || input.parkingId <= 0 || input.plate == "" then Err(InvalidInput)
    else if input.spotId < 0 then Err(InvalidInput)
    else if input.start == ZERO_TIME || input.end == ZERO_TIME || !(input.end > input.start) then Err(InvalidInput)
    else Ok(input)
  }

  /** How far a booking has come: every permitted transition raises it. */
  function Rank(s: Status): nat {
    match s
    case Pending => 0
    case Confirmed => 1
    case Active => 2
    case Completed => 3
    case Cancelled => 3
  }

  /** Statuses form an order without cycles, and the two final ones are exactly those that are not live. */
  lemma TransitionsClimb(from: Status, to: Status)
    ensures CanTransition(from, to) ==> Rank(from) < Rank(to)
    ensures !IsLive(from) <==> forall next :: !CanTransition(from, next)
  {
    if IsLive(from) {
      assert CanTransition(from, if from.Active? then Completed else if from.Pending? then Confirmed else Active);
    }
  }

  /** A plate that has been normalised once is stored unchanged when it is normalised again. */
  lemma NormalizePlateIdempotent(value: string)
    ensures NormalizeVehiclePlate(NormalizeVehiclePlate(value)) == NormalizeVehiclePlate(value)
  {
    var words := Fields(TrimSpace(value));
    var upper := UpperWords(words);
    UpperOfJoin(words);
    forall w | w in upper
      ensures IsWord(w)
    {
      var i :| 0 <= i < |upper| && upper[i] == w;
      forall c | c in w ensures !IsSpace(c) {
        var k :| 0 <= k < |w| && w[k] == c;
        UpperKeepsSpaces(words[i][k]);
        assert words[i] in words && words[i][k] in words[i];
      }
    }
    JoinIsTrimmed(upper);
    FieldsOfJoin(upper);
    UpperOfJoin(upper);
    forall i | 0 <= i < |upper| ensures UpperWords(upper)[i] == upper[i] {
      forall k | 0 <= k < |upper[i]| ensures ToUpper(upper[i])[k] == upper[i][k] {
        UpperKeepsSpaces(words[i][k]);
      }
    }
    assert UpperWords(upper) == upper;
  }

  lemma {:induction false} JoinIsTrimmed(words: seq<string>)
    requires forall w | w in words :: IsWord(w)
    ensures TrimSpace(JoinWithSpace(words)) == JoinWithSpace(words)
    ensures words != [] ==> JoinWithSpace(words) != "" && !IsSpace(JoinWithSpace(words)[|JoinWithSpace(words)| - 1])
  {
    if words != [] {
      var w := words[0];
      assert IsWord(w) && w[0] in w && w[|w| - 1] in w;
      if |words| > 1 {
        JoinIsTrimmed(words[1..]);
      }
      assert JoinWithSpace(words)[0] == w[0];
    }
  }

  /** What a validated input guarantees to the statements behind it, and that validating twice changes nothing. */
  lemma ValidateIsStable(i: CreateInput)
    requires Validate(i).Ok?
    ensures var v := Validate(i).value;
            && v.start < v.end && v.parkingId > 0 && v.spotId >= 0
            && Validate(v) == Ok(v)
  {
    TrimSpaceIdempotent(i.userId);
    NormalizePlateIdempotent(i.plate);
  }
}
