/** The operations of services/booking-service/internal/service/booking_service.go, each taken as one
    uninterrupted call over the booking store and the parking service, with every reply of a dependency as input. */
module BookingFlow {
  import opened Basics
  import opened GoText
  import opened BookingDomain
  import opened BookingStore
  import opened ParkingSpots

  datatype World = World(store: Store, parking: Parking)

  /** The reply of a lookup, by the gRPC code that `normalizeDependencyError` distinguishes. */
  datatype Lookup = Found | CodeNotFound | CodeInvalidArgument | OtherCode

  /** The texts that `normalizeParkingError` looks for. */
  datatype Wording = SaysNotFound | SaysUnavailable | SaysInvalid | SaysOther

  /** The HTTP client reports every refusal as "parking-service returned status: ...", which names none of them. */
  const CLIENT_WORDING := SaysOther

  datatype CreateEnv = CreateEnv(
    user: Lookup, lot: Lookup, spot: Lookup, listOk: bool, pick: nat,
    reserve: CallOutcome, insert: InsertEnv, release: CallOutcome)

  datatype ChangeEnv = ChangeEnv(read: ReadEnv, write: WriteEnv, spotCall: CallOutcome, publishOk: bool, clock: Time)

  function NormalizeDependencyError(reply: Lookup, notFound: Error): Error {
    if reply == CodeNotFound then notFound else InvalidInput
  }

  function NormalizeParkingError(text: Wording): Error {
    match text
    case SaysNotFound => ParkingSpotNotFound
    case SaysUnavailable => BookingConflict
    case SaysInvalid => InvalidInput
    case SaysOther => InvalidInput
  }

  // ---------------------------------------------------------------- calls to the parking service

  function CallReserve(p: Parking, id: int, call: CallOutcome): (Parking, bool) {
    var (p', r) := ReserveSpec(p, id, true);
    match call
    case Answered => (p', r.Ok?)
    case Unreachable => (p, false)
    case ReplyLost => (p', false)
  }

  function CallRelease(p: Parking, id: int, call: CallOutcome): Parking {
    if call.Unreachable? then p else ReleaseSpec(p, id, true).0
  }

  function CallOccupy(p: Parking, id: int, call: CallOutcome): Parking {
    if call.Unreachable? then p else UpdateSpotSpec(p, id, Occupied, true).0
  }

  // ---------------------------------------------------------------- CreateBooking

  /** The spots of a lot whose listed status reads AVAILABLE, by id. */
  ghost function Candidates(p: Parking, lot: int): seq<int> {
    Ascending(AvailableIn(p, lot))
  }

  ghost function PickSpot(p: Parking, lot: int, env: CreateEnv): Outcome<int> {
    var candidates := Candidates(p, lot);
    if !env.listOk then Err(DependencyFailed)
    else if candidates == [] then Err(NoAvailableSpots)
    else
      var chosen := candidates[env.pick % |candidates|];
      if chosen <= 0 then Err(InvalidInput) else Ok(chosen)
  }

  function CheckSpot(p: Parking, input: CreateInput, env: CreateEnv): Outcome<int> {
    var reply := if env.spot.Found? && input.spotId !in p.spots then CodeNotFound else env.spot;
    if !reply.Found? then Err(NormalizeDependencyError(reply, ParkingSpotNotFound))
    else if input.spotId in p.spots && p.spots[input.spotId].lot != input.parkingId then Err(InvalidInput)
    else Ok(input.spotId)
  }

  /** The lookups of user and lot, and the choice of the spot. */
  ghost function Lookups(p: Parking, input: CreateInput, env: CreateEnv): Outcome<CreateInput> {
    var lot := if env.lot.Found? && input.parkingId !in p.totals then CodeNotFound else env.lot;
    if !env.user.Found? then Err(NormalizeDependencyError(env.user, UserNotFound))
    else if !lot.Found? then Err(NormalizeDependencyError(lot, ParkingLotNotFound))
    else
      match (if input.spotId <= 0 then PickSpot(p, input.parkingId, env) else CheckSpot(p, input, env))
      case Err(e) => Err(e)
      case Ok(spot) => Ok(input.(spotId := spot))
  }

  /** Everything before the reservation. */
  ghost function Prepare(p: Parking, raw: CreateInput, env: CreateEnv): Outcome<CreateInput> {
    match Validate(raw)
    case Err(e) => Err(e)
    case Ok(input) => Lookups(p, input, env)
  }

  ghost function CreateBooking(w: World, raw: CreateInput, env: CreateEnv): (World, Outcome<Booking>) {
    match Prepare(w.parking, raw, env)
    case Err(e) => (w, Err(e))
    case Ok(input) => Commit(w, input, env)
  }

  /** Reserve, insert, and give the spot back when the insert fails. */
  function Commit(w: World, input: CreateInput, env: CreateEnv): (World, Outcome<Booking>) {
    var (reserved, ok) := CallReserve(w.parking, input.spotId, env.reserve);
    if !ok then (World(w.store, reserved), Err(NormalizeParkingError(CLIENT_WORDING)))
    else
      var (store, r) := CreateSpec(w.store, input, env.insert);
      match r
      case Err(e) => (World(store, CallRelease(reserved, input.spotId, env.release)), Err(e))
      case Ok(b) => (World(store, reserved), Ok(b))
  }

  // ---------------------------------------------------------------- status changes

  function Transition(s: Store, id: BookingId, next: Status, reason: string, env: ChangeEnv)
    : (Store, Outcome<Booking>)
  {
    if id == "" then (s, Err(InvalidInput))
    else
      var (seen, r) := GetSpec(s, id, env.read);
      match r
      case Err(e) => (seen, Err(e))
      case Ok(b) =>
        if !CanTransition(b.status, next) then (seen, Err(InvalidStatusTransition))
        else UpdateSpec(seen, id, next, reason, env.write)
  }

  function Published(r: Outcome<Booking>, env: ChangeEnv): Outcome<Booking> {
    if r.Ok? && !env.publishOk then Err(DependencyFailed) else r
  }

  function ConfirmBooking(w: World, id: BookingId, env: ChangeEnv): (World, Outcome<Booking>) {
    var (store, r) := Transition(w.store, id, Confirmed, "", env);
    (w.(store := store), Published(r, env))
  }

  function CancelReason(reason: string): string {
    var trimmed := TrimSpace(reason);
    if trimmed == "" then "cancelled" else trimmed
  }

  function CancelBooking(w: World, id: BookingId, reason: string, env: ChangeEnv): (World, Outcome<Booking>) {
    var (store, r) := Transition(w.store, id, Cancelled, CancelReason(reason), env);
    match r
    case Err(e) => (w.(store := store), r)
    case Ok(b) =>
      (World(store, if b.spotId > 0 then CallRelease(w.parking, b.spotId, env.spotCall) else w.parking),
       Published(r, env))
  }

  function StartBooking(w: World, id: BookingId, env: ChangeEnv): (World, Outcome<Booking>) {
    var (seen, r) := GetSpec(w.store, id, env.read);
    match r
    case Err(e) => (w.(store := seen), r)
    case Ok(b) =>
      if b.status != Confirmed || env.clock < b.start then (w.(store := seen), Err(InvalidStatusTransition))
      else
        var (store, updated) := UpdateSpec(seen, id, Active, "", env.write);
        match updated
        case Err(e) => (w.(store := store), updated)
        case Ok(u) =>
          (World(store, if u.spotId > 0 then CallOccupy(w.parking, u.spotId, env.spotCall) else w.parking), updated)
  }

  function CompleteBooking(w: World, id: BookingId, env: ChangeEnv): (World, Outcome<Booking>) {
    var (store, r) := Transition(w.store, id, Completed, "", env);
    match r
    case Err(e) => (w.(store := store), r)
    case Ok(b) =>
      (World(store, if b.spotId > 0 then CallRelease(w.parking, b.spotId, env.spotCall) else w.parking), r)
  }
}
