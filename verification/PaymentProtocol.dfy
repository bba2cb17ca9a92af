/** `CreatePayment` and `CancelPayment` of services/payment-service/internal/service/payment_service.go, cut at every
    Redis command, SQL statement and HTTP call, for any number of calls at once. Every step may fail, and a write that
    is reported as failed may have been carried out. */
module PaymentProtocol {
  import opened Basics
  import opened PaymentStore
  import Pricing

  type CallId = nat

  datatype BookingStatus = BookingPending | BookingConfirmed | BookingActive | BookingCompleted | BookingCancelled

  /** What booking-service answers about the booking that is asked for. */
  datatype BookingInfo = BookingInfo(
    userId: string, parkingId: int, spotId: int, status: BookingStatus, start: Time, end: Time, hasEmail: bool)

  /** The replies that one CreatePayment call is going to get, and the identifiers that it draws. */
  datatype Replies = Replies(
    lock: CallOutcome, booking: Option<BookingInfo>, checkOk: bool, tariff: Option<nat>, email: Option<bool>,
    id: PaymentId, paidBy: Method, now: Time, insert: CallOutcome,
    uuid: string, paidNow: Time, markPaid: CallOutcome, confirmOk: bool, publishOk: bool, unlockOk: bool)

  datatype Pc =
    | TakeLock(b: BookingRef, env: Replies)
    | FetchBooking(b: BookingRef, env: Replies)
    | CheckUnpaid(b: BookingRef, env: Replies, info: BookingInfo)
    | PriceStay(b: BookingRef, env: Replies, info: BookingInfo)
    | InsertPending(b: BookingRef, env: Replies, payment: Payment, mail: bool)
    | MarkAsPaid(b: BookingRef, env: Replies, id: PaymentId, mail: bool)
    | ConfirmBooking(b: BookingRef, env: Replies, payment: Payment, mail: bool)
    | Publish(b: BookingRef, env: Replies, payment: Payment, mail: bool)
    | Unlock(b: BookingRef, env: Replies, result: Outcome)
    | CancelUpdate(target: PaymentId, cancelNow: Time, update: CallOutcome)

  /** `locks` holds the keys "payment:lock:<booking>" that exist. Redis does not store who set a key; the model
      remembers it, and no step looks at it. Without a cache (`locking` false) no lock is taken. */
  datatype State = State(
    payments: Payments, locks: map<BookingRef, CallId>, locking: bool,
    calls: map<CallId, Pc>, results: map<CallId, Outcome>)

  datatype Event =
    | BeginCreate(call: CallId, booking: BookingRef, env: Replies)
    | BeginCancel(call: CallId, payment: PaymentId, readOk: bool, now: Time, update: CallOutcome)
    | Advance(call: CallId)
    | LockExpires(booking: BookingRef)

  /** What `Validate` says against the input of a creation. */
  function Refusal(b: BookingRef, m: Method): Option<PaymentError> {
    if b == "" || m.Missing? then Some(InvalidInput)
    else if m.Unknown? then Some(InvalidMethod)
    else None
  }

  function Next(s: State, call: CallId, pc: Pc): State {
    s.(calls := s.calls[call := pc])
  }

  function Return(s: State, call: CallId, r: Outcome): State {
    s.(calls := s.calls - {call}, results := s.results[call := r])
  }

  /** Every return after the lock was taken runs the deferred delete first. */
  function Leave(s: State, call: CallId, b: BookingRef, env: Replies, r: Outcome): State {
    if s.locking then Next(s, call, Unlock(b, env, r)) else Return(s, call, r)
  }

  function ProviderId(uuid: string): string {
    "local-" + uuid
  }

  function NewPayment(b: BookingRef, env: Replies, info: BookingInfo, amount: int): Payment {
    Payment(env.id, b, info.userId, info.parkingId, info.spotId, amount, env.paidBy, Pending, "", env.now, None,
            env.now)
  }

  /** The amount: hours rounded up, priced by the tariff that parking-service answers with. */
  function Amount(info: BookingInfo, tariff: Option<nat>): Result<int, PaymentError> {
    if info.end <= info.start then Err(InvalidTimeRange)
    else if tariff.None? then Err(PriceFailed)
    else Ok(Pricing.Charge(tariff.value, info.end - info.start))
  }

  function TakeLockStep(s: State, call: CallId, b: BookingRef, env: Replies): State {
    if env.lock.Unreachable? then Return(s, call, Err(CacheFailed))
    else if b in s.locks then Return(s, call, Err(if env.lock.ReplyLost? then CacheFailed else AlreadyInProgress))
    else
      var held := s.(locks := s.locks[b := call]);
      if env.lock.ReplyLost? then Return(held, call, Err(CacheFailed)) else Next(held, call, FetchBooking(b, env))
  }

  function FetchStep(s: State, call: CallId, b: BookingRef, env: Replies): State {
    if env.booking.None? then Leave(s, call, b, env, Err(BookingUnavailable))
    else if env.booking.value.status in {BookingCancelled, BookingCompleted}
      then Leave(s, call, b, env, Err(CannotBePaid))
    else Next(s, call, CheckUnpaid(b, env, env.booking.value))
  }

  function CheckStep(s: State, call: CallId, b: BookingRef, env: Replies, info: BookingInfo): State {
    if !env.checkOk then Leave(s, call, b, env, Err(Database))
    else if HasPaid(s.payments, b) then Leave(s, call, b, env, Err(AlreadyPaid))
    else Next(s, call, PriceStay(b, env, info))
  }

  function PriceStep(s: State, call: CallId, b: BookingRef, env: Replies, info: BookingInfo): State {
    match Amount(info, env.tariff)
    case Err(e) => Leave(s, call, b, env, Err(e))
    case Ok(amount) =>
      if !info.hasEmail && env.email.None? then Leave(s, call, b, env, Err(EmailFailed))
      else Next(s, call, InsertPending(b, env, NewPayment(b, env, info, amount), info.hasEmail || env.email.value))
  }

  function InsertStep(s: State, call: CallId, b: BookingRef, env: Replies, p: Payment, mail: bool): State {
    if env.insert.Unreachable? then Leave(s, call, b, env, Err(Database))
    else
      match InsertPayment(s.payments, p)
      case Err(e) => Leave(s, call, b, env, Err(e))
      case Ok(ps) =>
        var inserted := s.(payments := ps);
        if env.insert.ReplyLost? then Leave(inserted, call, b, env, Err(Database))
        else Next(inserted, call, MarkAsPaid(b, env, p.id, mail))
  }

  function MarkStep(s: State, call: CallId, b: BookingRef, env: Replies, id: PaymentId, mail: bool): State {
    if env.markPaid.Unreachable? then Leave(s, call, b, env, Err(Database))
    else
      var (ps, r) := MarkPaidRow(s.payments, id, ProviderId(env.uuid), env.paidNow);
      var marked := s.(payments := ps);
      if env.markPaid.ReplyLost? then Leave(marked, call, b, env, Err(Database))
      else if r.Err? then Leave(marked, call, b, env, r)
      else Next(marked, call, ConfirmBooking(b, env, r.value, mail))
  }

  function CreateStep(s: State, call: CallId, pc: Pc): State
    requires !pc.CancelUpdate?
  {
    match pc
    case TakeLock(b, env) => TakeLockStep(s, call, b, env)
    case FetchBooking(b, env) => FetchStep(s, call, b, env)
    case CheckUnpaid(b, env, info) => CheckStep(s, call, b, env, info)
    case PriceStay(b, env, info) => PriceStep(s, call, b, env, info)
    case InsertPending(b, env, p, mail) => InsertStep(s, call, b, env, p, mail)
    case MarkAsPaid(b, env, id, mail) => MarkStep(s, call, b, env, id, mail)
    case ConfirmBooking(b, env, p, mail) =>
      if !env.confirmOk then Leave(s, call, b, env, Err(ConfirmationFailed))
      else Next(s, call, Publish(b, env, p, mail))
    case Publish(b, env, p, mail) =>
      Leave(s, call, b, env, if mail && !env.publishOk then Err(NotificationFailed) else Ok(p))
    case Unlock(b, env, r) =>
      Return(if env.unlockOk then s.(locks := s.locks - {b}) else s, call, r)
  }

  /** The update of CancelPayment, after it has read a pending payment. */
  function CancelStep(s: State, call: CallId, pc: Pc): State
    requires pc.CancelUpdate?
  {
    if pc.update.Unreachable? then Return(s, call, Err(Database))
    else
      var (ps, r) := CancelRow(s.payments, pc.target, pc.cancelNow);
      Return(s.(payments := ps), call, if pc.update.ReplyLost? then Err(Database) else r)
  }

  function Step(s: State, ev: Event): State {
    match ev
    case BeginCreate(call, b, env) =>
      if call in s.calls then s
      else if Refusal(b, env.paidBy).Some? then Return(s, call, Err(Refusal(b, env.paidBy).value))
      else Next(s, call, if s.locking then TakeLock(b, env) else FetchBooking(b, env))
    case BeginCancel(call, id, readOk, now, update) =>
      if call in s.calls then s
      else if id == "" then Return(s, call, Err(InvalidInput))
      else if !readOk then Return(s, call, Err(Database))
      else if id !in s.payments then Return(s, call, Err(PaymentNotFound))
      else if s.payments[id].status != Pending then Return(s, call, Err(NotPending))
      else Next(s, call, CancelUpdate(id, now, update))
    case Advance(call) =>
      if call !in s.calls then s
      else if s.calls[call].CancelUpdate? then CancelStep(s, call, s.calls[call])
      else CreateStep(s, call, s.calls[call])
    case LockExpires(b) => s.(locks := s.locks - {b})
  }

  function Run(locking: bool, events: seq<Event>): State {
    if events == [] then State(map[], map[], locking, map[], map[])
    else Step(Run(locking, events[..|events| - 1]), events[|events| - 1])
  }

  // ---------------------------------------------------------------- what one step changes

  predicate PastCheck(pc: Pc) {
    pc.PriceStay? || pc.InsertPending? || pc.MarkAsPaid?
  }

  lemma OthersStay(s: State, s': State, call: CallId)
    requires s'.calls - {call} == s.calls - {call}
    ensures forall c | c != call :: c in s'.calls <==> c in s.calls
    ensures forall c | c != call && c in s.calls :: s'.calls[c] == s.calls[c]
  {
    forall c | c != call ensures c in s'.calls <==> c in s.calls {
      assert c in s'.calls - {call} <==> c in s.calls - {call};
    }
    forall c | c != call && c in s.calls ensures s'.calls[c] == s.calls[c] {
      assert (s'.calls - {call})[c] == (s.calls - {call})[c];
    }
  }

  lemma TakeLockMoves(s: State, call: CallId)
    requires call in s.calls && s.calls[call].TakeLock?
    ensures var s', pc := Step(s, Advance(call)), s.calls[call];
            && s'.payments == s.payments && s'.locking == s.locking && s'.calls - {call} == s.calls - {call}
            && (s'.locks == s.locks || (pc.b !in s.locks && s'.locks == s.locks[pc.b := call]))
            && (call in s'.calls ==>
                  s'.calls[call] == FetchBooking(pc.b, pc.env) && pc.b !in s.locks && s'.locks == s.locks[pc.b := call])
  {
    var s' := Step(s, Advance(call));
    assert s'.calls - {call} == s.calls - {call};
  }

  predicate IsQuiet(pc: Pc) {
    pc.FetchBooking? || pc.CheckUnpaid? || pc.PriceStay? || pc.ConfirmBooking? || pc.Publish?
  }

  /** Where a step that writes no table can lead. */
  predicate QuietNext(ps: Payments, pc: Pc, next: Pc)
    requires IsQuiet(pc)
  {
    && !next.MarkAsPaid? && !next.CancelUpdate? && next.b == pc.b
    && (next.InsertPending? ==>
          next.payment.bookingId == pc.b && next.payment.status == Pending && PaidMarks(next.payment))
    && (PastCheck(next) ==> PastCheck(pc) || !HasPaid(ps, pc.b))
  }

  predicate QuietMove(s: State, s': State, call: CallId)
    requires call in s.calls && IsQuiet(s.calls[call])
  {
    && s'.payments == s.payments && s'.locks == s.locks && s'.locking == s.locking
    && s'.calls - {call} == s.calls - {call}
    && (call in s'.calls ==> QuietNext(s.payments, s.calls[call], s'.calls[call]))
  }

  lemma LeavingIsQuiet(s: State, call: CallId, b: BookingRef, env: Replies, r: Outcome)
    requires call in s.calls && IsQuiet(s.calls[call]) && s.calls[call].b == b
    ensures QuietMove(s, Leave(s, call, b, env, r), call)
  {
    var s' := Leave(s, call, b, env, r);
    assert s'.calls - {call} == s.calls - {call};
  }

  lemma GoingOnIsQuiet(s: State, call: CallId, next: Pc)
    requires call in s.calls && IsQuiet(s.calls[call]) && QuietNext(s.payments, s.calls[call], next)
    ensures QuietMove(s, Next(s, call, next), call)
  {
    assert Next(s, call, next).calls - {call} == s.calls - {call};
  }

  lemma FetchMoves(s: State, call: CallId, b: BookingRef, env: Replies)
    requires call in s.calls && s.calls[call] == FetchBooking(b, env)
    ensures QuietMove(s, FetchStep(s, call, b, env), call)
  {
    LeavingIsQuiet(s, call, b, env, Err(BookingUnavailable));
    LeavingIsQuiet(s, call, b, env, Err(CannotBePaid));
    if env.booking.Some? { GoingOnIsQuiet(s, call, CheckUnpaid(b, env, env.booking.value)); }
  }

  lemma CheckMoves(s: State, call: CallId, b: BookingRef, env: Replies, info: BookingInfo)
    requires call in s.calls && s.calls[call] == CheckUnpaid(b, env, info)
    ensures QuietMove(s, CheckStep(s, call, b, env, info), call)
  {
    LeavingIsQuiet(s, call, b, env, Err(Database));
    LeavingIsQuiet(s, call, b, env, Err(AlreadyPaid));
    if !HasPaid(s.payments, b) { GoingOnIsQuiet(s, call, PriceStay(b, env, info)); }
  }

  lemma PriceMoves(s: State, call: CallId, b: BookingRef, env: Replies, info: BookingInfo)
    requires call in s.calls && s.calls[call] == PriceStay(b, env, info)
    ensures QuietMove(s, PriceStep(s, call, b, env, info), call)
  {
    var amount := Amount(info, env.tariff);
    if amount.Err? {
      LeavingIsQuiet(s, call, b, env, Err(amount.error));
    } else if !info.hasEmail && env.email.None? {
      LeavingIsQuiet(s, call, b, env, Err(EmailFailed));
    } else {
      GoingOnIsQuiet(s, call, InsertPending(b, env, NewPayment(b, env, info, amount.value),
                                            info.hasEmail || env.email.value));
    }
  }

  lemma QuietStepMoves(s: State, call: CallId)
    requires call in s.calls && IsQuiet(s.calls[call])
    ensures QuietMove(s, Step(s, Advance(call)), call)
  {
    match s.calls[call]
    case FetchBooking(b, env) => FetchMoves(s, call, b, env);
    case CheckUnpaid(b, env, info) => CheckMoves(s, call, b, env, info);
    case PriceStay(b, env, info) => PriceMoves(s, call, b, env, info);
    case ConfirmBooking(b, env, p, mail) =>
      LeavingIsQuiet(s, call, b, env, Err(ConfirmationFailed));
      GoingOnIsQuiet(s, call, Publish(b, env, p, mail));
    case Publish(b, env, p, mail) =>
      LeavingIsQuiet(s, call, b, env, if mail && !env.publishOk then Err(NotificationFailed) else Ok(p));
  }

  lemma OthersUntouched(s: State, call: CallId, b: BookingRef, env: Replies, r: Outcome, next: Pc)
    ensures Leave(s, call, b, env, r).calls - {call} == s.calls - {call}
    ensures Next(s, call, next).calls - {call} == s.calls - {call}
  {
  }

  lemma InsertMoves(s: State, call: CallId, b: BookingRef, env: Replies, p: Payment, mail: bool)
    ensures var s' := InsertStep(s, call, b, env, p, mail);
            && s'.locks == s.locks && s'.locking == s.locking && s'.calls - {call} == s.calls - {call}
            && (s'.payments == s.payments || InsertPayment(s.payments, p) == Ok(s'.payments))
            && (call in s'.calls ==>
                  || s'.calls[call].Unlock?
                  || (s'.calls[call] == MarkAsPaid(b, env, p.id, mail)
                      && InsertPayment(s.payments, p) == Ok(s'.payments)))
            && (call in s'.calls ==> s'.calls[call].b == b)
  {
    var mark := MarkAsPaid(b, env, p.id, mail);
    if env.insert.Unreachable? || p.id in s.payments {
      OthersUntouched(s, call, b, env, Err(Database), mark);
    } else {
      OthersUntouched(s.(payments := s.payments[p.id := p]), call, b, env, Err(Database), mark);
    }
  }

  lemma MarkMoves(s: State, call: CallId, b: BookingRef, env: Replies, id: PaymentId, mail: bool)
    ensures var s' := MarkStep(s, call, b, env, id, mail);
            && s'.locks == s.locks && s'.locking == s.locking && s'.calls - {call} == s.calls - {call}
            && (call in s'.calls ==>
                  (s'.calls[call].ConfirmBooking? || s'.calls[call].Unlock?) && s'.calls[call].b == b)
            && s'.payments == if env.markPaid.Unreachable? then s.payments
                              else MarkPaidRow(s.payments, id, ProviderId(env.uuid), env.paidNow).0
  {
    var (ps, r) := MarkPaidRow(s.payments, id, ProviderId(env.uuid), env.paidNow);
    var marked := s.(payments := ps);
    if env.markPaid.Unreachable? {
      OthersUntouched(s, call, b, env, Err(Database), Unlock(b, env, r));
    } else if env.markPaid.ReplyLost? {
      OthersUntouched(marked, call, b, env, Err(Database), Unlock(b, env, r));
    } else {
      OthersUntouched(marked, call, b, env, r,
                      if r.Ok? then ConfirmBooking(b, env, r.value, mail) else Unlock(b, env, r));
    }
  }

  lemma UnlockMoves(s: State, call: CallId)
    requires call in s.calls && s.calls[call].Unlock?
    ensures var s', b := Step(s, Advance(call)), s.calls[call].b;
            && s'.payments == s.payments && s'.locking == s.locking && s'.calls == s.calls - {call}
            && (s'.locks == s.locks || s'.locks == s.locks - {b})
  {
  }

  lemma CancelMoves(s: State, call: CallId)
    requires call in s.calls && s.calls[call].CancelUpdate?
    ensures var s', pc := Step(s, Advance(call)), s.calls[call];
            && s'.locks == s.locks && s'.locking == s.locking && s'.calls == s.calls - {call}
            && (s'.payments == s.payments || s'.payments == CancelRow(s.payments, pc.target, pc.cancelNow).0)
  {
  }

  lemma BeginMoves(s: State, ev: Event)
    requires (ev.BeginCreate? || ev.BeginCancel?) && ev.call !in s.calls
    ensures var s' := Step(s, ev);
            && s'.payments == s.payments && s'.locks == s.locks && s'.locking == s.locking
            && s'.calls - {ev.call} == s.calls
            && (ev.call in s'.calls ==>
                  var pc := s'.calls[ev.call];
                  pc.CancelUpdate? || pc.TakeLock? || (!s.locking && pc.FetchBooking?))
  {
    match ev
    case BeginCreate(call, b, env) =>
      FirstPc(s, call, if s.locking then TakeLock(b, env) else FetchBooking(b, env), Err(InvalidInput));
    case BeginCancel(call, id, _, now, update) => FirstPc(s, call, CancelUpdate(id, now, update), Err(InvalidInput));
  }

  lemma FirstPc(s: State, call: CallId, pc: Pc, r: Outcome)
    requires call !in s.calls
    ensures Next(s, call, pc).calls - {call} == s.calls && s.calls - {call} == s.calls
  {
  }

  /** What one event can do to the table: the one statement that the call stands before, or nothing. */
  predicate TableMove(s: State, ev: Event, ps: Payments) {
    || ps == s.payments
    || (ev.Advance? && ev.call in s.calls && match s.calls[ev.call]
        case InsertPending(_, _, p, _) => InsertPayment(s.payments, p) == Ok(ps)
        case MarkAsPaid(_, env, id, _) =>
          !env.markPaid.Unreachable? && ps == MarkPaidRow(s.payments, id, ProviderId(env.uuid), env.paidNow).0
        case CancelUpdate(id, now, _) => ps == CancelRow(s.payments, id, now).0
        case _ => false)
  }

  lemma StepMovesTable(s: State, ev: Event)
    ensures TableMove(s, ev, Step(s, ev).payments)
  {
    if ev.Advance? && ev.call in s.calls {
      match s.calls[ev.call]
      case TakeLock(_, _) => TakeLockMoves(s, ev.call);
      case InsertPending(b, env, p, mail) => InsertMoves(s, ev.call, b, env, p, mail);
      case MarkAsPaid(b, env, id, mail) => MarkMoves(s, ev.call, b, env, id, mail);
      case CancelUpdate(_, _, _) => CancelMoves(s, ev.call);
      case Unlock(_, _, _) => UnlockMoves(s, ev.call);
      case _ => QuietStepMoves(s, ev.call);
    }
  }

  lemma RunSnoc(locking: bool, events: seq<Event>, ev: Event)
    ensures Run(locking, events + [ev]) == Step(Run(locking, events), ev)
  {
    assert (events + [ev])[..|events|] == events;
  }
}
