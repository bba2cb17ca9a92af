/** What CreatePayment and CancelPayment store and answer, said field by field and case by case. */
module PaymentAnswers {
  import opened Basics
  import opened PaymentStore
  import opened PaymentProtocol
  import opened PaymentService
  import Pricing

  // ---------------------------------------------------------------- the amount

  /** The whole hours that have been started: as few as cover the stay. */
  predicate CoversInHours(start: Time, end: Time, n: int) {
    (n - 1) * 3_600_000_000 < end - start <= n * 3_600_000_000
  }

  lemma AmountIsHours(info: BookingInfo, tariff: Option<nat>)
    ensures var r := Amount(info, tariff);
            && (r == Err(InvalidTimeRange) <==> info.end <= info.start)
            && (r == Err(PriceFailed) <==> info.start < info.end && tariff.None?)
            && (r.Ok? <==> info.start < info.end && tariff.Some?)
            && (r.Ok? ==> exists n :: CoversInHours(info.start, info.end, n) && r.value == tariff.value * n)
  {
    if info.start < info.end && tariff.Some? {
      var n := Pricing.StartedHours(info.end - info.start);
      Pricing.StartedHoursIsLeast(info.end - info.start);
      assert CoversInHours(info.start, info.end, n);
      assert Amount(info, tariff).value == tariff.value * n;
    }
  }

  // ---------------------------------------------------------------- rows

  /** The row that a creation inserts for a booking. */
  ghost predicate IsNewPayment(p: Payment, b: BookingRef, env: Replies, info: BookingInfo, tariff: nat) {
    && p.id == env.id && p.bookingId == b && p.userId == info.userId && p.parkingId == info.parkingId
    && p.spotId == info.spotId && p.paidBy == env.paidBy
    && (exists n :: CoversInHours(info.start, info.end, n) && p.amount == tariff * n)
    && p.createdAt == env.now
  }

  predicate IsPending(p: Payment, env: Replies) {
    p.status == Pending && p.providerId == "" && p.paidAt == None && p.updatedAt == env.now
  }

  predicate IsPaidBy(p: Payment, env: Replies) {
    p.status == Paid && p.providerId == "local-" + env.uuid && p.paidAt == Some(env.paidNow)
      && p.updatedAt == env.paidNow
  }

  lemma NewPaymentHolds(b: BookingRef, env: Replies, info: BookingInfo, tariff: nat)
    requires info.start < info.end
    ensures var p := NewPayment(b, env, info, Amount(info, Some(tariff)).value);
            && Amount(info, Some(tariff)).Ok?
            && IsNewPayment(p, b, env, info, tariff) && IsPending(p, env)
            && IsNewPayment(AsPaid(p, ProviderId(env.uuid), env.paidNow), b, env, info, tariff)
            && IsPaidBy(AsPaid(p, ProviderId(env.uuid), env.paidNow), env)
  {
    AmountIsHours(info, Some(tariff));
  }

  // ---------------------------------------------------------------- between the lock and its release

  /** The checks before anything is written, in their order. */
  predicate Payable(ps: Payments, b: BookingRef, env: Replies) {
    && env.booking.Some? && env.booking.value.status != BookingCancelled && env.booking.value.status != BookingCompleted
    && env.checkOk && (forall id | id in ps && ps[id].bookingId == b :: ps[id].status != Paid)
    && env.booking.value.start < env.booking.value.end
    && env.tariff.Some? && (env.booking.value.hasEmail || env.email.Some?)
  }

  predicate HasMail(env: Replies)
    requires env.booking.Some? && (env.booking.value.hasEmail || env.email.Some?)
  {
    env.booking.value.hasEmail || env.email.value
  }

  /** When the booking cannot be paid nothing is written, and the first check that fails is the answer. */
  lemma RefusedCases(ps: Payments, b: BookingRef, env: Replies)
    ensures var (ps', r) := PayInside(ps, b, env);
            var open := && env.booking.Some? && env.booking.value.status != BookingCancelled
                        && env.booking.value.status != BookingCompleted;
            var paid := exists id :: id in ps && ps[id].bookingId == b && ps[id].status == Paid;
            && (!Payable(ps, b, env) ==> r.Err? && ps' == ps)
            && (env.booking.None? <==> r == Err(BookingUnavailable))
            && (env.booking.Some? && !open <==> r == Err(CannotBePaid))
            && (open && !env.checkOk ==> r == Err(Database))
            && (open && env.checkOk && paid <==> r == Err(AlreadyPaid))
            && (open && env.checkOk && !paid && env.booking.value.end <= env.booking.value.start <==>
                  r == Err(InvalidTimeRange))
            && (open && env.checkOk && !paid && env.booking.value.start < env.booking.value.end && env.tariff.None? <==>
                  r == Err(PriceFailed))
            && (r == Err(EmailFailed) <==>
                  && open && env.checkOk && !paid && env.booking.value.start < env.booking.value.end
                  && env.tariff.Some? && !env.booking.value.hasEmail && env.email.None?)
  {
    if env.booking.Some? { AmountIsHours(env.booking.value, env.tariff); }
  }

  /** When the booking can be paid: what is in the table afterwards and what is answered, statement by statement. */
  lemma PayableCases(ps: Payments, b: BookingRef, env: Replies)
    requires Payable(ps, b, env)
    ensures var (ps', r) := PayInside(ps, b, env);
            var inserted := !env.insert.Unreachable? && env.id !in ps;
            var marked := env.insert.Answered? && env.id !in ps && !env.markPaid.Unreachable?;
            var told := env.confirmOk && (HasMail(env) ==> env.publishOk);
            && (!inserted ==> ps' == ps)
            && (inserted ==>
                  && env.id in ps' && ps' == ps[env.id := ps'[env.id]]
                  && IsNewPayment(ps'[env.id], b, env, env.booking.value, env.tariff.value)
                  && if marked then IsPaidBy(ps'[env.id], env) else IsPending(ps'[env.id], env))
            && (r.Ok? <==> marked && env.markPaid.Answered? && told)
            && (r.Ok? ==> r.value == ps'[env.id])
            && (r == Err(ConfirmationFailed) <==> marked && env.markPaid.Answered? && !env.confirmOk)
            && (r == Err(NotificationFailed) <==> marked && env.markPaid.Answered? && env.confirmOk && !told)
            && (r == Err(Database) <==> !marked || env.markPaid.ReplyLost?)
  {
    var info := env.booking.value;
    NewPaymentHolds(b, env, info, env.tariff.value);
    assert env.tariff == Some(env.tariff.value);
    assert !HasPaid(ps, b);
    PayableInserts(ps, b, env);
    InsertCases(ps, env, NewPayment(b, env, info, Amount(info, env.tariff).value), HasMail(env));
  }

  lemma PayableInserts(ps: Payments, b: BookingRef, env: Replies)
    requires Payable(ps, b, env) && !HasPaid(ps, b) && Amount(env.booking.value, env.tariff).Ok?
    ensures var p := NewPayment(b, env, env.booking.value, Amount(env.booking.value, env.tariff).value);
            PayInside(ps, b, env) == InsertAndPay(ps, env, p, HasMail(env))
  {
  }

  lemma InsertCases(ps: Payments, env: Replies, p: Payment, mail: bool)
    requires p.id == env.id
    ensures var (ps', r) := InsertAndPay(ps, env, p, mail);
            var inserted := !env.insert.Unreachable? && env.id !in ps;
            var marked := env.insert.Answered? && env.id !in ps && !env.markPaid.Unreachable?;
            var told := env.confirmOk && (mail ==> env.publishOk);
            var paid := AsPaid(p, ProviderId(env.uuid), env.paidNow);
            && (!inserted ==> ps' == ps)
            && (inserted ==> ps' == ps[env.id := if marked then paid else p])
            && (r.Ok? <==> marked && env.markPaid.Answered? && told)
            && (r.Ok? ==> r.value == paid)
            && (r == Err(ConfirmationFailed) <==> marked && env.markPaid.Answered? && !env.confirmOk)
            && (r == Err(NotificationFailed) <==> marked && env.markPaid.Answered? && env.confirmOk && !told)
            && (r == Err(Database) <==> !marked || env.markPaid.ReplyLost?)
  {
  }

  // ---------------------------------------------------------------- the whole call

  /** The lock is got, or none is used. */
  predicate GetsLock(locks: Locks, locking: bool, b: BookingRef, env: Replies) {
    locking ==> env.lock.Answered? && b !in locks
  }

  /** What happens before the checks, and what becomes of the lock: a call that got it gives it back unless the command
      that does so is lost, and the locks of other bookings stay. */
  lemma LockCases(ps: Payments, locks: Locks, locking: bool, call: CallId, b: BookingRef, env: Replies)
    ensures var (ps', locks', r) := CreateSpec(ps, locks, locking, call, b, env);
            var valid := b != "" && env.paidBy in {Card, Cash, Kaspi};
            && (b == "" || env.paidBy.Missing? ==> r == Err(InvalidInput))
            && (b != "" && env.paidBy.Unknown? ==> r == Err(InvalidMethod))
            && (valid && locking && !env.lock.Answered? ==> r == Err(CacheFailed))
            && (valid && locking && env.lock.Answered? && b in locks ==> r == Err(AlreadyInProgress))
            && (valid && GetsLock(locks, locking, b, env) ==> (ps', r) == PayInside(ps, b, env))
            && (!(valid && GetsLock(locks, locking, b, env)) ==> ps' == ps && r.Err?)
            && locks' - {b} == locks - {b}
            && (b in locks' <==>
                  || b in locks
                  || (valid && locking && (env.lock.ReplyLost? || (env.lock.Answered? && !env.unlockOk))))
  {
    assert env.paidBy in {Card, Cash, Kaspi} <==> !env.paidBy.Missing? && !env.paidBy.Unknown?;
  }

  /** A CreatePayment that succeeds has charged the tariff for every started hour, for the booking, user, lot and spot
      as the booking service names them, paid as requested, and answers the stored row. */
  lemma CreationPaysTheStay(ps: Payments, locks: Locks, locking: bool, call: CallId, b: BookingRef, env: Replies)
    requires CreateSpec(ps, locks, locking, call, b, env).2.Ok?
    ensures var (ps', _, r) := CreateSpec(ps, locks, locking, call, b, env);
            && b != "" && env.paidBy in {Card, Cash, Kaspi} && Payable(ps, b, env)
            && IsNewPayment(r.value, b, env, env.booking.value, env.tariff.value) && IsPaidBy(r.value, env)
            && env.id !in ps && ps' == ps[env.id := r.value]
  {
    LockCases(ps, locks, locking, call, b, env);
    RefusedCases(ps, b, env);
    PayableCases(ps, b, env);
  }

  // ---------------------------------------------------------------- cancelling

  /** CancelPayment case by case: a pending payment becomes cancelled and keeps everything else but its time of change;
      nothing else is written. */
  lemma CancelCases(ps: Payments, id: PaymentId, readOk: bool, now: Time, update: CallOutcome)
    ensures var (ps', r) := CancelSpec(ps, id, readOk, now, update);
            var found := id != "" && readOk && id in ps;
            var reached := found && ps[id].status == Pending && !update.Unreachable?;
            && (r == Err(InvalidInput) <==> id == "")
            && (r == Err(PaymentNotFound) <==> id != "" && readOk && id !in ps)
            && (r == Err(NotPending) <==> found && ps[id].status != Pending)
            && (r == Err(Database) <==>
                  (id != "" && !readOk) || (found && ps[id].status == Pending && !update.Answered?))
            && (r.Ok? <==> found && ps[id].status == Pending && update.Answered?)
            && (!reached ==> ps' == ps)
            && (reached ==>
                  && id in ps' && ps' == ps[id := ps'[id]] && CancelledFrom(ps[id], ps'[id], now)
                  && (r.Ok? ==> r.value == ps'[id]))
  {
  }

  predicate CancelledFrom(p: Payment, n: Payment, now: Time) {
    && n.id == p.id && n.bookingId == p.bookingId && n.userId == p.userId && n.parkingId == p.parkingId
    && n.spotId == p.spotId && n.amount == p.amount && n.paidBy == p.paidBy && n.providerId == p.providerId
    && n.createdAt == p.createdAt && n.paidAt == p.paidAt && n.status == Cancelled && n.updatedAt == now
  }

  predicate PaidFrom(p: Payment, n: Payment, env: Replies) {
    && n.id == p.id && n.bookingId == p.bookingId && n.userId == p.userId && n.parkingId == p.parkingId
    && n.spotId == p.spotId && n.amount == p.amount && n.paidBy == p.paidBy && n.createdAt == p.createdAt
    && IsPaidBy(n, env)
  }

  /** In every interleaving one step leaves a stored payment as it is, marks it paid, or cancels it while it is
      pending. */
  lemma EveryStepKeepsRest(s: State, ev: Event, id: PaymentId)
    requires id in s.payments
    ensures id in Step(s, ev).payments
    ensures var p, n := s.payments[id], Step(s, ev).payments[id];
            || n == p
            || (&& ev.Advance? && ev.call in s.calls && s.calls[ev.call].MarkAsPaid? && s.calls[ev.call].id == id
                && PaidFrom(p, n, s.calls[ev.call].env))
            || (&& ev.Advance? && ev.call in s.calls && s.calls[ev.call].CancelUpdate? && s.calls[ev.call].target == id
                && p.status == Pending && CancelledFrom(p, n, s.calls[ev.call].cancelNow))
  {
    StepMovesTable(s, ev);
    if ev.Advance? && ev.call in s.calls {
      var pc := s.calls[ev.call];
      if pc.MarkAsPaid? { MarkMoves(s, ev.call, pc.b, pc.env, pc.id, pc.mail); }
      if pc.CancelUpdate? { CancelMoves(s, ev.call); }
      if pc.InsertPending? { InsertMoves(s, ev.call, pc.b, pc.env, pc.payment, pc.mail); }
    }
  }
}
