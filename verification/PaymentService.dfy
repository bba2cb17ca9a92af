/** services/payment-service/internal/service/payment_service.go as the object it is, tied to the protocol:
    a call that nothing interrupts is the run of its own steps. */
module PaymentService {
  import opened Basics
  import opened PaymentStore
  import opened PaymentProtocol
  import opened PaymentRows
  import opened PaymentLocks
  import Pricing

  type Locks = map<BookingRef, CallId>

  /** What CreatePayment does between taking and giving back the lock. */
  function PayInside(ps: Payments, b: BookingRef, env: Replies): (Payments, Outcome) {
    if env.booking.None? then (ps, Err(BookingUnavailable))
    else
      var info := env.booking.value;
      if info.status in {BookingCancelled, BookingCompleted} then (ps, Err(CannotBePaid))
      else if !env.checkOk then (ps, Err(Database))
      else if HasPaid(ps, b) then (ps, Err(AlreadyPaid))
      else
        match Amount(info, env.tariff)
        case Err(e) => (ps, Err(e))
        case Ok(amount) =>
          if !info.hasEmail && env.email.None? then (ps, Err(EmailFailed))
          else InsertAndPay(ps, env, NewPayment(b, env, info, amount), info.hasEmail || env.email.value)
  }

  function InsertAndPay(ps: Payments, env: Replies, p: Payment, mail: bool): (Payments, Outcome) {
    if env.insert.Unreachable? || p.id in ps then (ps, Err(Database))
    else if env.insert.ReplyLost? then (ps[p.id := p], Err(Database))
    else if env.markPaid.Unreachable? then (ps[p.id := p], Err(Database))
    else
      var paid := AsPaid(p, ProviderId(env.uuid), env.paidNow);
      (ps[p.id := paid],
       if env.markPaid.ReplyLost? then Err(Database)
       else if !env.confirmOk then Err(ConfirmationFailed)
       else if mail && !env.publishOk then Err(NotificationFailed)
       else Ok(paid))
  }

  function CreateSpec(ps: Payments, locks: Locks, locking: bool, call: CallId, b: BookingRef, env: Replies)
    : (Payments, Locks, Outcome)
  {
    if Refusal(b, env.paidBy).Some? then (ps, locks, Err(Refusal(b, env.paidBy).value))
    else if !locking then
      var (ps', r) := PayInside(ps, b, env);
      (ps', locks, r)
    else if env.lock.Unreachable? then (ps, locks, Err(CacheFailed))
    else if b in locks then (ps, locks, Err(if env.lock.ReplyLost? then CacheFailed else AlreadyInProgress))
    else if env.lock.ReplyLost? then (ps, locks[b := call], Err(CacheFailed))
    else
      var (ps', r) := PayInside(ps, b, env);
      (ps', if env.unlockOk then locks[b := call] - {b} else locks[b := call], r)
  }

  /** Read the payment, refuse any but a pending one, and cancel it. */
  function CancelSpec(ps: Payments, id: PaymentId, readOk: bool, now: Time, update: CallOutcome): (Payments, Outcome) {
    if id == "" then (ps, Err(InvalidInput))
    else if !readOk then (ps, Err(Database))
    else if id !in ps then (ps, Err(PaymentNotFound))
    else if ps[id].status != Pending then (ps, Err(NotPending))
    else if update.Unreachable? then (ps, Err(Database))
    else
      var cancelled := ps[id].(status := Cancelled, updatedAt := now);
      (ps[id := cancelled], if update.ReplyLost? then Err(Database) else Ok(cancelled))
  }

  class Service {
    const repo: Repository
    const locking: bool
    var locks: Locks

    constructor (repo: Repository, locking: bool)
      ensures this.repo == repo && this.locking == locking && locks == map[]
    {
      this.repo, this.locking, locks := repo, locking, map[];
    }

    method CreatePayment(call: CallId, b: BookingRef, env: Replies) returns (r: Outcome)
      modifies this, repo
      ensures (repo.payments, locks, r) == CreateSpec(old(repo.payments), old(locks), locking, call, b, env)
    {
      if b == "" || env.paidBy.Missing? {
        return Err(InvalidInput);
      }
      if env.paidBy.Unknown? {
        return Err(InvalidMethod);
      }
      if locking {
        var ok := SetNX(b, call, env.lock);
        if ok.None? {
          return Err(CacheFailed);
        }
        if !ok.value {
          return Err(AlreadyInProgress);
        }
      }
      r := Pay(b, env);
      if locking && env.unlockOk {
        locks := locks - {b};
      }
    }

    /** The body between the lock and the deferred unlock. */
    method Pay(b: BookingRef, env: Replies) returns (r: Outcome)
      modifies repo
      ensures (repo.payments, r) == PayInside(old(repo.payments), b, env)
    {
      if env.booking.None? {
        return Err(BookingUnavailable);
      }
      var booking := env.booking.value;
      if booking.status == BookingCancelled || booking.status == BookingCompleted {
        return Err(CannotBePaid);
      }
      if !env.checkOk {
        return Err(Database);
      }
      var hasPaidPayment := repo.HasPaidPaymentForBooking(b);
      if hasPaidPayment {
        return Err(AlreadyPaid);
      }
      var hours := Pricing.BilledHours(booking.start, booking.end);
      if hours.Err? {
        return Err(InvalidTimeRange);
      }
      if env.tariff.None? {
        return Err(PriceFailed);
      }
      var amount := env.tariff.value * hours.value;
      var mail := booking.hasEmail;
      if !mail {
        if env.email.None? {
          return Err(EmailFailed);
        }
        mail := env.email.value;
      }
      var payment := Payment(env.id, b, booking.userId, booking.parkingId, booking.spotId, amount, env.paidBy,
                             Pending, "", env.now, None, env.now);
      var created := repo.Create(payment, !env.insert.Unreachable?);
      if created.Err? || env.insert.ReplyLost? {
        return Err(Database);
      }
      if env.markPaid.Unreachable? {
        return Err(Database);
      }
      assert repo.payments == old(repo.payments)[payment.id := payment];
      ghost var after := AsPaid(payment, ProviderId(env.uuid), env.paidNow);
      var paid := repo.MarkPaid(payment.id, "local-" + env.uuid, env.paidNow);
      assert paid == Ok(after) && repo.payments == old(repo.payments)[payment.id := after];
      if paid.Err? || env.markPaid.ReplyLost? {
        return Err(Database);
      }
      if !env.confirmOk {
        return Err(ConfirmationFailed);
      }
      if mail && !env.publishOk {
        return Err(NotificationFailed);
      }
      return paid;
    }

    /** Redis `SET NX`: the reply, if one arrives, says whether the key was set. */
    method SetNX(key: BookingRef, call: CallId, outcome: CallOutcome) returns (r: Option<bool>)
      modifies this`locks
      ensures locks == if outcome.Unreachable? || key in old(locks) then old(locks) else old(locks)[key := call]
      ensures r == if outcome.Answered? then Some(key !in old(locks)) else None
    {
      if outcome.Unreachable? {
        return None;
      }
      var free := key !in locks;
      if free {
        locks := locks[key := call];
      }
      return if outcome.Answered? then Some(free) else None;
    }

    method CancelPayment(id: PaymentId, readOk: bool, now: Time, update: CallOutcome) returns (r: Outcome)
      modifies repo
      ensures (repo.payments, r) == CancelSpec(old(repo.payments), id, readOk, now, update)
    {
      if id == "" {
        return Err(InvalidInput);
      }
      r := repo.GetByID(id, readOk);
      if r.Err? {
        return;
      }
      if r.value.status != Pending {
        return Err(NotPending);
      }
      if update.Unreachable? {
        return Err(Database);
      }
      r := repo.Cancel(id, now);
      if update.ReplyLost? {
        return Err(Database);
      }
    }
  }

  // ---------------------------------------------------------------- one call on its own

  function Alone(s: State, call: CallId, n: nat): State
    decreases n
  {
    if n == 0 then s else Alone(Step(s, Advance(call)), call, n - 1)
  }

  function At(s: State, ps: Payments, locks: Locks, call: CallId, pc: Pc): State {
    s.(payments := ps, locks := locks, calls := s.calls[call := pc])
  }

  function End(s: State, ps: Payments, locks: Locks, call: CallId, r: Outcome): State {
    s.(payments := ps, locks := locks, calls := s.calls - {call}, results := s.results[call := r])
  }

  lemma {:induction false} FinishedCallStays(s: State, call: CallId, n: nat)
    requires call !in s.calls
    ensures Alone(s, call, n) == s
  {
    if n > 0 { FinishedCallStays(s, call, n - 1); }
  }

  lemma GoesOn(s: State, ps: Payments, locks: Locks, call: CallId, pc: Pc, ps2: Payments, locks2: Locks, pc2: Pc,
               n: nat)
    requires n >= 1
    requires Step(At(s, ps, locks, call, pc), Advance(call)) == At(At(s, ps, locks, call, pc), ps2, locks2, call, pc2)
    ensures Alone(At(s, ps, locks, call, pc), call, n) == Alone(At(s, ps2, locks2, call, pc2), call, n - 1)
  {
    assert s.calls[call := pc][call := pc2] == s.calls[call := pc2];
  }

  lemma ReturnsAtOnce(s: State, ps: Payments, locks: Locks, call: CallId, pc: Pc, ps2: Payments, locks2: Locks,
                      r: Outcome, n: nat)
    requires n >= 1
    requires Step(At(s, ps, locks, call, pc), Advance(call)) == End(At(s, ps, locks, call, pc), ps2, locks2, call, r)
    ensures Alone(At(s, ps, locks, call, pc), call, n) == End(s, ps2, locks2, call, r)
  {
    assert s.calls[call := pc] - {call} == s.calls - {call};
    FinishedCallStays(End(s, ps2, locks2, call, r), call, n - 1);
  }

  function Unlocked(s: State, locks: Locks, b: BookingRef, env: Replies): Locks {
    if s.locking && env.unlockOk then locks - {b} else locks
  }

  lemma LeavesAlone(s: State, ps: Payments, locks: Locks, call: CallId, pc: Pc, ps2: Payments, b: BookingRef,
                    env: Replies, r: Outcome, n: nat)
    requires n >= 2
    requires Step(At(s, ps, locks, call, pc), Advance(call)) == Leave(At(s, ps2, locks, call, pc), call, b, env, r)
    ensures Alone(At(s, ps, locks, call, pc), call, n) == End(s, ps2, Unlocked(s, locks, b, env), call, r)
  {
    if s.locking {
      GoesOn(s, ps, locks, call, pc, ps2, locks, Unlock(b, env, r), n);
      ReturnsAtOnce(s, ps2, locks, call, Unlock(b, env, r), ps2, Unlocked(s, locks, b, env), r, n - 1);
    } else {
      ReturnsAtOnce(s, ps, locks, call, pc, ps2, locks, r, n);
    }
  }

  lemma FetchGoesOn(s: State, ps: Payments, locks: Locks, call: CallId, b: BookingRef, env: Replies, n: nat)
    requires n >= 1 && env.booking.Some? && env.booking.value.status !in {BookingCancelled, BookingCompleted}
    ensures Alone(At(s, ps, locks, call, FetchBooking(b, env)), call, n)
         == Alone(At(s, ps, locks, call, CheckUnpaid(b, env, env.booking.value)), call, n - 1)
  {
    GoesOn(s, ps, locks, call, FetchBooking(b, env), ps, locks, CheckUnpaid(b, env, env.booking.value), n);
  }

  lemma CheckGoesOn(s: State, ps: Payments, locks: Locks, call: CallId, b: BookingRef, env: Replies, info: BookingInfo,
                    n: nat)
    requires n >= 1 && env.checkOk && !HasPaid(ps, b)
    ensures Alone(At(s, ps, locks, call, CheckUnpaid(b, env, info)), call, n)
         == Alone(At(s, ps, locks, call, PriceStay(b, env, info)), call, n - 1)
  {
    GoesOn(s, ps, locks, call, CheckUnpaid(b, env, info), ps, locks, PriceStay(b, env, info), n);
  }

  lemma PriceGoesOn(s: State, ps: Payments, locks: Locks, call: CallId, b: BookingRef, env: Replies, info: BookingInfo,
                    p: Payment, mail: bool, n: nat)
    requires n >= 1 && Amount(info, env.tariff).Ok? && (info.hasEmail || env.email.Some?)
    requires p == NewPayment(b, env, info, Amount(info, env.tariff).value) && mail == (info.hasEmail || env.email.value)
    ensures Alone(At(s, ps, locks, call, PriceStay(b, env, info)), call, n)
         == Alone(At(s, ps, locks, call, InsertPending(b, env, p, mail)), call, n - 1)
  {
    GoesOn(s, ps, locks, call, PriceStay(b, env, info), ps, locks, InsertPending(b, env, p, mail), n);
  }

  lemma PayAlone(s: State, ps: Payments, locks: Locks, call: CallId, b: BookingRef, env: Replies, n: nat)
    requires n >= 8
    ensures Alone(At(s, ps, locks, call, FetchBooking(b, env)), call, n)
         == End(s, PayInside(ps, b, env).0, Unlocked(s, locks, b, env), call, PayInside(ps, b, env).1)
  {
    var fetch := FetchBooking(b, env);
    if env.booking.None? || env.booking.value.status in {BookingCancelled, BookingCompleted} {
      LeavesAlone(s, ps, locks, call, fetch, ps, b, env, PayInside(ps, b, env).1, n);
    } else {
      FetchGoesOn(s, ps, locks, call, b, env, n);
      CheckAlone(s, ps, locks, call, b, env, env.booking.value, n - 1);
    }
  }

  lemma CheckAlone(s: State, ps: Payments, locks: Locks, call: CallId, b: BookingRef, env: Replies, info: BookingInfo,
                   n: nat)
    requires n >= 7 && env.booking == Some(info) && info.status !in {BookingCancelled, BookingCompleted}
    ensures Alone(At(s, ps, locks, call, CheckUnpaid(b, env, info)), call, n)
         == End(s, PayInside(ps, b, env).0, Unlocked(s, locks, b, env), call, PayInside(ps, b, env).1)
  {
    if !env.checkOk || HasPaid(ps, b) {
      LeavesAlone(s, ps, locks, call, CheckUnpaid(b, env, info), ps, b, env, PayInside(ps, b, env).1, n);
    } else {
      CheckGoesOn(s, ps, locks, call, b, env, info, n);
      PriceAlone(s, ps, locks, call, b, env, info, n - 1);
    }
  }

  lemma PriceAlone(s: State, ps: Payments, locks: Locks, call: CallId, b: BookingRef, env: Replies, info: BookingInfo,
                   n: nat)
    requires n >= 6 && env.booking == Some(info) && info.status !in {BookingCancelled, BookingCompleted}
    requires env.checkOk && !HasPaid(ps, b)
    ensures Alone(At(s, ps, locks, call, PriceStay(b, env, info)), call, n)
         == End(s, PayInside(ps, b, env).0, Unlocked(s, locks, b, env), call, PayInside(ps, b, env).1)
  {
    var amount := Amount(info, env.tariff);
    if amount.Err? || (!info.hasEmail && env.email.None?) {
      LeavesAlone(s, ps, locks, call, PriceStay(b, env, info), ps, b, env, PayInside(ps, b, env).1, n);
    } else {
      var p, mail := NewPayment(b, env, info, amount.value), info.hasEmail || env.email.value;
      PriceGoesOn(s, ps, locks, call, b, env, info, p, mail, n);
      InsertAlone(s, ps, locks, call, b, env, p, mail, n - 1);
    }
  }

  lemma InsertAlone(s: State, ps: Payments, locks: Locks, call: CallId, b: BookingRef, env: Replies, p: Payment,
                    mail: bool, n: nat)
    requires n >= 5
    ensures Alone(At(s, ps, locks, call, InsertPending(b, env, p, mail)), call, n)
         == End(s, InsertAndPay(ps, env, p, mail).0, Unlocked(s, locks, b, env), call, InsertAndPay(ps, env, p, mail).1)
  {
    var insert := InsertPending(b, env, p, mail);
    if env.insert.Unreachable? || p.id in ps {
      LeavesAlone(s, ps, locks, call, insert, ps, b, env, Err(Database), n);
    } else if env.insert.ReplyLost? {
      LeavesAlone(s, ps, locks, call, insert, ps[p.id := p], b, env, Err(Database), n);
    } else {
      InsertGoesOn(s, ps, locks, call, b, env, p, mail, n);
      InsertedAlone(s, ps, locks, call, b, env, p, mail, n - 1);
    }
  }

  lemma InsertGoesOn(s: State, ps: Payments, locks: Locks, call: CallId, b: BookingRef, env: Replies,
                     p: Payment, mail: bool, n: nat)
    requires n >= 1 && env.insert.Answered? && p.id !in ps
    ensures Alone(At(s, ps, locks, call, InsertPending(b, env, p, mail)), call, n)
         == Alone(At(s, ps[p.id := p], locks, call, MarkAsPaid(b, env, p.id, mail)), call, n - 1)
  {
    GoesOn(s, ps, locks, call, InsertPending(b, env, p, mail), ps[p.id := p], locks, MarkAsPaid(b, env, p.id, mail), n);
  }

  lemma InsertedAlone(s: State, ps: Payments, locks: Locks, call: CallId, b: BookingRef, env: Replies, p: Payment,
                      mail: bool, n: nat)
    requires n >= 4 && p.id !in ps && env.insert.Answered?
    ensures Alone(At(s, ps[p.id := p], locks, call, MarkAsPaid(b, env, p.id, mail)), call, n)
         == End(s, InsertAndPay(ps, env, p, mail).0, Unlocked(s, locks, b, env), call, InsertAndPay(ps, env, p, mail).1)
  {
    var inserted := ps[p.id := p];
    MarkAlone(s, inserted, locks, call, b, env, p.id, mail, n);
    var paid := AsPaid(p, ProviderId(env.uuid), env.paidNow);
    assert inserted[p.id := paid] == ps[p.id := paid];
  }

  /** Marking paid, confirming, publishing. */
  function MarkAndTell(ps: Payments, env: Replies, id: PaymentId, mail: bool): (Payments, Outcome)
    requires id in ps
  {
    if env.markPaid.Unreachable? then (ps, Err(Database))
    else
      var paid := AsPaid(ps[id], ProviderId(env.uuid), env.paidNow);
      (ps[id := paid],
       if env.markPaid.ReplyLost? then Err(Database)
       else if !env.confirmOk then Err(ConfirmationFailed)
       else if mail && !env.publishOk then Err(NotificationFailed)
       else Ok(paid))
  }

  lemma ConfirmAlone(s: State, ps: Payments, locks: Locks, call: CallId, b: BookingRef, env: Replies, p: Payment,
                     mail: bool, n: nat)
    requires n >= 3
    ensures Alone(At(s, ps, locks, call, ConfirmBooking(b, env, p, mail)), call, n)
         == End(s, ps, Unlocked(s, locks, b, env), call,
                if !env.confirmOk then Err(ConfirmationFailed)
                else if mail && !env.publishOk then Err(NotificationFailed) else Ok(p))
  {
    var confirm, publish := ConfirmBooking(b, env, p, mail), Publish(b, env, p, mail);
    if !env.confirmOk {
      LeavesAlone(s, ps, locks, call, confirm, ps, b, env, Err(ConfirmationFailed), n);
    } else {
      GoesOn(s, ps, locks, call, confirm, ps, locks, publish, n);
      LeavesAlone(s, ps, locks, call, publish, ps, b, env,
                  if mail && !env.publishOk then Err(NotificationFailed) else Ok(p), n - 1);
    }
  }

  lemma MarkAlone(s: State, ps: Payments, locks: Locks, call: CallId, b: BookingRef, env: Replies, id: PaymentId,
                  mail: bool, n: nat)
    requires n >= 4 && id in ps
    ensures Alone(At(s, ps, locks, call, MarkAsPaid(b, env, id, mail)), call, n)
         == End(s, MarkAndTell(ps, env, id, mail).0, Unlocked(s, locks, b, env), call, MarkAndTell(ps, env, id, mail).1)
  {
    var mark := MarkAsPaid(b, env, id, mail);
    var (after, r) := MarkAndTell(ps, env, id, mail);
    if !env.markPaid.Answered? {
      LeavesAlone(s, ps, locks, call, mark, after, b, env, r, n);
    } else {
      MarkGoesOn(s, ps, locks, call, b, env, id, mail, after, n);
      ConfirmAlone(s, after, locks, call, b, env, after[id], mail, n - 1);
    }
  }

  lemma MarkGoesOn(s: State, ps: Payments, locks: Locks, call: CallId, b: BookingRef, env: Replies, id: PaymentId,
                   mail: bool, after: Payments, n: nat)
    requires n >= 1 && id in ps && env.markPaid.Answered? && after == MarkAndTell(ps, env, id, mail).0
    ensures Alone(At(s, ps, locks, call, MarkAsPaid(b, env, id, mail)), call, n)
         == Alone(At(s, after, locks, call, ConfirmBooking(b, env, after[id], mail)), call, n - 1)
  {
    GoesOn(s, ps, locks, call, MarkAsPaid(b, env, id, mail), after, locks, ConfirmBooking(b, env, after[id], mail), n);
  }

  /** Nine steps on its own make a CreatePayment call the serial method: same table, same locks, same result. */
  lemma UninterruptedIsSerial(s: State, call: CallId, b: BookingRef, env: Replies)
    requires call !in s.calls
    ensures var end := Alone(Step(s, BeginCreate(call, b, env)), call, 9);
            var (ps, locks, r) := CreateSpec(s.payments, s.locks, s.locking, call, b, env);
              end == s.(payments := ps, locks := locks, results := s.results[call := r])
  {
    assert s.calls - {call} == s.calls;
    if Refusal(b, env.paidBy).Some? {
      FinishedCallStays(Step(s, BeginCreate(call, b, env)), call, 9);
    } else if !s.locking {
      PayAlone(s, s.payments, s.locks, call, b, env, 9);
    } else {
      LockAlone(s, call, b, env);
    }
  }

  /** One step on its own makes a CancelPayment call the serial method. */
  lemma UninterruptedCancelIsSerial(s: State, call: CallId, id: PaymentId, readOk: bool, now: Time, update: CallOutcome)
    requires call !in s.calls
    ensures var end := Alone(Step(s, BeginCancel(call, id, readOk, now, update)), call, 1);
            var (ps, r) := CancelSpec(s.payments, id, readOk, now, update);
              end == s.(payments := ps, results := s.results[call := r])
  {
    var begun := Step(s, BeginCancel(call, id, readOk, now, update));
    assert s.calls - {call} == s.calls;
    assert s.calls[call := CancelUpdate(id, now, update)] - {call} == s.calls;
    if call in begun.calls {
      FinishedCallStays(Step(begun, Advance(call)), call, 0);
    } else {
      FinishedCallStays(begun, call, 1);
    }
  }

  lemma LockAlone(s: State, call: CallId, b: BookingRef, env: Replies)
    requires s.locking && Refusal(b, env.paidBy).None?
    ensures var (ps, locks, r) := CreateSpec(s.payments, s.locks, true, call, b, env);
              Alone(At(s, s.payments, s.locks, call, TakeLock(b, env)), call, 9) == End(s, ps, locks, call, r)
  {
    var ps, locks, take := s.payments, s.locks, TakeLock(b, env);
    if env.lock.Answered? && b !in locks {
      GoesOn(s, ps, locks, call, take, ps, locks[b := call], FetchBooking(b, env), 9);
      PayAlone(s, ps, locks[b := call], call, b, env, 8);
    } else {
      var (_, after, r) := CreateSpec(ps, locks, true, call, b, env);
      ReturnsAtOnce(s, ps, locks, call, take, ps, after, r, 9);
    }
  }

  // ---------------------------------------------------------------- consequences

  /** On its own, a creation succeeds exactly when everything answers, the stay is not empty, the booking is not closed
      and is not paid yet; what it charges covers the stay, and the booking then has exactly this paid payment. */
  lemma CreateSucceedsExactly(ps: Payments, b: BookingRef, env: Replies)
    ensures PayInside(ps, b, env).1.Ok? <==>
              && env.booking.Some? && env.booking.value.status !in {BookingCancelled, BookingCompleted}
              && env.booking.value.start < env.booking.value.end
              && env.checkOk && !HasPaid(ps, b) && env.tariff.Some? && (env.booking.value.hasEmail || env.email.Some?)
              && env.insert.Answered? && env.id !in ps && env.markPaid.Answered? && env.confirmOk
              && (env.booking.value.hasEmail || env.email.value ==> env.publishOk)
    ensures PayInside(ps, b, env).1.Ok? ==>
              var (ps', r) := PayInside(ps, b, env);
              var info := env.booking.value;
              && ps' == ps[env.id := r.value] && r.value.status == Paid && r.value.bookingId == b && PaidMarks(r.value)
              && r.value.amount * Pricing.HOUR >= env.tariff.value * (info.end - info.start)
              && (env.tariff.value > 0 ==>
                    r.value.amount * Pricing.HOUR < env.tariff.value * (info.end - info.start + Pricing.HOUR))
  {
    if PayInside(ps, b, env).1.Ok? {
      var info := env.booking.value;
      Pricing.ChargeCoversStay(env.tariff.value, info.end - info.start);
      assert ProviderId(env.uuid)[0] == 'l';
      assert env.tariff.value * (info.end - info.start + Pricing.HOUR)
          == env.tariff.value * (info.end - info.start) + env.tariff.value * Pricing.HOUR;
    }
  }

  /** In every run, from the moment a booking has a paid payment, CreatePayment is refused for it and writes nothing:
      when the confirmation was the step that failed, no later call repeats it. */
  lemma PaidBookingIsNeverRetried(locking: bool, events: seq<Event>, more: seq<Event>, call: CallId, b: BookingRef,
                                  env: Replies)
    requires HasPaid(Run(locking, events).payments, b)
    ensures var s := Run(locking, events + more);
            var (ps, _, r) := CreateSpec(s.payments, s.locks, locking, call, b, env);
            ps == s.payments && r.Err?
  {
    PaidStaysPaid(locking, events, more, b);
  }

  /** Everything up to the update that marks the payment paid is in order, and that update takes effect. */
  predicate ReachesMark(ps: Payments, env: Replies) {
    && env.booking.Some? && env.booking.value.status !in {BookingCancelled, BookingCompleted}
    && env.booking.value.start < env.booking.value.end
    && env.checkOk && env.tariff.Some? && (env.booking.value.hasEmail || env.email.Some?)
    && env.insert.Answered? && env.id !in ps && !env.markPaid.Unreachable?
  }

  /** And then the reply of that update, the confirmation or the publication of the payment fails. */
  predicate FailsAfterMark(env: Replies)
    requires env.booking.Some? && (env.booking.value.hasEmail || env.email.Some?)
  {
    env.markPaid.ReplyLost? || !env.confirmOk || ((env.booking.value.hasEmail || env.email.value) && !env.publishOk)
  }

  lemma PayFailsPaidExactly(ps: Payments, b: BookingRef, env: Replies)
    requires !HasPaid(ps, b)
    ensures PayInside(ps, b, env).1.Err? && HasPaid(PayInside(ps, b, env).0, b) <==>
      ReachesMark(ps, env) && FailsAfterMark(env)
  {
    var (ps', r) := PayInside(ps, b, env);
    if ReachesMark(ps, env) {
      assert env.id in ps' && ps'[env.id].bookingId == b && ps'[env.id].status == Paid;
    } else {
      forall id | id in ps' && ps'[id].bookingId == b ensures ps'[id].status != Paid {
        if id in ps { assert ps'[id] == ps[id]; }
      }
    }
  }

  /** A CreatePayment that reports an error may have paid the booking all the same: exactly when it gets the lock,
      reaches the update that marks its payment paid, and fails after that. */
  lemma PaidDespiteErrorExactly(ps: Payments, locks: Locks, locking: bool, call: CallId, b: BookingRef, env: Replies)
    requires !HasPaid(ps, b)
    ensures var (ps', _, r) := CreateSpec(ps, locks, locking, call, b, env);
            r.Err? && HasPaid(ps', b) <==>
              && Refusal(b, env.paidBy).None? && (locking ==> env.lock.Answered? && b !in locks)
              && ReachesMark(ps, env) && FailsAfterMark(env)
  {
    PayFailsPaidExactly(ps, b, env);
  }

  predicate Willing(env: Replies) {
    && !env.paidBy.Missing? && !env.paidBy.Unknown?
    && env.lock.Answered? && env.booking.Some? && env.booking.value.status !in {BookingCancelled, BookingCompleted}
    && env.booking.value.start < env.booking.value.end && env.checkOk && env.tariff.Some? && env.booking.value.hasEmail
    && env.insert.Answered? && env.markPaid.Answered? && env.confirmOk && env.publishOk
  }

  /** The assumption cannot be dropped: let the lock expire while its holder stands before the update that marks its
      payment paid, let a second call run through, and then the first: the booking is paid twice. */
  lemma ExpiredLockPaysTwice(s: State, s1: State, s2: State, s3: State, p: CallId, q: CallId, b: BookingRef,
                             env: Replies)
    requires Inv(s) && p in s.calls && s.calls[p].MarkAsPaid? && s.calls[p].b == b && s.calls[p].env.markPaid.Answered?
    requires b != "" && q !in s.calls && Willing(env) && env.id !in s.payments
    requires s1 == Step(s, LockExpires(b)) && s2 == Alone(Step(s1, BeginCreate(q, b, env)), q, 9)
    requires s3 == Step(s2, Advance(p))
    ensures !LockOutlivesHolder(s, LockExpires(b))
    ensures var id := s.calls[p].id;
            && id != env.id && id in s3.payments && env.id in s3.payments
            && s3.payments[id].status == Paid && s3.payments[env.id].status == Paid
            && s3.payments[id].bookingId == b == s3.payments[env.id].bookingId
  {
    StandsBeforeMark(s, p, b);
    ExpiryFrees(s, s1, p, b);
    BothPay(s1, s2, s3, p, q, b, env);
  }

  lemma ExpiryFrees(s: State, s1: State, p: CallId, b: BookingRef)
    requires b in s.locks && s.locks[b] == p && Inside(s, p, b) && s1 == Step(s, LockExpires(b))
    ensures !LockOutlivesHolder(s, LockExpires(b)) && s1 == s.(locks := s.locks - {b})
  {
  }

  lemma BothPay(s1: State, s2: State, s3: State, p: CallId, q: CallId, b: BookingRef, env: Replies)
    requires s1.locking && b !in s1.locks && !HasPaid(s1.payments, b) && b != "" && q !in s1.calls
    requires p in s1.calls && s1.calls[p].MarkAsPaid? && s1.calls[p].env.markPaid.Answered?
    requires s1.calls[p].id in s1.payments && s1.payments[s1.calls[p].id].bookingId == b
    requires Willing(env) && env.id !in s1.payments
    requires s2 == Alone(Step(s1, BeginCreate(q, b, env)), q, 9) && s3 == Step(s2, Advance(p))
    ensures var id := s1.calls[p].id;
            && id != env.id && id in s3.payments && env.id in s3.payments
            && s3.payments[id].status == Paid && s3.payments[env.id].status == Paid
            && s3.payments[id].bookingId == b == s3.payments[env.id].bookingId
  {
    SecondCallPays(s1, q, b, env);
    FirstCallPaysToo(s2, p);
  }

  lemma StandsBeforeMark(s: State, p: CallId, b: BookingRef)
    requires Inv(s) && p in s.calls && s.calls[p].MarkAsPaid? && s.calls[p].b == b
    ensures s.locking && Inside(s, p, b) && b in s.locks && s.locks[b] == p && !HasPaid(s.payments, b)
    ensures s.calls[p].id in s.payments && s.payments[s.calls[p].id].bookingId == b
  {
    assert Inside(s, p, b) && PastCheckFor(s, p, b);
    assert CallWellFormed(s.payments, s.calls[p]);
  }

  lemma FirstCallPaysToo(s: State, p: CallId)
    requires p in s.calls && s.calls[p].MarkAsPaid? && s.calls[p].env.markPaid.Answered? && s.calls[p].id in s.payments
    ensures var id, s' := s.calls[p].id, Step(s, Advance(p));
            && s'.payments.Keys == s.payments.Keys && s'.payments[id].status == Paid
            && s'.payments[id].bookingId == s.payments[id].bookingId
            && forall i | i in s.payments && i != id :: s'.payments[i] == s.payments[i]
  {
  }

  /** A willing call for an unpaid booking with a free lock runs through and pays. */
  lemma SecondCallPays(s: State, q: CallId, b: BookingRef, env: Replies)
    requires s.locking && b != "" && b !in s.locks && q !in s.calls && Willing(env)
    requires env.id !in s.payments && !HasPaid(s.payments, b)
    ensures var end := Alone(Step(s, BeginCreate(q, b, env)), q, 9);
            && end.calls == s.calls && env.id in end.payments
            && end.payments[env.id].status == Paid && end.payments[env.id].bookingId == b
            && end.payments == s.payments[env.id := end.payments[env.id]]
  {
    UninterruptedIsSerial(s, q, b, env);
    CreateSucceedsExactly(s.payments, b, env);
  }

  /** Without a cache there is no lock, and two calls that have both seen the booking unpaid both pay it. */
  lemma NoLockPaysTwice(s: State, p: CallId, q: CallId)
    requires !s.locking && p != q && p in s.calls && q in s.calls && s.calls[p].MarkAsPaid? && s.calls[q].MarkAsPaid?
    requires s.calls[p].b == s.calls[q].b && s.calls[p].id != s.calls[q].id
    requires s.calls[p].id in s.payments && s.payments[s.calls[p].id].bookingId == s.calls[p].b
    requires s.calls[p].env.markPaid.Answered?
    requires s.calls[q].id in s.payments && s.payments[s.calls[q].id].bookingId == s.calls[q].b
    requires s.calls[q].env.markPaid.Answered?
    ensures !OnePaidPerBooking(Step(Step(s, Advance(p)), Advance(q)).payments)
  {
    var s1 := Step(s, Advance(p));
    var s2 := Step(s1, Advance(q));
    var i, j := s.calls[p].id, s.calls[q].id;
    assert s1.calls[q] == s.calls[q];
    assert i in s2.payments && j in s2.payments && s2.payments[i].status == Paid && s2.payments[j].status == Paid;
    assert s2.payments[i].bookingId == s2.payments[j].bookingId;
  }
}
