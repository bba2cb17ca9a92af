/** What the lock adds: as long as no lock expires under its holder, a booking is paid at most once. */
module PaymentLocks {
  import opened Basics
  import opened PaymentStore
  import opened PaymentProtocol
  import opened PaymentRows

  // ---------------------------------------------------------------- the assumption on the lock

  /** The call is between taking the lock of `b` and giving it back. */
  predicate Inside(s: State, call: CallId, b: BookingRef) {
    call in s.calls && !s.calls[call].CancelUpdate? && !s.calls[call].TakeLock? && s.calls[call].b == b
  }

  /** A lock that a running call holds does not expire: its 30 seconds outlast the call. */
  predicate LockOutlivesHolder(s: State, ev: Event) {
    ev.LockExpires? && ev.booking in s.locks ==> !Inside(s, s.locks[ev.booking], ev.booking)
  }

  predicate LocksOutliveHolders(events: seq<Event>) {
    events == [] || (&& LocksOutliveHolders(events[..|events| - 1])
                     && LockOutlivesHolder(Run(true, events[..|events| - 1]), events[|events| - 1]))
  }

  // ---------------------------------------------------------------- the invariant

  ghost predicate HoldsItsLock(s: State) {
    forall c, b | Inside(s, c, b) :: b in s.locks && s.locks[b] == c
  }

  ghost predicate CheckedIsUnpaid(s: State) {
    forall c, b | PastCheckFor(s, c, b) :: !HasPaid(s.payments, b)
  }

  ghost predicate LockInv(s: State) {
    s.locking && HoldsItsLock(s) && CheckedIsUnpaid(s) && OnePaidPerBooking(s.payments)
  }

  ghost predicate Inv(s: State) {
    RowInv(s) && LockInv(s)
  }

  /** A call begins, moves on or leaves, no payment is made, and the other calls keep their locks. */
  lemma MoveKeepsLockInv(s: State, call: CallId, s': State)
    requires LockInv(s) && s'.locking && s'.calls - {call} == s.calls - {call}
    requires OnePaidPerBooking(s'.payments) && forall b :: HasPaid(s'.payments, b) ==> HasPaid(s.payments, b)
    requires forall b | b in s.locks && s.locks[b] != call :: b in s'.locks && s'.locks[b] == s.locks[b]
    requires call in s'.calls ==>
               var pc := s'.calls[call];
               && (PastCheck(pc) ==> !HasPaid(s.payments, pc.b))
               && (!pc.CancelUpdate? && !pc.TakeLock? ==> pc.b in s'.locks && s'.locks[pc.b] == call)
    ensures LockInv(s')
  {
    OthersStay(s, s', call);
    forall c, b | Inside(s', c, b)
      ensures b in s'.locks && s'.locks[b] == c
    {
      if c != call { assert Inside(s, c, b); }
    }
    forall c, b | PastCheckFor(s', c, b) ensures !HasPaid(s'.payments, b) {
      if c != call { assert PastCheckFor(s, c, b); }
    }
  }

  /** A payment is made under the lock of its booking: no other call is past the check for it. */
  lemma PayKeepsLockInv(s: State, call: CallId, s': State)
    requires LockInv(s) && s'.locking && s'.locks == s.locks && s'.calls - {call} == s.calls - {call}
    requires call in s.calls && s.calls[call].MarkAsPaid? && OnePaidPerBooking(s'.payments)
    requires forall b | b != s.calls[call].b :: HasPaid(s'.payments, b) ==> HasPaid(s.payments, b)
    requires call in s'.calls ==>
               !s'.calls[call].CancelUpdate? && !PastCheck(s'.calls[call]) && s'.calls[call].b == s.calls[call].b
    ensures LockInv(s')
  {
    OthersStay(s, s', call);
    var b := s.calls[call].b;
    assert Inside(s, call, b);
    forall c, d | Inside(s', c, d)
      ensures d in s'.locks && s'.locks[d] == c
    {
      if c != call { assert Inside(s, c, d); }
    }
    forall c, d | PastCheckFor(s', c, d) ensures !HasPaid(s'.payments, d) {
      assert PastCheckFor(s, c, d) && Inside(s, c, d);
    }
  }

  lemma InsertPaysNothing(ps: Payments, p: Payment, b: BookingRef)
    requires p.id !in ps && p.status == Pending
    ensures HasPaid(ps[p.id := p], b) ==> HasPaid(ps, b)
  {
    var ps' := ps[p.id := p];
    if id :| id in ps' && ps'[id].bookingId == b && ps'[id].status == Paid {
      assert id in ps && ps[id] == ps'[id];
    }
  }

  lemma CancelPaysNothing(ps: Payments, id: PaymentId, now: Time, b: BookingRef)
    ensures HasPaid(CancelRow(ps, id, now).0, b) ==> HasPaid(ps, b)
  {
    var ps' := CancelRow(ps, id, now).0;
    if i :| i in ps' && ps'[i].bookingId == b && ps'[i].status == Paid {
      assert i in ps && ps[i] == ps'[i];
    }
  }

  lemma MarkPaysOneBooking(ps: Payments, id: PaymentId, providerId: string, now: Time, b: BookingRef)
    requires id in ps && b != ps[id].bookingId
    ensures HasPaid(MarkPaidRow(ps, id, providerId, now).0, b) ==> HasPaid(ps, b)
  {
    var ps' := MarkPaidRow(ps, id, providerId, now).0;
    if i :| i in ps' && ps'[i].bookingId == b && ps'[i].status == Paid {
      assert i in ps && ps[i] == ps'[i];
    }
  }

  lemma TakeLockKeepsLockInv(s: State, call: CallId)
    requires LockInv(s) && call in s.calls && s.calls[call].TakeLock?
    ensures LockInv(Step(s, Advance(call)))
  {
    TakeLockMoves(s, call);
    MoveKeepsLockInv(s, call, Step(s, Advance(call)));
  }

  /** The steps inside that do not write the table: fetch, check, price, confirm, publish. */
  lemma QuietKeepsLockInv(s: State, call: CallId)
    requires LockInv(s) && call in s.calls && IsQuiet(s.calls[call])
    ensures LockInv(Step(s, Advance(call)))
  {
    QuietStepMoves(s, call);
    assert Inside(s, call, s.calls[call].b);
    if PastCheck(s.calls[call]) { assert PastCheckFor(s, call, s.calls[call].b); }
    MoveKeepsLockInv(s, call, Step(s, Advance(call)));
  }

  lemma UnlockKeepsLockInv(s: State, call: CallId)
    requires LockInv(s) && call in s.calls && s.calls[call].Unlock?
    ensures LockInv(Step(s, Advance(call)))
  {
    UnlockMoves(s, call);
    assert Inside(s, call, s.calls[call].b);
    assert s.calls - {call} - {call} == s.calls - {call};
    MoveKeepsLockInv(s, call, Step(s, Advance(call)));
  }

  lemma InsertKeepsLockInv(s: State, call: CallId)
    requires Inv(s) && call in s.calls && s.calls[call].InsertPending?
    ensures LockInv(Step(s, Advance(call)))
  {
    var s', pc := Step(s, Advance(call)), s.calls[call];
    InsertMoves(s, call, pc.b, pc.env, pc.payment, pc.mail);
    assert Inside(s, call, pc.b) && PastCheckFor(s, call, pc.b) && CallWellFormed(s.payments, pc);
    DoublePayExactly(s, Advance(call));
    forall b ensures HasPaid(s'.payments, b) ==> HasPaid(s.payments, b) {
      if s'.payments != s.payments { InsertPaysNothing(s.payments, pc.payment, b); }
    }
    MoveKeepsLockInv(s, call, s');
  }

  lemma MarkKeepsLockInv(s: State, call: CallId)
    requires Inv(s) && call in s.calls && s.calls[call].MarkAsPaid?
    ensures LockInv(Step(s, Advance(call)))
  {
    var s', pc := Step(s, Advance(call)), s.calls[call];
    MarkMoves(s, call, pc.b, pc.env, pc.id, pc.mail);
    assert PastCheckFor(s, call, pc.b) && CallWellFormed(s.payments, pc);
    DoublePayExactly(s, Advance(call));
    forall b | b != pc.b ensures HasPaid(s'.payments, b) ==> HasPaid(s.payments, b) {
      MarkPaysOneBooking(s.payments, pc.id, ProviderId(pc.env.uuid), pc.env.paidNow, b);
    }
    PayKeepsLockInv(s, call, s');
  }

  lemma CancelKeepsLockInv(s: State, call: CallId)
    requires Inv(s) && call in s.calls && s.calls[call].CancelUpdate?
    ensures LockInv(Step(s, Advance(call)))
  {
    var s', pc := Step(s, Advance(call)), s.calls[call];
    CancelMoves(s, call);
    DoublePayExactly(s, Advance(call));
    forall b ensures HasPaid(s'.payments, b) ==> HasPaid(s.payments, b) {
      CancelPaysNothing(s.payments, pc.target, pc.cancelNow, b);
    }
    assert s.calls - {call} - {call} == s.calls - {call};
    CancelledKeepsLocks(s, s', call);
  }

  lemma CancelledKeepsLocks(s: State, s': State, call: CallId)
    requires LockInv(s) && s'.locking && s'.locks == s.locks && s'.calls == s.calls - {call}
    requires OnePaidPerBooking(s'.payments) && forall b :: HasPaid(s'.payments, b) ==> HasPaid(s.payments, b)
    ensures LockInv(s')
  {
    forall c, b | Inside(s', c, b) ensures b in s'.locks && s'.locks[b] == c { assert Inside(s, c, b); }
    forall c, b | PastCheckFor(s', c, b) ensures !HasPaid(s'.payments, b) { assert PastCheckFor(s, c, b); }
  }

  lemma BeginKeepsLockInv(s: State, ev: Event)
    requires LockInv(s) && (ev.BeginCreate? || ev.BeginCancel?) && ev.call !in s.calls
    ensures LockInv(Step(s, ev))
  {
    BeginMoves(s, ev);
    assert s.calls - {ev.call} == s.calls;
    MoveKeepsLockInv(s, ev.call, Step(s, ev));
  }

  lemma ExpiryKeepsLockInv(s: State, b: BookingRef)
    requires LockInv(s) && LockOutlivesHolder(s, LockExpires(b))
    ensures LockInv(Step(s, LockExpires(b)))
  {
    var s' := Step(s, LockExpires(b));
    forall c, d | Inside(s', c, d) ensures d in s'.locks && s'.locks[d] == c { assert Inside(s, c, d); }
    forall c, d | PastCheckFor(s', c, d) ensures !HasPaid(s'.payments, d) { assert PastCheckFor(s, c, d); }
  }

  lemma StepKeepsInv(s: State, ev: Event)
    requires Inv(s) && LockOutlivesHolder(s, ev)
    ensures Inv(Step(s, ev))
  {
    StepKeepsRowInv(s, ev);
    match ev
    case BeginCreate(call, _, _) => if call !in s.calls { BeginKeepsLockInv(s, ev); }
    case BeginCancel(call, _, _, _, _) => if call !in s.calls { BeginKeepsLockInv(s, ev); }
    case LockExpires(b) => ExpiryKeepsLockInv(s, b);
    case Advance(call) =>
      if call in s.calls {
        match s.calls[call]
        case TakeLock(_, _) => TakeLockKeepsLockInv(s, call);
        case InsertPending(_, _, _, _) => InsertKeepsLockInv(s, call);
        case MarkAsPaid(_, _, _, _) => MarkKeepsLockInv(s, call);
        case Unlock(_, _, _) => UnlockKeepsLockInv(s, call);
        case CancelUpdate(_, _, _) => CancelKeepsLockInv(s, call);
        case _ => QuietKeepsLockInv(s, call);
      }
  }

  lemma {:induction false} RunKeepsInv(events: seq<Event>)
    requires LocksOutliveHolders(events)
    ensures Inv(Run(true, events))
  {
    if events != [] {
      RunKeepsInv(events[..|events| - 1]);
      StepKeepsInv(Run(true, events[..|events| - 1]), events[|events| - 1]);
    }
  }

  /** Under every interleaving of creations and cancellations, with failures anywhere, as long as no lock expires under
      its holder, a booking has at most one paid payment. */
  lemma AtMostOnePaidPayment(events: seq<Event>)
    requires LocksOutliveHolders(events)
    ensures OnePaidPerBooking(Run(true, events).payments)
  {
    RunKeepsInv(events);
  }

  /** And at any time at most one call is between taking and giving back the lock of a booking. */
  lemma MutualExclusion(events: seq<Event>, c: CallId, d: CallId, b: BookingRef)
    requires LocksOutliveHolders(events)
    requires Inside(Run(true, events), c, b) && Inside(Run(true, events), d, b)
    ensures c == d
  {
    RunKeepsInv(events);
  }
}
