/** What every run of the payment protocol keeps in the payments table, with or without a lock and whatever locks
    expire; and exactly when a booking gets a second paid payment. */
module PaymentRows {
  import opened Basics
  import opened PaymentStore
  import opened PaymentProtocol

  // ---------------------------------------------------------------- the invariant

  ghost predicate RowsWellFormed(ps: Payments) {
    forall id | id in ps :: ps[id].id == id && PaidMarks(ps[id])
  }

  predicate MarksUnpaidRow(ps: Payments, pc: Pc)
    requires pc.MarkAsPaid?
  {
    pc.id in ps && ps[pc.id].bookingId == pc.b && ps[pc.id].status in {Pending, Cancelled}
  }

  /** A call that will insert carries an unpaid row of its booking; a call that will mark names one that is stored. */
  predicate CallWellFormed(ps: Payments, pc: Pc) {
    && (pc.InsertPending? ==> pc.payment.bookingId == pc.b && pc.payment.status == Pending && PaidMarks(pc.payment))
    && (pc.MarkAsPaid? ==> MarksUnpaidRow(ps, pc))
  }

  predicate Marks(s: State, c: CallId, id: PaymentId) {
    c in s.calls && s.calls[c].MarkAsPaid? && s.calls[c].id == id
  }

  ghost predicate RowInv(s: State) {
    && RowsWellFormed(s.payments)
    && (forall c | c in s.calls :: CallWellFormed(s.payments, s.calls[c]))
    && (forall c, d, id | Marks(s, c, id) && Marks(s, d, id) :: c == d)
  }

  lemma ChangeKeepsRowInv(s: State, call: CallId, s': State)
    requires RowInv(s) && s'.calls - {call} == s.calls - {call} && RowsWellFormed(s'.payments)
    requires forall c | c != call && c in s.calls && s.calls[c].MarkAsPaid? :: MarksUnpaidRow(s'.payments, s.calls[c])
    requires call in s'.calls ==> CallWellFormed(s'.payments, s'.calls[call])
    requires forall c, id | c != call && Marks(s, c, id) :: !Marks(s', call, id)
    ensures RowInv(s')
  {
    OthersStay(s, s', call);
    forall c | c in s'.calls ensures CallWellFormed(s'.payments, s'.calls[c]) {
      if c != call { assert CallWellFormed(s.payments, s.calls[c]); }
    }
    forall c, d, id | Marks(s', c, id) && Marks(s', d, id) ensures c == d {
      if c != call { assert Marks(s, c, id); }
      if d != call { assert Marks(s, d, id); }
    }
  }

  lemma MarkKeepsRows(ps: Payments, id: PaymentId, uuid: string, now: Time)
    requires RowsWellFormed(ps)
    ensures RowsWellFormed(MarkPaidRow(ps, id, ProviderId(uuid), now).0)
  {
    assert ProviderId(uuid)[0] == 'l';
  }

  lemma InsertKeepsRowInv(s: State, call: CallId)
    requires RowInv(s) && call in s.calls && s.calls[call].InsertPending?
    ensures RowInv(Step(s, Advance(call)))
  {
    var pc := s.calls[call];
    InsertMoves(s, call, pc.b, pc.env, pc.payment, pc.mail);
    ChangeKeepsRowInv(s, call, Step(s, Advance(call)));
  }

  lemma MarkKeepsRowInv(s: State, call: CallId)
    requires RowInv(s) && call in s.calls && s.calls[call].MarkAsPaid?
    ensures RowInv(Step(s, Advance(call)))
  {
    var pc := s.calls[call];
    assert Marks(s, call, pc.id);
    MarkMoves(s, call, pc.b, pc.env, pc.id, pc.mail);
    MarkKeepsRows(s.payments, pc.id, pc.env.uuid, pc.env.paidNow);
    forall c | c != call && c in s.calls && s.calls[c].MarkAsPaid? ensures s.calls[c].id != pc.id {
      assert Marks(s, c, s.calls[c].id);
    }
    ChangeKeepsRowInv(s, call, Step(s, Advance(call)));
  }

  lemma AdvanceKeepsRowInv(s: State, call: CallId)
    requires RowInv(s) && call in s.calls
    ensures RowInv(Step(s, Advance(call)))
  {
    var s' := Step(s, Advance(call));
    match s.calls[call] {
      case TakeLock(_, _) =>
        TakeLockMoves(s, call);
        ChangeKeepsRowInv(s, call, s');
      case InsertPending(_, _, _, _) => InsertKeepsRowInv(s, call);
      case MarkAsPaid(_, _, _, _) => MarkKeepsRowInv(s, call);
      case CancelUpdate(_, _, _) =>
        CancelMoves(s, call);
        ChangeKeepsRowInv(s, call, s');
      case Unlock(_, _, _) =>
        UnlockMoves(s, call);
        ChangeKeepsRowInv(s, call, s');
      case _ =>
        QuietStepMoves(s, call);
        ChangeKeepsRowInv(s, call, s');
    }
  }

  lemma StepKeepsRowInv(s: State, ev: Event)
    requires RowInv(s)
    ensures RowInv(Step(s, ev))
  {
    if ev.Advance? && ev.call in s.calls {
      AdvanceKeepsRowInv(s, ev.call);
    } else if (ev.BeginCreate? || ev.BeginCancel?) && ev.call !in s.calls {
      BeginMoves(s, ev);
      assert s.calls - {ev.call} == s.calls;
      ChangeKeepsRowInv(s, ev.call, Step(s, ev));
    } else if ev.LockExpires? {
      var s' := Step(s, ev);
      forall c, d, id | Marks(s', c, id) && Marks(s', d, id) ensures c == d {
        assert Marks(s, c, id) && Marks(s, d, id);
      }
    }
  }

  lemma {:induction false} RunKeepsRowInv(locking: bool, events: seq<Event>)
    ensures RowInv(Run(locking, events))
  {
    if events != [] {
      RunKeepsRowInv(locking, events[..|events| - 1]);
      StepKeepsRowInv(Run(locking, events[..|events| - 1]), events[|events| - 1]);
    }
  }

  // ---------------------------------------------------------------- paid rows

  /** In every run, a provider id and a time of payment are set exactly on the paid rows. */
  lemma MarksExactlyPaid(locking: bool, events: seq<Event>, id: PaymentId)
    requires id in Run(locking, events).payments
    ensures PaidMarks(Run(locking, events).payments[id]) && Run(locking, events).payments[id].id == id
  {
    RunKeepsRowInv(locking, events);
  }

  lemma PaidRowUntouched(s: State, ev: Event, id: PaymentId)
    requires RowInv(s) && id in s.payments && s.payments[id].status == Paid
    ensures id in Step(s, ev).payments && Step(s, ev).payments[id] == s.payments[id]
  {
    StepMovesTable(s, ev);
    if ev.Advance? && ev.call in s.calls {
      assert CallWellFormed(s.payments, s.calls[ev.call]);
    }
  }

  /** Once paid, a payment row is never written again, whatever happens to the locks. */
  lemma {:induction false} PaidForever(locking: bool, events: seq<Event>, more: seq<Event>, id: PaymentId)
    requires id in Run(locking, events).payments && Run(locking, events).payments[id].status == Paid
    ensures id in Run(locking, events + more).payments
    ensures Run(locking, events + more).payments[id] == Run(locking, events).payments[id]
  {
    if more == [] {
      assert events + more == events;
    } else {
      var front := more[..|more| - 1];
      assert (events + front) + [more[|more| - 1]] == events + more;
      RunSnoc(locking, events + front, more[|more| - 1]);
      PaidForever(locking, events, front, id);
      RunKeepsRowInv(locking, events + front);
      PaidRowUntouched(Run(locking, events + front), more[|more| - 1], id);
    }
  }

  predicate AboutToPay(s: State, c: CallId, id: PaymentId) {
    Marks(s, c, id) && !s.calls[c].env.markPaid.Unreachable?
  }

  predicate TurnsPaid(s: State, ev: Event, id: PaymentId) {
    id in Step(s, ev).payments && Step(s, ev).payments[id].status == Paid
  }

  /** One step pays a stored unpaid row exactly when it advances the call that is to mark this row, and the update
      reaches the database. */
  lemma TurnsPaidExactly(s: State, ev: Event, id: PaymentId)
    requires RowInv(s) && id in s.payments && s.payments[id].status != Paid
    ensures TurnsPaid(s, ev, id) <==> ev.Advance? && AboutToPay(s, ev.call, id)
  {
    StepMovesTable(s, ev);
    if ev.Advance? && ev.call in s.calls && s.calls[ev.call].MarkAsPaid? {
      var pc := s.calls[ev.call];
      MarkMoves(s, ev.call, pc.b, pc.env, pc.id, pc.mail);
    }
  }

  /** A cancelled payment is not final: some next step makes it paid exactly when its own creator still stands between
      the insert and the update that marks it paid, and that update can reach the database. */
  lemma CancelledMayStillBePaid(locking: bool, events: seq<Event>, id: PaymentId)
    requires id in Run(locking, events).payments && Run(locking, events).payments[id].status == Cancelled
    ensures var s := Run(locking, events);
            (exists ev :: TurnsPaid(s, ev, id)) <==> (exists c :: AboutToPay(s, c, id))
  {
    var s := Run(locking, events);
    RunKeepsRowInv(locking, events);
    if ev :| TurnsPaid(s, ev, id) {
      TurnsPaidExactly(s, ev, id);
      assert AboutToPay(s, ev.call, id);
    }
    if c :| AboutToPay(s, c, id) {
      TurnsPaidExactly(s, Advance(c), id);
    }
  }

  // ---------------------------------------------------------------- two paid payments, exactly

  /** A call stands before the unconditional update that marks its row paid, that update gets through, and by now the
      booking has a paid payment. */
  predicate PaysAgain(s: State, ev: Event) {
    && ev.Advance? && ev.call in s.calls && s.calls[ev.call].MarkAsPaid?
    && !s.calls[ev.call].env.markPaid.Unreachable? && HasPaid(s.payments, s.calls[ev.call].b)
  }

  /** One step gives a booking its second paid payment exactly when it is such an update. */
  lemma DoublePayExactly(s: State, ev: Event)
    requires RowInv(s) && OnePaidPerBooking(s.payments)
    ensures !OnePaidPerBooking(Step(s, ev).payments) <==> PaysAgain(s, ev)
  {
    var ps' := Step(s, ev).payments;
    StepMovesTable(s, ev);
    if PaysAgain(s, ev) {
      var pc := s.calls[ev.call];
      MarkMoves(s, ev.call, pc.b, pc.env, pc.id, pc.mail);
      assert CallWellFormed(s.payments, pc);
      var i :| i in s.payments && s.payments[i].bookingId == pc.b && s.payments[i].status == Paid;
      assert i in ps' && pc.id in ps' && ps'[i].status == Paid && ps'[pc.id].status == Paid && i != pc.id;
    } else {
      forall i, j | i in ps' && j in ps' && ps'[i].status == Paid && ps'[j].status == Paid
        && ps'[i].bookingId == ps'[j].bookingId
        ensures i == j
      {
        if i in s.payments && s.payments[i].status != Paid { TurnsPaidExactly(s, ev, i); }
        if j in s.payments && s.payments[j].status != Paid { TurnsPaidExactly(s, ev, j); }
        if ev.Advance? && ev.call in s.calls { assert CallWellFormed(s.payments, s.calls[ev.call]); }
      }
    }
  }

  predicate PaysAgainAt(locking: bool, events: seq<Event>, n: nat) {
    n < |events| && PaysAgain(Run(locking, events[..n]), events[n])
  }

  lemma PaysAgainInFront(locking: bool, events: seq<Event>, n: nat)
    requires events != []
    ensures var last := |events| - 1;
            && (n < last ==> (PaysAgainAt(locking, events[..last], n) <==> PaysAgainAt(locking, events, n)))
            && (PaysAgainAt(locking, events, last) <==> PaysAgain(Run(locking, events[..last]), events[last]))
  {
    var last := |events| - 1;
    if n < last { assert events[..last][..n] == events[..n]; }
  }

  /** In a run some booking has two paid payments exactly when at some point a call marked its row paid although the
      booking already had a paid payment: the guard that the update does not have. */
  lemma {:induction false} TwicePaidExactly(locking: bool, events: seq<Event>)
    ensures !OnePaidPerBooking(Run(locking, events).payments) <==> exists n: nat :: PaysAgainAt(locking, events, n)
  {
    if events != [] {
      var last := |events| - 1;
      var before, s := events[..last], Run(locking, events[..last]);
      TwicePaidExactly(locking, before);
      RunKeepsRowInv(locking, before);
      forall n: nat | PaysAgainAt(locking, events, n) ensures n == last || PaysAgainAt(locking, before, n) {
        PaysAgainInFront(locking, events, n);
      }
      PaysAgainInFront(locking, events, last);
      if OnePaidPerBooking(s.payments) {
        DoublePayExactly(s, events[last]);
      } else {
        TwicePaidStays(s, events[last]);
        var n: nat :| PaysAgainAt(locking, before, n);
        PaysAgainInFront(locking, events, n);
      }
    }
  }

  lemma TwicePaidStays(s: State, ev: Event)
    requires RowInv(s) && !OnePaidPerBooking(s.payments)
    ensures !OnePaidPerBooking(Step(s, ev).payments)
  {
    var i, j :| i in s.payments && j in s.payments && s.payments[i].status == Paid && s.payments[j].status == Paid
                && s.payments[i].bookingId == s.payments[j].bookingId && i != j;
    PaidRowUntouched(s, ev, i);
    PaidRowUntouched(s, ev, j);
  }

  // ---------------------------------------------------------------- a paid booking

  predicate PastCheckFor(s: State, c: CallId, b: BookingRef) {
    c in s.calls && PastCheck(s.calls[c]) && s.calls[c].b == b
  }

  lemma {:induction false} PaidStaysPaid(locking: bool, events: seq<Event>, more: seq<Event>, b: BookingRef)
    requires HasPaid(Run(locking, events).payments, b)
    ensures HasPaid(Run(locking, events + more).payments, b)
  {
    var ps := Run(locking, events).payments;
    var id :| id in ps && ps[id].bookingId == b && ps[id].status == Paid;
    PaidForever(locking, events, more, id);
  }

  lemma PaidLetsNoOnePast(s: State, ev: Event, c: CallId, b: BookingRef)
    requires HasPaid(s.payments, b) && PastCheckFor(Step(s, ev), c, b)
    ensures PastCheckFor(s, c, b)
  {
    if ev.Advance? && ev.call in s.calls {
      match s.calls[ev.call] {
        case TakeLock(_, _) => TakeLockMoves(s, ev.call);
        case InsertPending(p, env, payment, mail) => InsertMoves(s, ev.call, p, env, payment, mail);
        case MarkAsPaid(p, env, id, mail) => MarkMoves(s, ev.call, p, env, id, mail);
        case CancelUpdate(_, _, _) => CancelMoves(s, ev.call);
        case Unlock(_, _, _) => UnlockMoves(s, ev.call);
        case _ => QuietStepMoves(s, ev.call);
      }
      OthersStay(s, Step(s, ev), ev.call);
    } else if (ev.BeginCreate? || ev.BeginCancel?) && ev.call !in s.calls {
      BeginMoves(s, ev);
      assert s.calls - {ev.call} == s.calls;
      OthersStay(s, Step(s, ev), ev.call);
    }
  }

  /** A paid booking is never paid by a newcomer: from the moment it is paid, in every run, only the calls that were
      past their check at that moment can still be past it. A confirmation that failed is therefore not repeated. */
  lemma {:induction false} PaidBookingAdmitsNoNewcomer(locking: bool, events: seq<Event>, more: seq<Event>, c: CallId,
                                                       b: BookingRef)
    requires HasPaid(Run(locking, events).payments, b) && PastCheckFor(Run(locking, events + more), c, b)
    ensures PastCheckFor(Run(locking, events), c, b)
  {
    if more == [] {
      assert events + more == events;
    } else {
      var front := more[..|more| - 1];
      assert (events + front) + [more[|more| - 1]] == events + more;
      RunSnoc(locking, events + front, more[|more| - 1]);
      PaidStaysPaid(locking, events, front, b);
      PaidLetsNoOnePast(Run(locking, events + front), more[|more| - 1], c, b);
      PaidBookingAdmitsNoNewcomer(locking, events, front, c, b);
    }
  }
}
