/** Runs from an empty table that pay one booking twice, once a lock expires under its holder or there is no lock; and
    runs that pay a booking and answer an error. */
module PaymentScenarios {
  import opened PaymentStore
  import opened PaymentProtocol
  import opened PaymentLocks
  import opened PaymentService

  ghost predicate Reachable(locking: bool, s: State) {
    exists events :: Run(locking, events) == s
  }

  lemma StepsAreReachable(locking: bool, s: State, ev: Event)
    requires Reachable(locking, s)
    ensures Reachable(locking, Step(s, ev))
  {
    var events :| Run(locking, events) == s;
    assert (events + [ev])[..|events|] == events;
    assert Run(locking, events + [ev]) == Step(s, ev);
  }

  lemma {:induction false} AloneIsReachable(locking: bool, s: State, call: CallId, n: nat)
    requires Reachable(locking, s)
    ensures Reachable(locking, Alone(s, call, n))
    decreases n
  {
    if n > 0 {
      StepsAreReachable(locking, s, Advance(call));
      AloneIsReachable(locking, Step(s, Advance(call)), call, n - 1);
    }
  }

  /** The pending payment that a willing call inserts. */
  function Inserted(b: BookingRef, env: Replies): Payment
    requires Willing(env)
  {
    NewPayment(b, env, env.booking.value, Amount(env.booking.value, env.tariff).value)
  }

  /** A willing call that has checked the booking and priced the stay stands before its insert. */
  lemma FourSteps(s: State, ps: Payments, locks: Locks, call: CallId, b: BookingRef, env: Replies, n: nat)
    requires Willing(env) && !HasPaid(ps, b) && env.id !in ps && n >= 4
    ensures Alone(At(s, ps, locks, call, FetchBooking(b, env)), call, n)
         == Alone(At(s, ps[env.id := Inserted(b, env)], locks, call, MarkAsPaid(b, env, env.id, true)), call, n - 4)
  {
    ThreeSteps(s, ps, locks, call, b, env, n);
    InsertGoesOn(s, ps, locks, call, b, env, Inserted(b, env), true, n - 3);
  }

  lemma ThreeSteps(s: State, ps: Payments, locks: Locks, call: CallId, b: BookingRef, env: Replies, n: nat)
    requires Willing(env) && !HasPaid(ps, b) && n >= 3
    ensures Alone(At(s, ps, locks, call, FetchBooking(b, env)), call, n)
         == Alone(At(s, ps, locks, call, InsertPending(b, env, Inserted(b, env), true)), call, n - 3)
  {
    FetchGoesOn(s, ps, locks, call, b, env, n);
    CheckGoesOn(s, ps, locks, call, b, env, env.booking.value, n - 1);
    WillingIsPriced(s, ps, locks, call, b, env, n - 2);
  }

  lemma WillingIsPriced(s: State, ps: Payments, locks: Locks, call: CallId, b: BookingRef, env: Replies, n: nat)
    requires Willing(env) && n >= 1
    ensures Alone(At(s, ps, locks, call, PriceStay(b, env, env.booking.value)), call, n)
         == Alone(At(s, ps, locks, call, InsertPending(b, env, Inserted(b, env), true)), call, n - 1)
  {
    PriceGoesOn(s, ps, locks, call, b, env, env.booking.value, Inserted(b, env), true, n);
  }

  /** With the lock in use, one expiry under its holder is enough. */
  lemma ExpiryInARun(b: BookingRef, first: Replies, second: Replies)
    requires b != "" && Willing(first) && Willing(second) && first.id != second.id
    ensures exists events :: !OnePaidPerBooking(Run(true, events).payments)
  {
    var start := Run(true, []);
    assert Reachable(true, start);
    var s0 := Step(start, BeginCreate(0, b, first));
    var s := Alone(s0, 0, 5);
    StepsAreReachable(true, start, BeginCreate(0, b, first));
    AloneIsReachable(true, s0, 0, 5);
    AtMark(start, s, b, first);
    var s1 := Step(s, LockExpires(b));
    var s1' := Step(s1, BeginCreate(1, b, second));
    var s2 := Alone(s1', 1, 9);
    var s3 := Step(s2, Advance(0));
    StepsAreReachable(true, s, LockExpires(b));
    StepsAreReachable(true, s1, BeginCreate(1, b, second));
    AloneIsReachable(true, s1', 1, 9);
    StepsAreReachable(true, s2, Advance(0));
    ExpiredLockPaysTwice(s, s1, s2, s3, 0, 1, b, second);
    assert !OnePaidPerBooking(s3.payments);
    var events :| Run(true, events) == s3;
    assert !OnePaidPerBooking(Run(true, events).payments);
  }

  lemma AtMark(start: State, s: State, b: BookingRef, env: Replies)
    requires start == Run(true, []) && b != "" && Willing(env)
    requires s == Alone(Step(start, BeginCreate(0, b, env)), 0, 5)
    ensures Inv(s) && s.calls == map[0 := MarkAsPaid(b, env, env.id, true)]
    ensures s.payments == map[env.id := Inserted(b, env)]
  {
    var ps: Payments, locks: Locks := map[], map[];
    GoesOn(start, ps, locks, 0, TakeLock(b, env), ps, locks[b := 0], FetchBooking(b, env), 5);
    FourSteps(start, ps, locks[b := 0], 0, b, env, 4);
    MarkIsSafe(start, s, b, env);
  }

  lemma MarkIsSafe(start: State, s: State, b: BookingRef, env: Replies)
    requires Willing(env) && start.locking && start.calls == map[]
    requires s == At(start, map[env.id := Inserted(b, env)], map[b := 0], 0, MarkAsPaid(b, env, env.id, true))
    ensures Inv(s) && s.calls == map[0 := MarkAsPaid(b, env, env.id, true)]
    ensures s.payments == map[env.id := Inserted(b, env)]
  {
  }

  /** Without a cache, two calls at the same time are enough. */
  lemma NoLockInARun(b: BookingRef, first: Replies, second: Replies)
    requires b != "" && Willing(first) && Willing(second) && first.id != second.id
    ensures exists events :: !OnePaidPerBooking(Run(false, events).payments)
  {
    var start := Run(false, []);
    assert Reachable(false, start);
    var s0 := Step(start, BeginCreate(0, b, first));
    var s1 := Alone(s0, 0, 4);
    var s2 := Step(s1, BeginCreate(1, b, second));
    var s := Alone(s2, 1, 4);
    StepsAreReachable(false, start, BeginCreate(0, b, first));
    AloneIsReachable(false, s0, 0, 4);
    StepsAreReachable(false, s1, BeginCreate(1, b, second));
    AloneIsReachable(false, s2, 1, 4);
    FourSteps(start, map[], map[], 0, b, first, 4);
    var one: Payments := map[first.id := Inserted(b, first)];
    assert s1 == At(start, one, map[], 0, MarkAsPaid(b, first, first.id, true));
    FourSteps(s1, one, map[], 1, b, second, 4);
    var s3 := Step(s, Advance(0));
    StepsAreReachable(false, s, Advance(0));
    StepsAreReachable(false, s3, Advance(1));
    NoLockPaysTwice(s, 0, 1);
    var events :| Run(false, events) == Step(s3, Advance(1));
    assert !OnePaidPerBooking(Run(false, events).payments);
  }

  /** With or without a lock, one call from an empty table answers an error for a booking that it has paid. */
  lemma PaidDespiteErrorInARun(locking: bool, b: BookingRef, env: Replies)
    requires Refusal(b, env.paidBy).None? && env.lock.Answered? && ReachesMark(map[], env) && FailsAfterMark(env)
    ensures exists events ::
      var s := Run(locking, events); 0 in s.results && s.results[0].Err? && HasPaid(s.payments, b)
  {
    var start := Run(locking, []);
    assert Reachable(locking, start);
    var begun := Step(start, BeginCreate(0, b, env));
    var end := Alone(begun, 0, 9);
    StepsAreReachable(locking, start, BeginCreate(0, b, env));
    AloneIsReachable(locking, begun, 0, 9);
    UninterruptedIsSerial(start, 0, b, env);
    PaidDespiteErrorExactly(map[], map[], locking, 0, b, env);
    var events :| Run(locking, events) == end;
    assert 0 in Run(locking, events).results;
  }
}
