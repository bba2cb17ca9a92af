/** Refreshes cut at their statements: the check of the token, its revocation, and the insertion of the new one, for any
    number of calls at once, with logins, logouts and revocations of all sessions in between. */
module RefreshRaces {
  import opened Basics
  import opened RefreshTokens
  import Serial = RefreshTokens

  type CallId = nat

  /** A refresh that has passed its checks. `revoked` says that it is past the statement that revokes the old token,
      whether or not that had any effect. */
  datatype Call = Call(token: Token, user: string, next: Token, expires: Time, w: Weather, revoked: bool)

  /** The logins that stored a token are numbered, and `login` holds for every stored token the number of the login from
      which it descends; no step looks at either. */
  datatype State = State(
    rows: Table, calls: map<CallId, Call>, results: map<CallId, Result<Token, Error>>,
    login: map<Token, nat>, logins: nat)

  datatype Event =
    | Begin(call: CallId, token: Token, now: Time, next: Token, expires: Time, w: Weather)
    | Advance(call: CallId)
    | Login(user: string, token: Token, expires: Time, accepted: bool, insert: CallOutcome)
    | Logout(token: Token, db: bool)
    | RevokeAll(user: string, db: bool)

  const INITIAL := State(map[], map[], map[], map[], 0)

  function BeginStep(s: State, call: CallId, t: Token, now: Time, next: Token, expires: Time, w: Weather): State {
    match Admit(s.rows, t, now, w)
    case Err(e) => s.(results := s.results[call := Err(e)])
    case Ok(user) => s.(calls := s.calls[call := Call(t, user, next, expires, w, false)])
  }

  function RevokeStep(s: State, call: CallId, c: Call): State {
    s.(rows := if c.w.revoke then Revoked(s.rows, c.token) else s.rows, calls := s.calls[call := c.(revoked := true)])
  }

  /** The insertion puts its token into the table. */
  predicate Lands(s: State, c: Call) {
    !c.w.insert.Unreachable? && c.next !in s.rows
  }

  function InsertStep(s: State, call: CallId, c: Call): State {
    State(Inserted(s.rows, c.user, c.next, c.expires, c.w.insert), s.calls - {call},
          s.results[call := RotationAnswer(s.rows, c.next, c.w)],
          if Lands(s, c) && c.token in s.login then s.login[c.next := s.login[c.token]] else s.login, s.logins)
  }

  function LoginStep(s: State, user: string, t: Token, expires: Time, insert: CallOutcome): State {
    if t in s.rows || insert.Unreachable? then s
    else s.(rows := Inserted(s.rows, user, t, expires, insert), login := s.login[t := s.logins], logins := s.logins + 1)
  }

  function Step(s: State, ev: Event): State {
    match ev
    case Begin(call, t, now, next, expires, w) =>
      if call in s.calls then s else BeginStep(s, call, t, now, next, expires, w)
    case Advance(call) =>
      if call !in s.calls then s
      else if s.calls[call].revoked then InsertStep(s, call, s.calls[call])
      else RevokeStep(s, call, s.calls[call])
    case Login(user, t, expires, accepted, insert) => if accepted then LoginStep(s, user, t, expires, insert) else s
    case Logout(t, db) => if db then s.(rows := Revoked(s.rows, t)) else s
    case RevokeAll(user, db) => if db then s.(rows := RevokedAll(s.rows, user)) else s
  }

  function RunFrom(s: State, events: seq<Event>): State {
    if events == [] then s else Step(RunFrom(s, events[..|events| - 1]), events[|events| - 1])
  }

  function Run(events: seq<Event>): State {
    RunFrom(INITIAL, events)
  }

  lemma {:induction false} RunFromParts(s: State, front: seq<Event>, back: seq<Event>)
    ensures RunFrom(s, front + back) == RunFrom(RunFrom(s, front), back)
  {
    if back == [] {
      assert front + back == front;
    } else {
      assert (front + back)[..|front + back| - 1] == front + back[..|back| - 1];
      RunFromParts(s, front, back[..|back| - 1]);
    }
  }

  /** A refresh that nothing interrupts is the serial operation, whichever of its statements take effect. */
  lemma UninterruptedIsSerial(s: State, call: CallId, t: Token, now: Time, next: Token, expires: Time, w: Weather)
    requires call !in s.calls
    ensures var end := Step(Step(Step(s, Begin(call, t, now, next, expires, w)), Advance(call)), Advance(call));
            && end.rows == Serial.Step(s.rows, Op.Refresh(t, now, next, expires, w))
            && end.results == s.results[call := Answer(s.rows, t, now, next, w)]
            && end.calls == s.calls
  {
    if Admit(s.rows, t, now, w).Ok? {
      var c := Call(t, s.rows[t].user, next, expires, w, false);
      assert s.calls[call := c][call := c.(revoked := true)] - {call} == s.calls;
    }
  }

  // ---------------------------------------------------------------- families

  predicate OnOwnToken(rows: Table, c: Call) {
    c.token in rows && rows[c.token].user == c.user
  }

  /** Every stored token has a login; every call works on a stored token of its user. */
  ghost predicate WellFormed(s: State) {
    && s.login.Keys == s.rows.Keys
    && (forall t | t in s.login :: s.login[t] < s.logins)
    && (forall c | c in s.calls :: OnOwnToken(s.rows, s.calls[c]))
  }

  /** Rows stay with their users, and what is revoked stays revoked. */
  ghost predicate Ages(rows: Table, rows': Table) {
    forall t | t in rows :: t in rows' && rows'[t].user == rows[t].user && (rows[t].revoked ==> rows'[t].revoked)
  }

  lemma AgingKeepsWellFormed(s: State, s': State)
    requires WellFormed(s) && Ages(s.rows, s'.rows) && s'.calls == s.calls
    requires s'.login == s.login && s'.logins == s.logins && s'.rows.Keys == s.rows.Keys
    ensures WellFormed(s')
  {
    forall c | c in s'.calls ensures OnOwnToken(s'.rows, s'.calls[c]) { assert OnOwnToken(s.rows, s.calls[c]); }
  }

  lemma BeginKeepsWellFormed(s: State, ev: Event)
    requires WellFormed(s) && ev.Begin?
    ensures WellFormed(Step(s, ev))
  {
  }

  lemma AdvanceKeepsWellFormed(s: State, call: CallId)
    requires WellFormed(s) && call in s.calls
    ensures WellFormed(Step(s, Advance(call))) && Ages(s.rows, Step(s, Advance(call)).rows)
  {
    var s' := Step(s, Advance(call));
    assert OnOwnToken(s.rows, s.calls[call]);
    forall c | c in s'.calls ensures OnOwnToken(s'.rows, s'.calls[c]) { assert OnOwnToken(s.rows, s.calls[c]); }
  }

  lemma LoginKeepsWellFormed(s: State, ev: Event)
    requires WellFormed(s) && ev.Login?
    ensures WellFormed(Step(s, ev)) && Ages(s.rows, Step(s, ev).rows)
  {
    var s' := Step(s, ev);
    forall c | c in s'.calls ensures OnOwnToken(s'.rows, s'.calls[c]) { assert OnOwnToken(s.rows, s.calls[c]); }
  }

  lemma StepKeepsWellFormed(s: State, ev: Event)
    requires WellFormed(s)
    ensures WellFormed(Step(s, ev)) && Ages(s.rows, Step(s, ev).rows)
  {
    match ev
    case Begin(_, _, _, _, _, _) => BeginKeepsWellFormed(s, ev);
    case Advance(call) => if call in s.calls { AdvanceKeepsWellFormed(s, call); }
    case Login(_, _, _, _, _) => LoginKeepsWellFormed(s, ev);
    case _ => AgingKeepsWellFormed(s, Step(s, ev));
  }

  lemma {:induction false} RunIsWellFormed(events: seq<Event>)
    ensures WellFormed(Run(events))
  {
    if events != [] {
      RunIsWellFormed(events[..|events| - 1]);
      StepKeepsWellFormed(Run(events[..|events| - 1]), events[|events| - 1]);
    }
  }

  predicate LiveFrom(s: State, t: Token, f: nat) {
    t in s.rows && !s.rows[t].revoked && t in s.login && s.login[t] == f
  }

  /** The unrevoked tokens that descend from the login of `f`. */
  function LiveFamily(s: State, f: nat): set<Token> {
    set t | t in s.rows && LiveFrom(s, t, f)
  }

  ghost predicate OneLivePerLogin(s: State) {
    forall t, u, f | LiveFrom(s, t, f) && LiveFrom(s, u, f) :: t == u
  }

  // ---------------------------------------------------------------- when a login owns two unrevoked tokens

  /** A refresh inserts its token while the login it descends from owns an unrevoked one. */
  predicate InsertsBeside(s: State, ev: Event) {
    && ev.Advance? && ev.call in s.calls && s.calls[ev.call].revoked && Lands(s, s.calls[ev.call])
    && s.calls[ev.call].token in s.login && LiveFamily(s, s.login[s.calls[ev.call].token]) != {}
  }

  lemma SplitsOneExactly(s: State, ev: Event)
    requires WellFormed(s) && OneLivePerLogin(s)
    ensures !OneLivePerLogin(Step(s, ev)) <==> InsertsBeside(s, ev)
  {
    if InsertsBeside(s, ev) {
      BesideIsTwo(s, ev);
    } else {
      var s' := Step(s, ev);
      forall t, u, f | LiveFrom(s', t, f) && LiveFrom(s', u, f) ensures t == u {
        NewLive(s, ev, t, f);
        NewLive(s, ev, u, f);
        if LiveFrom(s, t, f) { assert t in LiveFamily(s, f); }
        if LiveFrom(s, u, f) { assert u in LiveFamily(s, f); }
      }
    }
  }

  lemma BesideIsTwo(s: State, ev: Event)
    requires InsertsBeside(s, ev)
    ensures !OneLivePerLogin(Step(s, ev))
  {
    var c := s.calls[ev.call];
    var t :| t in LiveFamily(s, s.login[c.token]);
    assert LiveFrom(Step(s, ev), t, s.login[c.token]) && LiveFrom(Step(s, ev), c.next, s.login[c.token]);
  }

  /** A token that is unrevoked after a step was so before, or is what a login or a refresh has just inserted. */
  lemma NewLive(s: State, ev: Event, t: Token, f: nat)
    requires WellFormed(s) && LiveFrom(Step(s, ev), t, f)
    ensures LiveFrom(s, t, f)
            || (t !in s.rows && ev.Login? && t == ev.token && f == s.logins)
            || (t !in s.rows && ev.Advance? && ev.call in s.calls && s.calls[ev.call].revoked
                && Lands(s, s.calls[ev.call]) && t == s.calls[ev.call].next && f == s.login[s.calls[ev.call].token])
  {
    StepKeepsWellFormed(s, ev);
    match ev
    case Begin(_, _, _, _, _, _) =>
    case Advance(call) => if call in s.calls { AdvanceMakesLive(s, call, t, f); }
    case Login(_, _, _, _, _) =>
    case _ => assert Step(s, ev).rows.Keys == s.rows.Keys;
  }

  lemma AdvanceMakesLive(s: State, call: CallId, t: Token, f: nat)
    requires WellFormed(s) && call in s.calls && LiveFrom(Step(s, Advance(call)), t, f)
    ensures LiveFrom(s, t, f)
            || (t !in s.rows && s.calls[call].revoked && Lands(s, s.calls[call])
                && t == s.calls[call].next && f == s.login[s.calls[call].token])
  {
    assert OnOwnToken(s.rows, s.calls[call]);
  }

  ghost predicate TwoLiveAt(events: seq<Event>, n: nat) {
    n <= |events| && !OneLivePerLogin(Run(events[..n]))
  }

  ghost predicate InsertsBesideAt(events: seq<Event>, n: nat) {
    n < |events| && InsertsBeside(Run(events[..n]), events[n])
  }

  lemma NextRun(events: seq<Event>, n: nat)
    requires n < |events|
    ensures Run(events[..n + 1]) == Step(Run(events[..n]), events[n])
  {
    assert events[..n + 1][..n] == events[..n];
  }

  /** In a run, whatever it interleaves, some login comes to own two unrevoked tokens exactly when at some point a
      refresh inserts its token while the login already owns one: the check that the insertion does not make. */
  lemma TwoLiveExactly(events: seq<Event>)
    ensures (exists n: nat :: TwoLiveAt(events, n)) <==> (exists n: nat :: InsertsBesideAt(events, n))
  {
    if n: nat :| TwoLiveAt(events, n) { TwoLiveWasInserted(events, n); }
    if n: nat :| InsertsBesideAt(events, n) {
      NextRun(events, n);
      BesideIsTwo(Run(events[..n]), events[n]);
      assert TwoLiveAt(events, n + 1);
    }
  }

  lemma {:induction false} TwoLiveWasInserted(events: seq<Event>, n: nat)
    requires TwoLiveAt(events, n)
    ensures exists k: nat :: InsertsBesideAt(events, k)
  {
    if n > 0 {
      NextRun(events, n - 1);
      RunIsWellFormed(events[..n - 1]);
      if OneLivePerLogin(Run(events[..n - 1])) {
        SplitsOneExactly(Run(events[..n - 1]), events[n - 1]);
        assert InsertsBesideAt(events, n - 1);
      } else {
        TwoLiveWasInserted(events, n - 1);
      }
    }
  }

  // ---------------------------------------------------------------- how many a login can own

  /** Every revocation inside a refresh takes effect. */
  predicate AllRevoke(events: seq<Event>) {
    forall ev | ev in events :: ev.Begin? ==> ev.w.revoke
  }

  /** The step admits a refresh of a token of this family while another refresh of the same token is on its way. */
  predicate IsOverlap(s: State, ev: Event, f: nat) {
    && ev.Begin? && ev.call !in s.calls && Admit(s.rows, ev.token, ev.now, ev.w).Ok?
    && ev.token in s.login && s.login[ev.token] == f
    && exists c :: c in s.calls && s.calls[c].token == ev.token
  }

  function Overlaps(s: State, events: seq<Event>, f: nat): nat {
    if events == [] then 0
    else
      var before, ev := events[..|events| - 1], events[|events| - 1];
      Overlaps(s, before, f) + if IsOverlap(RunFrom(s, before), ev, f) then 1 else 0
  }

  predicate IsIdle(s: State, t: Token, f: nat) {
    LiveFrom(s, t, f) && forall c | c in s.calls :: s.calls[c].token != t
  }

  /** The unrevoked tokens of the family that no call works on. */
  function Idle(s: State, f: nat): set<Token> {
    set t | t in s.rows && IsIdle(s, t, f)
  }

  /** The calls that work on a token of the family. */
  function Busy(s: State, f: nat): set<CallId> {
    set c | c in s.calls && s.calls[c].token in s.login && s.login[s.calls[c].token] == f
  }

  /** A call that is past its revocation has left its token revoked. */
  ghost predicate RevokesTake(s: State) {
    && WellFormed(s)
    && (forall c | c in s.calls :: s.calls[c].w.revoke)
    && (forall c | c in s.calls && s.calls[c].revoked :: s.rows[s.calls[c].token].revoked)
  }

  /** The tokens that no call works on and the calls, taken together, exceed one by at most the overlaps. */
  ghost predicate Bounded(s: State, f: nat, overlaps: nat) {
    RevokesTake(s) && |Idle(s, f)| + |Busy(s, f)| <= 1 + overlaps
  }

  lemma FewerKeepBounded(s: State, s': State, f: nat, overlaps: nat)
    requires Bounded(s, f, overlaps) && WellFormed(s') && s'.calls == s.calls && s'.login == s.login
    requires forall t | t in s.rows :: t in s'.rows && (s.rows[t].revoked ==> s'.rows[t].revoked)
    ensures Bounded(s', f, overlaps)
  {
    assert Busy(s', f) == Busy(s, f);
    SubsetSize(Idle(s', f), Idle(s, f));
  }

  lemma AdmittedIsBusy(s: State, s': State, call: CallId, c: Call, x: Token, f: nat)
    requires call !in s.calls && s' == s.(calls := s.calls[call := c])
    ensures IsIdle(s', x, f) <==> IsIdle(s, x, f) && x != c.token
  {
    if IsIdle(s', x, f) {
      assert s'.calls[call].token != x;
      forall d | d in s.calls ensures s.calls[d].token != x { assert s'.calls[d] == s.calls[d]; }
    }
  }

  lemma BeginKeepsBounded(s: State, ev: Event, f: nat, overlaps: nat)
    requires Bounded(s, f, overlaps) && ev.Begin? && ev.w.revoke
    ensures Bounded(Step(s, ev), f, overlaps + if IsOverlap(s, ev, f) then 1 else 0)
  {
    var s' := Step(s, ev);
    StepKeepsWellFormed(s, ev);
    if ev.call !in s.calls && Admit(s.rows, ev.token, ev.now, ev.w).Ok? {
      forall x ensures IsIdle(s', x, f) <==> IsIdle(s, x, f) && x != ev.token {
        AdmittedIsBusy(s, s', ev.call, s'.calls[ev.call], x, f);
      }
      AdmittedCounts(s, s', ev, f);
    } else {
      assert Busy(s', f) == Busy(s, f) && Idle(s', f) == Idle(s, f);
    }
  }

  lemma AdmittedCounts(s: State, s': State, ev: Event, f: nat)
    requires ev.Begin? && ev.call !in s.calls && Admit(s.rows, ev.token, ev.now, ev.w).Ok? && s' == Step(s, ev)
    requires WellFormed(s) && forall x :: IsIdle(s', x, f) <==> IsIdle(s, x, f) && x != ev.token
    ensures |Idle(s', f)| + |Busy(s', f)| == |Idle(s, f)| + |Busy(s, f)| + if IsOverlap(s, ev, f) then 1 else 0
  {
    AdmittedTokenIsIdle(s, ev, f);
    AdmittedCallIsBusy(s, ev, f);
    OneMoves(Idle(s, f), Idle(s', f), Busy(s, f), ev.token, ev.call, s.login[ev.token] == f, IsOverlap(s, ev, f));
  }

  lemma OneMoves(idle: set<Token>, idle': set<Token>, busy: set<CallId>, t: Token, c: CallId, own: bool, more: bool)
    requires c !in busy && (t in idle <==> own && !more) && (more ==> own)
    requires forall x :: x in idle' <==> x in idle && x != t
    ensures |idle'| + |if own then busy + {c} else busy| == |idle| + |busy| + if more then 1 else 0
  {
    assert idle' == idle - {t};
  }

  lemma AdmittedTokenIsIdle(s: State, ev: Event, f: nat)
    requires ev.Begin? && ev.call !in s.calls && Admit(s.rows, ev.token, ev.now, ev.w).Ok? && ev.token in s.login
    ensures ev.token in Idle(s, f) <==> s.login[ev.token] == f && !IsOverlap(s, ev, f)
  {
  }

  lemma AdmittedCallIsBusy(s: State, ev: Event, f: nat)
    requires ev.Begin? && ev.call !in s.calls && Admit(s.rows, ev.token, ev.now, ev.w).Ok? && ev.token in s.login
    ensures Busy(Step(s, ev), f) == if s.login[ev.token] == f then Busy(s, f) + {ev.call} else Busy(s, f)
    ensures ev.call !in Busy(s, f)
  {
  }

  lemma RevokeKeepsBounded(s: State, call: CallId, f: nat, overlaps: nat)
    requires Bounded(s, f, overlaps) && call in s.calls && !s.calls[call].revoked
    ensures Bounded(Step(s, Advance(call)), f, overlaps)
  {
    var s' := Step(s, Advance(call));
    StepKeepsWellFormed(s, Advance(call));
    assert Busy(s', f) == Busy(s, f);
    forall t | t in Idle(s', f) ensures t in Idle(s, f) {
      assert s'.calls[call].token == s.calls[call].token;
      forall c | c in s.calls ensures s.calls[c].token != t { assert s'.calls[c].token == s.calls[c].token; }
    }
    SubsetSize(Idle(s', f), Idle(s, f));
  }

  lemma InsertMakesIdle(s: State, call: CallId, x: Token, f: nat)
    requires RevokesTake(s) && call in s.calls && s.calls[call].revoked
    requires IsIdle(Step(s, Advance(call)), x, f)
    ensures IsIdle(s, x, f) || (x == s.calls[call].next && f == s.login[s.calls[call].token])
  {
    var s', c := Step(s, Advance(call)), s.calls[call];
    AdvanceMakesLive(s, call, x, f);
    if LiveFrom(s, x, f) {
      forall d | d in s.calls ensures s.calls[d].token != x { if d != call { assert s'.calls[d] == s.calls[d]; } }
    }
  }

  lemma InsertEndsBusy(s: State, call: CallId, f: nat)
    requires call in s.calls && s.calls[call].revoked && s.calls[call].token in s.login && WellFormed(s)
    ensures Busy(Step(s, Advance(call)), f) == Busy(s, f) - {call}
    ensures call in Busy(s, f) <==> s.login[s.calls[call].token] == f
  {
    forall c | c in s.calls ensures OnOwnToken(s.rows, s.calls[c]) {}
  }

  lemma InsertKeepsBounded(s: State, call: CallId, f: nat, overlaps: nat)
    requires Bounded(s, f, overlaps) && call in s.calls && s.calls[call].revoked
    ensures Bounded(Step(s, Advance(call)), f, overlaps)
  {
    var s', c := Step(s, Advance(call)), s.calls[call];
    AdvanceKeepsWellFormed(s, call);
    assert OnOwnToken(s.rows, c);
    InsertEndsBusy(s, call, f);
    InsertedIdle(s, call, f);
    forall d | d in s'.calls && s'.calls[d].revoked ensures s'.rows[s'.calls[d].token].revoked {
      assert s'.calls[d] == s.calls[d] && OnOwnToken(s.rows, s.calls[d]);
    }
  }

  lemma InsertedIdle(s: State, call: CallId, f: nat)
    requires RevokesTake(s) && call in s.calls && s.calls[call].revoked
    requires s.calls[call].token in s.login
    ensures |Idle(Step(s, Advance(call)), f)| <= |Idle(s, f)| + if s.login[s.calls[call].token] == f then 1 else 0
  {
    var s', c := Step(s, Advance(call)), s.calls[call];
    var more := if s.login[c.token] == f then {c.next} else {};
    forall x | x in Idle(s', f) ensures x in Idle(s, f) + more { InsertMakesIdle(s, call, x, f); }
    SubsetSize(Idle(s', f), Idle(s, f) + more);
  }

  /** A login adds at most its own token, the first one of a new family. */
  lemma LoginMakesIdle(s: State, ev: Event, x: Token, f: nat)
    requires WellFormed(s) && ev.Login? && IsIdle(Step(s, ev), x, f)
    ensures IsIdle(s, x, f) || (x == ev.token && f == s.logins)
  {
  }

  lemma NewFamilyIsEmpty(s: State)
    requires WellFormed(s)
    ensures Idle(s, s.logins) == {} && Busy(s, s.logins) == {}
  {
  }

  lemma LoginAddsIdle(s: State, ev: Event, f: nat)
    requires WellFormed(s) && ev.Login?
    ensures |Idle(Step(s, ev), f)| <= |Idle(s, f)| + if f == s.logins then 1 else 0
  {
    var s' := Step(s, ev);
    if f == s.logins {
      forall x | x in Idle(s', f) ensures x in Idle(s, f) + {ev.token} { LoginMakesIdle(s, ev, x, f); }
      SubsetSize(Idle(s', f), Idle(s, f) + {ev.token});
    } else {
      forall x | x in Idle(s', f) ensures x in Idle(s, f) { LoginMakesIdle(s, ev, x, f); }
      SubsetSize(Idle(s', f), Idle(s, f));
    }
  }

  lemma LoginKeepsCalls(s: State, ev: Event, f: nat)
    requires RevokesTake(s) && ev.Login?
    ensures RevokesTake(Step(s, ev)) && Busy(Step(s, ev), f) == Busy(s, f)
  {
    StepKeepsWellFormed(s, ev);
    forall c | c in s.calls ensures OnOwnToken(s.rows, s.calls[c]) {}
  }

  lemma LoginKeepsBounded(s: State, ev: Event, f: nat, overlaps: nat)
    requires Bounded(s, f, overlaps) && ev.Login?
    ensures Bounded(Step(s, ev), f, overlaps)
  {
    LoginAddsIdle(s, ev, f);
    LoginKeepsCalls(s, ev, f);
    if f == s.logins { NewFamilyIsEmpty(s); }
  }

  lemma StepKeepsBounded(s: State, ev: Event, f: nat, overlaps: nat)
    requires Bounded(s, f, overlaps) && (ev.Begin? ==> ev.w.revoke)
    ensures Bounded(Step(s, ev), f, overlaps + if IsOverlap(s, ev, f) then 1 else 0)
  {
    match ev
    case Begin(_, _, _, _, _, _) => BeginKeepsBounded(s, ev, f, overlaps);
    case Advance(call) =>
      if call in s.calls {
        if s.calls[call].revoked {
          InsertKeepsBounded(s, call, f, overlaps);
        } else {
          RevokeKeepsBounded(s, call, f, overlaps);
        }
      }
    case Login(_, _, _, _, _) => LoginKeepsBounded(s, ev, f, overlaps);
    case _ =>
      StepKeepsWellFormed(s, ev);
      FewerKeepBounded(s, Step(s, ev), f, overlaps);
  }

  lemma {:induction false} RunIsBounded(events: seq<Event>, f: nat)
    requires AllRevoke(events)
    ensures Bounded(Run(events), f, Overlaps(INITIAL, events, f))
  {
    if events != [] {
      var before := events[..|events| - 1];
      RunIsBounded(before, f);
      assert events[|events| - 1] in events;
      StepKeepsBounded(Run(before), events[|events| - 1], f, Overlaps(INITIAL, before, f));
    }
  }

  /** Whatever is interleaved, logouts and revocations of all sessions included: when revocations take effect, a login
      owns at most one unrevoked token more than there were refreshes admitted while another refresh of the same token
      was on its way. Without such overlaps it owns at most one. */
  lemma LiveBoundedByOverlaps(events: seq<Event>, f: nat)
    requires AllRevoke(events)
    ensures |LiveFamily(Run(events), f)| <= 1 + Overlaps(INITIAL, events, f)
  {
    var s := Run(events);
    RunIsBounded(events, f);
    var held := LiveFamily(s, f) - Idle(s, f);
    HeldAreFew(s, f, held);
    assert LiveFamily(s, f) == Idle(s, f) + held;
  }

  /** Every token of the family that is not idle is held by a call of its own. */
  lemma HeldAreFew(s: State, f: nat, held: set<Token>)
    requires held == LiveFamily(s, f) - Idle(s, f)
    ensures |held| <= |Busy(s, f)|
  {
    forall t | t in held ensures exists c :: c in s.calls && s.calls[c].token == t {
      assert !IsIdle(s, t, f);
    }
    var holder := map t | t in held :: Holder(s, t);
    var holders := set t | t in held :: holder[t];
    InjectionKeepsSize(held, holders, holder);
    SubsetSize(holders, Busy(s, f));
  }

  ghost function Holder(s: State, t: Token): (c: CallId)
    requires exists c :: c in s.calls && s.calls[c].token == t
    ensures c in s.calls && s.calls[c].token == t
  {
    var c :| c in s.calls && s.calls[c].token == t;
    c
  }

  // ---------------------------------------------------------------- refreshes of one token, in any order

  /** Calls that have all been admitted for `t` and have not written yet, with different new tokens. */
  ghost predicate Racing(s: State, t: Token) {
    && WellFormed(s) && t in s.rows
    && (forall c | c in s.calls ::
          && s.calls[c].token == t && !s.calls[c].revoked
          && s.calls[c].w.revoke && s.calls[c].w.insert.Answered? && s.calls[c].next !in s.rows)
    && (forall c, d | c in s.calls && d in s.calls && s.calls[c].next == s.calls[d].next :: c == d)
  }

  /** The rows that were there stay, except that `t` may have been revoked; all others are tokens of racers. */
  ghost predicate KeepsRows(s: State, s': State, t: Token) {
    && s.rows.Keys <= s'.rows.Keys
    && (forall x | x in s.login :: x in s'.login && s'.login[x] == s.login[x])
    && (forall x | x in s.rows && x != t :: s'.rows[x] == s.rows[x])
    && (forall x | x in s'.rows && x !in s.rows :: IsNext(s, x))
  }

  predicate IsNext(s: State, x: Token) {
    exists c :: c in s.calls && s.calls[c].next == x
  }

  /** A racer still carries what it was admitted with, and has stored its token exactly when it is through; once it is
      past its revocation, `t` is revoked. */
  ghost predicate Races(s: State, s': State, t: Token, c: CallId)
    requires c in s.calls && t in s.login
  {
    && (c in s'.calls ==> s'.calls[c] == s.calls[c].(revoked := s'.calls[c].revoked))
    && (c in s'.calls ==> s.calls[c].next !in s'.rows)
    && (c !in s'.calls ==> LiveFrom(s', s.calls[c].next, s.login[t]))
    && (c !in s'.calls || s'.calls[c].revoked ==> t in s'.rows && s'.rows[t].revoked)
  }

  ghost predicate Raced(s: State, s': State, t: Token)
    requires t in s.login
  {
    s'.calls.Keys <= s.calls.Keys && KeepsRows(s, s', t) && forall c | c in s.calls :: Races(s, s', t, c)
  }

  function NextTokens(s: State): set<Token> {
    set c | c in s.calls :: s.calls[c].next
  }

  lemma RevokeKeepsRaced(s: State, s': State, t: Token, call: CallId)
    requires Racing(s, t) && t in s.login && Raced(s, s', t) && call in s'.calls && !s'.calls[call].revoked
    ensures Raced(s, Step(s', Advance(call)), t)
  {
    var s'' := Step(s', Advance(call));
    assert Races(s, s', t, call);
    assert s''.rows.Keys == s'.rows.Keys && s''.calls.Keys == s'.calls.Keys;
    forall c | c in s.calls ensures Races(s, s'', t, c) { assert Races(s, s', t, c); }
  }

  lemma InsertKeepsRows(s: State, s': State, t: Token, call: CallId)
    requires KeepsRows(s, s', t) && t in s.login && call in s.calls && call in s'.calls && s'.calls[call].revoked
    requires s'.calls[call] == s.calls[call].(revoked := true) && s.calls[call].next !in s.rows
    requires s.login.Keys == s.rows.Keys
    ensures KeepsRows(s, Step(s', Advance(call)), t)
  {
    assert IsNext(s, s.calls[call].next);
  }

  lemma InsertKeepsRace(s: State, s': State, t: Token, call: CallId, c: CallId)
    requires Racing(s, t) && t in s.login && t in s'.login && s'.login[t] == s.login[t]
    requires call in s'.calls && s'.calls[call].revoked && c in s.calls && call in s.calls
    requires Races(s, s', t, call) && Races(s, s', t, c)
    ensures Races(s, Step(s', Advance(call)), t, c)
  {
    if c != call { assert s.calls[c].next != s.calls[call].next; }
  }

  lemma InsertKeepsRaced(s: State, s': State, t: Token, call: CallId)
    requires Racing(s, t) && t in s.login && Raced(s, s', t) && call in s'.calls && s'.calls[call].revoked
    ensures Raced(s, Step(s', Advance(call)), t)
  {
    assert Races(s, s', t, call);
    InsertKeepsRows(s, s', t, call);
    forall c | c in s.calls ensures Races(s, Step(s', Advance(call)), t, c) {
      assert Races(s, s', t, c);
      InsertKeepsRace(s, s', t, call, c);
    }
  }

  lemma AdvanceKeepsRaced(s: State, s': State, t: Token, call: CallId)
    requires Racing(s, t) && t in s.login && Raced(s, s', t)
    ensures Raced(s, Step(s', Advance(call)), t)
  {
    if call in s'.calls {
      if s'.calls[call].revoked { InsertKeepsRaced(s, s', t, call); } else { RevokeKeepsRaced(s, s', t, call); }
    }
  }

  lemma {:induction false} AdvancesKeepRaced(s: State, t: Token, events: seq<Event>)
    requires Racing(s, t) && t in s.login && forall ev | ev in events :: ev.Advance?
    ensures Raced(s, RunFrom(s, events), t)
  {
    if events != [] {
      AdvancesKeepRaced(s, t, events[..|events| - 1]);
      assert events[|events| - 1] in events;
      AdvanceKeepsRaced(s, RunFrom(s, events[..|events| - 1]), t, events[|events| - 1].call);
    }
  }

  /** Refreshes of one token that have all been admitted, their statements in any order: when all are through, each has
      left an unrevoked token of the login, in place of the one token. */
  lemma RacersAllLand(s: State, t: Token, events: seq<Event>)
    requires Racing(s, t) && s.calls != map[] && forall ev | ev in events :: ev.Advance?
    requires RunFrom(s, events).calls == map[]
    ensures var f := s.login[t];
            LiveFamily(RunFrom(s, events), f) == LiveFamily(s, f) - {t} + NextTokens(s)
    ensures |NextTokens(s)| == |s.calls|
  {
    AdvancesKeepRaced(s, t, events);
    EachHasItsNext(s, t);
    var s', f := RunFrom(s, events), s.login[t];
    forall x ensures x in LiveFamily(s', f) <==> x in LiveFamily(s, f) - {t} + NextTokens(s) {
      LandedFamily(s, s', t, x);
    }
  }

  lemma EachHasItsNext(s: State, t: Token)
    requires Racing(s, t)
    ensures |NextTokens(s)| == |s.calls|
  {
    var next := map c | c in s.calls :: s.calls[c].next;
    InjectionKeepsSize(s.calls.Keys, NextTokens(s), next);
    assert |s.calls| == |s.calls.Keys|;
  }

  lemma LandedFamily(s: State, s': State, t: Token, x: Token)
    requires Racing(s, t) && t in s.login && Raced(s, s', t) && s'.calls == map[] && s.calls != map[]
    ensures LiveFrom(s', x, s.login[t]) <==> (LiveFrom(s, x, s.login[t]) && x != t) || x in NextTokens(s)
  {
    forall c | c in s.calls ensures LiveFrom(s', s.calls[c].next, s.login[t]) && s'.rows[t].revoked {
      assert Races(s, s', t, c);
    }
    var c :| c in s.calls;
    if x in s.rows && x != t { assert s'.rows[x] == s.rows[x]; }
  }

  // ---------------------------------------------------------------- revoking all sessions

  /** The call belongs to the user, and its insertion can still put a token into the table. */
  predicate CanLand(s: State, c: CallId, user: string) {
    c in s.calls && s.calls[c].user == user && Lands(s, s.calls[c])
  }

  predicate NoLogin(events: seq<Event>, user: string) {
    forall ev | ev in events :: ev.Login? ==> ev.user != user
  }

  ghost predicate StaysOut(s: State, user: string) {
    WellFormed(s) && LiveOf(s.rows, user) == {} && forall c :: !CanLand(s, c, user)
  }

  lemma NoneAdmitted(rows: Table, t: Token, user: string)
    requires LiveOf(rows, user) == {} && t in rows && !rows[t].revoked
    ensures rows[t].user != user
  {
    assert t !in LiveOf(rows, user);
  }

  lemma BeginStaysOut(s: State, ev: Event, user: string)
    requires StaysOut(s, user) && ev.Begin?
    ensures StaysOut(Step(s, ev), user)
  {
    BeginKeepsWellFormed(s, ev);
    if ev.token in s.rows && !s.rows[ev.token].revoked { NoneAdmitted(s.rows, ev.token, user); }
    forall c ensures !CanLand(Step(s, ev), c, user) { assert !CanLand(s, c, user); }
  }

  lemma AdvanceStaysOut(s: State, call: CallId, user: string)
    requires StaysOut(s, user) && call in s.calls
    ensures StaysOut(Step(s, Advance(call)), user)
  {
    var s' := Step(s, Advance(call));
    AdvanceKeepsWellFormed(s, call);
    assert !CanLand(s, call, user);
    forall c ensures !CanLand(s', c, user) { assert !CanLand(s, c, user); }
    forall t ensures t !in LiveOf(s'.rows, user) { assert t !in LiveOf(s.rows, user); }
  }

  lemma StepStaysOut(s: State, ev: Event, user: string)
    requires StaysOut(s, user) && (ev.Login? ==> ev.user != user)
    ensures StaysOut(Step(s, ev), user)
  {
    match ev
    case Begin(_, _, _, _, _, _) => BeginStaysOut(s, ev, user);
    case Advance(call) => if call in s.calls { AdvanceStaysOut(s, call, user); }
    case _ =>
      var s' := Step(s, ev);
      StepKeepsWellFormed(s, ev);
      forall c ensures !CanLand(s', c, user) { assert !CanLand(s, c, user); }
      forall t ensures t !in LiveOf(s'.rows, user) { assert t !in LiveOf(s.rows, user); }
  }

  lemma {:induction false} RunStaysOut(s: State, more: seq<Event>, user: string)
    requires StaysOut(s, user) && NoLogin(more, user)
    ensures StaysOut(RunFrom(s, more), user)
  {
    if more != [] {
      RunStaysOut(s, more[..|more| - 1], user);
      assert more[|more| - 1] in more;
      StepStaysOut(RunFrom(s, more[..|more| - 1]), more[|more| - 1], user);
    }
  }

  ghost predicate ComesBack(s: State, more: seq<Event>, user: string) {
    NoLogin(more, user) && LiveOf(RunFrom(s, more).rows, user) != {}
  }

  /** Revoking all sessions of a user is final, up to the next login, exactly when no refresh of that user is on its way
      whose insertion can still put a token into the table. */
  lemma RevokeAllIsFinalExactly(events: seq<Event>, user: string)
    ensures var s := Run(events + [Event.RevokeAll(user, true)]);
            && LiveOf(s.rows, user) == {}
            && ((exists more :: ComesBack(s, more, user)) <==> (exists c :: CanLand(s, c, user)))
  {
    var all := events + [Event.RevokeAll(user, true)];
    var s := Run(all);
    assert all[..|events|] == events;
    RunIsWellFormed(all);
    if more :| ComesBack(s, more, user) {
      if forall c :: !CanLand(s, c, user) { RunStaysOut(s, more, user); }
    }
    if c :| CanLand(s, c, user) { LandsAfterAll(s, c, user); }
  }

  lemma LandsAfterAll(s: State, call: CallId, user: string)
    requires WellFormed(s) && CanLand(s, call, user)
    ensures exists more :: ComesBack(s, more, user)
  {
    var c, once, twice := s.calls[call], [Advance(call)], [Advance(call), Advance(call)];
    assert once[..0] == [] && twice[..1] == once;
    assert RunFrom(s, once) == Step(s, Advance(call));
    assert RunFrom(s, twice) == Step(RunFrom(s, once), Advance(call));
    if c.revoked {
      assert c.next in LiveOf(RunFrom(s, once).rows, user);
      assert ComesBack(s, once, user);
    } else {
      assert c.next in LiveOf(RunFrom(s, twice).rows, user);
      assert ComesBack(s, twice, user);
    }
  }
}
