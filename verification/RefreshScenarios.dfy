/** Runs in which one login ends up with any number of unrevoked tokens. */
module RefreshScenarios {
  import opened Basics
  import opened RefreshRaces
  import Tokens = RefreshTokens

  const FAIR := Tokens.Weather(true, true, true, Answered, true)

  predicate AllDifferent(names: seq<Tokens.Token>) {
    forall i, j | 0 <= i < j < |names| :: names[i] != names[j]
  }

  /** `k` calls are admitted for the first token, to replace it by one of the others each. */
  function Begins(names: seq<Tokens.Token>, k: nat): seq<Event>
    requires k < |names|
  {
    if k == 0 then [] else Begins(names, k - 1) + [Begin(k - 1, names[0], 0, names[k], 0, FAIR)]
  }

  function Racers(names: seq<Tokens.Token>, user: string, k: nat): map<CallId, Call>
    requires k < |names|
  {
    if k == 0 then map[] else Racers(names, user, k - 1)[k - 1 := Call(names[0], user, names[k], 0, FAIR, false)]
  }

  lemma {:induction false} RacerIs(names: seq<Tokens.Token>, user: string, k: nat, c: CallId)
    requires k < |names|
    ensures c in Racers(names, user, k) <==> c < k
    ensures c < k ==> Racers(names, user, k)[c] == Call(names[0], user, names[c + 1], 0, FAIR, false)
  {
    if k > 0 { RacerIs(names, user, k - 1, c); }
  }

  lemma {:induction false} RacersCount(names: seq<Tokens.Token>, user: string, k: nat)
    requires k < |names|
    ensures |Racers(names, user, k)| == k
  {
    if k > 0 {
      RacersCount(names, user, k - 1);
      RacerIs(names, user, k - 1, k - 1);
    }
  }

  function LoggedIn(t: Tokens.Token, user: string): State {
    State(map[t := Tokens.Row(user, 0, false)], map[], map[], map[t := 0], 1)
  }

  lemma {:induction false} AfterBegins(names: seq<Tokens.Token>, user: string, k: nat)
    requires k < |names|
    ensures var s0 := LoggedIn(names[0], user);
            && RunFrom(s0, Begins(names, k)) == s0.(calls := Racers(names, user, k))
            && Overlaps(s0, Begins(names, k), 0) == if k == 0 then 0 else k - 1
  {
    if k > 0 {
      var s0, front, begin := LoggedIn(names[0], user), Begins(names, k - 1),
                              Begin(k - 1, names[0], 0, names[k], 0, FAIR);
      AfterBegins(names, user, k - 1);
      OneBegins(s0, names, user, k);
      LastOf(s0, front, begin, 0);
      assert RunFrom(s0, front + [begin]) == s0.(calls := Racers(names, user, k));
      assert Overlaps(s0, front + [begin], 0) == k - 1;
    }
  }

  lemma OneBegins(s0: State, names: seq<Tokens.Token>, user: string, k: nat)
    requires 0 < k < |names| && s0 == LoggedIn(names[0], user)
    ensures var s, begin := s0.(calls := Racers(names, user, k - 1)), Begin(k - 1, names[0], 0, names[k], 0, FAIR);
            && Step(s, begin) == s0.(calls := Racers(names, user, k))
            && (IsOverlap(s, begin, 0) <==> k > 1)
  {
    RacerIs(names, user, k - 1, k - 1);
    RacerIs(names, user, k - 1, 0);
    RacersCount(names, user, k - 1);
    if k > 1 { assert Racers(names, user, k - 1)[0].token == names[0]; }
  }

  lemma LastOf(s: State, events: seq<Event>, ev: Event, f: nat)
    ensures RunFrom(s, events + [ev]) == Step(RunFrom(s, events), ev)
    ensures Overlaps(s, events + [ev], f)
         == Overlaps(s, events, f) + if IsOverlap(RunFrom(s, events), ev, f) then 1 else 0
  {
    assert (events + [ev])[..|events|] == events;
  }

  /** Each call takes its two steps. */
  function Finishes(k: nat): seq<Event> {
    if k == 0 then [] else Finishes(k - 1) + [Advance(k - 1)] + [Advance(k - 1)]
  }

  /** No call below `k` is left, and none has come. */
  predicate OnlyFrom(s: State, s': State, k: nat) {
    s'.calls.Keys <= s.calls.Keys && forall c | c in s'.calls :: c >= k
  }

  lemma {:induction false} AfterFinishes(s: State, k: nat)
    ensures OnlyFrom(s, RunFrom(s, Finishes(k)), k)
  {
    if k > 0 {
      AfterFinishes(s, k - 1);
      PairRuns(s, Finishes(k - 1), Advance(k - 1));
      TwoStepsEnd(RunFrom(s, Finishes(k - 1)), k - 1);
    }
  }

  lemma PairRuns(s: State, events: seq<Event>, ev: Event)
    ensures RunFrom(s, events + [ev] + [ev]) == Step(Step(RunFrom(s, events), ev), ev)
  {
    LastOf(s, events, ev, 0);
    LastOf(s, events + [ev], ev, 0);
  }

  lemma {:induction false} FinishesAdvance(k: nat)
    ensures forall ev | ev in Finishes(k) :: ev.Advance?
  {
    if k > 0 { FinishesAdvance(k - 1); }
  }

  lemma {:induction false} AdvancesDoNotOverlap(s: State, events: seq<Event>, f: nat)
    requires forall ev | ev in events :: ev.Advance?
    ensures Overlaps(s, events, f) == 0
  {
    if events != [] {
      AdvancesDoNotOverlap(s, events[..|events| - 1], f);
      assert events[|events| - 1] in events;
    }
  }

  lemma TwoStepsEnd(s: State, call: CallId)
    ensures Step(Step(s, Advance(call)), Advance(call)).calls.Keys == s.calls.Keys - {call}
  {
  }

  lemma {:induction false} OverlapsAdd(s: State, front: seq<Event>, back: seq<Event>, f: nat)
    ensures Overlaps(s, front + back, f) == Overlaps(s, front, f) + Overlaps(RunFrom(s, front), back, f)
  {
    if back == [] {
      assert front + back == front;
    } else {
      var init := back[..|back| - 1];
      assert front + back == (front + init) + [back[|back| - 1]] && back == init + [back[|back| - 1]];
      OverlapsAdd(s, front, init, f);
      RunFromParts(s, front, init);
      LastOf(s, front + init, back[|back| - 1], f);
      LastOf(RunFrom(s, front), init, back[|back| - 1], f);
    }
  }

  /** The bound of `LiveBoundedByOverlaps` is reached: after one login, `k` refreshes of its token at once, of which
      `k - 1` overlap with another, leave `k` unrevoked tokens. */
  lemma OverlapsAreReached(names: seq<Tokens.Token>, user: string, k: nat)
    requires 0 < k < |names| && AllDifferent(names)
    ensures exists events ::
      AllRevoke(events) && Overlaps(INITIAL, events, 0) == k - 1 && |LiveFamily(Run(events), 0)| == k
  {
    var first := [Event.Login(user, names[0], 0, true, Answered)];
    var race := Begins(names, k) + Finishes(k);
    FirstLogin(names[0], user);
    RaceForks(names, user, k);
    RunFromParts(INITIAL, first, race);
    OverlapsAdd(INITIAL, first, race, 0);
    BeginsRevoke(names, k);
    FinishesAdvance(k);
    assert AllRevoke(first + race);
  }

  lemma RaceForks(names: seq<Tokens.Token>, user: string, k: nat)
    requires 0 < k < |names| && AllDifferent(names)
    ensures var s0, race := LoggedIn(names[0], user), Begins(names, k) + Finishes(k);
            Overlaps(s0, race, 0) == k - 1 && |LiveFamily(RunFrom(s0, race), 0)| == k
  {
    var s0 := LoggedIn(names[0], user);
    var s := s0.(calls := Racers(names, user, k));
    AfterBegins(names, user, k);
    FinishesAdvance(k);
    AdvancesDoNotOverlap(s, Finishes(k), 0);
    RunFromParts(s0, Begins(names, k), Finishes(k));
    OverlapsAdd(s0, Begins(names, k), Finishes(k), 0);
    AllLand(s, names, user, k);
  }

  lemma FirstLogin(t: Tokens.Token, user: string)
    ensures var first := [Event.Login(user, t, 0, true, Answered)];
            RunFrom(INITIAL, first) == LoggedIn(t, user) && Overlaps(INITIAL, first, 0) == 0
  {
    var login := Event.Login(user, t, 0, true, Answered);
    assert [] + [login] == [login];
    LastOf(INITIAL, [], login, 0);
  }

  lemma {:induction false} BeginsRevoke(names: seq<Tokens.Token>, k: nat)
    requires k < |names|
    ensures AllRevoke(Begins(names, k))
  {
    if k > 0 { BeginsRevoke(names, k - 1); }
  }

  lemma AllLand(s: State, names: seq<Tokens.Token>, user: string, k: nat)
    requires 0 < k < |names| && AllDifferent(names)
    requires s == LoggedIn(names[0], user).(calls := Racers(names, user, k))
    ensures |LiveFamily(RunFrom(s, Finishes(k)), 0)| == k
  {
    AfterFinishes(s, k);
    FinishesAdvance(k);
    RacersRace(s, names, user, k);
    NoneLeft(s, RunFrom(s, Finishes(k)), k);
    RacersAllLand(s, names[0], Finishes(k));
    assert LiveFamily(s, 0) - {names[0]} == {};
    assert LiveFamily(s, 0) - {names[0]} + NextTokens(s) == NextTokens(s);
  }

  lemma NoneLeft(s: State, s': State, k: nat)
    requires OnlyFrom(s, s', k) && forall c | c in s.calls :: c < k
    ensures s'.calls == map[]
  {
    assert s'.calls.Keys == {};
  }

  lemma RacersRace(s: State, names: seq<Tokens.Token>, user: string, k: nat)
    requires 0 < k < |names| && AllDifferent(names)
    requires s == LoggedIn(names[0], user).(calls := Racers(names, user, k))
    ensures Racing(s, names[0]) && |s.calls| == k && forall c | c in s.calls :: c < k
  {
    RacersCount(names, user, k);
    forall c | c in s.calls
      ensures c < k && s.calls[c] == Call(names[0], user, names[c + 1], 0, FAIR, false)
    {
      RacerIs(names, user, k, c);
    }
  }
}
