/** Broadcasts that run at the same time. `Broadcast` holds the lock of the hub for reading only, so several of them may
    offer their notifications channel by channel in any order, while a subscription or its end has to wait for all. */
module HubBroadcasts {
  import opened Basics
  import Atomic = NotificationHub

  type Note = Atomic.Notification

  type BroadcastId = nat

  /** A broadcast under way, and the channels that it has still to offer its notification to. */
  datatype Going<C(==)> = Going(note: Note, left: set<C>)

  datatype State<C(==)> = State(hub: Atomic.State<C>, going: map<BroadcastId, Going<C>>)

  /** The hub's own operations other than broadcasts are single steps. */
  datatype Event<C> =
    | Call(ev: Atomic.Event<C>)
    | Start(id: BroadcastId, note: Note)
    | Offer(id: BroadcastId, ch: C)

  /** The call can run now: a reader always, a writer when no broadcast holds the lock. */
  predicate Runs<C>(s: State<C>, ev: Atomic.Event<C>) {
    ev.Read? || ((ev.Subscribe? || ev.Unsubscribe?) && s.going == map[])
  }

  predicate Offers<C>(s: State<C>, ev: Event<C>, ch: C) {
    ev.Offer? && ev.id in s.going && ev.ch in s.going[ev.id].left && ev.ch == ch
  }

  function Offered<C>(s: State<C>, id: BroadcastId, ch: C): State<C>
    requires id in s.going && ch in s.hub.chans
  {
    var g := s.going[id].(left := s.going[id].left - {ch});
    State(s.hub.(chans := s.hub.chans[ch := Atomic.Offer(s.hub.chans[ch], g.note)]),
          if g.left == {} then s.going - {id} else s.going[id := g])
  }

  ghost function Step<C>(s: State<C>, ev: Event<C>): State<C> {
    if s.hub.panicked then s
    else match ev
      case Call(e) => if Runs(s, e) then s.(hub := Atomic.Step(s.hub, e)) else s
      case Start(id, n) =>
        var all := Atomic.Registered(s.hub, n.userID);
        if id in s.going || all == {} then s else s.(going := s.going[id := Going(n, all)])
      case Offer(id, ch) =>
        if !Offers(s, ev, ch) || ch !in s.hub.chans then s
        else if Atomic.ClosedIn(s.hub, ch) then s.(hub := s.hub.(panicked := true))
        else Offered(s, id, ch)
  }

  ghost function Run<C>(events: seq<Event<C>>): State<C> {
    if events == [] then State(Atomic.State(map[], map[], false), map[])
    else Step(Run(events[..|events| - 1]), events[|events| - 1])
  }

  // ---------------------------------------------------------------- one channel's view

  /** What one channel sees of a step: the call, or an offer to this channel as a broadcast of its own. */
  ghost function Seen<C>(s: State<C>, ev: Event<C>, ch: C): seq<Atomic.Event<C>> {
    match ev
    case Call(e) => if Runs(s, e) then [e] else []
    case Start(_, _) => []
    case Offer(id, c) => if Offers(s, ev, ch) then [Atomic.Broadcast(Some(s.going[id].note))] else []
  }

  ghost function View<C>(events: seq<Event<C>>, ch: C): seq<Atomic.Event<C>> {
    if events == [] then []
    else
      var before := events[..|events| - 1];
      View(before, ch) + Seen(Run(before), events[|events| - 1], ch)
  }

  /** The subscriptions, their ends and the reads that took place. */
  ghost function Calls<C>(events: seq<Event<C>>): seq<Atomic.Event<C>> {
    if events == [] then []
    else
      var before, ev := events[..|events| - 1], events[|events| - 1];
      Calls(before) + if ev.Call? && Runs(Run(before), ev.ev) then [ev.ev] else []
  }

  lemma Grown<C>(events: seq<Atomic.Event<C>>, ev: Atomic.Event<C>)
    ensures (events + [ev])[..|events + [ev]| - 1] == events && (events + [ev])[|events + [ev]| - 1] == ev
  {
  }

  /** Broadcasts apart, the same has happened: the second list keeps the discipline when the first one does. */
  ghost predicate Alike<C>(calls: seq<Atomic.Event<C>>, view: seq<Atomic.Event<C>>) {
    && (Atomic.Disciplined(calls) ==> Atomic.Disciplined(view))
    && Atomic.Made(view) == Atomic.Made(calls)
    && (forall c | c in Atomic.Made(calls) :: Atomic.Listening(view, c) == Atomic.Listening(calls, c))
  }

  lemma CallKeepsAlike<C>(calls: seq<Atomic.Event<C>>, view: seq<Atomic.Event<C>>, e: Atomic.Event<C>)
    requires Alike(calls, view)
    ensures Alike(calls + [e], view + [e])
  {
    Grown(calls, e);
    Grown(view, e);
    if e.Unsubscribe? { Atomic.ListenersAreMade(calls, e.ch); }
    forall c | c in Atomic.Made(calls + [e])
      ensures Atomic.Listening(view + [e], c) == Atomic.Listening(calls + [e], c)
    {
      if c in Atomic.Made(calls) { assert Atomic.Listening(view, c) == Atomic.Listening(calls, c); }
    }
  }

  lemma BroadcastKeepsAlike<C>(calls: seq<Atomic.Event<C>>, view: seq<Atomic.Event<C>>, n: Note)
    requires Alike(calls, view)
    ensures Alike(calls, view + [Atomic.Broadcast(Some(n))])
  {
    var e: Atomic.Event<C> := Atomic.Broadcast(Some(n));
    Grown(view, e);
    forall c | c in Atomic.Made(calls) ensures Atomic.Listening(view + [e], c) == Atomic.Listening(calls, c) {
      assert Atomic.Listening(view, c) == Atomic.Listening(calls, c);
    }
  }

  /** Broadcasts do not touch who is subscribed, so every channel's view keeps the discipline of the calls. */
  lemma {:induction false} ViewIsAlike<C>(events: seq<Event<C>>, ch: C)
    ensures Alike(Calls(events), View(events, ch))
  {
    if events != [] {
      var before, ev := events[..|events| - 1], events[|events| - 1];
      var s := Run(before);
      ViewIsAlike(before, ch);
      if ev.Call? && Runs(s, ev.ev) {
        CallKeepsAlike(Calls(before), View(before, ch), ev.ev);
      } else {
        assert Calls(events) == Calls(before);
        if Offers(s, ev, ch) {
          BroadcastKeepsAlike(Calls(before), View(before, ch), s.going[ev.id].note);
        } else {
          assert View(events, ch) == View(before, ch);
        }
      }
    }
  }

  /** For the subscriptions and for this channel, the run and the atomic run of its view are the same. */
  ghost predicate Agrees<C>(s: State<C>, h: Atomic.State<C>, ch: C) {
    && !s.hub.panicked && !h.panicked
    && s.hub.subs == h.subs && s.hub.chans.Keys == h.chans.Keys
    && (forall c | c in h.chans :: s.hub.chans[c].open == h.chans[c].open)
    && (ch in h.chans ==> s.hub.chans[ch] == h.chans[ch])
    && (forall id | id in s.going ::
          s.going[id].left != {} && s.going[id].left <= Atomic.Registered(s.hub, s.going[id].note.userID))
  }

  lemma CallAgrees<C>(s: State<C>, h: Atomic.State<C>, e: Atomic.Event<C>, ch: C)
    requires Agrees(s, h, ch) && Runs(s, e) && !Atomic.Step(h, e).panicked
    ensures Agrees(Step(s, Call(e)), Atomic.Step(h, e), ch)
  {
  }

  lemma OfferAgrees<C>(s: State<C>, h: Atomic.State<C>, ev: Event<C>, c: C, ch: C)
    requires Agrees(s, h, ch) && Offers(s, ev, c) && c in h.chans && h.chans[c].open
    requires var e := Atomic.Broadcast(Some(s.going[ev.id].note)); c == ch ==> !Atomic.Step(h, e).panicked
    ensures var e := Atomic.Broadcast(Some(s.going[ev.id].note));
            Agrees(Step(s, ev), if c == ch then Atomic.Step(h, e) else h, ch)
  {
  }

  lemma RegisteredIsOpen<C>(h: Atomic.State<C>, view: seq<Atomic.Event<C>>, user: string, c: C)
    requires Atomic.Orderly(h, view) && c in Atomic.Registered(h, user)
    ensures c in h.chans && h.chans[c].open
  {
  }

  lemma StepAgrees<C>(s: State<C>, view: seq<Atomic.Event<C>>, ev: Event<C>, ch: C)
    requires Agrees(s, Atomic.Run(view), ch) && Atomic.Orderly(Atomic.Run(view), view)
    requires !Atomic.Run(view + Seen(s, ev, ch)).panicked
    ensures Agrees(Step(s, ev), Atomic.Run(view + Seen(s, ev, ch)), ch)
  {
    var h := Atomic.Run(view);
    if Seen(s, ev, ch) == [] { assert view + Seen(s, ev, ch) == view; }
    match ev
    case Call(e) =>
      if Runs(s, e) {
        Atomic.RunSnoc(view, e);
        CallAgrees(s, h, e, ch);
      }
    case Start(_, _) =>
    case Offer(id, c) =>
      if Offers(s, ev, c) {
        RegisteredIsOpen(h, view, s.going[id].note.userID, c);
        Atomic.RunSnoc(view, Atomic.Broadcast(Some(s.going[id].note)));
        OfferAgrees(s, h, ev, c, ch);
      }
  }

  lemma PrefixIsDisciplined<C>(events: seq<Event<C>>)
    requires events != [] && Atomic.Disciplined(Calls(events))
    ensures Atomic.Disciplined(Calls(events[..|events| - 1]))
  {
    var before, ev := events[..|events| - 1], events[|events| - 1];
    if ev.Call? && Runs(Run(before), ev.ev) {
      Grown(Calls(before), ev.ev);
    } else {
      assert Calls(events) == Calls(before);
    }
  }

  /** Each channel sees broadcasts one after the other, in the order in which they reach it: its state is that of the
      atomic run of its view. Nothing panics. */
  lemma {:induction false} EachChannelIsSerial<C>(events: seq<Event<C>>, ch: C)
    requires Atomic.Disciplined(Calls(events))
    ensures Agrees(Run(events), Atomic.Run(View(events, ch)), ch)
  {
    if events != [] {
      var before, ev := events[..|events| - 1], events[|events| - 1];
      var s, view := Run(before), View(before, ch);
      PrefixIsDisciplined(events);
      EachChannelIsSerial(before, ch);
      ViewIsAlike(before, ch);
      ViewIsAlike(events, ch);
      Atomic.DisciplinedRunsAreOrderly(view);
      Atomic.DisciplinedRunsAreOrderly(View(events, ch));
      StepAgrees(s, view, ev, ch);
    }
  }

  // ---------------------------------------------------------------- what a subscriber gets

  /** The step starts a broadcast of this notification while the channel is registered for its user. */
  ghost predicate StartsFor<C>(s: State<C>, ev: Event<C>, ch: C, n: Note) {
    && ev.Start? && ev.note == n && ev.id !in s.going && !s.hub.panicked
    && ch in Atomic.Registered(s.hub, n.userID)
  }

  /** How often that has happened. */
  ghost function Started<C>(events: seq<Event<C>>, ch: C, n: Note): nat {
    if events == [] then 0
    else
      var before, ev := events[..|events| - 1], events[|events| - 1];
      Started(before, ch, n) + if StartsFor(Run(before), ev, ch, n) then 1 else 0
  }

  /** The broadcasts of this notification that have still to reach the channel. */
  ghost function Waiting<C>(s: State<C>, ch: C, n: Note): set<BroadcastId> {
    set id | id in s.going && s.going[id].note == n && ch in s.going[id].left
  }

  /** The notifications that have reached the channel, whether or not there was room, in the order in which they did. */
  ghost function Reached<C>(events: seq<Event<C>>, ch: C): seq<Note> {
    Atomic.SentWhile(View(events, ch), ch)
  }

  /** What is offered to the channel adds up: each broadcast started while it was registered reaches it once, or is
      still to come. */
  lemma {:induction false} EachBroadcastReachesOnce<C>(events: seq<Event<C>>, ch: C, n: Note)
    requires Atomic.Disciplined(Calls(events))
    ensures Started(events, ch, n) == multiset(Reached(events, ch))[n] + |Waiting(Run(events), ch, n)|
  {
    if events != [] {
      var before, ev := events[..|events| - 1], events[|events| - 1];
      PrefixIsDisciplined(events);
      EachBroadcastReachesOnce(before, ch, n);
      EachChannelIsSerial(before, ch);
      ViewIsAlike(before, ch);
      Atomic.DisciplinedRunsAreOrderly(View(before, ch));
      ReachedGrows(events, ch);
      StepCounts(Run(before), View(before, ch), ev, ch, n);
    }
  }

  ghost function JustReached<C>(s: State<C>, ev: Event<C>, ch: C): seq<Note> {
    if Offers(s, ev, ch) then [s.going[ev.id].note] else []
  }

  lemma ReachedGrows<C>(events: seq<Event<C>>, ch: C)
    requires events != [] && Atomic.Disciplined(Calls(events))
    ensures var before := events[..|events| - 1];
            Reached(events, ch) == Reached(before, ch) + JustReached(Run(before), events[|events| - 1], ch)
  {
    var before, ev := events[..|events| - 1], events[|events| - 1];
    var s, view := Run(before), View(before, ch);
    PrefixIsDisciplined(events);
    EachChannelIsSerial(before, ch);
    ViewIsAlike(before, ch);
    Atomic.DisciplinedRunsAreOrderly(view);
    if ev.Call? && Runs(s, ev.ev) {
      Grown(view, ev.ev);
    } else if Offers(s, ev, ch) {
      var n := s.going[ev.id].note;
      Grown(view, Atomic.Broadcast(Some(n)));
      OfferIsSent(s, view, ev, ch);
    } else {
      assert View(events, ch) == view;
    }
  }

  lemma OfferIsSent<C>(s: State<C>, view: seq<Atomic.Event<C>>, ev: Event<C>, ch: C)
    requires Agrees(s, Atomic.Run(view), ch) && Atomic.Orderly(Atomic.Run(view), view) && Offers(s, ev, ch)
    ensures Atomic.SentTo(view, Atomic.Broadcast(Some(s.going[ev.id].note)), ch)
  {
    var n := s.going[ev.id].note;
    RegisteredIsOpen(Atomic.Run(view), view, n.userID, ch);
    assert ch in Atomic.Registered(Atomic.Run(view), n.userID);
  }

  lemma StepCounts<C>(s: State<C>, view: seq<Atomic.Event<C>>, ev: Event<C>, ch: C, n: Note)
    requires Agrees(s, Atomic.Run(view), ch) && Atomic.Orderly(Atomic.Run(view), view)
    ensures |Waiting(Step(s, ev), ch, n)| + multiset(JustReached(s, ev, ch))[n]
         == |Waiting(s, ch, n)| + if StartsFor(s, ev, ch, n) then 1 else 0
  {
    match ev
    case Call(e) => CallCounts(s, e, ch, n);
    case Start(id, m) => StartCounts(s, id, m, ch, n);
    case Offer(id, c) =>
      if Offers(s, ev, c) {
        RegisteredIsOpen(Atomic.Run(view), view, s.going[id].note.userID, c);
        OfferCounts(s, id, c, ch, n);
      }
  }

  lemma CallCounts<C>(s: State<C>, e: Atomic.Event<C>, ch: C, n: Note)
    ensures Waiting(Step(s, Call(e)), ch, n) == Waiting(s, ch, n)
  {
    assert Step(s, Call(e)).going == s.going;
  }

  lemma StartCounts<C>(s: State<C>, id: BroadcastId, m: Note, ch: C, n: Note)
    ensures |Waiting(Step(s, Start(id, m)), ch, n)|
         == |Waiting(s, ch, n)| + if StartsFor(s, Start(id, m), ch, n) then 1 else 0
  {
    var s' := Step(s, Start(id, m));
    if s' == s {
      assert !StartsFor(s, Start(id, m), ch, n);
    } else {
      AddedCounts(s, s', id, Going(m, Atomic.Registered(s.hub, m.userID)), ch, n);
    }
  }

  lemma AddedCounts<C>(s: State<C>, s': State<C>, id: BroadcastId, g: Going<C>, ch: C, n: Note)
    requires id !in s.going && s'.going == s.going[id := g]
    ensures |Waiting(s', ch, n)| == |Waiting(s, ch, n)| + if g.note == n && ch in g.left then 1 else 0
  {
    if g.note == n && ch in g.left {
      assert Waiting(s', ch, n) == Waiting(s, ch, n) + {id} && id !in Waiting(s, ch, n);
    } else {
      assert Waiting(s', ch, n) == Waiting(s, ch, n);
    }
  }

  lemma OfferCounts<C>(s: State<C>, id: BroadcastId, c: C, ch: C, n: Note)
    requires id in s.going && c in s.going[id].left && c in s.hub.chans
    ensures Waiting(Offered(s, id, c), ch, n)
         == if c == ch && s.going[id].note == n then Waiting(s, ch, n) - {id} else Waiting(s, ch, n)
    ensures c == ch && s.going[id].note == n ==> id in Waiting(s, ch, n)
  {
  }

  /** Broadcasts at the same time: what a subscriber has read and what waits for it is an in-order part of what
      reached its channel, and only the notifications that met a full channel are missing. */
  lemma ServedUnderConcurrency<C>(events: seq<Event<C>>, ch: C)
    requires Atomic.Disciplined(Calls(events)) && ch in Atomic.Made(Calls(events))
    ensures ch in Run(events).hub.chans && !Run(events).hub.panicked
    ensures var c := Run(events).hub.chans[ch];
            && Atomic.Served(View(events, ch), ch, c)
            && (Atomic.Refused(View(events, ch), ch) == 0 ==> c.read + c.buffer == Reached(events, ch))
  {
    EachChannelIsSerial(events, ch);
    ViewIsAlike(events, ch);
    Atomic.SubscribersAreServed(View(events, ch), ch);
  }

  // ---------------------------------------------------------------- no common order

  lemma NextStep<C>(events: seq<Event<C>>, ev: Event<C>, ch: C)
    requires Atomic.Disciplined(Calls(events + [ev]))
    ensures Atomic.Disciplined(Calls(events))
    ensures Run(events + [ev]) == Step(Run(events), ev)
    ensures Reached(events + [ev], ch) == Reached(events, ch) + JustReached(Run(events), ev, ch)
  {
    assert (events + [ev])[..|events + [ev]| - 1] == events;
    PrefixIsDisciplined(events + [ev]);
    ReachedGrows(events + [ev], ch);
  }

  lemma NextCalls<C>(events: seq<Event<C>>, ev: Event<C>)
    ensures Run(events + [ev]) == Step(Run(events), ev)
    ensures Calls(events + [ev]) == Calls(events) + if ev.Call? && Runs(Run(events), ev.ev) then [ev.ev] else []
  {
    assert (events + [ev])[..|events + [ev]| - 1] == events;
  }

  lemma QuietStep<C>(events: seq<Event<C>>, ev: Event<C>, ch: C)
    requires Atomic.Disciplined(Calls(events)) && !ev.Call?
    ensures Atomic.Disciplined(Calls(events + [ev])) && Run(events + [ev]) == Step(Run(events), ev)
    ensures Reached(events + [ev], ch) == Reached(events, ch) + JustReached(Run(events), ev, ch)
  {
    NextCalls(events, ev);
    assert Calls(events + [ev]) == Calls(events);
    NextStep(events, ev, ch);
  }

  /** Some disciplined run ends in this state and has brought these notifications to the two channels. */
  ghost predicate Reaches<C(!new)>(s: State<C>, a: C, b: C, forA: seq<Note>, forB: seq<Note>) {
    exists events ::
      Atomic.Disciplined(Calls(events)) && Run(events) == s && Reached(events, a) == forA && Reached(events, b) == forB
  }

  lemma QuietReaches<C(!new)>(s: State<C>, ev: Event<C>, a: C, b: C, forA: seq<Note>, forB: seq<Note>)
    requires Reaches(s, a, b, forA, forB) && !ev.Call?
    ensures Reaches(Step(s, ev), a, b, forA + JustReached(s, ev, a), forB + JustReached(s, ev, b))
  {
    var events :| Atomic.Disciplined(Calls(events)) && Run(events) == s
                  && Reached(events, a) == forA && Reached(events, b) == forB;
    QuietStep(events, ev, a);
    QuietStep(events, ev, b);
    assert Run(events + [ev]) == Step(s, ev);
  }

  /** The two channels are those of one user, both open, and these broadcasts are under way. */
  ghost predicate Stage<C>(s: State<C>, a: C, b: C, user: string, going: map<BroadcastId, Going<C>>) {
    && !s.hub.panicked && s.hub.subs == map[user := {a, b}] && s.hub.chans.Keys == {a, b}
    && s.hub.chans[a].open && s.hub.chans[b].open && s.going == going
  }

  ghost predicate Stands<C(!new)>(a: C, b: C, user: string, going: map<BroadcastId, Going<C>>,
                                  forA: seq<Note>, forB: seq<Note>)
  {
    exists s :: Stage(s, a, b, user, going) && Reaches(s, a, b, forA, forB)
  }

  lemma StartStands<C(!new)>(a: C, b: C, user: string, going: map<BroadcastId, Going<C>>,
                             forA: seq<Note>, forB: seq<Note>, id: BroadcastId, n: Note)
    requires Stands(a, b, user, going, forA, forB) && id !in going && n.userID == user
    ensures Stands(a, b, user, going[id := Going(n, {a, b})], forA, forB)
  {
    var s :| Stage(s, a, b, user, going) && Reaches(s, a, b, forA, forB);
    QuietReaches(s, Start(id, n), a, b, forA, forB);
    assert forA + [] == forA && forB + [] == forB;
    assert Stage(Step(s, Start(id, n)), a, b, user, going[id := Going(n, {a, b})]);
  }

  function AfterOffer<C>(going: map<BroadcastId, Going<C>>, id: BroadcastId, n: Note, rest: set<C>)
    : map<BroadcastId, Going<C>>
  {
    if rest == {} then going - {id} else going[id := Going(n, rest)]
  }

  lemma OfferStage<C>(s: State<C>, a: C, b: C, user: string, going: map<BroadcastId, Going<C>>,
                      id: BroadcastId, n: Note, c: C, rest: set<C>)
    requires Stage(s, a, b, user, going) && c in {a, b} && id in going && c in going[id].left
    requires going[id].note == n && rest == going[id].left - {c}
    ensures Stage(Step(s, Offer(id, c)), a, b, user, AfterOffer(going, id, n, rest))
  {
  }

  lemma OfferStands<C(!new)>(a: C, b: C, user: string, going: map<BroadcastId, Going<C>>,
                             forA: seq<Note>, forB: seq<Note>, id: BroadcastId, n: Note, c: C, rest: set<C>)
    requires Stands(a, b, user, going, forA, forB) && c in {a, b} && id in going && c in going[id].left
    requires going[id].note == n && rest == going[id].left - {c}
    ensures Stands(a, b, user, AfterOffer(going, id, n, rest),
                   forA + if c == a then [n] else [], forB + if c == b then [n] else [])
  {
    var s :| Stage(s, a, b, user, going) && Reaches(s, a, b, forA, forB);
    QuietReaches(s, Offer(id, c), a, b, forA, forB);
    OfferStage(s, a, b, user, going, id, n, c, rest);
  }

  lemma SubscribedTwo<C>(a: C, b: C, user: string) returns (calls: seq<Atomic.Event<C>>)
    requires a != b
    ensures calls == [Atomic.Subscribe(user, a), Atomic.Subscribe(user, b)] && Atomic.Disciplined(calls)
    ensures Atomic.SentWhile(calls, a) == [] && Atomic.SentWhile(calls, b) == []
  {
    var none: seq<Atomic.Event<C>> := [];
    var one, two := Atomic.Subscribe(user, a), Atomic.Subscribe(user, b);
    calls := [one, two];
    assert none + [one] == [one] && [one] + [two] == calls;
    Grown(none, one);
    Grown([one], two);
    assert Atomic.Disciplined(none) && Atomic.Made(none) == {};
    assert Atomic.Disciplined([one]) && Atomic.Made([one]) == {a};
    QuietSentWhile(none, one, a);
    QuietSentWhile(none, one, b);
    QuietSentWhile([one], two, a);
    QuietSentWhile([one], two, b);
  }

  lemma QuietSentWhile<C>(events: seq<Atomic.Event<C>>, ev: Atomic.Event<C>, ch: C)
    requires !ev.Broadcast?
    ensures Atomic.SentWhile(events + [ev], ch) == Atomic.SentWhile(events, ch)
  {
    Grown(events, ev);
  }

  lemma TwoSteps<C>(events: seq<Event<C>>, one: Event<C>, two: Event<C>, ch: C)
    requires events == [] + [one] + [two] && one.Call? && two.Call?
    requires Runs(Run<C>([]), one.ev) && Runs(Step(Run<C>([]), one), two.ev)
    ensures Run(events) == Step(Step(Run<C>([]), one), two)
    ensures Calls(events) == [one.ev, two.ev] && View(events, ch) == [one.ev, two.ev]
  {
    var none: seq<Event<C>> := [];
    NextCalls(none, one);
    NextCalls(none + [one], two);
    NextView(none, one, ch);
    NextView(none + [one], two, ch);
    assert [one.ev] + [two.ev] == [one.ev, two.ev] && [] + [one.ev] == [one.ev];
  }

  lemma SubscribedStage<C>(s: State<C>, a: C, b: C, user: string)
    requires a != b && s == Step(Step(Run<C>([]), Call(Atomic.Subscribe(user, a))), Call(Atomic.Subscribe(user, b)))
    ensures Stage(s, a, b, user, map[])
  {
    var s1 := Step(Run<C>([]), Call(Atomic.Subscribe(user, a)));
    var none: set<C> := {};
    assert none + {a} == {a};
    assert s1.hub.subs == map[user := {a}] && s1.hub.chans == map[a := Atomic.Chan(true, [], [])];
    assert {a} + {b} == {a, b};
    assert s.hub.chans.Keys == {a, b};
  }

  lemma TwoSubscribed<C(!new)>(a: C, b: C, user: string)
    requires a != b
    ensures Stands(a, b, user, map[], [], [])
  {
    var one, two := Call(Atomic.Subscribe(user, a)), Call(Atomic.Subscribe(user, b));
    var calls := SubscribedTwo(a, b, user);
    var events := [] + [one] + [two];
    TwoSteps(events, one, two, a);
    TwoSteps(events, one, two, b);
    SubscribedStage(Run(events), a, b, user);
    assert Reaches(Run(events), a, b, [], []);
  }

  lemma NextView<C>(events: seq<Event<C>>, ev: Event<C>, ch: C)
    ensures View(events + [ev], ch) == View(events, ch) + Seen(Run(events), ev, ch)
  {
    assert (events + [ev])[..|events + [ev]| - 1] == events;
  }

  /** Two broadcasts to one user can reach two of its channels in different orders. */
  lemma OrdersDiffer<C(!new)>(a: C, b: C, n: Note, m: Note)
    requires a != b && n.userID == m.userID
    ensures exists events ::
      Atomic.Disciplined(Calls(events)) && Reached(events, a) == [n, m] && Reached(events, b) == [m, n]
  {
    var user, both := n.userID, {a, b};
    TwoSubscribed(a, b, user);
    StartStands(a, b, user, map[], [], [], 0, n);
    StartStands(a, b, user, map[0 := Going(n, both)], [], [], 1, m);
    assert both - {a} == {b} && both - {b} == {a};
    OffersCross(a, b, user, n, m, map[0 := Going(n, both), 1 := Going(m, both)]);
  }

  lemma OffersCross<C(!new)>(a: C, b: C, user: string, n: Note, m: Note, going: map<BroadcastId, Going<C>>)
    requires a != b && going == map[0 := Going(n, {a, b}), 1 := Going(m, {a, b})]
    requires Stands(a, b, user, going, [], [])
    ensures exists last :: Stands(a, b, user, last, [n, m], [m, n])
  {
    OfferStands(a, b, user, going, [], [], 0, n, a, {b});
    assert [] + [n] == [n];
    SecondOffer(a, b, user, n, m, AfterOffer(going, 0, n, {b}));
  }

  lemma SecondOffer<C(!new)>(a: C, b: C, user: string, n: Note, m: Note, going: map<BroadcastId, Going<C>>)
    requires a != b && going.Keys == {0, 1} && going[0] == Going(n, {b}) && going[1] == Going(m, {a, b})
    requires Stands(a, b, user, going, [n], [])
    ensures exists last :: Stands(a, b, user, last, [n, m], [m, n])
  {
    OfferStands(a, b, user, going, [n], [], 1, m, b, {a});
    assert [n] + [] == [n] && [] + [m] == [m];
    OffersEnd(a, b, user, n, m, AfterOffer(going, 1, m, {a}));
  }

  lemma OffersEnd<C(!new)>(a: C, b: C, user: string, n: Note, m: Note, going: map<BroadcastId, Going<C>>)
    requires a != b && going.Keys == {0, 1} && going[0] == Going(n, {b}) && going[1] == Going(m, {a})
    requires Stands(a, b, user, going, [n], [m])
    ensures exists last :: Stands(a, b, user, last, [n, m], [m, n])
  {
    OfferStands(a, b, user, going, [n], [m], 1, m, a, {});
    assert [n] + [m] == [n, m] && [m] + [] == [m];
    LastOffer(a, b, user, n, m, AfterOffer(going, 1, m, {}));
  }

  lemma LastOffer<C(!new)>(a: C, b: C, user: string, n: Note, m: Note, going: map<BroadcastId, Going<C>>)
    requires a != b && 0 in going && going[0] == Going(n, {b})
    requires Stands(a, b, user, going, [n, m], [m])
    ensures exists last :: Stands(a, b, user, last, [n, m], [m, n])
  {
    OfferStands(a, b, user, going, [n, m], [m], 0, n, b, {});
    assert [n, m] + [] == [n, m] && [m] + [n] == [m, n];
  }
}
