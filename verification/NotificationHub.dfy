/** The publish/subscribe hub of services/notification-service/internal/service/notification_service.go: subscribers
    with bounded channels, for any sequence of subscriptions, broadcasts and reads. `C` stands for channel
    references. */
module NotificationHub {
  import opened Basics

  datatype Status = Pending | Sent | Failed

  datatype Notification = Notification(
    id: nat, userID: string, subject: string, body: string, isRead: bool, status: Status, sentAt: Option<Time>)

  const BUFFER: nat := 32

  /** A channel, with what waits in it and what its reader has taken out. */
  datatype Chan = Chan(open: bool, buffer: seq<Notification>, read: seq<Notification>)

  datatype State<C(==)> = State(subs: map<string, set<C>>, chans: map<C, Chan>, panicked: bool)

  datatype Event<C> =
    | Subscribe(user: string, ch: C)
    | Unsubscribe(user: string, ch: C)
    | Broadcast(note: Option<Notification>)
    | Read(ch: C)

  function Registered<C>(s: State<C>, user: string): set<C> {
    if user in s.subs then s.subs[user] else {}
  }

  /** A send that gives up at a full channel. */
  function Offer(c: Chan, n: Notification): Chan {
    if |c.buffer| < BUFFER then c.(buffer := c.buffer + [n]) else c
  }

  function Taken(c: Chan): Chan {
    if c.buffer == [] then c else c.(buffer := c.buffer[1..], read := c.read + [c.buffer[0]])
  }

  predicate ClosedIn<C>(s: State<C>, ch: C) {
    ch in s.chans && !s.chans[ch].open
  }

  /** Removal, close, and clean-up; closing a closed channel panics. */
  function Leave<C>(s: State<C>, user: string, ch: C): State<C>
    requires user in s.subs && ch in s.chans
  {
    var rest := s.subs[user] - {ch};
    if !s.chans[ch].open then State(s.subs[user := rest], s.chans, true)
    else State(if rest == {} then s.subs - {user} else s.subs[user := rest],
               s.chans[ch := s.chans[ch].(open := false)], false)
  }

  /** An offer to every registered channel; sending on a closed one panics. */
  ghost function Deliver<C>(s: State<C>, n: Notification): State<C> {
    if exists ch :: ch in Registered(s, n.userID) && ClosedIn(s, ch) then s.(panicked := true)
    else s.(chans := map ch | ch in s.chans ::
              if ch in Registered(s, n.userID) then Offer(s.chans[ch], n) else s.chans[ch])
  }

  /** A panic ends the process: nothing happens after that. */
  ghost function Step<C>(s: State<C>, ev: Event<C>): State<C> {
    if s.panicked then s
    else match ev
      case Subscribe(user, ch) =>
        if ch in s.chans then s
        else State(s.subs[user := Registered(s, user) + {ch}], s.chans[ch := Chan(true, [], [])], false)
      case Unsubscribe(user, ch) => if user !in s.subs || ch !in s.chans then s else Leave(s, user, ch)
      case Broadcast(None) => s
      case Broadcast(Some(n)) => Deliver(s, n)
      case Read(ch) => if ch in s.chans then s.(chans := s.chans[ch := Taken(s.chans[ch])]) else s
  }

  ghost function Run<C>(events: seq<Event<C>>): State<C> {
    if events == [] then State(map[], map[], false)
    else Step(Run(events[..|events| - 1]), events[|events| - 1])
  }

  // ---------------------------------------------------------------- what the events alone say

  ghost function Made<C>(events: seq<Event<C>>): set<C> {
    if events == [] then {}
    else
      var before := Made(events[..|events| - 1]);
      match events[|events| - 1]
      case Subscribe(_, ch) => before + {ch}
      case _ => before
  }

  /** The user whose broadcasts the holder of the channel is subscribed to. */
  ghost function Listening<C>(events: seq<Event<C>>, ch: C): Option<string> {
    if events == [] then None
    else
      var before := Listening(events[..|events| - 1], ch);
      match events[|events| - 1]
      case Subscribe(user, c) => if c == ch then Some(user) else before
      case Unsubscribe(_, c) => if c == ch then None else before
      case _ => before
  }

  /** Every subscription makes a new channel, and every subscriber unsubscribes at most once, from its own user. */
  ghost predicate Disciplined<C>(events: seq<Event<C>>) {
    events == [] ||
    (var before := events[..|events| - 1];
     Disciplined(before) &&
     match events[|events| - 1]
     case Subscribe(_, ch) => ch !in Made(before)
     case Unsubscribe(user, ch) => Listening(before, ch) == Some(user)
     case _ => true)
  }

  ghost predicate SentTo<C>(before: seq<Event<C>>, ev: Event<C>, ch: C) {
    ev.Broadcast? && ev.note.Some? && Listening(before, ch) == Some(ev.note.value.userID)
  }

  /** The broadcasts to the channel's user while it was subscribed, in order. */
  ghost function SentWhile<C>(events: seq<Event<C>>, ch: C): seq<Notification> {
    if events == [] then []
    else
      var before, ev := events[..|events| - 1], events[|events| - 1];
      SentWhile(before, ch) + if SentTo(before, ev, ch) then [ev.note.value] else []
  }

  /** How many of those broadcasts found the channel with all its places taken. */
  ghost function Refused<C>(events: seq<Event<C>>, ch: C): nat {
    if events == [] then 0
    else
      var before, ev := events[..|events| - 1], events[|events| - 1];
      var chans := Run(before).chans;
      Refused(before, ch) + if SentTo(before, ev, ch) && ch in chans && |chans[ch].buffer| == 32 then 1 else 0
  }

  // ---------------------------------------------------------------- disciplined runs

  /** No panic; the registered channels are exactly the ones being listened to, all of them open; no user is left with
      an empty set of channels; no channel holds more than its bound. */
  ghost predicate Orderly<C>(s: State<C>, events: seq<Event<C>>) {
    && !s.panicked
    && s.chans.Keys == Made(events)
    && (forall user | user in s.subs :: s.subs[user] != {} && s.subs[user] <= s.chans.Keys)
    && (forall user, ch | ch in s.chans :: ch in Registered(s, user) <==> Listening(events, ch) == Some(user))
    && (forall ch | ch in s.chans :: s.chans[ch].open <==> Listening(events, ch).Some?)
    && (forall ch | ch in s.chans :: |s.chans[ch].buffer| <= 32)
  }

  lemma {:induction false} DisciplinedRunsAreOrderly<C>(events: seq<Event<C>>)
    requires Disciplined(events)
    ensures Orderly(Run(events), events)
  {
    if events != [] {
      var before, ev := events[..|events| - 1], events[|events| - 1];
      DisciplinedRunsAreOrderly(before);
      var s := Run(before);
      match ev {
        case Subscribe(user, ch) => SubscribeKeepsOrder(s, events, user, ch);
        case Unsubscribe(user, ch) =>
          ListenersAreMade(before, ch);
          UnsubscribeKeepsOrder(s, events, user, ch);
        case Broadcast(_) =>
        case Read(_) =>
      }
    }
  }

  lemma {:induction false} SubscribeKeepsOrder<C>(s: State<C>, events: seq<Event<C>>, user: string, ch: C)
    requires events != [] && Disciplined(events) && events[|events| - 1] == Subscribe(user, ch)
    requires Orderly(s, events[..|events| - 1])
    ensures Orderly(Step(s, Subscribe(user, ch)), events)
  {
    var s' := Step(s, Subscribe(user, ch));
    assert s'.chans.Keys == s.chans.Keys + {ch};
    forall u | u in s'.subs ensures s'.subs[u] != {} && s'.subs[u] <= s'.chans.Keys {
      if u == user { assert ch in s'.subs[u]; }
    }
  }

  lemma {:induction false} UnsubscribeKeepsOrder<C>(s: State<C>, events: seq<Event<C>>, user: string, ch: C)
    requires events != [] && Disciplined(events) && events[|events| - 1] == Unsubscribe(user, ch)
    requires Orderly(s, events[..|events| - 1])
    requires ch in s.chans
    ensures Orderly(Step(s, Unsubscribe(user, ch)), events)
  {
    assert ch in Registered(s, user);
  }

  lemma {:induction false} ListenersAreMade<C>(events: seq<Event<C>>, ch: C)
    ensures Listening(events, ch).Some? ==> ch in Made(events)
    ensures ch !in Made(events) ==> SentWhile(events, ch) == [] && Refused(events, ch) == 0
  {
    if events != [] { ListenersAreMade(events[..|events| - 1], ch); }
  }

  // ---------------------------------------------------------------- what a subscriber gets

  lemma {:induction false} SubsequenceGrows<T>(part: seq<T>, whole: seq<T>, x: T)
    requires Subsequence(part, whole)
    ensures Subsequence(part, whole + [x]) && Subsequence(part + [x], whole + [x])
  {
    assert (whole + [x])[..|whole|] == whole && (part + [x])[..|part|] == part;
  }

  /** What the reader took and what still waits is, in order, what was broadcast to the user meanwhile, less exactly
      the notifications that came while all places were taken. */
  ghost predicate Served<C>(events: seq<Event<C>>, ch: C, c: Chan) {
    && Subsequence(c.read + c.buffer, SentWhile(events, ch))
    && |c.read| + |c.buffer| + Refused(events, ch) == |SentWhile(events, ch)|
  }

  lemma {:induction false} SubscribersAreServed<C>(events: seq<Event<C>>, ch: C)
    requires Disciplined(events) && ch in Made(events)
    ensures ch in Run(events).chans && Served(events, ch, Run(events).chans[ch])
    ensures var c := Run(events).chans[ch]; Refused(events, ch) == 0 ==> c.read + c.buffer == SentWhile(events, ch)
  {
    DisciplinedRunsAreOrderly(events);
    ServedByRun(events, ch);
    var c := Run(events).chans[ch];
    LongSubsequenceIsWhole(c.read + c.buffer, SentWhile(events, ch));
  }

  lemma {:induction false} LongSubsequenceIsWhole<T>(part: seq<T>, whole: seq<T>)
    requires Subsequence(part, whole)
    ensures |part| <= |whole| && (|part| == |whole| ==> part == whole)
  {
    if whole != [] {
      var n := |whole| - 1;
      if Subsequence(part, whole[..n]) {
        LongSubsequenceIsWhole(part, whole[..n]);
      } else {
        LongSubsequenceIsWhole(part[..|part| - 1], whole[..n]);
        assert part == part[..|part| - 1] + [part[|part| - 1]];
      }
    }
  }

  lemma {:induction false} ServedByRun<C>(events: seq<Event<C>>, ch: C)
    requires Disciplined(events) && ch in Run(events).chans
    ensures Served(events, ch, Run(events).chans[ch])
  {
    var before, ev := events[..|events| - 1], events[|events| - 1];
    DisciplinedRunsAreOrderly(before);
    if ch in Run(before).chans {
      ServedByRun(before, ch);
      if ev.Broadcast? && ev.note.Some? {
        DisciplinedRunsAreOrderly(events);
        BroadcastServes(events, ch, ev.note.value);
      } else {
        QuietStepKeepsStream(Run(before), ev, ch);
        assert SentWhile(events, ch) == SentWhile(before, ch) && Refused(events, ch) == Refused(before, ch);
      }
    } else {
      ListenersAreMade(before, ch);
      NewChannelIsEmpty(Run(before), ev, ch);
      assert SentWhile(events, ch) == [] && Refused(events, ch) == 0;
    }
  }

  lemma QuietStepKeepsStream<C>(s: State<C>, ev: Event<C>, ch: C)
    requires ch in s.chans && !(ev.Broadcast? && ev.note.Some?)
    ensures var s' := Step(s, ev);
            ch in s'.chans && s'.chans[ch].read + s'.chans[ch].buffer == s.chans[ch].read + s.chans[ch].buffer
  {
    var c := s.chans[ch];
    assert Taken(c).read + Taken(c).buffer == c.read + c.buffer;
  }

  lemma NewChannelIsEmpty<C>(s: State<C>, ev: Event<C>, ch: C)
    requires ch !in s.chans && ch in Step(s, ev).chans
    ensures ev.Subscribe? && Step(s, ev).chans[ch] == Chan(true, [], [])
    ensures var c := Step(s, ev).chans[ch]; c.read + c.buffer == []
  {
  }

  lemma BroadcastOffers<C>(s: State<C>, n: Notification, ch: C)
    requires ch in s.chans && !Step(s, Broadcast(Some(n))).panicked
    ensures var s' := Step(s, Broadcast(Some(n)));
            ch in s'.chans && s'.chans[ch] == if ch in Registered(s, n.userID) then Offer(s.chans[ch], n)
                                              else s.chans[ch]
  {
  }

  lemma OfferServes(c: Chan, sent: seq<Notification>, n: Notification)
    requires Subsequence(c.read + c.buffer, sent)
    ensures Subsequence(Offer(c, n).read + Offer(c, n).buffer, sent + [n])
  {
    SubsequenceGrows(c.read + c.buffer, sent, n);
    assert c.read + (c.buffer + [n]) == (c.read + c.buffer) + [n];
  }

  lemma {:induction false} BroadcastServes<C>(events: seq<Event<C>>, ch: C, n: Notification)
    requires events != [] && events[|events| - 1] == Broadcast(Some(n))
    requires Orderly(Run(events[..|events| - 1]), events[..|events| - 1]) && !Run(events).panicked
    requires ch in Run(events[..|events| - 1]).chans && ch in Run(events).chans
    requires Served(events[..|events| - 1], ch, Run(events[..|events| - 1]).chans[ch])
    ensures Served(events, ch, Run(events).chans[ch])
  {
    var before := events[..|events| - 1];
    var s := Run(before);
    BroadcastOffers(s, n, ch);
    assert ch in Registered(s, n.userID) <==> SentTo(before, Broadcast(Some(n)), ch);
    if ch in Registered(s, n.userID) {
      OfferServes(s.chans[ch], SentWhile(before, ch), n);
      assert SentWhile(events, ch) == SentWhile(before, ch) + [n];
    } else {
      assert SentWhile(events, ch) == SentWhile(before, ch);
    }
  }

  // ---------------------------------------------------------------- runs that break the discipline

  lemma RunSnoc<C>(events: seq<Event<C>>, ev: Event<C>)
    ensures Run(events + [ev]) == Step(Run(events), ev)
  {
    assert (events + [ev])[..|events|] == events;
  }

  /** Unsubscribing a channel for the second time ends the process exactly when the user still has another subscriber;
      for the last subscriber it does nothing. */
  lemma UnsubscribingTwice<C>(events: seq<Event<C>>, user: string, ch: C)
    requires Disciplined(events) && Listening(events, ch) == Some(user)
    ensures var once := events + [Unsubscribe(user, ch)];
            var twice := once + [Unsubscribe(user, ch)];
            var others := Registered(Run(events), user) - {ch};
            && (Run(twice).panicked <==> others != {})
            && (others == {} ==> Run(twice) == Run(once))
  {
    DisciplinedRunsAreOrderly(events);
    ListenersAreMade(events, ch);
    var once := events + [Unsubscribe(user, ch)];
    RunSnoc(events, Unsubscribe(user, ch));
    RunSnoc(once, Unsubscribe(user, ch));
    assert ch in Registered(Run(events), user);
  }

  /** Unsubscribing a channel from a user it does not belong to: if that user has subscribers the channel is closed
      while it stays registered, and the next broadcast to its own user ends the process; otherwise nothing happens. */
  lemma MisdirectedUnsubscribe<C>(events: seq<Event<C>>, owner: string, other: string, ch: C, n: Notification)
    requires Disciplined(events) && Listening(events, ch) == Some(owner) && other != owner && n.userID == owner
    ensures var closed := events + [Unsubscribe(other, ch)];
            && !Run(closed).panicked
            && (Run(closed + [Broadcast(Some(n))]).panicked <==> Registered(Run(events), other) != {})
            && (Registered(Run(events), other) == {} ==> Run(closed) == Run(events))
  {
    DisciplinedRunsAreOrderly(events);
    ListenersAreMade(events, ch);
    var s := Run(events);
    var closed := events + [Unsubscribe(other, ch)];
    RunSnoc(events, Unsubscribe(other, ch));
    RunSnoc(closed, Broadcast(Some(n)));
    assert ch in Registered(s, owner) && s.chans[ch].open;
    if Registered(s, other) != {} {
      assert ch in Registered(Run(closed), owner) && ClosedIn(Run(closed), ch);
    }
  }

  // ---------------------------------------------------------------- the objects

  class Channel {
    var open: bool
    var buffer: seq<Notification>
    ghost var read: seq<Notification>

    ghost function View(): Chan
      reads this
    {
      Chan(open, buffer, read)
    }

    constructor ()
      ensures View() == Chan(true, [], [])
    {
      open, buffer, read := true, [], [];
    }

    method Receive() returns (n: Option<Notification>)
      modifies this
      ensures View() == Taken(old(View()))
      ensures n == if old(buffer) == [] then None else Some(old(buffer)[0])
    {
      if |buffer| == 0 {
        return None;
      }
      n := Some(buffer[0]);
      read := read + [buffer[0]];
      buffer := buffer[1..];
    }
  }

  /** An out-parameter `panics` stands for a run-time panic. */
  class Hub {
    var subs: map<string, set<Channel>>
    ghost var made: set<Channel>

    ghost function Chans(): map<Channel, Chan>
      reads this`made, made
    {
      map ch | ch in made :: ch.View()
    }

    ghost function View(): State<Channel>
      reads this, made
    {
      State(subs, Chans(), false)
    }

    ghost predicate Valid()
      reads this
    {
      forall user | user in subs :: subs[user] <= made
    }

    /** Holds as long as the subscribers keep the discipline. */
    ghost predicate AllOpen()
      requires Valid()
      reads this, made
    {
      forall user | user in subs :: forall ch | ch in subs[user] :: ch.open
    }

    constructor ()
      ensures Valid() && View() == State(map[], map[], false)
    {
      subs, made := map[], {};
    }

    method Subscribe(user: string) returns (ch: Channel)
      requires Valid()
      modifies this
      ensures Valid() && fresh(ch) && made == old(made) + {ch}
      ensures View() == Step(old(View()), Event.Subscribe(user, ch))
    {
      ch := new Channel();
      if user !in subs {
        subs := subs[user := {}];
      }
      subs := subs[user := subs[user] + {ch}];
      made := made + {ch};
    }

    method Unsubscribe(user: string, ch: Channel) returns (panics: bool)
      requires Valid() && ch in made
      modifies this, ch
      ensures Valid() && made == old(made)
      ensures View().(panicked := panics) == Step(old(View()), Event.Unsubscribe(user, ch))
    {
      if user in subs {
        ghost var before := View();
        subs := subs[user := subs[user] - {ch}];
        panics := Close(ch);
        if !panics && |subs[user]| == 0 {
          subs := subs - {user};
        }
        assert View().(panicked := panics) == Leave(before, user, ch);
        return;
      }
      return false;
    }

    /** Go's `close`. */
    method Close(ch: Channel) returns (panics: bool)
      requires ch in made
      modifies ch
      ensures panics == !old(ch.open)
      ensures Chans() == if panics then old(Chans()) else old(Chans())[ch := old(ch.View()).(open := false)]
    {
      if !ch.open {
        return true;
      }
      ch.open := false;
      return false;
    }

    method Broadcast(note: Option<Notification>) returns (panics: bool)
      requires Valid()
      modifies made
      ensures panics == Step(old(View()), Event.Broadcast(note)).panicked
      ensures !panics ==> View() == Step(old(View()), Event.Broadcast(note))
      ensures forall ch | ch in made :: ch.open == old(ch.open)
      ensures forall ch | ch in made && ch.View() != old(ch.View()) ::
                && note.Some? && ch in Registered(old(View()), note.value.userID)
                && ch.open && ch.View() == Offer(old(ch.View()), note.value)
    {
      if note.None? || note.value.userID !in subs {
        return false;
      }
      var n := note.value;
      var all := subs[n.userID];
      var todo := all;
      while todo != {}
        invariant todo <= all
        invariant forall ch | ch in all - todo :: old(ch.open)
        invariant forall ch | ch in made ::
          ch.View() == (if ch in all && ch !in todo then Offer(old(ch.View()), n) else old(ch.View()))
        decreases todo
      {
        var ch :| ch in todo;
        todo := todo - {ch};
        if !ch.open {
          assert ClosedIn(old(View()), ch);
          return true;
        }
        if |ch.buffer| < BUFFER {
          ch.buffer := ch.buffer + [n];
        }
      }
      return false;
    }
  }

  class NotificationService {
    const hub: Hub
    var rows: map<nat, Notification>

    ghost predicate Valid()
      reads this, hub, hub.made
    {
      hub.Valid() && hub.AllOpen()
    }

    constructor (hub: Hub)
      ensures this.hub == hub && rows == map[]
    {
      this.hub, rows := hub, map[];
    }

    /** The insert of a pending notification. */
    method InsertPending(id: nat, userID: string, subject: string, body: string, insert: CallOutcome)
      requires Valid()
      modifies this`rows
      ensures Valid() && hub.View() == old(hub.View())
      ensures rows == if insert.Unreachable? then old(rows)
                      else old(rows)[id := Notification(id, userID, subject, body, false, Pending, None)]
    {
      if !insert.Unreachable? {
        rows := rows[id := Notification(id, userID, subject, body, false, Pending, None)];
      }
    }

    /** The update that notes how the delivery went. */
    method SetStatus(id: nat, status: Status, sentAt: Option<Time>, update: CallOutcome)
      requires Valid() && id in rows
      modifies this`rows
      ensures Valid() && hub.View() == old(hub.View())
      ensures rows == if update.Unreachable? then old(rows)
                      else old(rows)[id := old(rows)[id].(status := status, sentAt := sentAt)]
    {
      if !update.Unreachable? {
        rows := rows[id := rows[id].(status := status, sentAt := sentAt)];
      }
    }

    /** Store the notification as pending, deliver it, and note the outcome; a failure to note it is ignored. The
        subscribers of the user see the notification once, with the status its delivery really had. */
    method CreateAndDeliver(userID: string, subject: string, body: string, byMail: bool,
                            id: nat, now: Time, insert: CallOutcome, mailed: bool, update: CallOutcome)
      returns (n: Option<Notification>, failed: bool)
      requires Valid() && id !in rows
      modifies this, hub.made
      ensures Valid()
      ensures n.Some? <==> insert.Answered?
      ensures failed <==> n.None? || n.value.status.Failed?
      ensures n.Some? ==>
                n.value == if byMail && !mailed then Notification(id, userID, subject, body, false, Failed, None)
                           else Notification(id, userID, subject, body, false, Sent, Some(now))
      ensures hub.View() == if n.Some? then Step(old(hub.View()), Event.Broadcast(n)) else old(hub.View())
      ensures rows ==
        if insert.Unreachable? then old(rows)
        else if insert.Answered? && !update.Unreachable? then old(rows)[id := n.value]
        else old(rows)[id := Notification(id, userID, subject, body, false, Pending, None)]
    {
      n, failed := None, true;
      InsertPending(id, userID, subject, body, insert);
      if !insert.Answered? {
        return;
      }
      failed := byMail && !mailed;
      var status, sentAt := if failed then Failed else Sent, if failed then None else Some(now);
      SetStatus(id, status, sentAt, update);
      n := Some(Notification(id, userID, subject, body, false, status, sentAt));
      var _ := hub.Broadcast(n);
    }
  }
}
