/** How often an event is handled: the promise of the keys that `HandleEvent` sets, for any number of workers and any
    repetition of deliveries. */
module EventDelivery {
  import opened Basics
  import opened EventKeys
  import opened EventPipeline

  // ---------------------------------------------------------------- at most once

  /** On every run an event, that is a subject with a payload up to white space at its end, is handled at most once more
      often than its key has expired; the handling that is still going on counts, and so do all redeliveries. */
  lemma HandledAtMostOnce(numWorkers: int, events: seq<Event>, event: Identity)
    ensures var s := Run(numWorkers, events);
            && s.record.created[event] <= s.record.handled[event]
            && s.record.handled[event] + OpenClaims(s.workers, event) <= 1 + s.record.expired[KeyFor(event)]
  {
    RunBalances(numWorkers, events, Job(event.subject, event.body), event);
  }

  function EventsOf(jobs: multiset<Job>): set<Identity> {
    set job | job in jobs :: IdentityOf(job)
  }

  ghost predicate FinishedAs(s: State, event: Identity) {
    exists job :: job in s.record.finished && IdentityOf(job) == event
  }

  lemma {:induction false} HandledWasFinished(numWorkers: int, events: seq<Event>, event: Identity)
    ensures event in Run(numWorkers, events).record.handled ==> FinishedAs(Run(numWorkers, events), event)
  {
    if events != [] {
      var s, ev := Run(numWorkers, events[..|events| - 1]), events[|events| - 1];
      HandledWasFinished(numWorkers, events[..|events| - 1], event);
      StepFinishes(s, ev, event);
    }
  }

  lemma FinishIsRecorded(s: State, w: nat, job: Job)
    requires w < |s.workers|
    ensures var record, after := s.record, Finish(s, w, job).record;
            after.handled == record.handled && forall other | other in record.finished :: other in after.finished
  {
  }

  lemma ClaimIsRecorded(s: State, w: nat, job: Job, setNX: CallOutcome)
    requires w < |s.workers|
    ensures var record, after := s.record, Claim(s, w, job, setNX).record;
            after.handled == record.handled && forall other | other in record.finished :: other in after.finished
  {
    FinishIsRecorded(s, w, job);
    FinishIsRecorded(s.(keys := s.keys + {KeyOf(job)}), w, job);
  }

  lemma HandlingIsRecorded(s: State, w: nat, job: Job, creates: bool)
    requires w < |s.workers|
    ensures var record, after := s.record, Handle(s, w, job, creates).record;
            && after.handled == record.handled + multiset{IdentityOf(job)} && job in after.finished
            && forall other | other in record.finished :: other in after.finished
  {
  }

  lemma StillFinished(s: State, s': State, event: Identity)
    requires FinishedAs(s, event) && forall job | job in s.record.finished :: job in s'.record.finished
    ensures FinishedAs(s', event)
  {
    var job :| job in s.record.finished && IdentityOf(job) == event;
    assert job in s'.record.finished;
  }

  lemma WorkFinishes(s: State, w: nat, setNX: CallOutcome, creates: bool, event: Identity)
    requires w < |s.workers| && (event in s.record.handled ==> FinishedAs(s, event))
    ensures var s' := WorkStep(s, w, setNX, creates); event in s'.record.handled ==> FinishedAs(s', event)
  {
    var s' := WorkStep(s, w, setNX, creates);
    match s.workers[w]
    case Holding(job) =>
      ClaimIsRecorded(s, w, job, setNX);
      if event in s.record.handled { StillFinished(s, s', event); }
    case Claimed(job) =>
      HandlingIsRecorded(s, w, job, creates);
      if event in s.record.handled { StillFinished(s, s', event); } else if event in s'.record.handled {
        assert IdentityOf(job) == event && job in s'.record.finished;
      }
    case _ =>
  }

  lemma StepFinishes(s: State, ev: Event, event: Identity)
    requires event in s.record.handled ==> FinishedAs(s, event)
    ensures event in Step(s, ev).record.handled ==> FinishedAs(Step(s, ev), event)
  {
    if ev.Work? && ev.worker < |s.workers| { WorkFinishes(s, ev.worker, ev.setNX, ev.creates, event); }
  }

  lemma {:induction false} DistinctCount<T>(m: multiset<T>, s: set<T>)
    requires forall k | k in m :: m[k] == 1 && k in s
    ensures |m| <= |s|
  {
    if m != multiset{} {
      var k :| k in m;
      var rest := m - multiset{k};
      assert m == rest + multiset{k} && k !in rest;
      forall x | x in rest ensures rest[x] == 1 && x in s - {k} { assert x in m; }
      DistinctCount(rest, s - {k});
    }
  }

  /** As long as no key expires, deliveries make no more notifications than there are distinct events among them,
      however often each event is delivered and whatever the workers do at the same time. */
  lemma NotificationsBoundedByEvents(numWorkers: int, events: seq<Event>)
    requires Run(numWorkers, events).record.expired == multiset{}
    ensures var s := Run(numWorkers, events); |s.record.created| <= |EventsOf(s.record.received)|
  {
    var s := Run(numWorkers, events);
    forall event | event in s.record.created
      ensures s.record.created[event] == 1 && event in EventsOf(s.record.received)
    {
      HandledAtMostOnce(numWorkers, events, event);
      HandledWasFinished(numWorkers, events, event);
      var job :| job in s.record.finished && IdentityOf(job) == event;
      RunBalances(numWorkers, events, job, event);
      assert job in s.record.received;
    }
    DistinctCount(s.record.created, EventsOf(s.record.received));
  }

  // ---------------------------------------------------------------- at least once

  /** The callbacks are those of the subscribed subjects, and every SET NX is answered. */
  predicate Orderly(ev: Event) {
    && (ev.Receive? ==> ev.job.subject in SUBJECTS)
    && (ev.Work? ==> ev.setNX.Answered?)
  }

  predicate Claims(workers: seq<Worker>, w: nat, event: Identity) {
    w < |workers| && workers[w].Claimed? && IdentityOf(workers[w].job) == event
  }

  /** The event was handled, or some worker is handling it. */
  ghost predicate Settled(s: State, event: Identity) {
    event in s.record.handled || exists w: nat :: Claims(s.workers, w, event)
  }

  predicate HasSubscribed(w: Worker) {
    w.Holding? || w.Claimed? ==> w.job.subject in SUBJECTS
  }

  ghost predicate AllSubscribed(s: State) {
    && (forall job | job in s.queue :: job.subject in SUBJECTS)
    && (forall w | w in s.workers :: HasSubscribed(w))
  }

  ghost predicate StandsFor(s: State, key: string, job: Job) {
    job.subject in SUBJECTS && KeyOf(job) == key && Settled(s, IdentityOf(job))
  }

  /** Every key is there because of a settled event, and every finished job is one. */
  ghost predicate KeysStand(s: State) {
    && AllSubscribed(s)
    && (forall key | key in s.keys :: exists job :: StandsFor(s, key, job))
    && (forall job | job in s.record.finished :: Settled(s, IdentityOf(job)))
  }

  lemma SettledStays(s: State, ev: Event, event: Identity)
    requires Settled(s, event)
    ensures Settled(Step(s, ev), event)
  {
    var s' := Step(s, ev);
    if event !in s.record.handled {
      var w: nat :| Claims(s.workers, w, event);
      if ev.Work? && ev.worker < |s.workers| {
        WorkMovesOneWorker(s, ev.worker, ev.setNX, ev.creates);
        if ev.worker == w { assert event in s'.record.handled; } else { assert Claims(s'.workers, w, event); }
      } else {
        assert Claims(s'.workers, w, event);
      }
    }
  }

  lemma StepKeepsSubscribed(s: State, ev: Event)
    requires AllSubscribed(s) && Orderly(ev)
    ensures AllSubscribed(Step(s, ev))
  {
    var s' := Step(s, ev);
    if ev.Work? && ev.worker < |s.workers| {
      WorkMovesOneWorker(s, ev.worker, ev.setNX, ev.creates);
      assert HasSubscribed(s.workers[ev.worker]);
      forall w | w in s'.workers ensures HasSubscribed(w) {
        if w !in s.workers { assert w == s'.workers[ev.worker]; }
      }
    }
  }

  /** A job whose key was there already is the event for which the key stands: different events do not share keys. */
  lemma DuplicateIsSettled(s: State, job: Job)
    requires KeysStand(s) && job.subject in SUBJECTS && KeyOf(job) in s.keys
    ensures Settled(s, IdentityOf(job))
  {
    var other :| StandsFor(s, KeyOf(job), other);
    KeysAgreeExactly(other.subject, other.payload, job.subject, job.payload);
  }

  lemma NewlyFinished(s: State, ev: Event, job: Job)
    requires KeysStand(s) && Orderly(ev) && job in Step(s, ev).record.finished && job !in s.record.finished
    ensures Settled(Step(s, ev), IdentityOf(job))
  {
    var w := s.workers[ev.worker];
    assert HasSubscribed(w);
    if w.Holding? {
      DuplicateIsSettled(s, job);
      SettledStays(s, ev, IdentityOf(job));
    }
  }

  lemma NewKeyStands(s: State, ev: Event, key: string)
    requires AllSubscribed(s) && Orderly(ev) && key in Step(s, ev).keys && key !in s.keys
    ensures exists job :: StandsFor(Step(s, ev), key, job)
  {
    var held := s.workers[ev.worker].job;
    assert HasSubscribed(s.workers[ev.worker]);
    assert Claims(Step(s, ev).workers, ev.worker, IdentityOf(held));
    assert StandsFor(Step(s, ev), key, held);
  }

  lemma StepKeepsKeysStand(s: State, ev: Event)
    requires KeysStand(s) && Orderly(ev)
    ensures KeysStand(Step(s, ev))
  {
    var s' := Step(s, ev);
    StepKeepsSubscribed(s, ev);
    forall key | key in s'.keys ensures exists job :: StandsFor(s', key, job) {
      if key in s.keys {
        var job :| StandsFor(s, key, job);
        SettledStays(s, ev, IdentityOf(job));
        assert StandsFor(s', key, job);
      } else {
        NewKeyStands(s, ev, key);
      }
    }
    forall job | job in s'.record.finished ensures Settled(s', IdentityOf(job)) {
      if job in s.record.finished { SettledStays(s, ev, IdentityOf(job)); } else { NewlyFinished(s, ev, job); }
    }
  }

  lemma {:induction false} RunKeepsKeysStand(numWorkers: int, events: seq<Event>)
    requires forall ev | ev in events :: Orderly(ev)
    ensures KeysStand(Run(numWorkers, events))
  {
    if events != [] {
      var before := events[..|events| - 1];
      RunKeepsKeysStand(numWorkers, before);
      assert Orderly(events[|events| - 1]);
      StepKeepsKeysStand(Run(numWorkers, before), events[|events| - 1]);
    }
  }

  /** When the workers have stopped, the event of every accepted job has been handled; once, if its key never expired.
      No event is taken for the repetition of another one. */
  lemma AcceptedIsHandledOnce(numWorkers: int, events: seq<Event>, job: Job)
    requires forall ev | ev in events :: Orderly(ev)
    requires forall w | w in Run(numWorkers, events).workers :: w.Stopped?
    requires Run(numWorkers, events).record.received[job] > Run(numWorkers, events).record.dropped[job]
    ensures var record := Run(numWorkers, events).record;
            1 <= record.handled[IdentityOf(job)] <= 1 + record.expired[KeyOf(job)]
  {
    var s := Run(numWorkers, events);
    StoppedMeansDone(numWorkers, events);
    RunKeepsKeysStand(numWorkers, events);
    assert job in s.record.finished;
    forall w: nat | w < |s.workers| ensures !Claims(s.workers, w, IdentityOf(job)) { assert s.workers[w] in s.workers; }
    HandledAtMostOnce(numWorkers, events, IdentityOf(job));
    KeyOfIdentity(job);
  }
}
