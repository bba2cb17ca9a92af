/** What becomes of each accepted event, read off the deliveries, the worker steps and the expiries alone. */
module EventOutcomes {
  import opened Basics
  import opened EventKeys
  import opened EventPipeline

  /** The step is a SET NX by a worker that holds a job with this key, and it reaches Redis. */
  predicate Sets(s: State, ev: Event, key: string) {
    && ev.Work? && ev.worker < |s.workers| && s.workers[ev.worker].Holding?
    && KeyOf(s.workers[ev.worker].job) == key && !ev.setNX.Unreachable?
  }

  /** The key was set by such a step and has not expired since. */
  predicate Remembered(numWorkers: int, events: seq<Event>, key: string) {
    events != [] &&
    var before, ev := events[..|events| - 1], events[|events| - 1];
    ev != KeyExpires(key) && (Sets(Run(numWorkers, before), ev, key) || Remembered(numWorkers, before, key))
  }

  lemma StepRemembers(s: State, ev: Event, key: string)
    ensures key in Step(s, ev).keys <==> ev != KeyExpires(key) && (Sets(s, ev, key) || key in s.keys)
  {
    if ev.Work? && ev.worker < |s.workers| { WorkMovesOneWorker(s, ev.worker, ev.setNX, ev.creates); }
  }

  lemma {:induction false} KeysAreRemembered(numWorkers: int, events: seq<Event>, key: string)
    ensures key in Run(numWorkers, events).keys <==> Remembered(numWorkers, events, key)
  {
    if events != [] {
      KeysAreRemembered(numWorkers, events[..|events| - 1], key);
      StepRemembers(Run(numWorkers, events[..|events| - 1]), events[|events| - 1], key);
    }
  }

  /** The step is an answered SET NX for this event that finds its key not remembered. */
  predicate Wins(numWorkers: int, before: seq<Event>, ev: Event, event: Identity) {
    && Sets(Run(numWorkers, before), ev, KeyFor(event)) && ev.setNX.Answered?
    && IdentityOf(Run(numWorkers, before).workers[ev.worker].job) == event
    && !Remembered(numWorkers, before, KeyFor(event))
  }

  function WinsOf(numWorkers: int, events: seq<Event>, event: Identity): nat {
    if events == [] then 0
    else
      var before, ev := events[..|events| - 1], events[|events| - 1];
      WinsOf(numWorkers, before, event) + if Wins(numWorkers, before, ev, event) then 1 else 0
  }

  lemma StepClaims(s: State, ev: Event, event: Identity)
    ensures var s' := Step(s, ev);
            var won := && ev.Work? && ev.worker < |s.workers| && s.workers[ev.worker].Holding? && ev.setNX.Answered?
                       && IdentityOf(s.workers[ev.worker].job) == event && KeyFor(event) !in s.keys;
            s'.record.handled[event] + OpenClaims(s'.workers, event)
            == s.record.handled[event] + OpenClaims(s.workers, event) + if won then 1 else 0
  {
    if ev.Work? && ev.worker < |s.workers| {
      var s' := Step(s, ev);
      WorkMovesOneWorker(s, ev.worker, ev.setNX, ev.creates);
      ClaimsMove(s.workers, ev.worker, s'.workers[ev.worker], event);
      WorkHandles(s, ev.worker, ev.setNX, ev.creates, event);
      if s.workers[ev.worker].Holding? { KeyOfIdentity(s.workers[ev.worker].job); }
    }
  }

  lemma WorkHandles(s: State, w: nat, setNX: CallOutcome, creates: bool, event: Identity)
    requires w < |s.workers|
    ensures var record, after := s.record, WorkStep(s, w, setNX, creates).record;
            && after.handled[event] == record.handled[event] + HasClaimed(s.workers[w], event)
            && after.created[event] == record.created[event] + if creates then HasClaimed(s.workers[w], event) else 0
  {
    match s.workers[w]
    case Holding(job) => ClaimHandlesNothing(s, w, job, setNX);
    case _ =>
  }

  lemma ClaimHandlesNothing(s: State, w: nat, job: Job, setNX: CallOutcome)
    requires w < |s.workers|
    ensures var after := Claim(s, w, job, setNX).record;
            after.handled == s.record.handled && after.created == s.record.created
  {
  }

  /** On every run the handlings of an event, done or going on, are exactly the answered SET NX steps for it that
      found its key not remembered. A lost reply sets the key and handles nothing, so that the event stays unhandled
      until the key expires and the event comes again. */
  lemma {:induction false} HandledExactly(numWorkers: int, events: seq<Event>, event: Identity)
    ensures var s := Run(numWorkers, events);
            s.record.handled[event] + OpenClaims(s.workers, event) == WinsOf(numWorkers, events, event)
  {
    if events == [] {
      IdleWorkersHoldNothing(Initial(numWorkers).workers, Job(event.subject, event.body), event);
    } else {
      var before, ev := events[..|events| - 1], events[|events| - 1];
      HandledExactly(numWorkers, before, event);
      KeysAreRemembered(numWorkers, before, KeyFor(event));
      StepClaims(Run(numWorkers, before), ev, event);
      if ev.Work? && ev.worker < |Run(numWorkers, before).workers|
        && Run(numWorkers, before).workers[ev.worker].Holding? {
        KeyOfIdentity(Run(numWorkers, before).workers[ev.worker].job);
      }
    }
  }

  /** When the workers have stopped, the event of a job was handled exactly if some step won it. */
  lemma HandledIfWon(numWorkers: int, events: seq<Event>, event: Identity)
    requires forall w | w in Run(numWorkers, events).workers :: w.Stopped?
    ensures Run(numWorkers, events).record.handled[event] == WinsOf(numWorkers, events, event)
  {
    HandledExactly(numWorkers, events, event);
    IdleWorkersHoldNothing(Run(numWorkers, events).workers, Job(event.subject, event.body), event);
  }

  /** How many handlings of the event have made a notification. */
  function Notifies(numWorkers: int, events: seq<Event>, event: Identity): nat {
    if events == [] then 0
    else
      var before, ev := events[..|events| - 1], events[|events| - 1];
      var workers := Run(numWorkers, before).workers;
      Notifies(numWorkers, before, event)
        + if && ev.Work? && ev.creates && ev.worker < |workers| && workers[ev.worker].Claimed?
             && IdentityOf(workers[ev.worker].job) == event then 1 else 0
  }

  /** Each handling that can make a notification makes one. */
  lemma {:induction false} CreatedExactly(numWorkers: int, events: seq<Event>, event: Identity)
    ensures Run(numWorkers, events).record.created[event] == Notifies(numWorkers, events, event)
  {
    if events != [] {
      var before, ev := events[..|events| - 1], events[|events| - 1];
      var s := Run(numWorkers, before);
      CreatedExactly(numWorkers, before, event);
      if ev.Work? && ev.worker < |s.workers| { WorkHandles(s, ev.worker, ev.setNX, ev.creates, event); }
    }
  }

  /** There are as many workers as configured, five when no positive number is, and it stays that way. */
  lemma {:induction false} WorkersStay(numWorkers: int, events: seq<Event>)
    ensures |Run(numWorkers, events).workers| == if numWorkers <= 0 then 5 else numWorkers
  {
    if events != [] {
      var before, ev := events[..|events| - 1], events[|events| - 1];
      WorkersStay(numWorkers, before);
      var s := Run(numWorkers, before);
      if ev.Work? && ev.worker < |s.workers| { WorkMovesOneWorker(s, ev.worker, ev.setNX, ev.creates); }
    }
  }

  // ---------------------------------------------------------------- the order of the queue

  /** The job that arrives in this step and finds room. */
  function JustAccepted(s: State, ev: Event): seq<Job> {
    if ev.Receive? && !s.closed && |s.queue| < |s.workers| * 64 then [ev.job] else []
  }

  /** The job that a worker takes off the channel in this step. */
  function JustTaken(s: State, s': State, ev: Event): seq<Job> {
    if && ev.Work? && ev.worker < |s.workers| && ev.worker < |s'.workers|
       && s.workers[ev.worker].Idle? && s'.workers[ev.worker].Holding?
    then [s'.workers[ev.worker].job] else []
  }

  /** The jobs that found room, in the order in which they came. */
  function Accepted(numWorkers: int, events: seq<Event>): seq<Job> {
    if events == [] then []
    else
      var before := events[..|events| - 1];
      Accepted(numWorkers, before) + JustAccepted(Run(numWorkers, before), events[|events| - 1])
  }

  /** The jobs that workers have taken, in the order in which they did. */
  function Taken(numWorkers: int, events: seq<Event>): seq<Job> {
    if events == [] then []
    else
      var before := events[..|events| - 1];
      Taken(numWorkers, before) + JustTaken(Run(numWorkers, before), Run(numWorkers, events), events[|events| - 1])
  }

  lemma StepKeepsOrder(s: State, ev: Event)
    ensures JustTaken(s, Step(s, ev), ev) + Step(s, ev).queue == s.queue + JustAccepted(s, ev)
  {
    if ev.Work? && ev.worker < |s.workers| {
      WorkMovesOneWorker(s, ev.worker, ev.setNX, ev.creates);
      if s.workers[ev.worker].Idle? && s.queue != [] { assert s.queue == [s.queue[0]] + s.queue[1..]; }
    }
  }

  lemma Regroup<T>(taken: seq<T>, queue: seq<T>, accepted: seq<T>, more: seq<T>, out: seq<T>, queue': seq<T>)
    requires taken + queue == accepted && out + queue' == queue + more
    ensures (taken + out) + queue' == accepted + more
  {
    assert (taken + out) + queue' == taken + (out + queue');
  }

  /** First come, first served: the jobs taken, followed by those that wait, are the accepted ones in their order. */
  lemma {:induction false} QueueIsFifo(numWorkers: int, events: seq<Event>)
    ensures Taken(numWorkers, events) + Run(numWorkers, events).queue == Accepted(numWorkers, events)
  {
    if events != [] {
      var before, ev := events[..|events| - 1], events[|events| - 1];
      var s := Run(numWorkers, before);
      QueueIsFifo(numWorkers, before);
      StepKeepsOrder(s, ev);
      Regroup(Taken(numWorkers, before), s.queue, Accepted(numWorkers, before), JustAccepted(s, ev),
              JustTaken(s, Step(s, ev), ev), Step(s, ev).queue);
    }
  }
}
