/** The job queue and the workers of services/notification-service/internal/app/app.go, with the de-duplication of
    `HandleEvent`, for any number of workers, redeliveries and expiries. */
module EventPipeline {
  import opened Basics
  import opened EventKeys
  import opened GoText

  /** A queued event. */
  datatype Job = Job(subject: string, payload: string)

  /** What makes two deliveries the same event: the subject, and the payload up to white space at its end. */
  datatype Identity = Identity(subject: string, body: string)

  function IdentityOf(job: Job): Identity {
    Identity(job.subject, TrimRight(job.payload))
  }

  function KeyOf(job: Job): string {
    EventKey(job.subject, job.payload)
  }

  function KeyFor(i: Identity): string {
    EventKey(i.subject, i.body)
  }

  lemma KeyOfIdentity(job: Job)
    ensures KeyOf(job) == KeyFor(IdentityOf(job))
  {
    TrailingSpaceIsIgnored(job.subject, job.payload);
  }

  /** Where a worker stands: waiting on the channel, before the SetNX of its job, after a SetNX that set the key,
      gone. */
  datatype Worker = Idle | Holding(job: Job) | Claimed(job: Job) | Stopped

  /** What has happened so far, as multisets of jobs, of events and of keys. */
  datatype Record = Record(
    received: multiset<Job>, dropped: multiset<Job>, finished: multiset<Job>,
    handled: multiset<Identity>, created: multiset<Identity>, expired: multiset<string>)

  /** No step looks at the record. */
  datatype State = State(
    queue: seq<Job>, closed: bool, workers: seq<Worker>, keys: set<string>, panicked: bool, record: Record)

  datatype Event =
    | Receive(job: Job)                                        // a NATS callback
    | Work(worker: nat, setNX: CallOutcome, creates: bool)     // the next step of one worker
    | Close
    | KeyExpires(key: string)

  function Capacity(s: State): nat {
    |s.workers| * 64
  }

  function Initial(numWorkers: int): State {
    var n := if numWorkers <= 0 then 5 else numWorkers;
    State([], false, seq(n, i => Idle), {}, false,
          Record(multiset{}, multiset{}, multiset{}, multiset{}, multiset{}, multiset{}))
  }

  function Finish(s: State, w: nat, job: Job): State
    requires w < |s.workers|
  {
    s.(workers := s.workers[w := Idle], record := s.record.(finished := s.record.finished + multiset{job}))
  }

  /** `MarkEventProcessed`: SET NX; with an error, whether or not the key was set, the event is given up. */
  function Claim(s: State, w: nat, job: Job, setNX: CallOutcome): State
    requires w < |s.workers|
  {
    if setNX.Unreachable? then Finish(s, w, job)
    else if setNX.ReplyLost? then Finish(s.(keys := s.keys + {KeyOf(job)}), w, job)
    else if KeyOf(job) in s.keys then Finish(s, w, job)
    else s.(keys := s.keys + {KeyOf(job)}, workers := s.workers[w := Claimed(job)])
  }

  /** The handler of the subject: it makes one notification, or none when the subject has no handler, or decoding or
      storing fails. */
  function Handle(s: State, w: nat, job: Job, creates: bool): State
    requires w < |s.workers|
  {
    var done, event := Finish(s, w, job), multiset{IdentityOf(job)};
    done.(record := done.record.(handled := s.record.handled + event,
                                 created := s.record.created + if creates then event else multiset{}))
  }

  function WorkStep(s: State, w: nat, setNX: CallOutcome, creates: bool): State
    requires w < |s.workers|
  {
    match s.workers[w]
    case Idle =>
      if s.queue != [] then s.(queue := s.queue[1..], workers := s.workers[w := Holding(s.queue[0])])
      else if s.closed then s.(workers := s.workers[w := Stopped])
      else s
    case Holding(job) => Claim(s, w, job, setNX)
    case Claimed(job) => Handle(s, w, job, creates)
    case Stopped => s
  }

  function Step(s: State, ev: Event): State {
    match ev
    case Receive(job) =>
      if s.closed then s.(panicked := true)          // send on a closed channel
      else
        var seen := s.(record := s.record.(received := s.record.received + multiset{job}));
        if |s.queue| < Capacity(s) then seen.(queue := s.queue + [job])
        else seen.(record := seen.record.(dropped := s.record.dropped + multiset{job}))
    case Work(w, setNX, creates) => if w < |s.workers| then WorkStep(s, w, setNX, creates) else s
    case Close => s.(closed := true)
    case KeyExpires(key) =>
      if key in s.keys then s.(keys := s.keys - {key}, record := s.record.(expired := s.record.expired + multiset{key}))
      else s
  }

  function Run(numWorkers: int, events: seq<Event>): State {
    if events == [] then Initial(numWorkers) else Step(Run(numWorkers, events[..|events| - 1]), events[|events| - 1])
  }

  // ---------------------------------------------------------------- conservation of jobs

  function Holds(w: Worker, job: Job): nat {
    if (w.Holding? || w.Claimed?) && w.job == job then 1 else 0
  }

  /** How many workers are busy with the job. */
  function InProgress(workers: seq<Worker>, job: Job): nat {
    if workers == [] then 0 else InProgress(workers[..|workers| - 1], job) + Holds(workers[|workers| - 1], job)
  }

  function HasClaimed(w: Worker, event: Identity): nat {
    if w.Claimed? && IdentityOf(w.job) == event then 1 else 0
  }

  /** How many workers are handling the event. */
  function OpenClaims(workers: seq<Worker>, event: Identity): nat {
    if workers == [] then 0 else OpenClaims(workers[..|workers| - 1], event) + HasClaimed(workers[|workers| - 1], event)
  }

  lemma {:induction false} JobsMove(workers: seq<Worker>, w: nat, next: Worker, job: Job)
    requires w < |workers|
    ensures InProgress(workers[w := next], job) + Holds(workers[w], job) == InProgress(workers, job) + Holds(next, job)
  {
    var n := |workers| - 1;
    if w < n {
      JobsMove(workers[..n], w, next, job);
      assert workers[w := next][..n] == workers[..n][w := next];
    } else {
      assert workers[w := next][..n] == workers[..n];
    }
  }

  lemma {:induction false} ClaimsMove(workers: seq<Worker>, w: nat, next: Worker, event: Identity)
    requires w < |workers|
    ensures OpenClaims(workers[w := next], event) + HasClaimed(workers[w], event)
            == OpenClaims(workers, event) + HasClaimed(next, event)
  {
    var n := |workers| - 1;
    if w < n {
      ClaimsMove(workers[..n], w, next, event);
      assert workers[w := next][..n] == workers[..n][w := next];
    } else {
      assert workers[w := next][..n] == workers[..n];
    }
  }

  ghost predicate JobBalance(s: State, job: Job) {
    s.record.received[job]
      == s.record.dropped[job] + multiset(s.queue)[job] + InProgress(s.workers, job) + s.record.finished[job]
  }

  /** Each handling of an event, done or going on, stands for a set of its key: for the key that is there, or for an
      expiry. */
  ghost predicate EventBalance(s: State, event: Identity) {
    && s.record.handled[event] + OpenClaims(s.workers, event) <= s.record.expired[KeyFor(event)]
       + (if KeyFor(event) in s.keys then 1 else 0)
    && s.record.created[event] <= s.record.handled[event]
  }

  ghost predicate StoppedAtEnd(s: State) {
    forall w | w in s.workers && w.Stopped? :: s.closed && s.queue == []
  }

  ghost predicate WellFormed(s: State) {
    |s.workers| >= 1 && |s.queue| <= Capacity(s) && StoppedAtEnd(s)
  }

  lemma {:induction false} IdleWorkersHoldNothing(workers: seq<Worker>, job: Job, event: Identity)
    requires forall w | w in workers :: w.Idle? || w.Stopped?
    ensures InProgress(workers, job) == 0 && OpenClaims(workers, event) == 0
  {
    if workers != [] {
      assert workers[|workers| - 1] in workers;
      forall w | w in workers[..|workers| - 1] ensures w.Idle? || w.Stopped? { assert w in workers; }
      IdleWorkersHoldNothing(workers[..|workers| - 1], job, event);
    }
  }

  /** Where one step of a worker leads, apart from the record. */
  predicate Works(s: State, s': State, w: nat, setNX: CallOutcome)
    requires w < |s.workers|
  {
    && s'.closed == s.closed
    && match s.workers[w]
       case Idle =>
         && s'.keys == s.keys
         && (if s.queue != [] then s'.queue == s.queue[1..] && s'.workers == s.workers[w := Holding(s.queue[0])]
             else s'.queue == [] && s'.workers == s.workers[w := if s.closed then Stopped else Idle])
       case Holding(job) =>
         && s'.queue == s.queue
         && s'.keys == (if setNX.Unreachable? then s.keys else s.keys + {KeyOf(job)})
         && s'.workers == s.workers[w := if setNX.Answered? && KeyOf(job) !in s.keys then Claimed(job) else Idle]
       case Claimed(job) => s'.queue == s.queue && s'.keys == s.keys && s'.workers == s.workers[w := Idle]
       case Stopped => s'.queue == s.queue && s'.keys == s.keys && s'.workers == s.workers
  }

  lemma WorksOneWay(s: State, s': State, t: State, w: nat, setNX: CallOutcome)
    requires w < |s.workers| && Works(s, s', w, setNX) && Works(s, t, w, setNX)
    ensures s'.queue == t.queue && s'.closed == t.closed && s'.workers == t.workers && s'.keys == t.keys
  {
  }

  lemma ClaimWorks(s: State, w: nat, job: Job, setNX: CallOutcome)
    requires w < |s.workers| && s.workers[w] == Holding(job)
    ensures Works(s, Claim(s, w, job, setNX), w, setNX)
  {
    if KeyOf(job) in s.keys { assert s.keys + {KeyOf(job)} == s.keys; }
  }

  lemma WorkMovesOneWorker(s: State, w: nat, setNX: CallOutcome, creates: bool)
    requires w < |s.workers|
    ensures var s' := WorkStep(s, w, setNX, creates);
            Works(s, s', w, setNX) && |s'.workers| == |s.workers| && s'.workers == s.workers[w := s'.workers[w]]
  {
    match s.workers[w]
    case Holding(job) => ClaimWorks(s, w, job, setNX);
    case _ => assert s.workers[w := s.workers[w]] == s.workers;
  }

  lemma FinishKeepsJob(s: State, w: nat, held: Job, job: Job)
    requires JobBalance(s, job) && w < |s.workers|
    requires s.workers[w] == Holding(held) || s.workers[w] == Claimed(held)
    ensures JobBalance(Finish(s, w, held), job)
  {
    JobsMove(s.workers, w, Idle, job);
    FinishCounts(s.record.finished, held, job);
  }

  lemma TakeKeepsJob(s: State, w: nat, job: Job)
    requires JobBalance(s, job) && w < |s.workers| && s.workers[w].Idle? && s.queue != []
    ensures JobBalance(s.(queue := s.queue[1..], workers := s.workers[w := Holding(s.queue[0])]), job)
  {
    JobsMove(s.workers, w, Holding(s.queue[0]), job);
    PopCounts(s.queue, job);
  }

  lemma ClaimKeepsJob(s: State, w: nat, held: Job, setNX: CallOutcome, job: Job)
    requires JobBalance(s, job) && w < |s.workers| && s.workers[w] == Holding(held)
    ensures JobBalance(Claim(s, w, held, setNX), job)
  {
    FinishKeepsJob(s, w, held, job);
    FinishKeepsJob(s.(keys := s.keys + {KeyOf(held)}), w, held, job);
    JobsMove(s.workers, w, Claimed(held), job);
  }

  lemma WorkKeepsJob(s: State, w: nat, setNX: CallOutcome, creates: bool, job: Job)
    requires JobBalance(s, job) && w < |s.workers|
    ensures JobBalance(WorkStep(s, w, setNX, creates), job)
  {
    match s.workers[w]
    case Idle =>
      if s.queue != [] { TakeKeepsJob(s, w, job); } else { JobsMove(s.workers, w, Stopped, job); }
    case Holding(held) => ClaimKeepsJob(s, w, held, setNX, job);
    case Claimed(held) => FinishKeepsJob(s, w, held, job);
    case Stopped =>
  }

  lemma PopCounts(queue: seq<Job>, job: Job)
    requires queue != []
    ensures multiset(queue)[job] == multiset(queue[1..])[job] + if queue[0] == job then 1 else 0
  {
    assert queue == [queue[0]] + queue[1..];
  }

  lemma FinishCounts(done: multiset<Job>, held: Job, job: Job)
    ensures (done + multiset{held})[job] == done[job] + if held == job then 1 else 0
  {
  }

  lemma HandleKeepsEvent(s: State, w: nat, held: Job, creates: bool, event: Identity)
    requires EventBalance(s, event) && w < |s.workers| && s.workers[w] == Claimed(held)
    ensures EventBalance(Handle(s, w, held, creates), event)
  {
    ClaimsMove(s.workers, w, Idle, event);
    var made := if creates then multiset{IdentityOf(held)} else multiset{};
    assert (s.record.created + made)[event] == s.record.created[event] + made[event];
    assert (s.record.handled + multiset{IdentityOf(held)})[event]
           == s.record.handled[event] + if IdentityOf(held) == event then 1 else 0;
  }

  lemma FinishKeepsEvent(s: State, w: nat, held: Job, keys: set<string>, event: Identity)
    requires EventBalance(s, event) && w < |s.workers| && s.workers[w] == Holding(held) && s.keys <= keys
    ensures EventBalance(Finish(s.(keys := keys), w, held), event)
  {
    ClaimsMove(s.workers, w, Idle, event);
  }

  lemma FirstClaimKeepsEvent(s: State, w: nat, held: Job, event: Identity)
    requires EventBalance(s, event) && w < |s.workers| && s.workers[w] == Holding(held) && KeyOf(held) !in s.keys
    ensures EventBalance(s.(keys := s.keys + {KeyOf(held)}, workers := s.workers[w := Claimed(held)]), event)
  {
    KeyOfIdentity(held);
    ClaimsMove(s.workers, w, Claimed(held), event);
  }

  lemma ClaimKeepsEvent(s: State, w: nat, held: Job, setNX: CallOutcome, event: Identity)
    requires EventBalance(s, event) && w < |s.workers| && s.workers[w] == Holding(held)
    ensures EventBalance(Claim(s, w, held, setNX), event)
  {
    assert s.(keys := s.keys) == s;
    if setNX.Unreachable? || (setNX.Answered? && KeyOf(held) in s.keys) {
      FinishKeepsEvent(s, w, held, s.keys, event);
    } else if setNX.ReplyLost? {
      FinishKeepsEvent(s, w, held, s.keys + {KeyOf(held)}, event);
    } else {
      FirstClaimKeepsEvent(s, w, held, event);
    }
  }

  lemma WorkKeepsEvent(s: State, w: nat, setNX: CallOutcome, creates: bool, event: Identity)
    requires EventBalance(s, event) && w < |s.workers|
    ensures EventBalance(WorkStep(s, w, setNX, creates), event)
  {
    match s.workers[w]
    case Idle =>
      if s.queue != [] {
        ClaimsMove(s.workers, w, Holding(s.queue[0]), event);
      } else {
        ClaimsMove(s.workers, w, Stopped, event);
      }
    case Holding(held) => ClaimKeepsEvent(s, w, held, setNX, event);
    case Claimed(held) => HandleKeepsEvent(s, w, held, creates, event);
    case Stopped =>
  }

  lemma WorkKeepsForm(s: State, w: nat, setNX: CallOutcome, creates: bool)
    requires WellFormed(s) && w < |s.workers|
    ensures WellFormed(WorkStep(s, w, setNX, creates))
  {
    var s' := WorkStep(s, w, setNX, creates);
    WorkMovesOneWorker(s, w, setNX, creates);
    forall x | x in s'.workers && x.Stopped? ensures s'.closed && s'.queue == [] {
      if x !in s.workers { assert x == s'.workers[w]; }
    }
  }

  lemma {:induction false} RunIsWellFormed(numWorkers: int, events: seq<Event>)
    ensures WellFormed(Run(numWorkers, events))
  {
    if events != [] {
      var s, ev := Run(numWorkers, events[..|events| - 1]), events[|events| - 1];
      RunIsWellFormed(numWorkers, events[..|events| - 1]);
      if ev.Work? && ev.worker < |s.workers| { WorkKeepsForm(s, ev.worker, ev.setNX, ev.creates); }
    }
  }

  lemma {:induction false} RunBalances(numWorkers: int, events: seq<Event>, job: Job, event: Identity)
    ensures JobBalance(Run(numWorkers, events), job) && EventBalance(Run(numWorkers, events), event)
  {
    if events == [] {
      IdleWorkersHoldNothing(Initial(numWorkers).workers, job, event);
    } else {
      var s, ev := Run(numWorkers, events[..|events| - 1]), events[|events| - 1];
      RunBalances(numWorkers, events[..|events| - 1], job, event);
      if ev.Work? && ev.worker < |s.workers| {
        WorkKeepsJob(s, ev.worker, ev.setNX, ev.creates, job);
        WorkKeepsEvent(s, ev.worker, ev.setNX, ev.creates, event);
      } else {
        OtherStepsBalance(s, ev, job, event);
      }
    }
  }

  lemma ReceiveBalances(s: State, other: Job, job: Job)
    requires JobBalance(s, job)
    ensures JobBalance(Step(s, Receive(other)), job)
  {
    assert multiset(s.queue + [other]) == multiset(s.queue) + multiset{other};
  }

  lemma OtherStepsBalance(s: State, ev: Event, job: Job, event: Identity)
    requires JobBalance(s, job) && EventBalance(s, event) && (ev.Work? ==> ev.worker >= |s.workers|)
    ensures JobBalance(Step(s, ev), job) && EventBalance(Step(s, ev), event)
  {
    match ev
    case Receive(other) => ReceiveBalances(s, other, job);
    case Work(_, _, _) =>
    case Close =>
    case KeyExpires(key) => assert (s.record.expired + multiset{key})[KeyFor(event)]
        == s.record.expired[KeyFor(event)] + if key == KeyFor(event) then 1 else 0;
  }

  /** No job gets lost or doubled: each received occurrence of a job is dropped, queued, in progress or finished.
      The queue stays within workers × 64. */
  lemma JobsAreConserved(numWorkers: int, events: seq<Event>)
    ensures var s := Run(numWorkers, events);
            && (forall job ::
                  s.record.received[job] == s.record.dropped[job] + multiset(s.queue)[job]
                                            + InProgress(s.workers, job) + s.record.finished[job])
            && |s.queue| <= |s.workers| * 64
  {
    RunIsWellFormed(numWorkers, events);
    var s := Run(numWorkers, events);
    forall job
      ensures s.record.received[job] == s.record.dropped[job] + multiset(s.queue)[job] + InProgress(s.workers, job)
              + s.record.finished[job]
    {
      RunBalances(numWorkers, events, job, IdentityOf(job));
    }
  }

  /** How many occurrences of the job arrived at an open channel with no place left. */
  function Refusals(numWorkers: int, events: seq<Event>, job: Job): nat {
    if events == [] then 0
    else
      var before, ev := events[..|events| - 1], events[|events| - 1];
      var s := Run(numWorkers, before);
      Refusals(numWorkers, before, job) + (if ev == Receive(job) && !s.closed && |s.queue| == |s.workers| * 64
                                          then 1 else 0)
  }

  /** On every run exactly the occurrences that arrived at a full queue are dropped. */
  lemma {:induction false} DroppedExactly(numWorkers: int, events: seq<Event>, job: Job)
    ensures Run(numWorkers, events).record.dropped[job] == Refusals(numWorkers, events, job)
  {
    if events != [] {
      var before, ev := events[..|events| - 1], events[|events| - 1];
      DroppedExactly(numWorkers, before, job);
      RunIsWellFormed(numWorkers, before);
      DropCounts(Run(numWorkers, before), ev, job);
    }
  }

  lemma DropCounts(s: State, ev: Event, job: Job)
    requires |s.queue| <= Capacity(s)
    ensures Step(s, ev).record.dropped[job]
         == s.record.dropped[job] + if ev == Receive(job) && !s.closed && |s.queue| == Capacity(s) then 1 else 0
  {
    if ev.Work? && ev.worker < |s.workers| { WorkLeavesIntake(s, ev.worker, ev.setNX, ev.creates); }
  }

  // ---------------------------------------------------------------- close, then wait

  function Weight(w: Worker): nat {
    match w
    case Idle => 1
    case Holding(_) => 3
    case Claimed(_) => 2
    case Stopped => 0
  }

  function Weights(workers: seq<Worker>): nat {
    if workers == [] then 0 else Weights(workers[..|workers| - 1]) + Weight(workers[|workers| - 1])
  }

  /** How many worker steps a closed pipeline has left at most. */
  function StepsLeft(s: State): nat {
    4 * |s.queue| + Weights(s.workers)
  }

  lemma {:induction false} WeightMoves(workers: seq<Worker>, w: nat, next: Worker)
    requires w < |workers|
    ensures Weights(workers[w := next]) + Weight(workers[w]) == Weights(workers) + Weight(next)
  {
    var n := |workers| - 1;
    if w < n {
      WeightMoves(workers[..n], w, next);
      assert workers[w := next][..n] == workers[..n][w := next];
    } else {
      assert workers[w := next][..n] == workers[..n];
    }
  }

  /** In a closed pipeline every worker that has not stopped has a next step, and each step brings the end closer. */
  lemma ClosedWorkProgresses(s: State, w: nat, setNX: CallOutcome, creates: bool)
    requires s.closed && w < |s.workers| && !s.workers[w].Stopped?
    ensures StepsLeft(WorkStep(s, w, setNX, creates)) < StepsLeft(s) && WorkStep(s, w, setNX, creates).closed
  {
    WorkMovesOneWorker(s, w, setNX, creates);
    FewerStepsLeft(s, WorkStep(s, w, setNX, creates), w, setNX);
  }

  lemma FewerStepsLeft(s: State, s': State, w: nat, setNX: CallOutcome)
    requires s.closed && w < |s.workers| && !s.workers[w].Stopped? && Works(s, s', w, setNX)
    ensures StepsLeft(s') < StepsLeft(s)
  {
    WeightMoves(s.workers, w, s'.workers[w]);
  }

  /** When all workers have stopped, every accepted occurrence of a job is finished: received = dropped + finished. */
  lemma StoppedMeansDone(numWorkers: int, events: seq<Event>)
    requires forall w | w in Run(numWorkers, events).workers :: w.Stopped?
    ensures var s := Run(numWorkers, events); s.queue == [] && s.record.received == s.record.dropped + s.record.finished
  {
    RunIsWellFormed(numWorkers, events);
    var s := Run(numWorkers, events);
    assert s.workers[0] in s.workers;
    forall job ensures s.record.received[job] == (s.record.dropped + s.record.finished)[job] {
      RunBalances(numWorkers, events, job, IdentityOf(job));
      IdleWorkersHoldNothing(s.workers, job, IdentityOf(job));
    }
  }

  predicate LateCallback(events: seq<Event>, i: nat, j: nat) {
    i < j < |events| && events[i].Close? && events[j].Receive?
  }

  lemma {:induction false} ClosedByClose(numWorkers: int, events: seq<Event>)
    ensures Run(numWorkers, events).closed <==> Close in events
  {
    if events != [] {
      var n := |events| - 1;
      ClosedByClose(numWorkers, events[..n]);
      ClosesOnlyByClose(Run(numWorkers, events[..n]), events[n]);
      assert events == events[..n] + [events[n]];
    }
  }

  lemma ClosesOnlyByClose(s: State, ev: Event)
    ensures Step(s, ev).closed <==> s.closed || ev.Close?
  {
    if ev.Work? && ev.worker < |s.workers| { WorkMovesOneWorker(s, ev.worker, ev.setNX, ev.creates); }
  }

  /** The process panics on a send exactly when a callback still runs after the channel was closed. */
  lemma {:induction false} PanicsExactly(numWorkers: int, events: seq<Event>)
    ensures Run(numWorkers, events).panicked <==> exists i, j :: LateCallback(events, i, j)
  {
    if events != [] {
      var n := |events| - 1;
      var before := events[..n];
      PanicsExactly(numWorkers, before);
      ClosedByClose(numWorkers, before);
      if i, j :| LateCallback(before, i, j) {
        assert LateCallback(events, i, j);
      } else if Close in before && events[n].Receive? {
        var i: nat :| i < n && before[i] == Close;
        assert LateCallback(events, i, n);
      } else {
        forall i: nat, j: nat ensures !LateCallback(events, i, j) { LateOrEarlier(events, i, j); }
      }
    }
  }

  lemma LateOrEarlier(events: seq<Event>, i: nat, j: nat)
    requires events != []
    ensures var n := |events| - 1;
            LateCallback(events, i, j) ==>
                LateCallback(events[..n], i, j) || (events[n].Receive? && Close in events[..n])
  {
    var n := |events| - 1;
    if LateCallback(events, i, j) && j == n {
      assert events[..n][i] == Close;
    }
  }

  lemma WorkLeavesIntake(s: State, w: nat, setNX: CallOutcome, creates: bool)
    requires w < |s.workers|
    ensures var after := WorkStep(s, w, setNX, creates).record;
            after.received == s.record.received && after.dropped == s.record.dropped
  {
  }

  lemma RunSnoc(numWorkers: int, events: seq<Event>, ev: Event)
    ensures Run(numWorkers, events + [ev]) == Step(Run(numWorkers, events), ev)
  {
    assert (events + [ev])[..|events|] == events;
  }

  // ---------------------------------------------------------------- the application object

  class App {
    const numWorkers: int
    var jobs: seq<Job>
    var closed: bool
    var workers: seq<Worker>
    var keys: set<string>
    ghost var history: seq<Event>

    /** What the machine makes of everything that has happened to this object. */
    ghost function State(): State
      reads this
    {
      Run(numWorkers, history)
    }

    ghost predicate Valid()
      reads this
    {
      State().queue == jobs && State().closed == closed && State().workers == workers && State().keys == keys
    }

    constructor (numWorkers: int)
      ensures Valid() && history == [] && |workers| == if numWorkers <= 0 then 5 else numWorkers
    {
      this.numWorkers := numWorkers;
      var n := numWorkers;
      if n <= 0 {
        n := 5;
      }
      jobs, closed, keys := [], false, {};
      workers := seq(n, i => Idle);
      history := [];
    }

    /** The callback of a subscription: enqueue, or drop at a full channel. */
    method OnMessage(subject: string, payload: string) returns (accepted: bool)
      requires Valid() && !closed
      modifies this
      ensures Valid() && history == old(history) + [Receive(Job(subject, payload))]
      ensures accepted <==> |old(jobs)| < |workers| * 64
      ensures jobs == if accepted then old(jobs) + [Job(subject, payload)] else old(jobs)
    {
      var job := Job(subject, payload);
      RunSnoc(numWorkers, history, Receive(job));
      accepted := |jobs| < |workers| * 64;
      if accepted {
        jobs := jobs + [job];
      }
      history := history + [Receive(job)];
    }

    /** One step of worker `w` in its loop over the channel. */
    method RunWorker(w: nat, setNX: CallOutcome, creates: bool)
      requires Valid() && w < |workers|
      modifies this
      ensures Valid() && history == old(history) + [Work(w, setNX, creates)]
    {
      ghost var before := State();
      RunSnoc(numWorkers, history, Work(w, setNX, creates));
      WorkMovesOneWorker(before, w, setNX, creates);
      TakeStep(w, setNX);
      history := history + [Work(w, setNX, creates)];
      WorksOneWay(before, State(), before.(queue := jobs, closed := closed, workers := workers, keys := keys), w,
                  setNX);
    }

    /** Take the next job, set its key, handle it, or stop. */
    method TakeStep(w: nat, setNX: CallOutcome)
      requires Valid() && w < |workers|
      modifies this`jobs, this`workers, this`keys
      ensures Works(old(State()), old(State()).(queue := jobs, closed := closed, workers := workers, keys := keys), w,
                    setNX)
    {
      match workers[w] {
        case Idle =>
          if |jobs| > 0 {
            workers := workers[w := Holding(jobs[0])];
            jobs := jobs[1..];
          } else if closed {
            workers := workers[w := Stopped];
          }
        case Holding(job) =>
          var ok := MarkEventProcessed(KeyOf(job), setNX);
          workers := workers[w := if ok then Claimed(job) else Idle];
        case Claimed(job) =>
          workers := workers[w := Idle];
        case Stopped =>
      }
    }

    /** SET NX; only an answered "was not there" lets the event through. */
    method MarkEventProcessed(key: string, outcome: CallOutcome) returns (ok: bool)
      modifies this`keys
      ensures ok <==> outcome.Answered? && key !in old(keys)
      ensures keys == if outcome.Unreachable? then old(keys) else old(keys) + {key}
    {
      if outcome.Unreachable? {
        return false;
      }
      ok := outcome.Answered? && key !in keys;
      keys := keys + {key};
    }

    /** Close the channel, then wait for the workers, which take their steps in any order and with any replies. */
    method Shutdown()
      requires Valid()
      modifies this
      ensures Valid() && closed && jobs == [] && forall w | w in workers :: w.Stopped?
      ensures State().record.received == old(State()).record.received
      ensures State().record.dropped == old(State()).record.dropped
      ensures State().record.received == State().record.dropped + State().record.finished
    {
      RunSnoc(numWorkers, history, Close);
      closed := true;
      history := history + [Close];
      while exists w :: 0 <= w < |workers| && !workers[w].Stopped?
        invariant Valid() && closed
        invariant State().record.received == old(State()).record.received
        invariant State().record.dropped == old(State()).record.dropped
        decreases StepsLeft(State())
      {
        var w :| 0 <= w < |workers| && !workers[w].Stopped?;
        var setNX: CallOutcome := *;
        var creates: bool := *;
        ClosedWorkProgresses(State(), w, setNX, creates);
        WorkLeavesIntake(State(), w, setNX, creates);
        RunSnoc(numWorkers, history, Work(w, setNX, creates));
        RunWorker(w, setNX, creates);
      }
      StoppedMeansDone(numWorkers, history);
    }
  }
}
