/** What every interleaving of requests, runs, snapshots and crashes of the worker keeps. */
module WorkerSafety {
  import opened Common
  import opened WorkerModel

  // ---------------------------------------------------------------- sequences

  predicate Distinct(q: seq<Id>)
  {
    forall i, j :: 0 <= i < j < |q| ==> q[i] != q[j]
  }

  /** `a` is `b` with some elements left out. */
  predicate Subsequence(a: seq<Id>, b: seq<Id>)
  {
    a == [] || (b != [] && if a[|a| - 1] == b[|b| - 1] && Subsequence(a[..|a| - 1], b[..|b| - 1]) then true
                           else Subsequence(a, b[..|b| - 1]))
  }

  lemma SubsequenceSkip(a: seq<Id>, b: seq<Id>, x: Id)
    requires Subsequence(a, b)
    ensures Subsequence(a, b + [x])
  {
    assert (b + [x])[..|b + [x]| - 1] == b;
  }

  lemma SubsequenceTake(a: seq<Id>, b: seq<Id>, x: Id)
    requires Subsequence(a, b)
    ensures Subsequence(a + [x], b + [x])
  {
    assert (b + [x])[..|b + [x]| - 1] == b && (a + [x])[..|a + [x]| - 1] == a;
  }

  lemma {:induction false} SubsequenceIn(a: seq<Id>, b: seq<Id>, x: Id)
    requires Subsequence(a, b) && x in a
    ensures x in b
  {
    if a[|a| - 1] == b[|b| - 1] && Subsequence(a[..|a| - 1], b[..|b| - 1]) {
      if x != a[|a| - 1] {
        SubsequenceIn(a[..|a| - 1], b[..|b| - 1], x);
      }
    } else {
      SubsequenceIn(a, b[..|b| - 1], x);
    }
  }

  lemma DistinctSnoc(q: seq<Id>, x: Id)
    requires Distinct(q) && x !in q
    ensures Distinct(q + [x])
  {
  }

  /** Taking from distinct elements gives distinct elements. */
  lemma {:induction false} SubsequenceDistinct(a: seq<Id>, b: seq<Id>)
    requires Subsequence(a, b) && Distinct(b)
    ensures Distinct(a)
  {
    if a != [] {
      var a', b' := a[..|a| - 1], b[..|b| - 1];
      if a[|a| - 1] == b[|b| - 1] && Subsequence(a', b') {
        SubsequenceDistinct(a', b');
        assert a[|a| - 1] !in a' by {
          if a[|a| - 1] in a' { SubsequenceIn(a', b', a[|a| - 1]); }
        }
        DistinctSnoc(a', a[|a| - 1]);
        assert a == a' + [a[|a| - 1]];
      } else {
        SubsequenceDistinct(a, b');
      }
    }
  }

  // ---------------------------------------------------------------- invariant

  /** The queue is what has been submitted and not yet taken, in order. */
  ghost predicate Queued(submitted: seq<Id>, taken: seq<Id>, pending: seq<Id>)
  {
    submitted == taken + pending && Distinct(submitted)
  }

  /** The registry holds what was restored and what was submitted since, each id once. */
  ghost predicate Registered(order: seq<Id>, restored: seq<Id>, submitted: seq<Id>, jobs: map<Id, Job>)
  {
    && order == restored + submitted && Distinct(order)
    && forall id :: id in jobs <==> id in order
  }

  /** Runs are started in submission order and executed once. */
  ghost predicate Started(taken: seq<Id>, started: seq<Id>, executed: seq<Id>, running: map<Id, Phase>)
  {
    && Subsequence(started, taken) && Distinct(executed)
    && (forall id :: id in executed ==> id in started)
    && (forall id :: id in running ==> id in started)
    && (forall id :: id in running && running[id] == Setup ==> id !in executed)
  }

  ghost predicate Slots(cap: nat, active: nat, running: map<Id, Phase>)
  {
    active == |running| <= cap
  }

  predicate PhaseState(phase: Phase, state: JobState)
  {
    match phase
    case Setup => state == Submitted || state == Cancelling
    case Executing => state == Running || state == Cancelling
    case WritingOutput => Terminal(state) && state != Cancelled
    case Saving => Terminal(state)
  }

  predicate StateFits(state: JobState, queued: bool, running: map<Id, Phase>, id: Id)
  {
    if id in running then PhaseState(running[id], state)
    else if queued then state == Submitted || state == Cancelled
    else Terminal(state)
  }

  ghost predicate StatesFit(jobs: map<Id, Job>, pending: seq<Id>, running: map<Id, Phase>)
  {
    forall id :: id in jobs ==> StateFits(jobs[id].state, id in pending, running, id)
  }

  ghost predicate Inv(s: State)
  {
    && Queued(s.submitted, s.taken, s.pending)
    && Registered(s.order, s.restored, s.submitted, s.jobs)
    && Started(s.taken, s.started, s.executed, s.running)
    && Slots(s.cap, s.active, s.running)
    && StatesFit(s.jobs, s.pending, s.running)
  }

  /** No slot is free while a job waits. */
  predicate Busy(s: State)
  {
    s.active == s.cap || s.pending == []
  }

  // --------------------------------------------------------------------- pump

  lemma ShiftQueued(submitted: seq<Id>, taken: seq<Id>, pending: seq<Id>)
    requires Queued(submitted, taken, pending) && pending != []
    ensures Queued(submitted, taken + [pending[0]], pending[1..])
    ensures pending[0] !in pending[1..] && pending[0] !in taken && pending[0] in submitted
  {
    assert pending == [pending[0]] + pending[1..];
    AppendAssoc(taken, [pending[0]], pending[1..]);
    var n := |taken|;
    assert submitted[n] == pending[0];
    assert forall i :: 0 <= i < |pending[1..]| ==> pending[1..][i] == submitted[n + 1 + i];
    assert forall i :: 0 <= i < n ==> taken[i] == submitted[i];
  }

  /** The job at the head of the queue has no run yet. */
  lemma HeadFresh(s: State)
    requires Inv(s) && s.pending != []
    ensures s.pending[0] in s.jobs && s.pending[0] !in s.started
    ensures s.pending[0] !in s.running && s.pending[0] !in s.executed
  {
    ShiftQueued(s.submitted, s.taken, s.pending);
    var id := s.pending[0];
    assert s.order[|s.restored| + |s.taken|] == id;
    if id in s.started { SubsequenceIn(s.started, s.taken, id); }
  }

  /** Passing over a job that is already over. */
  lemma SkipKeeps(s: State)
    requires Inv(s) && s.pending != [] && s.pending[0] in s.jobs && Terminal(s.jobs[s.pending[0]].state)
    ensures Inv(Shifted(s))
  {
    HeadFresh(s);
    ShiftQueued(s.submitted, s.taken, s.pending);
    SubsequenceSkip(s.started, s.taken, s.pending[0]);
    hide Subsequence, Queued, Registered, Slots;
    var s' := Shifted(s);
    assert forall id :: id in s'.pending <==> id in s.pending && id != s.pending[0];
    assert StatesFit(s'.jobs, s'.pending, s'.running);
  }

  /** Starting the job at the head of the queue. */
  lemma BeginKeeps(s: State)
    requires Inv(s) && s.pending != [] && s.active < s.cap
    requires s.pending[0] in s.jobs && !Terminal(s.jobs[s.pending[0]].state)
    ensures Inv(Begin(Shifted(s), s.pending[0]))
  {
    HeadFresh(s);
    ShiftQueued(s.submitted, s.taken, s.pending);
    hide Queued, Registered, Started, Slots, StatesFit, Terminal;
    StartedMore(s.taken, s.started, s.executed, s.running, s.pending[0]);
    SlotsMore(s.cap, s.active, s.running, s.pending[0]);
    BeginFits(s);
  }

  lemma StartedMore(taken: seq<Id>, started: seq<Id>, executed: seq<Id>, running: map<Id, Phase>, id: Id)
    requires Started(taken, started, executed, running) && id !in executed
    ensures Started(taken + [id], started + [id], executed, running[id := Setup])
  {
    SubsequenceTake(started, taken, id);
    hide Subsequence, Distinct;
    assert forall x :: x in started ==> x in started + [id];
    assert id in started + [id];
  }

  lemma SlotsMore(cap: nat, active: nat, running: map<Id, Phase>, id: Id)
    requires Slots(cap, active, running) && active < cap && id !in running
    ensures Slots(cap, active + 1, running[id := Setup])
  {
    OneMore(running, id);
  }

  lemma BeginFits(s: State)
    requires s.pending != [] && StatesFit(s.jobs, s.pending, s.running)
    requires s.pending[0] in s.jobs && !Terminal(s.jobs[s.pending[0]].state)
    requires s.pending[0] !in s.pending[1..] && s.pending[0] !in s.running
    ensures StatesFit(s.jobs, s.pending[1..], s.running[s.pending[0] := Setup])
  {
    assert forall id :: id in s.pending[1..] <==> id in s.pending && id != s.pending[0];
  }

  lemma OneMore(running: map<Id, Phase>, id: Id)
    requires id !in running
    ensures |running[id := Setup]| == |running| + 1
  {
    assert running[id := Setup].Keys == running.Keys + {id};
    assert |running[id := Setup].Keys| == |running.Keys| + 1;
  }

  /** What pumping leaves alone: it only starts queued jobs that are not over. */
  ghost predicate PumpFrame(s: State, r: State)
  {
    && r == s.(pending := r.pending, taken := r.taken, active := r.active, running := r.running, started := r.started)
    && (forall id :: id in s.running ==> id in r.running && r.running[id] == s.running[id])
    && (forall id :: id in r.running && id !in s.running ==> StartedNow(s, r, id))
    && (forall id :: id in r.started && id !in s.started ==> id in s.pending && id in s.jobs && !Terminal(s.jobs[id].state))
  }

  ghost predicate StartedNow(s: State, r: State, id: Id)
  {
    id in s.pending && id in s.jobs && !Terminal(s.jobs[id].state) && id in r.running && r.running[id] == Setup
  }

  lemma FrameSkip(s: State, r: State)
    requires s.pending != [] && PumpFrame(Shifted(s), r)
    ensures PumpFrame(s, r)
  {
    forall id | id in r.running && id !in s.running ensures StartedNow(s, r, id) {
      assert StartedNow(Shifted(s), r, id);
    }
  }

  lemma FrameBegin(s: State, r: State)
    requires s.pending != [] && s.pending[0] in s.jobs && !Terminal(s.jobs[s.pending[0]].state)
    requires s.pending[0] !in s.running && PumpFrame(Begin(Shifted(s), s.pending[0]), r)
    ensures PumpFrame(s, r)
  {
    var s' := Begin(Shifted(s), s.pending[0]);
    forall id | id in r.running && id !in s.running ensures StartedNow(s, r, id) {
      if id != s.pending[0] { assert StartedNow(s', r, id); }
    }
  }

  /** Pumping keeps the invariant and leaves no slot free while a job waits. */
  lemma {:induction false} PumpKeeps(s: State)
    requires Inv(s)
    ensures Inv(Pump(s)) && Busy(Pump(s)) && PumpFrame(s, Pump(s))
    decreases |s.pending|
  {
    if s.active < s.cap && s.pending != [] {
      HeadFresh(s);
      hide PumpFrame, Inv;
      if Terminal(s.jobs[s.pending[0]].state) {
        SkipKeeps(s);
        PumpKeeps(Shifted(s));
        FrameSkip(s, Pump(s));
      } else {
        BeginKeeps(s);
        PumpKeeps(Begin(Shifted(s), s.pending[0]));
        FrameBegin(s, Pump(s));
      }
    } else {
      assert Slots(s.cap, s.active, s.running);
    }
  }

  // -------------------------------------------------------------- the requests

  lemma EnqueueKeeps(s: State, r: Request, b: Binding)
    requires Inv(s) && r.jobId !in s.jobs
    ensures Inv(Enqueued(s, r, b))
  {
    hide Subsequence, Started, Slots;
    var s' := Enqueued(s, r, b);
    AppendAssoc(s.taken, s.pending, [r.jobId]);
    AppendAssoc(s.restored, s.submitted, [r.jobId]);
    assert r.jobId !in s.order;
    assert r.jobId !in s.submitted by {
      assert forall i :: 0 <= i < |s.submitted| ==> s.submitted[i] == s.order[|s.restored| + i];
    }
    DistinctSnoc(s.submitted, r.jobId);
    DistinctSnoc(s.order, r.jobId);
    assert Queued(s'.submitted, s'.taken, s'.pending);
    assert Registered(s'.order, s'.restored, s'.submitted, s'.jobs);
    NewIsNotRunning(s, r.jobId);
    assert StatesFit(s'.jobs, s'.pending, s'.running);
  }

  lemma NewIsNotRunning(s: State, id: Id)
    requires Inv(s) && id !in s.jobs
    ensures id !in s.running
  {
    if id in s.running { RunsAreTaken(s, id); }
  }

  /** A run is of a job that has left the queue. */
  lemma RunsAreTaken(s: State, id: Id)
    requires Inv(s) && id in s.started
    ensures id in s.taken && id in s.jobs && id !in s.pending
  {
    hide StatesFit, Slots;
    SubsequenceIn(s.started, s.taken, id);
    hide Subsequence;
    var i :| 0 <= i < |s.taken| && s.taken[i] == id;
    assert s.submitted[i] == id && s.order[|s.restored| + i] == id;
    assert forall j :: 0 <= j < |s.pending| ==> s.submitted[|s.taken| + j] == s.pending[j];
  }

  /** Runs hold slots. */
  lemma InvHeld(s: State)
    requires Inv(s)
    ensures Held(s)
  {
    forall id | id in s.running ensures id in s.jobs {
      RunsAreTaken(s, id);
    }
    hide Subsequence, Queued, Registered, StatesFit;
    if s.running != map[] {
      assert exists id :: id in s.running;
      var id :| id in s.running;
      assert id in s.running.Keys;
    }
  }

  lemma CancelKeeps(s: State, id: Id, b: Binding)
    requires Inv(s)
    ensures Inv(Cancel(s, id, b).0)
  {
    hide Subsequence, Queued, Started, Slots;
    var s' := Cancel(s, id, b).0;
    assert s'.jobs.Keys == s.jobs.Keys;
    assert Registered(s'.order, s'.restored, s'.submitted, s'.jobs);
    assert StatesFit(s'.jobs, s'.pending, s'.running);
  }

  // ------------------------------------------------------------------ the runs

  /** A run moves on: its job's state and the await it is suspended at fit together. */
  lemma MoveKeeps(s: State, id: Id, job: Job, phase: Phase)
    requires Inv(s) && id in s.running && id in s.jobs && PhaseState(phase, job.state) && phase != Setup
    ensures Inv(Moved(s, id, job, phase))
  {
    RunsAreTaken(s, id);
    hide Subsequence, Queued;
    var s' := Moved(s, id, job, phase);
    assert s'.running.Keys == s.running.Keys && |s'.running| == |s.running.Keys|;
    assert Started(s'.taken, s'.started, s'.executed, s'.running);
    assert Registered(s'.order, s'.restored, s'.submitted, s'.jobs);
    assert StatesFit(s'.jobs, s'.pending, s'.running);
  }

  /** A run enters the executor. */
  lemma ExecuteKeeps(s: State, id: Id, job: Job)
    requires Inv(s) && id in s.running && id in s.jobs && s.running[id] == Setup && job.state == Running
    ensures Inv(Moved(s, id, job, Executing).(executed := s.executed + [id]))
  {
    MoveKeeps(s, id, job, Executing);
    hide Subsequence, Queued, Registered, Slots, StatesFit;
    DistinctSnoc(s.executed, id);
    var s' := Moved(s, id, job, Executing);
    assert Started(s'.taken, s'.started, s.executed + [id], s'.running);
  }

  lemma ReleaseKeeps(s: State, id: Id)
    requires Inv(s) && id in s.running && id in s.jobs && Terminal(s.jobs[id].state)
    ensures s.active > 0 && Inv(Released(s, id))
  {
    RunsAreTaken(s, id);
    hide Subsequence, Queued, Registered;
    assert id in s.running.Keys;
    var s' := Released(s, id);
    assert s'.running.Keys == s.running.Keys - {id} && |s'.running| == |s'.running.Keys|;
    assert |s.running| == |s.running.Keys|;
    assert Started(s'.taken, s'.started, s'.executed, s'.running);
    assert StatesFit(s'.jobs, s'.pending, s'.running);
    assert Slots(s'.cap, s'.active, s'.running);
  }

  /** The process is the same and works as it should. */
  ghost predicate Kept(s: State, r: State)
  {
    Inv(r) && Busy(r) && r.cap == s.cap && r.restored == s.restored
  }

  lemma FinishKeeps(s: State, id: Id)
    requires Inv(s) && id in s.running && id in s.jobs && Terminal(s.jobs[id].state)
    ensures s.active > 0 && Kept(s, Finish(s, id))
  {
    ReleaseKeeps(s, id);
    hide Inv, Pump, Busy;
    PumpKeeps(Released(s, id));
  }

  lemma CaughtKeeps(s: State, id: Id)
    requires Inv(s) && Busy(s) && id in s.running && id in s.jobs && s.active > 0
    ensures Kept(s, Caught(s, id))
  {
    hide Inv, Finish;
    if CancelRequested(s, id) {
      MoveKeeps(s, id, s.jobs[id].(state := Cancelled), Saving);
    } else {
      MoveKeeps(s, id, FailedJob(s.jobs[id]), Saving);
      FinishKeeps(Moved(s, id, FailedJob(s.jobs[id]), Saving), id);
    }
  }

  lemma StateFitsRun(s: State, id: Id)
    requires Inv(s) && id in s.running && id in s.jobs
    ensures PhaseState(s.running[id], s.jobs[id].state)
  {
  }

  lemma SubmitKeeps(s: State, r: Request, b: Binding)
    requires Inv(s) && Busy(s)
    ensures Kept(s, Submit(s, r, b).0)
  {
    if r.jobId !in s.jobs {
      EnqueueKeeps(s, r, b);
      hide Inv, Pump, Busy;
      PumpKeeps(Enqueued(s, r, b));
    }
  }

  lemma ReturnedKeeps(s: State, id: Id, r: ExecutionResult)
    requires Inv(s) && Busy(s) && id in s.running && id in s.jobs
    ensures Kept(s, Returned(s, id, r))
  {
    hide Inv;
    if CancelRequested(s, id) {
      MoveKeeps(s, id, s.jobs[id].(state := Cancelled), Saving);
    } else {
      MoveKeeps(s, id, ResultJob(s.jobs[id], r), if r.hasOutput then WritingOutput else Saving);
    }
  }

  lemma SetupKeeps(s: State, id: Id, ok: bool)
    requires Inv(s) && Busy(s) && id in s.running && id in s.jobs && s.active > 0 && s.running[id] == Setup
    ensures Kept(s, SetupDone(s, id, ok))
  {
    hide Inv, Caught;
    if ok {
      ExecuteKeeps(s, id, s.jobs[id].(state := Running));
    } else {
      CaughtKeeps(s, id);
    }
  }

  lemma OutputKeeps(s: State, id: Id, ok: bool)
    requires Inv(s) && Busy(s) && id in s.running && id in s.jobs && s.active > 0 && s.running[id] == WritingOutput
    ensures Kept(s, OutputDone(s, id, ok))
  {
    hide Inv, Caught, PhaseState;
    if ok {
      StateFitsRun(s, id);
      PhasesOver(s.jobs[id].state);
      MoveKeeps(s, id, s.jobs[id], Saving);
    } else {
      CaughtKeeps(s, id);
    }
  }

  // ---------------------------------------------------------------- every step

  /** One step of the process keeps the invariant, and never leaves a slot free while a job waits. */
  lemma StepStateKeeps(s: State, a: Action)
    requires Inv(s) && Busy(s) && Enabled(s, a) && !a.WriteRegistry? && !a.Crash?
    ensures Held(s) && Kept(s, StepState(s, a))
  {
    InvHeld(s);
    hide Inv, Submit, Cancel, Caught, SetupDone, OutputDone, Returned, Finish, PhaseState;
    match a
    case DoSubmit(r, b) => SubmitKeeps(s, r, b);
    case DoCancel(id, b) =>
      CancelKeeps(s, id, b);
      CancelFrame(s, id, b);
    case SetupEnds(id, ok) => SetupKeeps(s, id, ok);
    case ExecutorReturns(id, r) => ReturnedKeeps(s, id, r);
    case ExecutorThrows(id) => CaughtKeeps(s, id);
    case OutputEnds(id, ok) => OutputKeeps(s, id, ok);
    case SnapshotEnds(id) =>
      StateFitsRun(s, id);
      PhasesOver(s.jobs[id].state);
      FinishKeeps(s, id);
  }

  lemma PhasesOver(state: JobState)
    ensures PhaseState(WritingOutput, state) ==> PhaseState(Saving, state)
    ensures PhaseState(Saving, state) <==> Terminal(state)
  {
  }

  lemma CancelFrame(s: State, id: Id, b: Binding)
    ensures Cancel(s, id, b).0 == s.(jobs := Cancel(s, id, b).0.jobs)
  {
  }
}
