/** The promises of the worker, stated for every run. */
module WorkerGuarantees {
  import opened Common
  import opened WorkerModel
  import opened WorkerSafety

  // --------------------------------------------------------------------- runs

  ghost predicate RegistryOk(r: Registry)
  {
    Distinct(r.order) && forall id :: id in r.jobs <==> id in r.order
  }

  ghost predicate WorldInv(w: World)
  {
    Inv(w.now) && Busy(w.now) && w.now.cap > 0 && (w.disk.Some? ==> RegistryOk(w.disk.value))
  }

  lemma NewestDistinct(order: seq<Id>)
    requires Distinct(order)
    ensures Distinct(Newest(order))
  {
  }

  lemma SnapshotOk(s: State)
    requires Inv(s)
    ensures RegistryOk(Snapshot(s))
  {
    NewestDistinct(s.order);
    var r := Snapshot(s);
    forall id ensures id in r.jobs <==> id in r.order {
      if id in r.order { assert id in s.order; }
    }
  }

  lemma RestartKeeps(cap: nat, file: Option<Registry>)
    requires cap > 0 && (file.Some? ==> RegistryOk(file.value))
    ensures Inv(Restart(cap, file)) && Busy(Restart(cap, file)) && Restart(cap, file).cap == cap
  {
    var s := Restart(cap, file);
    assert s.restored + s.submitted == s.order;
    assert s.taken + s.pending == [];
  }

  lemma StepKeeps(w: World, a: Action)
    requires WorldInv(w) && Enabled(w.now, a)
    ensures Held(w.now) && WorldInv(Step(w, a))
  {
    InvHeld(w.now);
    hide Inv, Busy, StepState, Restart, Snapshot, RegistryOk, Enabled, Held;
    match a
    case WriteRegistry => SnapshotOk(w.now);
    case Crash(readable) => RestartKeeps(w.now.cap, if readable then w.disk else None);
    case _ => StepStateKeeps(w.now, a);
  }

  ghost predicate Possible(w: World, actions: seq<Action>)
    decreases |actions|
  {
    actions == [] || (Held(w.now) && Enabled(w.now, actions[0]) && Possible(Step(w, actions[0]), actions[1..]))
  }

  ghost function Run(w: World, actions: seq<Action>): World
    requires Possible(w, actions)
    decreases |actions|
  {
    if actions == [] then w else Run(Step(w, actions[0]), actions[1..])
  }

  lemma {:induction false} RunKeeps(w: World, actions: seq<Action>)
    requires WorldInv(w) && Possible(w, actions)
    ensures WorldInv(Run(w, actions))
    decreases |actions|
  {
    hide WorldInv, Step, Enabled;
    if actions != [] {
      StepKeeps(w, actions[0]);
      RunKeeps(Step(w, actions[0]), actions[1..]);
    }
  }

  lemma IdleInv(cap: nat)
    requires cap > 0
    ensures WorldInv(World(Idle(cap), None))
  {
  }

  /**
   * In every interleaving: the slots in use are the runs in progress and never
   * more than the cap, no slot is free while a job waits, jobs start in
   * submission order, and no id is queued, started or executed twice.
   */
  lemma QueueSafety(cap: nat, actions: seq<Action>)
    requires cap > 0 && Possible(World(Idle(cap), None), actions)
    ensures
      var s := Run(World(Idle(cap), None), actions).now;
      && s.active == |s.running| <= s.cap
      && (s.active == s.cap || s.pending == [])
      && s.taken + s.pending == s.submitted && Subsequence(s.started, s.taken)
      && Distinct(s.submitted) && Distinct(s.started) && Distinct(s.executed)
      && (forall id :: id in s.executed ==> id in s.started)
      && (forall id :: id in s.running ==> id in s.started)
      && (forall id :: id in s.jobs && id !in s.pending && id !in s.running ==> Terminal(s.jobs[id].state))
  {
    IdleInv(cap);
    RunKeeps(World(Idle(cap), None), actions);
    var s := Run(World(Idle(cap), None), actions).now;
    hide Possible, Run, Subsequence;
    assert forall i :: 0 <= i < |s.taken| ==> s.submitted[i] == s.taken[i];
    SubsequenceDistinct(s.started, s.taken);
  }

  // ------------------------------------------------------------ what is over

  /** The state of this job can no longer change. */
  ghost predicate Final(s: State, id: Id)
  {
    && id in s.jobs && Terminal(s.jobs[id].state)
    && (id in s.running ==>
          s.running[id] == Saving || (s.running[id] == WritingOutput && s.jobs[id].state == Failed))
  }

  /** Nothing more happens to this job: no run, and no change. */
  ghost predicate Over(s: State, id: Id)
  {
    id in s.jobs && Terminal(s.jobs[id].state) && id !in s.running
  }

  /** What a step may do to a job it is not about. */
  ghost predicate Elsewhere(s: State, r: State, id: Id)
  {
    && (id in s.jobs ==> id in r.jobs && r.jobs[id] == s.jobs[id])
    && (id in s.running ==> id in r.running && r.running[id] == s.running[id])
    && (id in s.jobs && Terminal(s.jobs[id].state) && id !in s.running ==> id !in r.running)
    && (id in r.started && id !in s.started ==> id in s.pending && id in s.jobs && !Terminal(s.jobs[id].state))
    && (id in r.executed ==> id in s.executed)
  }

  lemma PumpElsewhere(s: State, id: Id)
    requires Inv(s)
    ensures Elsewhere(s, Pump(s), id)
  {
    hide Inv;
    PumpKeeps(s);
    assert id in Pump(s).running && id !in s.running ==> StartedNow(s, Pump(s), id);
  }

  /** Releasing one run and pumping does not touch another job. */
  lemma FinishElsewhere(s: State, done: Id, id: Id)
    requires Inv(s) && done in s.running && done in s.jobs && Terminal(s.jobs[done].state)
    ensures s.active > 0
    ensures done != id ==> Elsewhere(s, Finish(s, done), id)
    ensures done == id ==>
      var r := Finish(s, done);
      && id in r.jobs && r.jobs[id] == s.jobs[id] && id !in r.running
      && (id in r.started ==> id in s.started) && (id in r.executed ==> id in s.executed)
  {
    ReleaseKeeps(s, done);
    PumpElsewhere(Released(s, done), id);
  }

  lemma CaughtElsewhere(s: State, other: Id, id: Id)
    requires Inv(s) && other in s.running && other in s.jobs && s.active > 0 && other != id
    ensures Elsewhere(s, Caught(s, other), id)
  {
    hide Inv, Finish;
    if !CancelRequested(s, other) {
      MoveKeeps(s, other, FailedJob(s.jobs[other]), Saving);
      FinishElsewhere(Moved(s, other, FailedJob(s.jobs[other]), Saving), other, id);
    }
  }

  predicate About(a: Action, id: Id)
  {
    match a
    case DoSubmit(_, _) => false
    case DoCancel(j, _) => j == id
    case SetupEnds(j, _) => j == id
    case ExecutorReturns(j, _) => j == id
    case ExecutorThrows(j) => j == id
    case OutputEnds(j, _) => j == id
    case SnapshotEnds(j) => j == id
    case WriteRegistry => false
    case Crash(_) => true
  }

  lemma MovedElsewhere(s: State, j: Id, job: Job, phase: Phase, id: Id)
    requires j != id
    ensures Elsewhere(s, Moved(s, j, job, phase), id)
    ensures Elsewhere(s, Moved(s, j, job, phase).(executed := s.executed + [j]), id)
  {
  }

  lemma SubmitElsewhere(s: State, r: Request, b: Binding, id: Id)
    requires Inv(s) && id in s.jobs
    ensures Elsewhere(s, Submit(s, r, b).0, id)
  {
    if r.jobId !in s.jobs {
      EnqueueKeeps(s, r, b);
      hide Inv, Pump;
      PumpElsewhere(Enqueued(s, r, b), id);
    }
  }

  lemma CancelElsewhere(s: State, j: Id, b: Binding, id: Id)
    requires j != id
    ensures Elsewhere(s, Cancel(s, j, b).0, id)
  {
  }

  lemma ReturnElsewhere(s: State, j: Id, r: ExecutionResult, id: Id)
    requires j in s.jobs && j != id
    ensures Elsewhere(s, Returned(s, j, r), id)
  {
    hide Moved, Elsewhere, CancelRequested, ResultJob;
    MovedElsewhere(s, j, s.jobs[j].(state := Cancelled), Saving, id);
    MovedElsewhere(s, j, ResultJob(s.jobs[j], r), if r.hasOutput then WritingOutput else Saving, id);
  }

  lemma SetupElsewhere(s: State, j: Id, ok: bool, id: Id)
    requires Inv(s) && j in s.running && j in s.jobs && s.active > 0 && j != id
    ensures Elsewhere(s, SetupDone(s, j, ok), id)
  {
    hide Inv, Caught, Moved, Elsewhere;
    if ok {
      MovedElsewhere(s, j, s.jobs[j].(state := Running), Executing, id);
    } else {
      CaughtElsewhere(s, j, id);
    }
  }

  lemma OutputElsewhere(s: State, j: Id, ok: bool, id: Id)
    requires Inv(s) && j in s.running && j in s.jobs && s.active > 0 && j != id
    ensures Elsewhere(s, OutputDone(s, j, ok), id)
  {
    hide Inv, Caught, Moved, Elsewhere;
    if ok {
      MovedElsewhere(s, j, s.jobs[j], Saving, id);
    } else {
      CaughtElsewhere(s, j, id);
    }
  }

  /** A step about other jobs leaves this one alone. */
  lemma StepElsewhere(s: State, a: Action, id: Id)
    requires Inv(s) && Enabled(s, a) && Held(s) && !a.WriteRegistry? && !a.Crash? && !About(a, id)
    requires id in s.jobs
    ensures Elsewhere(s, StepState(s, a), id)
  {
    hide Inv, Elsewhere, Submit, Cancel, SetupDone, Returned, Caught, OutputDone, Finish;
    match a
    case DoSubmit(r, b) => SubmitElsewhere(s, r, b, id);
    case DoCancel(j, b) => CancelElsewhere(s, j, b, id);
    case SetupEnds(j, ok) => SetupElsewhere(s, j, ok, id);
    case ExecutorReturns(j, r) => ReturnElsewhere(s, j, r, id);
    case ExecutorThrows(j) => CaughtElsewhere(s, j, id);
    case OutputEnds(j, ok) => OutputElsewhere(s, j, ok, id);
    case SnapshotEnds(j) =>
      StateFitsRun(s, j);
      FinishElsewhere(s, j, id);
  }

  /** A run that fails is over at once. */
  lemma FailsItself(s: State, id: Id)
    requires Inv(s) && id in s.running && id in s.jobs && s.active > 0 && !CancelRequested(s, id)
    ensures
      var r := Caught(s, id);
      && id in r.jobs && r.jobs[id] == FailedJob(s.jobs[id]) && id !in r.running
      && (id in r.started ==> id in s.started) && (id in r.executed ==> id in s.executed)
  {
    hide Inv, Finish;
    MoveKeeps(s, id, FailedJob(s.jobs[id]), Saving);
    FinishElsewhere(Moved(s, id, FailedJob(s.jobs[id]), Saving), id, id);
  }

  /** A job whose state is final keeps it, and one that is over is never run again. */
  lemma FinalStays(s: State, a: Action, id: Id)
    requires Inv(s) && Enabled(s, a) && Held(s) && !a.WriteRegistry? && !a.Crash? && Final(s, id)
    ensures
      var r := StepState(s, a);
      && Final(r, id) && r.jobs[id].state == s.jobs[id].state
      && (id !in s.running ==> id !in r.running && r.jobs[id] == s.jobs[id])
      && (id in r.started ==> id in s.started) && (id in r.executed ==> id in s.executed)
  {
    hide Inv, Caught, Finish, Submit, SetupDone, Returned;
    if !About(a, id) {
      hide StepState, Enabled, About;
      StepElsewhere(s, a, id);
    } else {
      match a {
        case OutputEnds(_, ok) =>
          if !ok { FailsItself(s, id); }
        case SnapshotEnds(_) =>
          FinishElsewhere(s, id, id);
        case _ =>
      }
    }
  }

  ghost predicate Calm(actions: seq<Action>)
  {
    forall i :: 0 <= i < |actions| ==> !actions[i].Crash?
  }

  lemma StepNow(w: World, a: Action)
    requires Held(w.now) && Enabled(w.now, a) && !a.Crash?
    ensures Step(w, a).now == if a.WriteRegistry? then w.now else StepState(w.now, a)
  {
  }

  /** As long as the process lives, a final state stays, and a job that is over is never run. */
  lemma {:induction false} FinalRun(w: World, actions: seq<Action>, id: Id)
    requires WorldInv(w) && Possible(w, actions) && Calm(actions) && Final(w.now, id)
    ensures
      var s, r := w.now, Run(w, actions).now;
      && Final(r, id) && r.jobs[id].state == s.jobs[id].state
      && (id !in s.running ==> id !in r.running && r.jobs[id] == s.jobs[id])
      && (id in r.started ==> id in s.started) && (id in r.executed ==> id in s.executed)
    decreases |actions|
  {
    if actions != [] {
      var w1 := Step(w, actions[0]);
      StepKeeps(w, actions[0]);
      StepNow(w, actions[0]);
      hide Step, Enabled, Held, Inv, StepState, Final;
      if !actions[0].WriteRegistry? { FinalStays(w.now, actions[0], id); }
      assert Calm(actions[1..]);
      FinalRun(w1, actions[1..], id);
    }
  }

  /** A job that is cancelled while it waits in the queue is never started and never executed. */
  lemma CancelledInQueue(w: World, id: Id, b: Binding, actions: seq<Action>)
    requires WorldInv(w) && id in w.now.pending && Bound(w.now, id, b)
    requires Possible(w.(now := Cancel(w.now, id, b).0), actions) && Calm(actions)
    ensures
      var r := Run(w.(now := Cancel(w.now, id, b).0), actions).now;
      && id in r.jobs && r.jobs[id].state == Cancelled
      && id !in r.running && id !in r.started && id !in r.executed
  {
    var s := w.now;
    if id in s.started { RunsAreTaken(s, id); }
    if id in s.running { RunsAreTaken(s, id); }
    CancelKeeps(s, id, b);
    var w' := w.(now := Cancel(s, id, b).0);
    assert Final(w'.now, id) && WorldInv(w');
    hide Possible, Run, Inv;
    FinalRun(w', actions, id);
  }

  // ------------------------------------------------------------ cancellation

  /** The cancellation of this job can no longer be lost. */
  ghost predicate Sticky(s: State, id: Id)
  {
    && id in s.jobs
    && if id in s.running && s.running[id] == Executing then s.jobs[id].state == Cancelling
       else s.jobs[id].state == Cancelled && (id in s.running ==> s.running[id] == Saving)
  }

  lemma StickyItself(s: State, a: Action, id: Id)
    requires Held(s) && Enabled(s, a) && About(a, id) && !a.Crash? && id in s.jobs && id in s.running
    requires s.running[id] == Executing && s.jobs[id].state == Cancelling
    ensures Sticky(StepState(s, a), id)
  {
    hide Finish, Submit, OutputDone, SetupDone;
  }

  lemma StickyStays(s: State, a: Action, id: Id)
    requires Inv(s) && Enabled(s, a) && Held(s) && !a.WriteRegistry? && !a.Crash? && Sticky(s, id)
    ensures Sticky(StepState(s, a), id)
  {
    if !About(a, id) {
      hide Inv, StepState, Enabled, About;
      StepElsewhere(s, a, id);
    } else if s.jobs[id].state == Cancelled {
      hide Inv, StepState, Enabled, About;
      FinalStays(s, a, id);
    } else {
      hide Inv, Finish, Caught, Submit, OutputDone;
      StickyItself(s, a, id);
    }
  }

  lemma {:induction false} StickyRun(w: World, actions: seq<Action>, id: Id)
    requires WorldInv(w) && Possible(w, actions) && Calm(actions) && Sticky(w.now, id)
    ensures Sticky(Run(w, actions).now, id)
    decreases |actions|
  {
    if actions != [] {
      var w1 := Step(w, actions[0]);
      StepKeeps(w, actions[0]);
      StepNow(w, actions[0]);
      hide Step, Enabled, Held, Inv, StepState, Sticky;
      if !actions[0].WriteRegistry? { StickyStays(w.now, actions[0], id); }
      assert Calm(actions[1..]);
      StickyRun(w1, actions[1..], id);
    }
  }

  /** Whatever happens next, once this job has no run and is not waiting, it is cancelled. */
  ghost predicate EndsCancelled(w: World, id: Id)
  {
    forall actions :: Possible(w, actions) && Calm(actions) ==>
      var r := Run(w, actions).now;
      id in r.jobs && (id !in r.running ==> r.jobs[id].state == Cancelled)
  }

  /** A cancellation that arrives while the workspace is being made is forgotten when it has been. */
  lemma CancelDuringSetupForgotten(s: State, id: Id, b: Binding)
    requires Held(s) && Bound(s, id, b) && id in s.running && s.running[id] == Setup && s.jobs[id].state == Submitted
    ensures SetupDone(Cancel(s, id, b).0, id, true) == SetupDone(s, id, true)
  {
    var s1 := Cancel(s, id, b).0;
    assert s1.jobs[id := s1.jobs[id].(state := Running)] == s.jobs[id := s.jobs[id].(state := Running)];
  }

  lemma SetupSucceeds(w: World, id: Id)
    requires WorldInv(w) && id in w.now.running && w.now.running[id] == Setup
    ensures Held(w.now)
    ensures
      var w1 := Step(w, SetupEnds(id, true));
      && WorldInv(w1) && id in w1.now.running && w1.now.running[id] == Executing
      && id in w1.now.jobs && w1.now.jobs[id].state == Running
  {
    hide Inv, Pump;
    StepKeeps(w, SetupEnds(id, true));
  }

  lemma ExecutionSucceeds(w: World, id: Id, r: ExecutionResult)
    requires WorldInv(w) && id in w.now.running && w.now.running[id] == Executing
    requires id in w.now.jobs && w.now.jobs[id].state == Running && r.outcome == Success && !r.hasOutput
    ensures Held(w.now)
    ensures
      var w1 := Step(w, ExecutorReturns(id, r));
      && WorldInv(w1) && id in w1.now.running && w1.now.running[id] == Saving
      && id in w1.now.jobs && w1.now.jobs[id].state == Succeeded
  {
    hide Inv, Pump;
    StepKeeps(w, ExecutorReturns(id, r));
  }

  /** A run of a job cancelled during set-up that ends in success. */
  lemma CancelLost(w: World, id: Id) returns (actions: seq<Action>)
    requires WorldInv(w) && id in w.now.running && w.now.running[id] == Setup
    ensures Possible(w, actions) && Calm(actions)
    ensures
      var r := Run(w, actions).now;
      id in r.jobs && id !in r.running && r.jobs[id].state == Succeeded
  {
    hide Inv, Finish, StepState;
    var result := ExecutionResult(Success, None, false);
    var a1, a2, a3 := SetupEnds(id, true), ExecutorReturns(id, result), SnapshotEnds(id);
    actions := [a1] + ([a2] + [a3]);
    SetupSucceeds(w, id);
    var w1 := Step(w, a1);
    ExecutionSucceeds(w1, id, result);
    var w2 := Step(w1, a2);
    hide Step, WorldInv;
    SavingEnds(w2, id);
    RunOne(w2, a3);
    RunCons(w1, a2, [a3]);
    RunCons(w, a1, [a2] + [a3]);
  }

  lemma SavingEnds(w: World, id: Id)
    requires WorldInv(w) && id in w.now.running && w.now.running[id] == Saving && id in w.now.jobs
    ensures Held(w.now)
    ensures
      var r := Step(w, SnapshotEnds(id)).now;
      id in r.jobs && id !in r.running && r.jobs[id].state == w.now.jobs[id].state
  {
    StepKeeps(w, SnapshotEnds(id));
    StateFitsRun(w.now, id);
    hide Inv, Finish;
    FinishElsewhere(w.now, id, id);
  }

  lemma RunOne(w: World, a: Action)
    requires Held(w.now) && Enabled(w.now, a)
    ensures Possible(w, [a]) && Run(w, [a]) == Step(w, a)
  {
    assert [a][1..] == [];
  }

  lemma RunCons(w: World, a: Action, actions: seq<Action>)
    requires Held(w.now) && Enabled(w.now, a) && Possible(Step(w, a), actions)
    ensures Possible(w, [a] + actions) && Run(w, [a] + actions) == Run(Step(w, a), actions)
  {
    assert ([a] + actions)[1..] == actions;
  }

  /**
   * A cancellation is certain to be honoured exactly when it does not arrive
   * while the workspace is still being made.
   */
  lemma CancelHonoured(w: World, id: Id, b: Binding)
    requires WorldInv(w) && Bound(w.now, id, b) && !Terminal(w.now.jobs[id].state)
    ensures EndsCancelled(w.(now := Cancel(w.now, id, b).0), id)
      <==> !(id in w.now.running && w.now.running[id] == Setup)
  {
    var s := w.now;
    var w' := w.(now := Cancel(s, id, b).0);
    CancelKeeps(s, id, b);
    if id in s.running && s.running[id] == Setup {
      hide Inv;
      var actions := CancelLost(w', id);
      assert !EndsCancelled(w', id);
    } else {
      assert Sticky(w'.now, id);
      hide Inv, Possible, Run, Cancel;
      forall actions | Possible(w', actions) && Calm(actions) ensures Sticky(Run(w', actions).now, id) {
        StickyRun(w', actions, id);
      }
    }
  }

  // ---------------------------------------------------------- terminal states

  /** Whatever happens next in this process, the state of the job stays as it is. */
  ghost predicate StateStays(w: World, id: Id)
    requires id in w.now.jobs
  {
    forall actions :: Possible(w, actions) && Calm(actions) ==>
      var r := Run(w, actions).now;
      id in r.jobs && r.jobs[id].state == w.now.jobs[id].state
  }

  /** A failing write of the output turns any other terminal state into failed. */
  lemma LateWriteFails(w: World, id: Id)
    requires WorldInv(w) && id in w.now.running && w.now.running[id] == WritingOutput
    requires id in w.now.jobs && w.now.jobs[id].state != Failed
    ensures Held(w.now)
    ensures
      var r := Step(w, OutputEnds(id, false)).now;
      id in r.jobs && r.jobs[id].state == Failed && id !in r.running
  {
    var s := w.now;
    InvHeld(s);
    StateFitsRun(s, id);
    StepNow(w, OutputEnds(id, false));
    hide Inv, Caught, Busy, Step, Held;
    FailsItself(s, id);
  }

  /** A terminal state is final exactly when the output of the job is not still being written. */
  lemma TerminalIsFinal(w: World, id: Id)
    requires WorldInv(w) && id in w.now.jobs && Terminal(w.now.jobs[id].state)
    ensures StateStays(w, id)
      <==> !(id in w.now.running && w.now.running[id] == WritingOutput && w.now.jobs[id].state != Failed)
  {
    var s := w.now;
    if id in s.running && s.running[id] == WritingOutput && s.jobs[id].state != Failed {
      var a := OutputEnds(id, false);
      LateWriteFails(w, id);
      assert Enabled(s, a);
      hide Inv, Step, Enabled, Held;
      RunOne(w, a);
      assert Calm([a]);
      assert !StateStays(w, id);
    } else {
      assert Final(s, id) by {
        if id in s.running { StateFitsRun(s, id); }
      }
      hide Inv, Possible, Run;
      forall actions | Possible(w, actions) && Calm(actions)
        ensures id in Run(w, actions).now.jobs && Run(w, actions).now.jobs[id].state == s.jobs[id].state
      {
        FinalRun(w, actions, id);
      }
    }
  }

  // ------------------------------------------------------------------ restart

  /**
   * After a restart from the registry written in state `s`: the newest jobs are
   * back and no others, terminal ones unchanged and the rest lost, nothing is
   * queued or running, and none of them is ever executed again.
   */
  lemma RestartIsSafe(s: State, cap: nat, id: Id, actions: seq<Action>)
    requires Inv(s) && cap > 0
    requires Possible(World(Restart(cap, Some(Snapshot(s))), Some(Snapshot(s))), actions) && Calm(actions)
    ensures
      var now := Restart(cap, Some(Snapshot(s)));
      && now.pending == [] && now.running == map[] && now.active == 0
      && (id in now.jobs <==> exists i :: 0 <= i < |s.order| && |s.order| - KEPT <= i && s.order[i] == id)
      && (id in now.jobs ==>
            && id in s.jobs
            && now.jobs[id] == (if Terminal(s.jobs[id].state) then s.jobs[id] else s.jobs[id].(state := Lost)))
      && (id in now.jobs && id in s.bindings ==> id in now.bindings && now.bindings[id] == s.bindings[id])
    ensures
      var now := Restart(cap, Some(Snapshot(s)));
      var r := Run(World(now, Some(Snapshot(s))), actions).now;
      id in now.jobs ==> id in r.jobs && r.jobs[id] == now.jobs[id] && id !in r.started && id !in r.executed
  {
    var file := Snapshot(s);
    var now := Restart(cap, Some(file));
    SnapshotOk(s);
    RestartKeeps(cap, Some(file));
    NewestIndex(s.order, id);
    hide Inv, Possible, Run;
    if id in now.jobs {
      assert Final(now, id);
      FinalRun(World(now, Some(file)), actions, id);
    }
  }

  lemma NewestIndex(order: seq<Id>, id: Id)
    ensures id in Newest(order) <==> exists i :: 0 <= i < |order| && |order| - KEPT <= i && order[i] == id
  {
    var newest := Newest(order);
    var d := |order| - |newest|;
    assert forall j :: 0 <= j < |newest| ==> newest[j] == order[d + j];
    if i :| 0 <= i < |order| && |order| - KEPT <= i && order[i] == id {
      assert newest[i - d] == id;
    }
  }
}
