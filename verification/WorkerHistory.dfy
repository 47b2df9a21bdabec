/** What every job is, read off the requests and answers of the process alone. */
module WorkerHistory {
  import opened Common
  import opened WorkerModel
  import opened WorkerSafety
  import opened WorkerGuarantees

  // ------------------------------------------------------------ what happened

  predicate Submits(a: Action, id: Id)
  {
    a.DoSubmit? && a.request.jobId == id
  }

  predicate SetsUp(a: Action, id: Id)
  {
    a.SetupEnds? && a.jobId == id
  }

  predicate Answers(a: Action, id: Id)
  {
    (a.ExecutorReturns? || a.ExecutorThrows?) && a.jobId == id
  }

  /** The first submission of the job. */
  predicate SubmittedAt(actions: seq<Action>, id: Id, i: nat)
  {
    i < |actions| && Submits(actions[i], id) && forall n :: 0 <= n < i ==> !Submits(actions[n], id)
  }

  predicate NeverSetUp(actions: seq<Action>, id: Id)
  {
    forall n :: 0 <= n < |actions| ==> !SetsUp(actions[n], id)
  }

  /** The one attempt to make the workspace of the job, and how it went. */
  predicate SetUpAt(actions: seq<Action>, id: Id, j: nat, ok: bool)
  {
    && j < |actions| && actions[j] == SetupEnds(id, ok)
    && forall n :: 0 <= n < |actions| && n != j ==> !SetsUp(actions[n], id)
  }

  predicate NeverAnswered(actions: seq<Action>, id: Id)
  {
    forall n :: 0 <= n < |actions| ==> !Answers(actions[n], id)
  }

  /** The one answer of the executor about the job. */
  predicate AnsweredAt(actions: seq<Action>, id: Id, k: nat)
  {
    k < |actions| && Answers(actions[k], id) && forall n :: 0 <= n < |actions| && n != k ==> !Answers(actions[n], id)
  }

  /** The job was cancelled by its owner after action `i` and before action `n`. */
  predicate CancelBetween(actions: seq<Action>, id: Id, b: Binding, i: nat, n: nat)
    requires n <= |actions|
  {
    exists m :: i < m < n && actions[m] == DoCancel(id, b)
  }

  predicate WriteFails(actions: seq<Action>, id: Id, k: nat)
  {
    exists m :: k < m < |actions| && actions[m] == OutputEnds(id, false)
  }

  // -------------------------------------------------------- what the job is then

  /** How far a job has come, by the actions that brought it there. */
  datatype Tale =
    | Waiting(submitted: nat)                             // its workspace is not made yet
    | NotSetUp(submitted: nat, setUp: nat)
    | Underway(submitted: nat, setUp: nat)                // in the executor
    | Ended(submitted: nat, setUp: nat, answered: nat)

  const NO_CODE := "WORKER_EXECUTION_ERROR"

  /** What the answer of the executor makes of the job. */
  ghost predicate EndedAs(actions: seq<Action>, id: Id, b: Binding, j: nat, k: nat, job: Job)
    requires j < k < |actions| && Answers(actions[k], id)
  {
    if CancelBetween(actions, id, b, j, k) then job.state == Cancelled && job.errorCode == None
    else if actions[k].ExecutorThrows? then job.state == Failed && job.errorCode == Some(NO_CODE)
    else
      var r := actions[k].result;
      if WriteFails(actions, id, k) then
        job.state == Failed && job.errorCode == if r.errorCode.Some? then r.errorCode else Some(NO_CODE)
      else
        && job.errorCode == r.errorCode
        && (job.state == Succeeded <==> r.outcome == Success)
        && (job.state == Failed <==> r.outcome == Failure)
        && (job.state == Timeout <==> r.outcome == TimedOut)
        && (job.state == Lost <==> r.outcome == WasLost)
        && (job.state == UnknownEffect <==> r.outcome == Unknown)
  }

  /** The job is what the actions tell of it; `run` is the await its run is suspended at. */
  ghost predicate Tells(actions: seq<Action>, id: Id, b: Binding, t: Tale, job: Job, run: Option<Phase>)
  {
    match t
    case Waiting(i) =>
      && i < |actions| && NeverSetUp(actions, id) && NeverAnswered(actions, id) && job.errorCode == None
      && run in {None, Some(Setup)}
      && job.state == (if !CancelBetween(actions, id, b, i, |actions|) then Submitted
                       else if run.Some? then Cancelling else Cancelled)
    case NotSetUp(i, j) =>
      && i < j && SetUpAt(actions, id, j, false) && NeverAnswered(actions, id) && run in {None, Some(Saving)}
      && (if CancelBetween(actions, id, b, i, j) then job.state == Cancelled && job.errorCode == None
          else job.state == Failed && job.errorCode == Some(NO_CODE))
    case Underway(i, j) =>
      && i < j && SetUpAt(actions, id, j, true) && NeverAnswered(actions, id) && run == Some(Executing) && job.errorCode == None
      && job.state == (if CancelBetween(actions, id, b, j, |actions|) then Cancelling else Running)
    case Ended(i, j, k) =>
      && i < j < k && SetUpAt(actions, id, j, true) && AnsweredAt(actions, id, k) && run in {None, Some(Saving), Some(WritingOutput)}
      && EndedAs(actions, id, b, j, k, job)
      && (run == Some(WritingOutput) ==>
            !CancelBetween(actions, id, b, j, k) && actions[k].ExecutorReturns? && !WriteFails(actions, id, k))
  }

  function RunOf(s: State, id: Id): Option<Phase>
  {
    if id in s.running then Some(s.running[id]) else None
  }

  ghost predicate Told(actions: seq<Action>, id: Id, t: Tale, s: State)
  {
    && id in s.jobs && id in s.bindings && SubmittedAt(actions, id, t.submitted)
    && s.jobs[id].request == actions[t.submitted].request && s.bindings[id] == actions[t.submitted].binding
    && Tells(actions, id, s.bindings[id], t, s.jobs[id], RunOf(s, id))
  }

  /** The process does not know the job. */
  ghost predicate Unheard(actions: seq<Action>, id: Id, s: State)
  {
    && id !in s.jobs && NeverSetUp(actions, id) && NeverAnswered(actions, id)
    && forall n :: 0 <= n < |actions| ==> !Submits(actions[n], id)
  }

  // ---------------------------------------------------------------- one step more

  lemma OneMore(past: seq<Action>, a: Action, id: Id, b: Binding)
    ensures NeverSetUp(past, id) && !SetsUp(a, id) ==> NeverSetUp(past + [a], id)
    ensures NeverAnswered(past, id) && !Answers(a, id) ==> NeverAnswered(past + [a], id)
    ensures forall j: nat, ok :: SetUpAt(past, id, j, ok) && !SetsUp(a, id) ==> SetUpAt(past + [a], id, j, ok)
    ensures forall k: nat :: AnsweredAt(past, id, k) && !Answers(a, id) ==> AnsweredAt(past + [a], id, k)
    ensures forall i: nat :: SubmittedAt(past, id, i) ==> SubmittedAt(past + [a], id, i)
  {
    var more := past + [a];
    assert forall n :: 0 <= n < |past| ==> more[n] == past[n];
  }

  lemma CancelMore(past: seq<Action>, a: Action, id: Id, b: Binding, i: nat, n: nat)
    requires n <= |past|
    ensures CancelBetween(past + [a], id, b, i, n) <==> CancelBetween(past, id, b, i, n)
    ensures CancelBetween(past + [a], id, b, i, |past| + 1)
      <==> CancelBetween(past, id, b, i, |past|) || (i < |past| && a == DoCancel(id, b))
  {
    var more := past + [a];
    assert forall m :: 0 <= m < |past| ==> more[m] == past[m];
    assert more[|past|] == a;
  }

  lemma WriteMore(past: seq<Action>, a: Action, id: Id, k: nat)
    ensures WriteFails(past + [a], id, k) <==> WriteFails(past, id, k) || (k < |past| && a == OutputEnds(id, false))
  {
    var more := past + [a];
    assert forall m :: 0 <= m < |past| ==> more[m] == past[m];
    assert more[|past|] == a;
  }

  /** An action that does not concern the job leaves its tale as it is. */
  lemma TaleStays(past: seq<Action>, a: Action, id: Id, b: Binding, t: Tale, job: Job, run: Option<Phase>)
    requires Tells(past, id, b, t, job, run) && t.submitted < |past|
    requires !SetsUp(a, id) && !Answers(a, id) && a != DoCancel(id, b) && a != OutputEnds(id, false)
    ensures Tells(past + [a], id, b, t, job, run)
  {
    OneMore(past, a, id, b);
    CancelMore(past, a, id, b, t.submitted, |past|);
    hide CancelBetween, WriteFails, SetUpAt, AnsweredAt, NeverSetUp, NeverAnswered;
    match t {
      case Waiting(i) =>
      case NotSetUp(i, j) =>
        SetUpBefore(past, id, j, false);
        CancelMore(past, a, id, b, i, j);
      case Underway(i, j) =>
        CancelMore(past, a, id, b, j, |past|);
      case Ended(i, j, k) =>
        EndedStays(past, a, id, b, i, j, k, job);
    }
  }

  lemma SetUpBefore(actions: seq<Action>, id: Id, j: nat, ok: bool)
    requires SetUpAt(actions, id, j, ok)
    ensures j < |actions|
  {
  }

  lemma EndedStays(past: seq<Action>, a: Action, id: Id, b: Binding, i: nat, j: nat, k: nat, job: Job)
    requires AnsweredAt(past, id, k) && j < k && EndedAs(past, id, b, j, k, job)
    requires a != OutputEnds(id, false)
    ensures (past + [a])[k] == past[k] && EndedAs(past + [a], id, b, j, k, job)
    ensures CancelBetween(past + [a], id, b, j, k) <==> CancelBetween(past, id, b, j, k)
    ensures WriteFails(past + [a], id, k) <==> WriteFails(past, id, k)
  {
    CancelMore(past, a, id, b, j, k);
    WriteMore(past, a, id, k);
    hide CancelBetween, WriteFails;
  }

  // ------------------------------------------------------------- bindings stay

  lemma {:induction false} PumpBindings(s: State)
    ensures Pump(s).bindings == s.bindings
    decreases |s.pending|
  {
    if s.active < s.cap && s.pending != [] {
      PumpBindings(Next(s));
    }
  }

  lemma FinishBindings(s: State, id: Id)
    requires s.active > 0
    ensures Finish(s, id).bindings == s.bindings
  {
    PumpBindings(Released(s, id));
  }

  lemma CaughtBindings(s: State, id: Id)
    requires id in s.jobs && s.active > 0
    ensures Caught(s, id).bindings == s.bindings
  {
    hide Finish;
    FinishBindings(Moved(s, id, FailedJob(s.jobs[id]), Saving), id);
  }

  lemma StepBindings(s: State, a: Action, id: Id)
    requires Held(s) && Enabled(s, a) && !a.WriteRegistry? && !a.Crash? && id in s.jobs && id in s.bindings
    ensures id in StepState(s, a).bindings && StepState(s, a).bindings[id] == s.bindings[id]
  {
    hide Pump, Finish, Caught;
    match a
    case DoSubmit(r, b) => PumpBindings(Enqueued(s, r, b));
    case DoCancel(j, b) =>
    case SetupEnds(j, ok) => CaughtBindings(s, j);
    case ExecutorReturns(j, r) =>
    case ExecutorThrows(j) => CaughtBindings(s, j);
    case OutputEnds(j, ok) => CaughtBindings(s, j);
    case SnapshotEnds(j) => FinishBindings(s, j);
  }

  // ----------------------------------------------------- the steps about the job

  /** A job that is left alone keeps its run, or is started. */
  lemma LeftAlone(s: State, r: State, id: Id)
    requires Inv(s) && Inv(r) && id in s.jobs && Elsewhere(s, r, id)
    ensures r.jobs[id] == s.jobs[id]
    ensures RunOf(r, id) == RunOf(s, id) || (RunOf(s, id) == None && RunOf(r, id) == Some(Setup) && !Terminal(s.jobs[id].state))
  {
    if id in r.running && id !in s.running {
      StateFitsRun(r, id);
      WaitingIs(s, id);
      hide Inv, Elsewhere;
    }
  }

  lemma WaitingIs(s: State, id: Id)
    requires Inv(s) && id in s.jobs && id !in s.running
    ensures Terminal(s.jobs[id].state) || s.jobs[id].state == Submitted
  {
    assert StateFits(s.jobs[id].state, id in s.pending, s.running, id);
  }

  /** A job that waits may be started. */
  lemma Starts(past: seq<Action>, id: Id, b: Binding, t: Tale, job: Job)
    requires Tells(past, id, b, t, job, None) && !Terminal(job.state)
    ensures Tells(past, id, b, t, job, Some(Setup))
  {
    hide CancelBetween, WriteFails, SetUpAt, AnsweredAt, NeverSetUp, NeverAnswered;
  }

  lemma AloneTold(s: State, past: seq<Action>, a: Action, id: Id, t: Tale)
    requires Inv(s) && Busy(s) && Held(s) && Enabled(s, a) && !a.WriteRegistry? && !a.Crash? && !About(a, id)
    requires Told(past, id, t, s)
    ensures Told(past + [a], id, t, StepState(s, a))
  {
    var r := StepState(s, a);
    StepStateKeeps(s, a);
    StepElsewhere(s, a, id);
    StepBindings(s, a, id);
    LeftAlone(s, r, id);
    OneMore(past, a, id, s.bindings[id]);
    hide Inv, StepState, Enabled, Elsewhere, Busy, Held, Tells, SubmittedAt;
    if RunOf(r, id) != RunOf(s, id) { Starts(past, id, s.bindings[id], t, s.jobs[id]); }
    SubmittedBefore(past, id, t.submitted);
    TaleStays(past, a, id, s.bindings[id], t, s.jobs[id], RunOf(r, id));
  }

  lemma SubmittedBefore(past: seq<Action>, id: Id, i: nat)
    requires SubmittedAt(past, id, i)
    ensures i < |past|
  {
  }

  lemma SameTale(s: State, r: State, past: seq<Action>, a: Action, id: Id, t: Tale, u: Tale)
    requires Told(past, id, t, s) && id in r.jobs && id in r.bindings && r.bindings[id] == s.bindings[id]
    requires r.jobs[id].request == s.jobs[id].request && u.submitted == t.submitted
    requires Tells(past + [a], id, s.bindings[id], u, r.jobs[id], RunOf(r, id))
    ensures Told(past + [a], id, u, r)
  {
    hide Tells;
    OneMore(past, a, id, s.bindings[id]);
  }

  lemma CancelTold(s: State, past: seq<Action>, b: Binding, id: Id, t: Tale)
    requires Told(past, id, t, s)
    ensures Told(past + [DoCancel(id, b)], id, t, Cancel(s, id, b).0)
  {
    var a := DoCancel(id, b);
    var r := Cancel(s, id, b).0;
    SubmittedBefore(past, id, t.submitted);
    CancelTale(past, b, id, s.bindings[id], t, s.jobs[id], RunOf(s, id));
    hide Tells, SubmittedAt;
    assert r.jobs[id] ==
      (if b == s.bindings[id] && !Terminal(s.jobs[id].state)
       then s.jobs[id].(state := if RunOf(s, id).Some? then Cancelling else Cancelled) else s.jobs[id]);
    SameTale(s, r, past, a, id, t, t);
  }

  lemma CancelTale(past: seq<Action>, b: Binding, id: Id, owner: Binding, t: Tale, job: Job, run: Option<Phase>)
    requires Tells(past, id, owner, t, job, run) && t.submitted < |past|
    ensures Tells(past + [DoCancel(id, b)], id, owner, t,
                  if b == owner && !Terminal(job.state) then job.(state := if run.Some? then Cancelling else Cancelled) else job,
                  run)
  {
    var a := DoCancel(id, b);
    if b != owner {
      TaleStays(past, a, id, owner, t, job, run);
      return;
    }
    OneMore(past, a, id, b);
    hide WriteFails, SetUpAt, AnsweredAt, NeverSetUp, NeverAnswered, CancelBetween;
    match t {
      case Waiting(i) =>
        CancelMore(past, a, id, b, i, |past|);
      case NotSetUp(i, j) =>
        SetUpBefore(past, id, j, false);
        CancelMore(past, a, id, b, i, j);
      case Underway(i, j) =>
        SetUpBefore(past, id, j, true);
        CancelMore(past, a, id, b, j, |past|);
      case Ended(i, j, k) =>
        EndedStays(past, a, id, b, i, j, k, job);
        EndedIsOver(past, id, b, j, k, job);
    }
  }

  lemma EndedIsOver(past: seq<Action>, id: Id, b: Binding, j: nat, k: nat, job: Job)
    requires j < k < |past| && Answers(past[k], id) && EndedAs(past, id, b, j, k, job)
    ensures Terminal(job.state)
  {
    hide CancelBetween, WriteFails;
    if past[k].ExecutorReturns? {
      match past[k].result.outcome {
        case Success =>
        case Failure =>
        case TimedOut =>
        case WasLost =>
        case Unknown =>
      }
    }
  }

  // ------------------------------------------------------- the steps of the run

  /** What a run that is caught leaves: the job as it was asked to be, or failed. */
  lemma CaughtIs(s: State, id: Id)
    requires Inv(s) && id in s.running && id in s.jobs && s.active > 0
    ensures
      var r := Caught(s, id);
      && id in r.jobs && r.jobs[id] == (if CancelRequested(s, id) then s.jobs[id].(state := Cancelled) else FailedJob(s.jobs[id]))
      && RunOf(r, id) == (if CancelRequested(s, id) then Some(Saving) else None)
  {
    hide Inv, Finish;
    if !CancelRequested(s, id) { FailsItself(s, id); }
  }

  lemma SetupTold(s: State, past: seq<Action>, ok: bool, id: Id, t: Tale) returns (u: Tale)
    requires Inv(s) && Held(s) && Enabled(s, SetupEnds(id, ok)) && Told(past, id, t, s)
    ensures Told(past + [SetupEnds(id, ok)], id, u, StepState(s, SetupEnds(id, ok)))
  {
    var a := SetupEnds(id, ok);
    var r := StepState(s, a);
    StepBindings(s, a, id);
    SubmittedBefore(past, id, t.submitted);
    MustWait(past, id, s.bindings[id], t, s.jobs[id]);
    u := SetupTale(past, id, s.bindings[id], t.submitted, s.jobs[id], ok);
    hide Inv, Caught, Tells, Held, SubmittedAt, StepState;
    SetupMoves(s, id, ok);
    SameTale(s, r, past, a, id, t, u);
  }

  lemma MustWait(past: seq<Action>, id: Id, b: Binding, t: Tale, job: Job)
    requires Tells(past, id, b, t, job, Some(Setup))
    ensures t.Waiting?
  {
    hide CancelBetween, WriteFails, SetUpAt, AnsweredAt, NeverSetUp, NeverAnswered;
  }

  lemma SetupMoves(s: State, id: Id, ok: bool)
    requires Held(s) && Enabled(s, SetupEnds(id, ok)) && Inv(s)
    ensures
      var r, job := StepState(s, SetupEnds(id, ok)), s.jobs[id];
      && id in r.jobs
      && r.jobs[id] == (if ok then job.(state := Running)
                        else if job.state in {Cancelled, Cancelling} then job.(state := Cancelled) else FailedJob(job))
      && RunOf(r, id) == (if ok then Some(Executing) else if job.state in {Cancelled, Cancelling} then Some(Saving) else None)
  {
    CaughtIs(s, id);
    hide Inv, Caught;
  }

  lemma SetupTale(past: seq<Action>, id: Id, b: Binding, i: nat, job: Job, ok: bool) returns (u: Tale)
    requires Tells(past, id, b, Waiting(i), job, Some(Setup))
    ensures u.submitted == i
    ensures
      var cancelled := job.state in {Cancelled, Cancelling};
      Tells(past + [SetupEnds(id, ok)], id, b, u,
            if ok then job.(state := Running) else if cancelled then job.(state := Cancelled) else FailedJob(job),
            if ok then Some(Executing) else if cancelled then Some(Saving) else None)
  {
    var a, n := SetupEnds(id, ok), |past|;
    var more := past + [a];
    OneMore(past, a, id, b);
    CancelMore(past, a, id, b, i, n);
    NewSetUp(past, id, ok);
    hide SetUpAt, NeverAnswered, NeverSetUp;
    u := if ok then Underway(i, n) else NotSetUp(i, n);
    assert !CancelBetween(more, id, b, n, n + 1);
  }

  lemma NewSetUp(past: seq<Action>, id: Id, ok: bool)
    requires NeverSetUp(past, id)
    ensures SetUpAt(past + [SetupEnds(id, ok)], id, |past|, ok)
  {
  }

  lemma NewAnswer(past: seq<Action>, a: Action, id: Id)
    requires NeverAnswered(past, id) && Answers(a, id)
    ensures AnsweredAt(past + [a], id, |past|)
  {
  }

  lemma MustExecute(past: seq<Action>, id: Id, b: Binding, t: Tale, job: Job)
    requires Tells(past, id, b, t, job, Some(Executing))
    ensures t.Underway?
  {
    hide CancelBetween, WriteFails, SetUpAt, AnsweredAt, NeverSetUp, NeverAnswered;
  }

  lemma ReturnTold(s: State, past: seq<Action>, x: ExecutionResult, id: Id, t: Tale) returns (u: Tale)
    requires Inv(s) && Held(s) && Enabled(s, ExecutorReturns(id, x)) && Told(past, id, t, s)
    ensures Told(past + [ExecutorReturns(id, x)], id, u, StepState(s, ExecutorReturns(id, x)))
  {
    var a := ExecutorReturns(id, x);
    var r := StepState(s, a);
    StepBindings(s, a, id);
    SubmittedBefore(past, id, t.submitted);
    MustExecute(past, id, s.bindings[id], t, s.jobs[id]);
    ReturnTale(past, id, s.bindings[id], t.submitted, t.setUp, s.jobs[id], x);
    u := Ended(t.submitted, t.setUp, |past|);
    hide Tells, SubmittedAt, Held, Inv;
    SameTale(s, r, past, a, id, t, u);
  }

  lemma ReturnTale(past: seq<Action>, id: Id, b: Binding, i: nat, j: nat, job: Job, x: ExecutionResult)
    requires Tells(past, id, b, Underway(i, j), job, Some(Executing))
    ensures
      var cancelled := job.state == Cancelled || job.state == Cancelling;
      Tells(past + [ExecutorReturns(id, x)], id, b, Ended(i, j, |past|),
            if cancelled then job.(state := Cancelled) else ResultJob(job, x),
            if cancelled || !x.hasOutput then Some(Saving) else Some(WritingOutput))
  {
    var a, n := ExecutorReturns(id, x), |past|;
    var more := past + [a];
    SetUpBefore(past, id, j, true);
    OneMore(past, a, id, b);
    CancelMore(past, a, id, b, j, n);
    NewAnswer(past, a, id);
    assert more[n] == a && !WriteFails(more, id, n);
    hide SetUpAt, NeverAnswered, NeverSetUp, AnsweredAt, CancelBetween, WriteFails;
  }

  lemma ThrowTold(s: State, past: seq<Action>, id: Id, t: Tale) returns (u: Tale)
    requires Inv(s) && Held(s) && Enabled(s, ExecutorThrows(id)) && Told(past, id, t, s)
    ensures Told(past + [ExecutorThrows(id)], id, u, StepState(s, ExecutorThrows(id)))
  {
    var a := ExecutorThrows(id);
    var r := StepState(s, a);
    StepBindings(s, a, id);
    CaughtIs(s, id);
    SubmittedBefore(past, id, t.submitted);
    MustExecute(past, id, s.bindings[id], t, s.jobs[id]);
    ThrowTale(past, id, s.bindings[id], t.submitted, t.setUp, s.jobs[id]);
    u := Ended(t.submitted, t.setUp, |past|);
    hide Tells, SubmittedAt, Held, Inv, Caught;
    SameTale(s, r, past, a, id, t, u);
  }

  lemma ThrowTale(past: seq<Action>, id: Id, b: Binding, i: nat, j: nat, job: Job)
    requires Tells(past, id, b, Underway(i, j), job, Some(Executing))
    ensures
      var cancelled := job.state == Cancelled || job.state == Cancelling;
      Tells(past + [ExecutorThrows(id)], id, b, Ended(i, j, |past|),
            if cancelled then job.(state := Cancelled) else FailedJob(job), if cancelled then Some(Saving) else None)
  {
    var a, n := ExecutorThrows(id), |past|;
    SetUpBefore(past, id, j, true);
    OneMore(past, a, id, b);
    CancelMore(past, a, id, b, j, n);
    NewAnswer(past, a, id);
    assert (past + [a])[n] == a;
    hide SetUpAt, NeverAnswered, NeverSetUp, AnsweredAt, CancelBetween, WriteFails;
  }

  lemma MustWrite(past: seq<Action>, id: Id, b: Binding, t: Tale, job: Job)
    requires Tells(past, id, b, t, job, Some(WritingOutput))
    ensures t.Ended?
  {
    hide CancelBetween, WriteFails, SetUpAt, AnsweredAt, NeverSetUp, NeverAnswered;
  }

  lemma OutputTold(s: State, past: seq<Action>, ok: bool, id: Id, t: Tale)
    requires Inv(s) && Held(s) && Enabled(s, OutputEnds(id, ok)) && Told(past, id, t, s)
    ensures Told(past + [OutputEnds(id, ok)], id, t, StepState(s, OutputEnds(id, ok)))
  {
    var a := OutputEnds(id, ok);
    var r := StepState(s, a);
    StepBindings(s, a, id);
    OutputMoves(s, id, ok);
    SubmittedBefore(past, id, t.submitted);
    MustWrite(past, id, s.bindings[id], t, s.jobs[id]);
    OutputTale(past, id, s.bindings[id], t, s.jobs[id], ok);
    hide Tells, SubmittedAt, Held, Inv, StepState;
    SameTale(s, r, past, a, id, t, t);
  }

  lemma OutputMoves(s: State, id: Id, ok: bool)
    requires Inv(s) && Held(s) && Enabled(s, OutputEnds(id, ok))
    ensures
      var r, job := StepState(s, OutputEnds(id, ok)), s.jobs[id];
      && id in r.jobs && r.jobs[id] == (if ok then job else FailedJob(job)) && RunOf(r, id) == (if ok then Some(Saving) else None)
  {
    StateFitsRun(s, id);
    CaughtIs(s, id);
    hide Inv, Caught;
  }

  lemma OutputTale(past: seq<Action>, id: Id, b: Binding, t: Tale, job: Job, ok: bool)
    requires t.Ended? && Tells(past, id, b, t, job, Some(WritingOutput))
    ensures Tells(past + [OutputEnds(id, ok)], id, b, t, if ok then job else FailedJob(job), if ok then Some(Saving) else None)
  {
    var a, j, k := OutputEnds(id, ok), t.setUp, t.answered;
    OneMore(past, a, id, b);
    CancelMore(past, a, id, b, j, k);
    WriteMore(past, a, id, k);
    assert (past + [a])[k] == past[k];
    assert k < |past|;
    hide SetUpAt, NeverAnswered, NeverSetUp, AnsweredAt, CancelBetween, WriteFails;
  }

  lemma SaveTold(s: State, past: seq<Action>, id: Id, t: Tale)
    requires Inv(s) && Held(s) && Enabled(s, SnapshotEnds(id)) && Told(past, id, t, s)
    ensures Told(past + [SnapshotEnds(id)], id, t, StepState(s, SnapshotEnds(id)))
  {
    var a := SnapshotEnds(id);
    var r := StepState(s, a);
    StepBindings(s, a, id);
    StateFitsRun(s, id);
    FinishElsewhere(s, id, id);
    SubmittedBefore(past, id, t.submitted);
    TaleStays(past, a, id, s.bindings[id], t, s.jobs[id], RunOf(s, id));
    RunEnds(past + [a], id, s.bindings[id], t, s.jobs[id]);
    hide Tells, SubmittedAt, Held, Inv, Finish;
    SameTale(s, r, past, a, id, t, t);
  }

  lemma RunEnds(past: seq<Action>, id: Id, b: Binding, t: Tale, job: Job)
    requires Tells(past, id, b, t, job, Some(Saving))
    ensures Tells(past, id, b, t, job, None)
  {
    hide CancelBetween, WriteFails, SetUpAt, AnsweredAt, NeverSetUp, NeverAnswered;
  }

  /** One step more of the process: the job is still what the actions tell. */
  lemma StepTold(s: State, past: seq<Action>, a: Action, id: Id, t: Tale) returns (u: Tale)
    requires Inv(s) && Busy(s) && Held(s) && Enabled(s, a) && !a.WriteRegistry? && !a.Crash? && Told(past, id, t, s)
    ensures Told(past + [a], id, u, StepState(s, a))
  {
    hide Inv, Busy, Told, Held;
    u := t;
    if !About(a, id) {
      AloneTold(s, past, a, id, t);
      return;
    }
    match a {
      case DoCancel(_, b) =>
        hide Cancel;
        CancelTold(s, past, b, id, t);
      case SetupEnds(_, ok) =>
        u := SetupTold(s, past, ok, id, t);
      case ExecutorReturns(_, x) =>
        u := ReturnTold(s, past, x, id, t);
      case ExecutorThrows(_) =>
        u := ThrowTold(s, past, id, t);
      case OutputEnds(_, ok) =>
        OutputTold(s, past, ok, id, t);
      case SnapshotEnds(_) =>
        SaveTold(s, past, id, t);
    }
  }

  // ----------------------------------------------------------------- every run

  /** The job becomes known with its first submission. */
  lemma FirstTold(s: State, past: seq<Action>, q: Request, b: Binding)
    requires Inv(s) && Busy(s) && Unheard(past, q.jobId, s)
    ensures Told(past + [DoSubmit(q, b)], q.jobId, Waiting(|past|), Submit(s, q, b).0)
  {
    var id, n := q.jobId, |past|;
    var s1 := Enqueued(s, q, b);
    var r := Submit(s, q, b).0;
    EnqueueKeeps(s, q, b);
    NewIsNotRunning(s, id);
    SubmitKeeps(s, q, b);
    PumpElsewhere(s1, id);
    PumpBindings(s1);
    LeftAlone(s1, r, id);
    var more := past + [DoSubmit(q, b)];
    OneMore(past, DoSubmit(q, b), id, b);
    assert SubmittedAt(more, id, n) && more[n] == DoSubmit(q, b) && !CancelBetween(more, id, b, n, n + 1);
    hide Inv, Busy, Pump, Elsewhere, SubmittedAt, CancelBetween, NeverSetUp, NeverAnswered;
    assert s1.jobs[id] == Job(q, Submitted, None);
  }

  /** Until then no action is about it. */
  lemma StillUnheard(s: State, past: seq<Action>, a: Action, id: Id)
    requires Inv(s) && Held(s) && Enabled(s, a) && !a.WriteRegistry? && !a.Crash? && Unheard(past, id, s) && !Submits(a, id)
    ensures Unheard(past + [a], id, StepState(s, a))
  {
    OneMore(past, a, id, Binding("", ""));
    StepJobs(s, a, id);
    hide Inv, StepState, NeverSetUp, NeverAnswered;
    assert forall n :: 0 <= n < |past| ==> (past + [a])[n] == past[n];
  }

  lemma {:induction false} PumpJobs(s: State)
    ensures Pump(s).jobs == s.jobs
    decreases |s.pending|
  {
    if s.active < s.cap && s.pending != [] {
      PumpJobs(Next(s));
    }
  }

  lemma CaughtJobs(s: State, j: Id)
    requires j in s.jobs && s.active > 0
    ensures Caught(s, j).jobs.Keys == s.jobs.Keys
  {
    var job := FailedJob(s.jobs[j]);
    PumpJobs(Released(Moved(s, j, job, Saving), j));
    hide Pump;
  }

  /** Only a submission makes a job known. */
  lemma StepJobs(s: State, a: Action, id: Id)
    requires Held(s) && Enabled(s, a) && !a.WriteRegistry? && !a.Crash? && !Submits(a, id)
    ensures id in StepState(s, a).jobs <==> id in s.jobs
  {
    hide Pump, Caught;
    match a
    case DoSubmit(r, b) => PumpJobs(Enqueued(s, r, b));
    case DoCancel(j, b) =>
    case SetupEnds(j, ok) => CaughtJobs(s, j);
    case ExecutorReturns(j, r) =>
    case ExecutorThrows(j) => CaughtJobs(s, j);
    case OutputEnds(j, ok) => CaughtJobs(s, j);
    case SnapshotEnds(j) => PumpJobs(Released(s, j));
  }

  /** The job is not known, or is what the actions tell. */
  ghost predicate Known(past: seq<Action>, id: Id, t: Option<Tale>, s: State)
  {
    if t.Some? then Told(past, id, t.value, s) else Unheard(past, id, s)
  }

  lemma StepKnown(s: State, past: seq<Action>, a: Action, id: Id, t: Option<Tale>) returns (u: Option<Tale>)
    requires Inv(s) && Busy(s) && Held(s) && Enabled(s, a) && !a.Crash? && Known(past, id, t, s)
    ensures Known(past + [a], id, u, if a.WriteRegistry? then s else StepState(s, a))
  {
    hide Inv, Busy, Told, Unheard, Held, Enabled;
    if a.WriteRegistry? {
      WriteKnown(s, past, id, t);
      return t;
    }
    if t.Some? {
      var next := StepTold(s, past, a, id, t.value);
      return Some(next);
    }
    if Submits(a, id) {
      FirstTold(s, past, a.request, a.binding);
      return Some(Waiting(|past|));
    }
    StillUnheard(s, past, a, id);
    u := None;
  }

  lemma WriteKnown(s: State, past: seq<Action>, id: Id, t: Option<Tale>)
    requires Known(past, id, t, s)
    ensures Known(past + [WriteRegistry], id, t, s)
  {
    var a := WriteRegistry;
    if t.Some? {
      var b := s.bindings[id];
      OneMore(past, a, id, b);
      TaleStays(past, a, id, b, t.value, s.jobs[id], RunOf(s, id));
      hide Tells;
    } else {
      OneMore(past, a, id, Binding("", ""));
      hide NeverSetUp, NeverAnswered;
      assert forall n :: 0 <= n < |past| ==> (past + [a])[n] == past[n];
    }
  }

  lemma {:induction false} RunKnown(w: World, past: seq<Action>, actions: seq<Action>, id: Id, t: Option<Tale>)
      returns (u: Option<Tale>)
    requires WorldInv(w) && Possible(w, actions) && Calm(actions) && Known(past, id, t, w.now)
    ensures Known(past + actions, id, u, Run(w, actions).now)
    decreases |actions|
  {
    hide Possible, Run, Calm, WorldInv, Known, Step, Enabled, Held, Inv, Busy, StepState;
    u := t;
    if actions == [] {
      RunNothing(w);
      assert past + actions == past;
    } else {
      var a := actions[0];
      OneStep(w, actions);
      var next := StepKnown(w.now, past, a, id, t);
      u := RunKnown(Step(w, a), past + [a], actions[1..], id, next);
      assert (past + [a]) + actions[1..] == past + actions;
    }
  }

  lemma OneStep(w: World, actions: seq<Action>)
    requires WorldInv(w) && Possible(w, actions) && Calm(actions) && actions != []
    ensures
      var a := actions[0];
      && Inv(w.now) && Busy(w.now) && Held(w.now) && Enabled(w.now, a) && !a.Crash?
      && WorldInv(Step(w, a)) && Step(w, a).now == (if a.WriteRegistry? then w.now else StepState(w.now, a))
      && Possible(Step(w, a), actions[1..]) && Calm(actions[1..]) && Run(w, actions) == Run(Step(w, a), actions[1..])
  {
    StepKeeps(w, actions[0]);
    StepNow(w, actions[0]);
    hide Step, Enabled, Held, Inv, Busy, StepState;
  }

  /** The actions since the last crash. */
  function SinceCrash(actions: seq<Action>): (n: nat)
    ensures n <= |actions|
  {
    if actions == [] then 0
    else if actions[|actions| - 1].Crash? then |actions|
    else SinceCrash(actions[..|actions| - 1])
  }

  lemma {:induction false} LastLife(actions: seq<Action>)
    ensures Calm(actions[SinceCrash(actions)..])
    ensures SinceCrash(actions) > 0 ==> actions[SinceCrash(actions) - 1].Crash?
    decreases |actions|
  {
    if actions != [] && !actions[|actions| - 1].Crash? {
      var before, n := actions[..|actions| - 1], SinceCrash(actions);
      LastLife(before);
      assert actions[n..] == before[n..] + [actions[|actions| - 1]];
    }
  }

  /** The first action of a run, and the rest of it. */
  lemma RunHead(w: World, a: Action, rest: seq<Action>)
    ensures Possible(w, [a] + rest) <==> Held(w.now) && Enabled(w.now, a) && Possible(Step(w, a), rest)
    ensures Possible(w, [a] + rest) ==> Run(w, [a] + rest) == Run(Step(w, a), rest)
  {
    hide Step, Enabled, Held;
    assert ([a] + rest)[0] == a && ([a] + rest)[1..] == rest;
  }

  lemma {:induction false} RunSplit(w: World, actions: seq<Action>, n: nat)
    requires Possible(w, actions) && n <= |actions|
    ensures Possible(w, actions[..n]) && Possible(Run(w, actions[..n]), actions[n..])
    ensures Run(w, actions) == Run(Run(w, actions[..n]), actions[n..])
    decreases n
  {
    hide Step, Enabled, Held, Possible, Run;
    if n == 0 {
      RunNothing(w);
      assert actions[..0] == [] && actions[0..] == actions;
    } else {
      var a, rest := actions[0], actions[1..];
      assert actions == [a] + rest && actions[..n] == [a] + rest[..n - 1] && rest[n - 1..] == actions[n..];
      RunHead(w, a, rest);
      RunHead(w, a, rest[..n - 1]);
      RunSplit(Step(w, a), rest, n - 1);
    }
  }

  lemma {:induction false} AfterCrash(w: World, actions: seq<Action>)
    requires Possible(w, actions) && actions != [] && actions[|actions| - 1].Crash?
    ensures var r := Run(w, actions).now; r.restored == r.order && r.submitted == []
    decreases |actions|
  {
    hide Possible, Run, Held, Enabled;
    var a, rest := actions[0], actions[1..];
    assert actions == [a] + rest;
    RunHead(w, a, rest);
    if rest == [] {
      RunNothing(Step(w, a));
    } else {
      assert rest[|rest| - 1] == actions[|actions| - 1];
      hide Step;
      AfterCrash(Step(w, a), rest);
    }
  }

  lemma NewProcess(s: State, id: Id)
    requires Inv(s) && s.submitted == [] && id !in s.restored
    ensures Unheard([], id, s)
  {
    assert s.order == s.restored;
  }

  lemma {:induction false} RestoredStays(w: World, actions: seq<Action>)
    requires WorldInv(w) && Possible(w, actions) && Calm(actions)
    ensures Run(w, actions).now.restored == w.now.restored
    decreases |actions|
  {
    hide Possible, Run, Calm, WorldInv, Step, Enabled, Held, Inv, Busy, StepState;
    if actions == [] {
      RunNothing(w);
    } else {
      var a := actions[0];
      OneStep(w, actions);
      if !a.WriteRegistry? { StepRestored(w.now, a); }
      RestoredStays(Step(w, a), actions[1..]);
    }
  }

  lemma StepRestored(s: State, a: Action)
    requires Inv(s) && Busy(s) && Enabled(s, a) && !a.WriteRegistry? && !a.Crash?
    ensures Held(s) && StepState(s, a).restored == s.restored
  {
    hide Inv, Busy, StepState, Enabled, Held;
    StepStateKeeps(s, a);
  }

  /**
   * In every interleaving, with snapshots and crashes: a job that was not read
   * back from the registry file is exactly what the actions since the last crash
   * tell of it.
   */
  lemma EveryJobIsTold(cap: nat, actions: seq<Action>, id: Id) returns (t: Tale)
    requires cap > 0 && Possible(World(Idle(cap), None), actions)
    requires
      var s := Run(World(Idle(cap), None), actions).now;
      id in s.jobs && id !in s.restored
    ensures Told(actions[SinceCrash(actions)..], id, t, Run(World(Idle(cap), None), actions).now)
  {
    var w, n := World(Idle(cap), None), SinceCrash(actions);
    IdleInv(cap);
    LastLife(actions);
    RunSplit(w, actions, n);
    RunKeeps(w, actions[..n]);
    var w1 := Run(w, actions[..n]);
    RestoredStays(w1, actions[n..]);
    if n > 0 { AfterCrash(w, actions[..n]); }
    hide Possible, Run, Inv, Busy, Told, Unheard;
    RunNothing(w);
    NewProcess(w1.now, id);
    var u := RunKnown(w1, [], actions[n..], id, None);
    assert [] + actions[n..] == actions[n..];
    NotUnheard(actions[n..], id, Run(w1, actions[n..]).now);
    t := u.value;
  }

  lemma RunNothing(w: World)
    ensures Possible(w, []) && Run(w, []) == w
  {
  }

  lemma NotUnheard(actions: seq<Action>, id: Id, s: State)
    requires id in s.jobs
    ensures !Unheard(actions, id, s)
  {
  }

  /** The job was in the executor, which returned this outcome, and its owner had not cancelled it there. */
  ghost predicate AnsweredWith(actions: seq<Action>, id: Id, b: Binding, j: nat, k: nat, outcome: Outcome)
  {
    && j < k < |actions| && actions[j] == SetupEnds(id, true)
    && actions[k].ExecutorReturns? && actions[k].jobId == id && actions[k].result.outcome == outcome
    && !CancelBetween(actions, id, b, j, k)
  }

  lemma ToldBecause(actions: seq<Action>, id: Id, t: Tale, s: State)
    requires Told(actions, id, t, s) && s.jobs[id].state in {Succeeded, Timeout, Lost, UnknownEffect}
    ensures t.Ended?
    ensures s.jobs[id].state == Succeeded ==> AnsweredWith(actions, id, s.bindings[id], t.setUp, t.answered, Success)
    ensures s.jobs[id].state == Timeout ==> AnsweredWith(actions, id, s.bindings[id], t.setUp, t.answered, TimedOut)
    ensures s.jobs[id].state == Lost ==> AnsweredWith(actions, id, s.bindings[id], t.setUp, t.answered, WasLost)
    ensures s.jobs[id].state == UnknownEffect ==> AnsweredWith(actions, id, s.bindings[id], t.setUp, t.answered, Unknown)
    ensures !WriteFails(actions, id, t.answered)
  {
    hide CancelBetween, WriteFails, NeverSetUp, NeverAnswered, SubmittedAt;
  }

  /**
   * A job that has succeeded, timed out, been lost or had an unknown effect in
   * this process was told so by the executor, and was not cancelled while it was there.
   */
  lemma OutcomeBecause(cap: nat, actions: seq<Action>, id: Id) returns (j: nat, k: nat)
    requires cap > 0 && Possible(World(Idle(cap), None), actions)
    requires
      var s := Run(World(Idle(cap), None), actions).now;
      id in s.jobs && id !in s.restored && s.jobs[id].state in {Succeeded, Timeout, Lost, UnknownEffect}
    ensures
      var s, last := Run(World(Idle(cap), None), actions).now, actions[SinceCrash(actions)..];
      && id in s.bindings && !WriteFails(last, id, k)
      && (s.jobs[id].state == Succeeded ==> AnsweredWith(last, id, s.bindings[id], j, k, Success))
      && (s.jobs[id].state == Timeout ==> AnsweredWith(last, id, s.bindings[id], j, k, TimedOut))
      && (s.jobs[id].state == Lost ==> AnsweredWith(last, id, s.bindings[id], j, k, WasLost))
      && (s.jobs[id].state == UnknownEffect ==> AnsweredWith(last, id, s.bindings[id], j, k, Unknown))
  {
    var t := EveryJobIsTold(cap, actions, id);
    hide Possible, Run, Told, AnsweredWith, WriteFails, SinceCrash;
    ToldBound(actions[SinceCrash(actions)..], id, t, Run(World(Idle(cap), None), actions).now);
    ToldBecause(actions[SinceCrash(actions)..], id, t, Run(World(Idle(cap), None), actions).now);
    j, k := t.setUp, t.answered;
  }

  lemma ToldBound(actions: seq<Action>, id: Id, t: Tale, s: State)
    requires Told(actions, id, t, s)
    ensures id in s.jobs && id in s.bindings
  {
  }

  lemma ToldAnswer(actions: seq<Action>, id: Id, t: Tale, s: State, k: nat)
    requires Told(actions, id, t, s) && k < |actions| && Answers(actions[k], id)
    ensures t.Ended? && t.answered == k && t.setUp < k && actions[t.setUp] == SetupEnds(id, true)
    ensures EndedAs(actions, id, s.bindings[id], t.setUp, k, s.jobs[id])
  {
    hide CancelBetween, WriteFails, NeverSetUp, SubmittedAt, EndedAs;
  }

  /**
   * What the executor answers decides the job for good: unless its owner had
   * cancelled it meanwhile, or its output could then not be written, the state and
   * the error code are the ones returned, whatever comes after.
   */
  lemma AnswerDecides(cap: nat, actions: seq<Action>, id: Id, k: nat) returns (j: nat)
    requires cap > 0 && Possible(World(Idle(cap), None), actions)
    requires
      var s, last := Run(World(Idle(cap), None), actions).now, actions[SinceCrash(actions)..];
      id in s.jobs && id !in s.restored && k < |last| && last[k].ExecutorReturns? && last[k].jobId == id
    ensures
      var s, last := Run(World(Idle(cap), None), actions).now, actions[SinceCrash(actions)..];
      var job, x := s.jobs[id], last[k].result;
      && j < k && last[j] == SetupEnds(id, true) && id in s.bindings
      && (CancelBetween(last, id, s.bindings[id], j, k) ==> job.state == Cancelled)
      && (!CancelBetween(last, id, s.bindings[id], j, k) && x.outcome == Failure ==>
            job.state == Failed && (x.errorCode.Some? ==> job.errorCode == x.errorCode))
      && (!CancelBetween(last, id, s.bindings[id], j, k) && WriteFails(last, id, k) ==>
            job.state == Failed && job.errorCode == (if x.errorCode.Some? then x.errorCode else Some("WORKER_EXECUTION_ERROR")))
      && (!CancelBetween(last, id, s.bindings[id], j, k) && !WriteFails(last, id, k) ==>
            && job.errorCode == x.errorCode
            && (x.outcome == Success ==> job.state == Succeeded)
            && (x.outcome == TimedOut ==> job.state == Timeout)
            && (x.outcome == WasLost ==> job.state == Lost)
            && (x.outcome == Unknown ==> job.state == UnknownEffect))
  {
    var t := EveryJobIsTold(cap, actions, id);
    hide Possible, Run, Told, CancelBetween, WriteFails, SinceCrash;
    var s, last := Run(World(Idle(cap), None), actions).now, actions[SinceCrash(actions)..];
    ToldBound(last, id, t, s);
    ToldAnswer(last, id, t, s, k);
    j := t.setUp;
  }

  /** The same for an executor that throws, and for a workspace that cannot be made. */
  lemma FailureDecides(cap: nat, actions: seq<Action>, id: Id, k: nat) returns (i: nat)
    requires cap > 0 && Possible(World(Idle(cap), None), actions)
    requires
      var s, last := Run(World(Idle(cap), None), actions).now, actions[SinceCrash(actions)..];
      id in s.jobs && id !in s.restored && k < |last| && last[k] in {ExecutorThrows(id), SetupEnds(id, false)}
    ensures
      var s, last := Run(World(Idle(cap), None), actions).now, actions[SinceCrash(actions)..];
      && id in s.bindings && i < k
      && last[i] == (if last[k].SetupEnds? then DoSubmit(s.jobs[id].request, s.bindings[id]) else SetupEnds(id, true))
      && (if CancelBetween(last, id, s.bindings[id], i, k) then s.jobs[id].state == Cancelled && s.jobs[id].errorCode == None
          else s.jobs[id].state == Failed && s.jobs[id].errorCode == Some("WORKER_EXECUTION_ERROR"))
  {
    var t := EveryJobIsTold(cap, actions, id);
    hide Possible, Run, Told, CancelBetween, WriteFails, SinceCrash;
    var s, last := Run(World(Idle(cap), None), actions).now, actions[SinceCrash(actions)..];
    ToldBound(last, id, t, s);
    if last[k].SetupEnds? {
      ToldSetup(last, id, t, s, k);
      i := t.submitted;
    } else {
      ToldAnswer(last, id, t, s, k);
      i := t.setUp;
    }
  }

  lemma ToldSetup(actions: seq<Action>, id: Id, t: Tale, s: State, k: nat)
    requires Told(actions, id, t, s) && k < |actions| && actions[k] == SetupEnds(id, false)
    ensures t.NotSetUp? && t.setUp == k && t.submitted < k
    ensures actions[t.submitted] == DoSubmit(s.jobs[id].request, s.bindings[id])
    ensures if CancelBetween(actions, id, s.bindings[id], t.submitted, k)
      then s.jobs[id].state == Cancelled && s.jobs[id].errorCode == None
      else s.jobs[id].state == Failed && s.jobs[id].errorCode == Some(NO_CODE)
  {
    hide CancelBetween, WriteFails, NeverAnswered, EndedAs;
  }
}
