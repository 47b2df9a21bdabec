/**
 * The job runtime of the Windows worker as a state machine. Every stretch of
 * code between two awaits is one step; `running` says at which await each run
 * is suspended.
 */
module WorkerModel {
  import opened Common

  type Id = string

  datatype JobState =
    | Submitted | Running | Cancelling
    | Succeeded | Failed | Cancelled | Timeout | Lost | UnknownEffect

  predicate Terminal(s: JobState)
  {
    s in {Succeeded, Failed, Cancelled, Timeout, Lost, UnknownEffect}
  }

  datatype Request = Request(jobId: Id, body: string)

  datatype Binding = Binding(projectId: string, classification: string)

  datatype Job = Job(request: Request, state: JobState, errorCode: Option<string>)

  /** The await a run is suspended at. */
  datatype Phase =
    | Setup          // creating the workspace and writing the input
    | Executing      // inside the executor
    | WritingOutput  // writing the output of a job whose state is already set
    | Saving         // waiting for the registry snapshot

  /** `restored`, `submitted`, `taken`, `started` and `executed` only record what happened in this process. */
  datatype State = State(
    cap: nat,
    jobs: map<Id, Job>,
    order: seq<Id>,                // the insertion order of `jobs`
    bindings: map<Id, Binding>,
    pending: seq<Id>,
    active: nat,
    running: map<Id, Phase>,       // the runs that hold an abort controller
    restored: seq<Id>,             // read back from the registry file
    submitted: seq<Id>,
    taken: seq<Id>,                // shifted off the queue
    started: seq<Id>,              // handed to `run`
    executed: seq<Id>)             // handed to the executor

  function Idle(cap: nat): State
  {
    State(cap, map[], [], map[], [], 0, map[], [], [], [], [], [])
  }

  // ----------------------------------------------------------------- the queue

  function Begin(s: State, id: Id): State
  {
    s.(active := s.active + 1, running := s.running[id := Setup], started := s.started + [id])
  }

  function Shifted(s: State): State
    requires s.pending != []
  {
    s.(pending := s.pending[1..], taken := s.taken + [s.pending[0]])
  }

  /** One turn of the loop: the head of the queue is started, or passed over if it is gone or already over. */
  function Next(s: State): (r: State)
    requires s.pending != []
    ensures r.pending == s.pending[1..]
  {
    var id := s.pending[0];
    if id !in s.jobs || Terminal(s.jobs[id].state) then Shifted(s) else Begin(Shifted(s), id)
  }

  /** `pump`: go on while there is room and a queue. */
  function Pump(s: State): (r: State)
    decreases |s.pending|
  {
    if s.active < s.cap && s.pending != [] then Pump(Next(s)) else s
  }

  // ------------------------------------------------------------------ requests

  datatype Refusal = JobNotFound | IdempotencyConflict

  function Bound(s: State, id: Id, b: Binding): bool
  {
    id in s.jobs && id in s.bindings && s.bindings[id] == b
  }

  function Enqueued(s: State, r: Request, b: Binding): State
  {
    s.(jobs := s.jobs[r.jobId := Job(r, Submitted, None)], order := s.order + [r.jobId],
       bindings := s.bindings[r.jobId := b], pending := s.pending + [r.jobId], submitted := s.submitted + [r.jobId])
  }

  /** `submit`, once the request has been admitted. */
  function Submit(s: State, r: Request, b: Binding): (State, Result<Job, Refusal>)
  {
    if r.jobId in s.jobs then
      (s, if !Bound(s, r.jobId, b) then Err(JobNotFound)
          else if s.jobs[r.jobId].request != r then Err(IdempotencyConflict)
          else Ok(s.jobs[r.jobId]))
    else (Pump(Enqueued(s, r, b)), Ok(Job(r, Submitted, None)))
  }

  function WithState(s: State, id: Id, state: JobState): State
    requires id in s.jobs
  {
    s.(jobs := s.jobs[id := s.jobs[id].(state := state)])
  }

  /** The cancel branch of `route`. */
  function Cancel(s: State, id: Id, b: Binding): (State, Result<Job, Refusal>)
  {
    if !Bound(s, id, b) then (s, Err(JobNotFound))
    else if Terminal(s.jobs[id].state) then (s, Ok(s.jobs[id]))
    else
      var s1 := WithState(s, id, if id in s.running then Cancelling else Cancelled);
      (s1, Ok(s1.jobs[id]))
  }

  // ------------------------------------------------------------------ the runs

  datatype Outcome = Success | Failure | TimedOut | WasLost | Unknown

  datatype ExecutionResult = ExecutionResult(outcome: Outcome, errorCode: Option<string>, hasOutput: bool)

  function StateOf(outcome: Outcome): (s: JobState)
    ensures Terminal(s) && s != Cancelled
  {
    match outcome
    case Success => Succeeded
    case TimedOut => Timeout
    case WasLost => Lost
    case Unknown => UnknownEffect
    case Failure => Failed
  }

  predicate CancelRequested(s: State, id: Id)
    requires id in s.jobs
  {
    s.jobs[id].state == Cancelled || s.jobs[id].state == Cancelling
  }

  /** A run has changed its job and is suspended at another await. */
  function Moved(s: State, id: Id, job: Job, phase: Phase): State
  {
    s.(jobs := s.jobs[id := job], running := s.running[id := phase])
  }

  function Released(s: State, id: Id): State
    requires s.active > 0
  {
    s.(running := s.running - {id}, active := s.active - 1)
  }

  /** `finally`: the controller is released, the slot is freed and the queue is pumped. */
  function Finish(s: State, id: Id): State
    requires s.active > 0
  {
    Pump(Released(s, id))
  }

  function FailedJob(job: Job): Job
  {
    job.(state := Failed, errorCode := if job.errorCode.None? then Some("WORKER_EXECUTION_ERROR") else job.errorCode)
  }

  /** The catch clause of `run`; a failed job ends its run at once. */
  function Caught(s: State, id: Id): State
    requires id in s.jobs && s.active > 0
  {
    if CancelRequested(s, id) then Moved(s, id, s.jobs[id].(state := Cancelled), Saving)
    else Finish(Moved(s, id, FailedJob(s.jobs[id]), Saving), id)
  }

  /** The workspace is ready, or could not be made. */
  function SetupDone(s: State, id: Id, ok: bool): State
    requires id in s.jobs && s.active > 0
  {
    if ok then Moved(s, id, s.jobs[id].(state := Running), Executing).(executed := s.executed + [id])
    else Caught(s, id)
  }

  function ResultJob(job: Job, r: ExecutionResult): Job
  {
    job.(state := StateOf(r.outcome), errorCode := if r.errorCode.Some? then r.errorCode else job.errorCode)
  }

  /** The executor has returned. */
  function Returned(s: State, id: Id, r: ExecutionResult): State
    requires id in s.jobs
  {
    if CancelRequested(s, id) then Moved(s, id, s.jobs[id].(state := Cancelled), Saving)
    else Moved(s, id, ResultJob(s.jobs[id], r), if r.hasOutput then WritingOutput else Saving)
  }

  /** The output file has been written, or could not be. */
  function OutputDone(s: State, id: Id, ok: bool): State
    requires id in s.jobs && s.active > 0
  {
    if ok then Moved(s, id, s.jobs[id], Saving) else Caught(s, id)
  }

  // ------------------------------------------------------------- the registry

  datatype Registry = Registry(order: seq<Id>, jobs: map<Id, Job>, bindings: map<Id, Binding>)

  const KEPT: nat := 512

  function Newest(order: seq<Id>): (newest: seq<Id>)
    ensures |newest| == Min(|order|, KEPT) && newest == order[|order| - |newest|..]
  {
    if |order| <= KEPT then order else order[|order| - KEPT..]
  }

  function Chosen<T>(all: map<Id, T>, ids: seq<Id>): map<Id, T>
  {
    map id | id in ids && id in all :: all[id]
  }

  /** `writeSnapshot`. */
  function Snapshot(s: State): Registry
  {
    var newest := Newest(s.order);
    Registry(newest, Chosen(s.jobs, newest), Chosen(s.bindings, newest))
  }

  function Restored(job: Job): Job
  {
    if Terminal(job.state) then job else job.(state := Lost)
  }

  /** A new process: `restoreRegistry`, with no file or a readable one. */
  function Restart(cap: nat, file: Option<Registry>): State
  {
    if file.None? then Idle(cap)
    else
      Idle(cap).(order := file.value.order, restored := file.value.order, bindings := file.value.bindings,
                 jobs := map id | id in file.value.jobs :: Restored(file.value.jobs[id]))
  }

  // --------------------------------------------------------------------- steps

  datatype World = World(now: State, disk: Option<Registry>)

  datatype Action =
    | DoSubmit(request: Request, binding: Binding)
    | DoCancel(jobId: Id, from: Binding)
    | SetupEnds(jobId: Id, ok: bool)
    | ExecutorReturns(jobId: Id, result: ExecutionResult)
    | ExecutorThrows(jobId: Id)
    | OutputEnds(jobId: Id, ok: bool)
    | SnapshotEnds(jobId: Id)
    | WriteRegistry
    | Crash(readable: bool)

  predicate Enabled(s: State, a: Action)
  {
    match a
    case SetupEnds(id, _) => id in s.running && s.running[id] == Setup
    case ExecutorReturns(id, _) => id in s.running && s.running[id] == Executing
    case ExecutorThrows(id) => id in s.running && s.running[id] == Executing
    case OutputEnds(id, _) => id in s.running && s.running[id] == WritingOutput
    case SnapshotEnds(id) => id in s.running && s.running[id] == Saving
    case _ => true
  }

  /** Every run is of a known job and holds a slot. */
  predicate Held(s: State)
  {
    && (forall id :: id in s.running ==> id in s.jobs)
    && (s.running != map[] ==> s.active > 0)
  }

  function StepState(s: State, a: Action): State
    requires Held(s) && Enabled(s, a) && !a.WriteRegistry? && !a.Crash?
  {
    match a
    case DoSubmit(r, b) => Submit(s, r, b).0
    case DoCancel(id, b) => Cancel(s, id, b).0
    case SetupEnds(id, ok) => SetupDone(s, id, ok)
    case ExecutorReturns(id, r) => Returned(s, id, r)
    case ExecutorThrows(id) => Caught(s, id)
    case OutputEnds(id, ok) => OutputDone(s, id, ok)
    case SnapshotEnds(id) => Finish(s, id)
  }

  /** A registry file may be written at any time; after a crash it may be unreadable. */
  function Step(w: World, a: Action): World
    requires Held(w.now) && Enabled(w.now, a)
  {
    match a
    case WriteRegistry => w.(disk := Some(Snapshot(w.now)))
    case Crash(readable) => w.(now := Restart(w.now.cap, if readable then w.disk else None))
    case _ => w.(now := StepState(w.now, a))
  }
}
