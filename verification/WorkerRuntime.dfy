/** The worker's code: fields updated by its handlers, tied to the state machine. */
module WorkerRuntime {
  import opened Common
  import opened WorkerModel
  import opened WorkerSafety
  import opened WorkerGuarantees

  class Runtime {
    const maxConcurrency: nat
    var jobs: map<Id, Job>
    var order: seq<Id>
    var bindings: map<Id, Binding>
    var pending: seq<Id>
    var active: nat
    var controllers: map<Id, Phase>

    ghost var restored: seq<Id>
    ghost var submitted: seq<Id>
    ghost var taken: seq<Id>
    ghost var started: seq<Id>
    ghost var executed: seq<Id>

    ghost function State(): State
      reads this
    {
      WorkerModel.State(maxConcurrency, jobs, order, bindings, pending, active, controllers,
                        restored, submitted, taken, started, executed)
    }

    ghost predicate Valid()
      reads this
    {
      maxConcurrency > 0 && Inv(State()) && Busy(State())
    }

    /** A new process, with what it could read of the registry file. */
    constructor (cap: nat, file: Option<Registry>)
      requires cap > 0 && (file.Some? ==> RegistryOk(file.value))
      ensures State() == Restart(cap, file) && Valid()
    {
      maxConcurrency, pending, active, controllers := cap, [], 0, map[];
      submitted, taken, started, executed := [], [], [], [];
      if file.None? {
        jobs, order, bindings, restored := map[], [], map[], [];
      } else {
        jobs := map id | id in file.value.jobs :: Restored(file.value.jobs[id]);
        order, bindings, restored := file.value.order, file.value.bindings, file.value.order;
      }
      RestartKeeps(cap, file);
      hide Inv, Busy, RegistryOk;
    }

    /** One turn of the loop of `pump`. */
    method TakeNext()
      requires pending != []
      modifies this
      ensures State() == Next(old(State()))
    {
      var jobId := pending[0];
      pending := pending[1..];
      taken := taken + [jobId];
      if jobId !in jobs || Terminal(jobs[jobId].state) { return; }
      active := active + 1;
      controllers := controllers[jobId := Setup];
      started := started + [jobId];
    }

    /** `pump`. */
    method Pump()
      requires Inv(State())
      modifies this
      ensures State() == WorkerModel.Pump(old(State())) && Inv(State()) && Busy(State())
    {
      PumpKeeps(State());
      hide Inv, Busy, PumpFrame, Next;
      while active < maxConcurrency && pending != []
        invariant WorkerModel.Pump(State()) == WorkerModel.Pump(old(State()))
        decreases |pending|
      {
        TakeNext();
      }
    }

    /** `submit`, once the request has been admitted. */
    method Submit(request: Request, binding: Binding) returns (r: Result<Job, Refusal>)
      requires Valid()
      modifies this
      ensures (State(), r) == WorkerModel.Submit(old(State()), request, binding) && Valid()
      ensures request.jobId !in old(jobs) ==>
        && r == Ok(Job(request, Submitted, None)) && submitted == old(submitted) + [request.jobId]
        && jobs == old(jobs)[request.jobId := Job(request, Submitted, None)]
        && bindings == old(bindings)[request.jobId := binding]
      ensures request.jobId in old(jobs) ==>
        && jobs == old(jobs) && bindings == old(bindings) && pending == old(pending) && controllers == old(controllers)
        && (r == Err(JobNotFound) <==> !(request.jobId in bindings && bindings[request.jobId] == binding))
        && (r == Err(IdempotencyConflict) <==>
              request.jobId in bindings && bindings[request.jobId] == binding && jobs[request.jobId].request != request)
        && (r.Ok? ==> r.value == jobs[request.jobId] && r.value.request == request)
    {
      var jobId := request.jobId;
      hide Inv, Busy, WorkerModel.Pump, Enqueued;
      if jobId in jobs {
        if jobId !in bindings || bindings[jobId] != binding { return Err(JobNotFound); }
        if jobs[jobId].request != request { return Err(IdempotencyConflict); }
        return Ok(jobs[jobId]);
      }
      NewIs(State(), request, binding);
      r := SubmitNew(request, binding);
    }

    /** A new job is registered, and the queue is pumped. */
    method SubmitNew(request: Request, binding: Binding) returns (r: Result<Job, Refusal>)
      requires Valid() && request.jobId !in jobs
      modifies this
      ensures State() == WorkerModel.Pump(Enqueued(old(State()), request, binding)) && Valid()
      ensures r == Ok(Job(request, Submitted, None))
    {
      EnqueueKeeps(State(), request, binding);
      hide Inv, Busy, WorkerModel.Pump, Enqueued;
      var job := Enqueue(request, binding);
      Pump();
      r := Ok(job);
    }

    /** What a new submission changes in the registry. */
    lemma NewIs(s: State, q: Request, b: Binding)
      requires Inv(s) && q.jobId !in s.jobs
      ensures
        var r := WorkerModel.Pump(Enqueued(s, q, b));
        && r.jobs == s.jobs[q.jobId := Job(q, Submitted, None)] && r.bindings == s.bindings[q.jobId := b]
        && r.submitted == s.submitted + [q.jobId]
    {
      EnqueueKeeps(s, q, b);
      PumpKeeps(Enqueued(s, q, b));
    }

    /** The job is registered and waits. */
    method Enqueue(request: Request, binding: Binding) returns (job: Job)
      modifies this`jobs, this`order, this`bindings, this`pending, this`submitted
      ensures State() == Enqueued(old(State()), request, binding) && job == Job(request, Submitted, None)
    {
      job := Job(request, Submitted, None);
      jobs := jobs[request.jobId := job];
      order := order + [request.jobId];
      bindings := bindings[request.jobId := binding];
      pending := pending + [request.jobId];
      submitted := submitted + [request.jobId];
    }

    /** The cancel branch of `route`. */
    method Cancel(jobId: Id, binding: Binding) returns (r: Result<Job, Refusal>)
      requires Valid()
      modifies this`jobs
      ensures (State(), r) == WorkerModel.Cancel(old(State()), jobId, binding) && Valid()
      ensures r == Err(JobNotFound) <==> !(jobId in old(jobs) && jobId in bindings && bindings[jobId] == binding)
      ensures r.Err? ==> r == Err(JobNotFound) && jobs == old(jobs)
      ensures r.Ok? ==>
        var state := old(jobs)[jobId].state;
        && jobs == old(jobs)[jobId := r.value] && r.value == old(jobs)[jobId].(state := r.value.state)
        && r.value.state == if state in {Succeeded, Failed, Cancelled, Timeout, Lost, UnknownEffect} then state
                            else if jobId in controllers then Cancelling else Cancelled
    {
      CancelKeeps(State(), jobId, binding);
      hide Inv;
      if jobId !in jobs || jobId !in bindings || bindings[jobId] != binding { return Err(JobNotFound); }
      if !Terminal(jobs[jobId].state) {
        var state := if jobId in controllers then Cancelling else Cancelled;
        jobs := jobs[jobId := jobs[jobId].(state := state)];
      }
      r := Ok(jobs[jobId]);
    }

    /** `finally`. */
    method Finish(jobId: Id)
      requires Inv(State()) && jobId in controllers && jobId in jobs && Terminal(jobs[jobId].state) && active > 0
      modifies this
      ensures State() == WorkerModel.Finish(old(State()), jobId) && Inv(State()) && Busy(State())
    {
      ReleaseKeeps(State(), jobId);
      controllers := controllers - {jobId};
      active := active - 1;
      assert State() == Released(old(State()), jobId);
      hide Inv, WorkerModel.Pump;
      Pump();
    }

    /** The catch clause of `run`. */
    method Catch(jobId: Id)
      requires Valid() && jobId in controllers && jobId in jobs && active > 0
      modifies this
      ensures State() == Caught(old(State()), jobId) && Valid()
    {
      CaughtKeeps(State(), jobId);
      if jobs[jobId].state == Cancelled || jobs[jobId].state == Cancelling {
        hide Inv, Busy, Moved;
        Move(jobId, jobs[jobId].(state := Cancelled), Saving);
        return;
      }
      MoveKeeps(State(), jobId, FailedJob(jobs[jobId]), Saving);
      hide Inv, Busy, WorkerModel.Finish;
      var job := jobs[jobId].(state := Failed);
      if job.errorCode.None? { job := job.(errorCode := Some("WORKER_EXECUTION_ERROR")); }
      Move(jobId, job, Saving);
      Finish(jobId);
    }

    /** The job changes, and its run is suspended at another await. */
    method Move(jobId: Id, job: Job, phase: Phase)
      modifies this`jobs, this`controllers
      ensures State() == Moved(old(State()), jobId, job, phase)
    {
      jobs := jobs[jobId := job];
      controllers := controllers[jobId := phase];
    }

    /** `run` goes on after its workspace has been made, or could not be. */
    method AfterSetup(jobId: Id, ok: bool)
      requires Valid() && jobId in controllers && controllers[jobId] == Setup && Held(State())
      modifies this
      ensures State() == SetupDone(old(State()), jobId, ok) && Valid()
    {
      assert jobId in jobs && active > 0;
      SetupKeeps(State(), jobId, ok);
      hide Inv, Busy, Held, Caught;
      if !ok {
        Catch(jobId);
        return;
      }
      hide Moved;
      Execute(jobId);
    }

    /** The job is handed to the executor. */
    method Execute(jobId: Id)
      requires jobId in jobs
      modifies this`jobs, this`controllers, this`executed
      ensures State() ==
        Moved(old(State()), jobId, old(jobs)[jobId].(state := Running), Executing).(executed := old(executed) + [jobId])
    {
      jobs := jobs[jobId := jobs[jobId].(state := Running)];
      controllers := controllers[jobId := Executing];
      executed := executed + [jobId];
    }

    /** `run` goes on after the executor has returned. */
    method AfterExecution(jobId: Id, result: ExecutionResult)
      requires Valid() && jobId in controllers && controllers[jobId] == Executing && Held(State())
      modifies this`jobs, this`controllers
      ensures State() == Returned(old(State()), jobId, result) && Valid()
      ensures jobId in jobs && jobs == old(jobs)[jobId := jobs[jobId]]
      ensures
        var before, job := old(jobs)[jobId], jobs[jobId];
        && job.request == before.request
        && if before.state in {Cancelled, Cancelling} then
             job.state == Cancelled && job.errorCode == before.errorCode && controllers[jobId] == Saving
           else
             && job.errorCode == (if result.errorCode.Some? then result.errorCode else before.errorCode)
             && controllers[jobId] == (if result.hasOutput then WritingOutput else Saving)
             && (result.outcome == Success ==> job.state == Succeeded)
             && (result.outcome == Failure ==> job.state == Failed)
             && (result.outcome == TimedOut ==> job.state == Timeout)
             && (result.outcome == WasLost ==> job.state == Lost)
             && (result.outcome == Unknown ==> job.state == UnknownEffect)
    {
      assert jobId in jobs;
      ReturnedKeeps(State(), jobId, result);
      hide Inv, Busy, Held, Kept;
      var job := jobs[jobId];
      if job.state == Cancelled || job.state == Cancelling {
        Move(jobId, job.(state := Cancelled), Saving);
        return;
      }
      job := job.(state := StateOf(result.outcome));
      if result.errorCode.Some? { job := job.(errorCode := result.errorCode); }
      Move(jobId, job, if result.hasOutput then WritingOutput else Saving);
    }

    /** `run` goes on after the output has been written, or could not be. */
    method AfterOutput(jobId: Id, ok: bool)
      requires Valid() && jobId in controllers && controllers[jobId] == WritingOutput && Held(State())
      modifies this
      ensures State() == OutputDone(old(State()), jobId, ok) && Valid()
    {
      assert jobId in jobs && active > 0;
      OutputKeeps(State(), jobId, ok);
      hide Inv, Busy, Held, Caught;
      if !ok {
        Catch(jobId);
        return;
      }
      controllers := controllers[jobId := Saving];
      assert jobs[jobId := jobs[jobId]] == jobs;
    }

    /** `run` goes on after the registry has been saved. */
    method AfterSave(jobId: Id)
      requires Valid() && jobId in controllers && controllers[jobId] == Saving && Held(State())
      modifies this
      ensures State() == WorkerModel.Finish(old(State()), jobId) && Valid()
    {
      StateFitsRun(State(), jobId);
      hide Inv, WorkerModel.Finish;
      Finish(jobId);
    }

    /** `writeSnapshot`. */
    method WriteSnapshot() returns (file: Registry)
      requires Valid()
      ensures file == Snapshot(State()) && RegistryOk(file)
    {
      hide Inv, Busy;
      SnapshotOk(State());
      var recent := if |order| <= 512 then order else order[|order| - 512..];
      file := Registry(recent, Chosen(jobs, recent), Chosen(bindings, recent));
      SnapshotIs(State(), recent, file);
      hide *;
    }

    lemma SnapshotIs(s: State, recent: seq<Id>, file: Registry)
      requires recent == if |s.order| <= 512 then s.order else s.order[|s.order| - 512..]
      requires file == Registry(recent, Chosen(s.jobs, recent), Chosen(s.bindings, recent))
      ensures file == Snapshot(s)
    {
      hide Chosen;
    }
  }
}
