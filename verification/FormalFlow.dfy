/**
 * The formal G4 flow: a runtime that may die between any two awaits and starts
 * again from the last progress it saved, against the Core service.
 */
module FormalFlow {
  import opened Common
  import opened FormalCore

  // ----------------------------------------------------------------- progress

  /** The facts a flow is started for. */
  datatype Flow = Flow(projectId: string, submissionId: string, workVersionId: string, snapshotId: string,
                       manifestHash: string, profileHash: string, readinessId: string, taskId: string)

  datatype EvidenceRef = EvidenceRef(id: string, manifestHash: string)

  datatype JobRecord = JobRecord(jobId: string, state: JobState, evidence: Option<EvidenceRef>)

  datatype Status = AwaitingInputConfirmation | InProgress | AwaitingGateApproval

  datatype Progress = Progress(status: Status, flow: Flow, approvalId: string, preview: Preview,
                               approval: Option<Approval>, jobs: map<Op, JobRecord>, evaluation: Option<Evaluation>)

  datatype BlockedOn = InputConfirmation | RunningJob | GateApproval

  datatype Failure =
    | CoreRefused | InputBindingMismatch | ConstraintsIncomplete | JobBindingMismatch | JobFailed(state: JobState)
    | EvidenceBindingMismatch | EvaluationFailed | SubmissionBindingMismatch
    | ReleaseNotReady | ReleaseMissing | ReleaseBindingMismatch

  datatype Outcome = Blocked(on: BlockedOn) | Threw(failure: Failure) | Died

  /** `initialize`, with the preview Core returned; `hash` stands for the digest. */
  function Initialize(hash: string -> string, flow: Flow, preview: Preview): Result<Progress, Failure>
  {
    if preview.workVersionId != flow.workVersionId || preview.snapshotId != flow.snapshotId
       || preview.readinessId != flow.readinessId || preview.taskId != flow.taskId
    then Err(InputBindingMismatch)
    else if !preview.constraintsComplete then Err(ConstraintsIncomplete)
    else Ok(Progress(AwaitingInputConfirmation, flow,
                     "fia-" + hash(flow.projectId + "\0" + preview.previewHash + "\0" + flow.taskId),
                     preview, None, map[], None))
  }

  function EvaluationId(hash: string -> string, p: Progress): string
    requires p.approval.Some?
  {
    "eval-" + hash(p.flow.submissionId + "\0" + p.flow.manifestHash + "\0" + p.approval.value.preview.inputHash)
  }

  // ------------------------------------------------------------------- checks

  predicate VerifyApproval(p: Progress, a: Approval)
  {
    && a.id == p.approvalId
    && a.preview.(constraintsComplete := p.preview.constraintsComplete) == p.preview
  }

  predicate VerifyJob(p: Progress, op: Op, job: Job)
  {
    && p.approval.Some? && job.op == op && job.formal
    && job.approvalId == p.approval.value.id
    && job.snapshotId == p.approval.value.preview.snapshotId
    && job.inputHash == p.approval.value.preview.inputHash
    && job.toolchainHash == p.approval.value.preview.toolchainHash
  }

  predicate VerifyEvidence(p: Progress, op: Op, jobId: string, e: Evidence)
  {
    && p.approval.Some? && e.jobId == jobId && e.op == op && e.formal && e.runState == Succeeded
    && e.projectId == p.flow.projectId
    && e.inputHash == p.approval.value.preview.inputHash
    && e.toolchainHash == p.approval.value.preview.toolchainHash
    && forall i :: 0 <= i < |e.entries| ==> e.entries[i].full && !e.entries[i].corrupt
  }

  predicate VerifyEvaluation(p: Progress, e: Evaluation)
  {
    && e.projectId == p.flow.projectId && e.submissionId == p.flow.submissionId
    && e.workVersionId == p.flow.workVersionId && e.snapshotId == p.flow.snapshotId
    && e.manifestHash == p.flow.manifestHash && e.profileHash == p.flow.profileHash
    && e.passed && e.sealedHash.Some? && e.releaseId.Some?
  }

  // -------------------------------------------------------------- the runtime

  /** Where `advance` is: about to ask Core, about to save, or not running. `p` is its local progress. */
  datatype Pc =
    | Stopped(outcome: Outcome)
    | NeedApproval(p: Progress)
    | NeedJob(p: Progress, op: Op)
    | NeedEvidence(p: Progress, op: Op, job: Job)
    | NeedEvaluation(p: Progress)
    | NeedSubmission(p: Progress)
    | Save(p: Progress, next: Pc)

  function Enter(p: Progress): Pc
  {
    if p.approval.None? then NeedApproval(p) else NeedJob(p, ValidateSources)
  }

  function RequestOf(hash: string -> string, pc: Pc): Request
    requires !pc.Stopped? && !pc.Save?
    requires !pc.NeedApproval? ==> pc.p.approval.Some?
    requires pc.NeedSubmission? ==> pc.p.evaluation.Some?
  {
    match pc
    case NeedApproval(p) => GetApproval(p.approvalId)
    case NeedJob(p, op) =>
      if op in p.jobs then GetJob(p.jobs[op].jobId)
      else SubmitJob(op, p.approval.value.id, JobKey(p.approval.value.id, op))
    case NeedEvidence(p, op, job) =>
      if op in p.jobs && p.jobs[op].evidence.Some? then GetEvidence(job.id) else FreezeEvidence(job.id)
    case NeedEvaluation(p) => CreateEvaluation(EvaluationId(hash, p))
    case NeedSubmission(p) => SubmitGate(p.flow.submissionId, p.evaluation.value.id, p.evaluation.value.resultHash)
  }

  function OnApproval(p: Progress, reply: Reply): Pc
  {
    if reply.NotFound? then Stopped(Blocked(InputConfirmation))
    else if !reply.ApprovalReply? then Stopped(Threw(CoreRefused))
    else if !VerifyApproval(p, reply.approval) then Stopped(Threw(InputBindingMismatch))
    else
      var p' := p.(status := InProgress, approval := Some(reply.approval));
      Save(p', NeedJob(p', ValidateSources))
  }

  function WithJobRecord(p: Progress, op: Op, job: Job): Progress
  {
    p.(status := InProgress,
       jobs := p.jobs[op := JobRecord(job.id, job.state, if op in p.jobs then p.jobs[op].evidence else None)])
  }

  function OnJob(p: Progress, op: Op, reply: Reply): Pc
  {
    if !reply.JobReply? then Stopped(Threw(CoreRefused))
    else if !VerifyJob(p, op, reply.job) then Stopped(Threw(JobBindingMismatch))
    else
      var p' := WithJobRecord(p, op, reply.job);
      Save(p', if !Terminal(reply.job.state) then Stopped(Blocked(RunningJob))
               else if reply.job.state != Succeeded then Stopped(Threw(JobFailed(reply.job.state)))
               else NeedEvidence(p', op, reply.job))
  }

  function EnterEvaluation(p: Progress): Pc
  {
    if p.evaluation.None? then NeedEvaluation(p)
    else if VerifyEvaluation(p, p.evaluation.value) then NeedSubmission(p)
    else Stopped(Threw(EvaluationFailed))
  }

  function After(p: Progress, op: Op): Pc
  {
    if op == Implement then EnterEvaluation(p) else NeedJob(p, OPS[Rank(op) + 1])
  }

  function WithEvidenceRef(p: Progress, op: Op, job: Job, e: Evidence): Progress
  {
    p.(jobs := p.jobs[op := JobRecord(job.id, job.state, Some(EvidenceRef(e.id, e.manifestHash)))])
  }

  function OnEvidence(p: Progress, op: Op, job: Job, reply: Reply): Pc
  {
    if !reply.EvidenceReply? then Stopped(Threw(CoreRefused))
    else if !VerifyEvidence(p, op, job.id, reply.evidence) then Stopped(Threw(EvidenceBindingMismatch))
    else if op in p.jobs && p.jobs[op].evidence.Some? then
      if p.jobs[op].evidence.value == EvidenceRef(reply.evidence.id, reply.evidence.manifestHash) then After(p, op)
      else Stopped(Threw(EvidenceBindingMismatch))
    else
      var p' := WithEvidenceRef(p, op, job, reply.evidence);
      Save(p', After(p', op))
  }

  function OnEvaluation(hash: string -> string, p: Progress, reply: Reply): Pc
    requires p.approval.Some?
  {
    if !reply.EvaluationReply? then Stopped(Threw(CoreRefused))
    else if reply.evaluation.id != EvaluationId(hash, p) || !VerifyEvaluation(p, reply.evaluation)
    then Stopped(Threw(EvaluationFailed))
    else
      var p' := p.(evaluation := Some(reply.evaluation));
      Save(p', NeedSubmission(p'))
  }

  function OnSubmission(p: Progress, reply: Reply): Pc
    requires p.evaluation.Some?
  {
    if !reply.SubmissionReply? then Stopped(Threw(CoreRefused))
    else if reply.submission
            != Submission(p.flow.submissionId, p.evaluation.value.id, p.evaluation.value.resultHash)
    then Stopped(Threw(SubmissionBindingMismatch))
    else
      var p' := p.(status := AwaitingGateApproval);
      Save(p', Stopped(Blocked(GateApproval)))
  }

  function OnReply(hash: string -> string, pc: Pc, reply: Reply): Pc
    requires !pc.Stopped? && !pc.Save?
    requires !pc.NeedApproval? ==> pc.p.approval.Some?
    requires pc.NeedSubmission? ==> pc.p.evaluation.Some?
  {
    match pc
    case NeedApproval(p) => OnApproval(p, reply)
    case NeedJob(p, op) => OnJob(p, op, reply)
    case NeedEvidence(p, op, job) => OnEvidence(p, op, job, reply)
    case NeedEvaluation(p) => OnEvaluation(hash, p, reply)
    case NeedSubmission(p) => OnSubmission(p, reply)
  }

  // ------------------------------------------------------------------- worlds

  datatype World = World(core: Core, saved: Progress, pc: Pc)

  datatype Action =
    | Start                                        // a stopped runtime reads the saved progress and enters advance
    | Deliver(choice: Choice)                      // Core answers the pending request and the reply arrives
    | LoseReply(lost: Choice)                      // Core acts on the request, and the runtime dies before the reply
    | Persist                                      // the pending progress is saved
    | Crash                                        // the runtime dies where it stands
    | Confirm(approval: Approval)                  // a person confirms a formal input
    | JobMoves(jobId: string, state: JobState)     // a job runs in Core
    | Foreign(request: Request, theirs: Choice)     // another client of Core

  predicate Asking(pc: Pc)
  {
    && !pc.Stopped? && !pc.Save?
    && (!pc.NeedApproval? ==> pc.p.approval.Some?)
    && (pc.NeedSubmission? ==> pc.p.evaluation.Some?)
  }

  /** Other clients do not use this flow's keys. */
  predicate Enabled(w: World, a: Action)
  {
    match a
    case Start => w.pc.Stopped?
    case Deliver(_) => Asking(w.pc)
    case LoseReply(_) => Asking(w.pc)
    case Persist => w.pc.Save?
    case Crash => true
    case Confirm(_) => true
    case JobMoves(_, _) => true
    case Foreign(request, _) => request.SubmitJob? ==> forall op :: request.key != JobKey(w.saved.approvalId, op)
  }

  function Step(hash: string -> string, w: World, a: Action): World
    requires Enabled(w, a)
  {
    match a
    case Start => w.(pc := Enter(w.saved))
    case Deliver(c) =>
      (var (core, reply) := Handle(w.core, RequestOf(hash, w.pc), c);
       World(core, w.saved, OnReply(hash, w.pc, reply)))
    case LoseReply(c) => World(Handle(w.core, RequestOf(hash, w.pc), c).0, w.saved, Stopped(Died))
    case Persist => World(w.core, w.pc.p, w.pc.next)
    case Crash => w.(pc := Stopped(Died))
    case Confirm(approval) => w.(core := Confirmed(w.core, approval))
    case JobMoves(jobId, state) => w.(core := Progressed(w.core, jobId, state))
    case Foreign(request, c) => w.(core := Handle(w.core, request, c).0)
  }

  predicate Possible(hash: string -> string, w: World, actions: seq<Action>)
    decreases |actions|
  {
    actions == [] || (Enabled(w, actions[0]) && Possible(hash, Step(hash, w, actions[0]), actions[1..]))
  }

  function Run(hash: string -> string, w: World, actions: seq<Action>): World
    requires Possible(hash, w, actions)
    decreases |actions|
  {
    if actions == [] then w else Run(hash, Step(hash, w, actions[0]), actions[1..])
  }

  lemma {:induction false} RunAppend(hash: string -> string, w: World, actions: seq<Action>, more: seq<Action>)
    requires Possible(hash, w, actions) && Possible(hash, Run(hash, w, actions), more)
    ensures Possible(hash, w, actions + more)
    ensures Run(hash, w, actions + more) == Run(hash, Run(hash, w, actions), more)
    decreases |actions|
  {
    if actions == [] {
      assert actions + more == more;
    } else {
      assert (actions + more)[1..] == actions[1..] + more;
      RunAppend(hash, Step(hash, w, actions[0]), actions[1..], more);
    }
  }

  // ---------------------------------------------------------------- invariant

  predicate Evidenced(p: Progress, op: Op)
  {
    op in p.jobs && p.jobs[op].evidence.Some?
  }

  predicate EvidencedBefore(p: Progress, op: Op)
  {
    forall earlier :: Rank(earlier) < Rank(op) ==> Evidenced(p, earlier)
  }

  predicate AllEvidenced(p: Progress)
  {
    forall op :: Evidenced(p, op)
  }

  /** The evidence recorded for an operation is in Core, verified, and of a job that succeeded. */
  predicate EvidenceBound(core: Core, p: Progress, op: Op)
    requires Evidenced(p, op)
  {
    var r := p.jobs[op];
    && r.state == Succeeded && r.jobId in core.jobs && core.jobs[r.jobId].state == Succeeded
    && r.jobId in core.evidence
    && r.evidence.value == EvidenceRef(core.evidence[r.jobId].id, core.evidence[r.jobId].manifestHash)
    && VerifyEvidence(p, op, r.jobId, core.evidence[r.jobId])
  }

  /** The job recorded for an operation is the one submitted under its key, bound to the approval. */
  predicate JobBound(core: Core, p: Progress, op: Op)
    requires op in p.jobs
  {
    var key := JobKey(p.approvalId, op);
    && key in core.intents && core.intents[key].jobId == p.jobs[op].jobId
    && p.jobs[op].jobId in core.jobs && VerifyJob(p, op, core.jobs[p.jobs[op].jobId])
    && EvidencedBefore(p, op)
    && (Evidenced(p, op) ==> EvidenceBound(core, p, op))
  }

  predicate ApprovalBound(core: Core, p: Progress)
  {
    && p.approval.Some? && p.approvalId in core.approvals
    && p.approval.value == core.approvals[p.approvalId] && VerifyApproval(p, p.approval.value)
  }

  predicate EvaluationBound(hash: string -> string, core: Core, p: Progress)
    requires p.evaluation.Some?
  {
    && p.approval.Some? && AllEvidenced(p) && VerifyEvaluation(p, p.evaluation.value)
    && p.evaluation.value.id == EvaluationId(hash, p)
    && EvaluationId(hash, p) in core.evaluations && core.evaluations[EvaluationId(hash, p)] == p.evaluation.value
  }

  /** Everything a saved progress records is on record in Core and verified. */
  predicate Recorded(hash: string -> string, core: Core, p: Progress)
  {
    && (p.approval.Some? ==> ApprovalBound(core, p))
    && (forall op :: op in p.jobs ==> p.approval.Some? && JobBound(core, p, op))
    && (p.evaluation.Some? ==> EvaluationBound(hash, core, p))
    && (p.status == AwaitingGateApproval ==> p.evaluation.Some?)
  }

  /** An operation has been submitted only once those before it are saved with their evidence. */
  predicate KeysInOrder(core: Core, p: Progress)
  {
    forall op :: JobKey(p.approvalId, op) in core.intents ==>
      && p.approval.Some? && EvidencedBefore(p, op)
      && core.intents[JobKey(p.approvalId, op)].op == op
      && core.intents[JobKey(p.approvalId, op)].approvalId == p.approvalId
  }

  /** What `q` records beyond `p`; nothing recorded in `p` has changed. */
  predicate Extends(p: Progress, q: Progress)
  {
    && q.flow == p.flow && q.approvalId == p.approvalId && q.preview == p.preview
    && (p.approval.Some? ==> q.approval == p.approval)
    && (forall op :: op in p.jobs ==>
          && op in q.jobs && q.jobs[op].jobId == p.jobs[op].jobId
          && (p.jobs[op].evidence.Some? ==> q.jobs[op].evidence == p.jobs[op].evidence))
    && (p.evaluation.Some? ==> q.evaluation == p.evaluation)
  }

  /** The runtime only ever asks Core on behalf of progress it has saved. */
  predicate PcBound(hash: string -> string, core: Core, saved: Progress, pc: Pc)
    decreases pc
  {
    match pc
    case Stopped(_) => true
    case NeedApproval(p) => p == saved && p.approval.None?
    case NeedJob(p, op) => p == saved && p.approval.Some? && EvidencedBefore(p, op)
    case NeedEvidence(p, op, job) =>
      && p == saved && p.approval.Some? && EvidencedBefore(p, op)
      && op in p.jobs && p.jobs[op].jobId == job.id && p.jobs[op].state == job.state == Succeeded
      && job.id in core.jobs && core.jobs[job.id].state == Succeeded
    case NeedEvaluation(p) => p == saved && p.approval.Some? && AllEvidenced(p) && p.evaluation.None?
    case NeedSubmission(p) => p == saved && p.approval.Some? && p.evaluation.Some?
    case Save(p, next) => Extends(saved, p) && Recorded(hash, core, p) && PcBound(hash, core, p, next)
  }

  ghost predicate Inv(hash: string -> string, w: World)
  {
    && Sound(w.core)
    && Recorded(hash, w.core, w.saved)
    && KeysInOrder(w.core, w.saved)
    && PcBound(hash, w.core, w.saved, w.pc)
  }
}
