/**
 * The Core service as the formal G4 flow sees it: requests are answered from
 * durable, immutable records, and a submission is idempotent per key.
 */
module FormalCore {
  import opened Common

  /** The operations of the flow, in the order they are run. */
  datatype Op = ValidateSources | Simulate | Synthesize | Implement

  const OPS: seq<Op> := [ValidateSources, Simulate, Synthesize, Implement]

  function Rank(op: Op): (i: nat)
    ensures i < |OPS| && OPS[i] == op
  {
    match op
    case ValidateSources => 0
    case Simulate => 1
    case Synthesize => 2
    case Implement => 3
  }

  datatype JobState =
    | Submitted | Queued | Preparing | Running | Cancelling
    | Succeeded | Failed | Cancelled | Timeout | Lost | UnknownEffect | Rejected

  predicate Terminal(s: JobState)
  {
    s in {Succeeded, Failed, Cancelled, Timeout, Lost, UnknownEffect, Rejected}
  }

  datatype Preview = Preview(workVersionId: string, snapshotId: string, readinessId: string, taskId: string,
                             inputHash: string, previewHash: string, toolchainHash: string, constraintsComplete: bool)

  datatype Approval = Approval(id: string, preview: Preview)

  datatype Job = Job(id: string, state: JobState, op: Op, formal: bool, approvalId: string, snapshotId: string,
                     inputHash: string, toolchainHash: string)

  datatype Entry = Entry(full: bool, corrupt: bool)

  datatype Evidence = Evidence(id: string, jobId: string, projectId: string, runState: JobState, op: Op, formal: bool,
                               inputHash: string, toolchainHash: string, manifestHash: string, entries: seq<Entry>)

  datatype Evaluation = Evaluation(id: string, projectId: string, submissionId: string, workVersionId: string,
                                   snapshotId: string, manifestHash: string, profileHash: string, resultHash: string,
                                   passed: bool, sealedHash: Option<string>, releaseId: Option<string>)

  datatype Submission = Submission(id: string, evaluationId: string, resultHash: string)

  datatype Release = Release(id: string, isSealed: bool, projectId: string, workVersionId: string,
                             evaluationId: string, candidateHash: string, approvalId: string)

  // --------------------------------------------------------------- the server

  /** What a key was first used for; a replay must ask for the same. */
  datatype Intent = Intent(op: Op, approvalId: string, jobId: string)

  /** A job creation, as it happened. */
  datatype Creation = Creation(key: string, intent: Intent)

  datatype Core = Core(approvals: map<string, Approval>, intents: map<string, Intent>, jobs: map<string, Job>,
                       evidence: map<string, Evidence>, evaluations: map<string, Evaluation>, created: seq<Creation>)

  datatype Request =
    | GetApproval(approvalId: string)
    | SubmitJob(op: Op, forApproval: string, key: string)
    | GetJob(jobId: string)
    | FreezeEvidence(ofJob: string)
    | GetEvidence(frozenJob: string)
    | CreateEvaluation(evaluationId: string)
    | SubmitGate(submissionId: string, passedEvaluation: string, resultHash: string)

  datatype Reply =
    | Refused
    | NotFound
    | ApprovalReply(approval: Approval)
    | JobReply(job: Job)
    | EvidenceReply(evidence: Evidence)
    | EvaluationReply(evaluation: Evaluation)
    | SubmissionReply(submission: Submission)

  /**
   * What Core decides where the protocol leaves it free: to refuse, or the
   * contents of a record it creates. Nothing is assumed about those contents.
   */
  datatype Choice =
    | Refuse
    | WithJob(newJob: Job)
    | WithEvidence(newEvidence: Evidence)
    | WithEvaluation(newEvaluation: Evaluation)
    | WithSubmission(newSubmission: Submission)

  /** A replay gets the job of the first submission; a key used for something else is a conflict. */
  function HandleSubmit(core: Core, op: Op, approvalId: string, key: string, c: Choice): (Core, Reply)
  {
    if key in core.intents then
      var intent := core.intents[key];
      if intent.op == op && intent.approvalId == approvalId && intent.jobId in core.jobs
      then (core, JobReply(core.jobs[intent.jobId]))
      else (core, Refused)
    else if c.WithJob? && c.newJob.id !in core.jobs then
      (core.(intents := core.intents[key := Intent(op, approvalId, c.newJob.id)],
             jobs := core.jobs[c.newJob.id := c.newJob],
             created := core.created + [Creation(key, Intent(op, approvalId, c.newJob.id))]),
       JobReply(c.newJob))
    else (core, Refused)
  }

  function Handle(core: Core, request: Request, c: Choice): (Core, Reply)
  {
    match request
    case GetApproval(id) =>
      (core, if c.Refuse? then Refused else if id in core.approvals then ApprovalReply(core.approvals[id]) else NotFound)
    case SubmitJob(op, approvalId, key) => HandleSubmit(core, op, approvalId, key, c)
    case GetJob(id) =>
      (core, if c.Refuse? || id !in core.jobs then Refused else JobReply(core.jobs[id]))
    case FreezeEvidence(id) =>
      if id in core.evidence then (core, EvidenceReply(core.evidence[id]))
      else if c.WithEvidence? then
        (core.(evidence := core.evidence[id := c.newEvidence]), EvidenceReply(c.newEvidence))
      else (core, Refused)
    case GetEvidence(id) =>
      (core, if c.Refuse? || id !in core.evidence then Refused else EvidenceReply(core.evidence[id]))
    case CreateEvaluation(id) =>
      if id in core.evaluations then (core, EvaluationReply(core.evaluations[id]))
      else if c.WithEvaluation? then
        (core.(evaluations := core.evaluations[id := c.newEvaluation]), EvaluationReply(c.newEvaluation))
      else (core, Refused)
    case SubmitGate(_, _, _) =>
      (core, if c.WithSubmission? then SubmissionReply(c.newSubmission) else Refused)
  }

  /** A job moves on; a terminal state is never left. */
  function Progressed(core: Core, jobId: string, state: JobState): Core
  {
    if jobId in core.jobs && !Terminal(core.jobs[jobId].state)
    then core.(jobs := core.jobs[jobId := core.jobs[jobId].(state := state)])
    else core
  }

  /** A person confirms a formal input; a confirmed approval stays as it is. */
  function Confirmed(core: Core, approval: Approval): Core
  {
    if approval.id in core.approvals then core
    else core.(approvals := core.approvals[approval.id := approval])
  }

  // ----------------------------------------------------------------- its laws

  ghost predicate JobsNamed(jobs: map<string, Job>, intents: map<string, Intent>)
  {
    && (forall id :: id in jobs ==> jobs[id].id == id)
    && (forall key :: key in intents ==> intents[key].jobId in jobs)
  }

  /** Every creation on record was made under a key in use, no key and no job twice. */
  ghost predicate CreatedOnce(created: seq<Creation>, intents: map<string, Intent>)
  {
    && (forall i :: 0 <= i < |created| ==>
          created[i].key in intents && created[i].intent == intents[created[i].key])
    && (forall i, j :: 0 <= i < j < |created| ==>
          created[i].key != created[j].key && created[i].intent.jobId != created[j].intent.jobId)
  }

  ghost predicate Sound(core: Core)
  {
    JobsNamed(core.jobs, core.intents) && CreatedOnce(core.created, core.intents)
  }

  ghost predicate SameJob(a: Job, b: Job)
  {
    b.(state := a.state) == a && (Terminal(a.state) ==> b.state == a.state)
  }

  /** The jobs created from the one state to the other. */
  function CreatedSince(before: Core, after: Core): seq<Creation>
  {
    if |before.created| <= |after.created| then after.created[|before.created|..] else []
  }

  /** What is on record stays on record. */
  ghost predicate Grows(a: Core, b: Core)
  {
    && (forall id :: id in a.approvals ==> id in b.approvals && b.approvals[id] == a.approvals[id])
    && (forall key :: key in a.intents ==> key in b.intents && b.intents[key] == a.intents[key])
    && (forall id :: id in a.jobs ==> id in b.jobs && SameJob(a.jobs[id], b.jobs[id]))
    && (forall id :: id in a.evidence ==> id in b.evidence && b.evidence[id] == a.evidence[id])
    && (forall id :: id in a.evaluations ==> id in b.evaluations && b.evaluations[id] == a.evaluations[id])
    && a.created <= b.created
  }

  lemma CreatedOnceMore(core: Core, key: string, intent: Intent)
    requires Sound(core) && key !in core.intents && intent.jobId !in core.jobs
    ensures CreatedOnce(core.created + [Creation(key, intent)], core.intents[key := intent])
  {
    var after := core.created + [Creation(key, intent)];
    assert forall i :: 0 <= i < |core.created| ==> after[i] == core.created[i];
  }

  lemma SubmitKeeps(core: Core, op: Op, approvalId: string, key: string, c: Choice)
    requires Sound(core)
    ensures Sound(HandleSubmit(core, op, approvalId, key, c).0)
    ensures Grows(core, HandleSubmit(core, op, approvalId, key, c).0)
    ensures forall k :: k in HandleSubmit(core, op, approvalId, key, c).0.intents ==> k in core.intents || k == key
  {
    hide CreatedOnce, JobsNamed, Grows;
    GrowsSame(core);
    if c.WithJob? && key !in core.intents && c.newJob.id !in core.jobs {
      var intent := Intent(op, approvalId, c.newJob.id);
      CreatedOnceMore(core, key, intent);
      NamedMore(core, key, intent, c.newJob);
      GrowsMore(core, key, intent, c.newJob);
    }
  }

  lemma NamedMore(core: Core, key: string, intent: Intent, job: Job)
    requires JobsNamed(core.jobs, core.intents) && job.id == intent.jobId
    ensures JobsNamed(core.jobs[job.id := job], core.intents[key := intent])
  {
  }

  lemma GrowsMore(core: Core, key: string, intent: Intent, job: Job)
    requires key !in core.intents && job.id !in core.jobs
    ensures Grows(core, core.(intents := core.intents[key := intent], jobs := core.jobs[job.id := job],
                              created := core.created + [Creation(key, intent)]))
  {
  }

  lemma GrowsSame(core: Core)
    ensures Grows(core, core)
  {
  }

  lemma HandleKeeps(core: Core, request: Request, c: Choice)
    requires Sound(core)
    ensures Sound(Handle(core, request, c).0) && Grows(core, Handle(core, request, c).0)
    ensures request.SubmitJob? ==>
      forall key :: key in Handle(core, request, c).0.intents ==> key in core.intents || key == request.key
    ensures !request.SubmitJob? ==> Handle(core, request, c).0.intents == core.intents
  {
    hide HandleSubmit;
    if request.SubmitJob? {
      SubmitKeeps(core, request.op, request.forApproval, request.key, c);
    } else {
      hide CreatedOnce, JobsNamed, Grows;
      GrowsSame(core);
      var after := Handle(core, request, c).0;
      assert after == core.(evidence := after.evidence, evaluations := after.evaluations);
      RecordsGrow(core, after);
    }
  }

  /** Evidence and evaluations that are added leave the rest as it was. */
  lemma RecordsGrow(a: Core, b: Core)
    requires b == a.(evidence := b.evidence, evaluations := b.evaluations)
    requires forall id :: id in a.evidence ==> id in b.evidence && b.evidence[id] == a.evidence[id]
    requires forall id :: id in a.evaluations ==> id in b.evaluations && b.evaluations[id] == a.evaluations[id]
    ensures Grows(a, b)
  {
  }

  lemma ProgressKeeps(core: Core, jobId: string, state: JobState)
    requires Sound(core)
    ensures Sound(Progressed(core, jobId, state)) && Grows(core, Progressed(core, jobId, state))
  {
    hide CreatedOnce, Grows, JobsNamed, Terminal;
    GrowsSame(core);
    if jobId in core.jobs && !Terminal(core.jobs[jobId].state) {
      NamedStill(core, jobId, core.jobs[jobId].(state := state));
      GrowsMoved(core, jobId, state);
    }
  }

  lemma NamedStill(core: Core, jobId: string, job: Job)
    requires JobsNamed(core.jobs, core.intents) && jobId in core.jobs && job.id == core.jobs[jobId].id
    ensures JobsNamed(core.jobs[jobId := job], core.intents)
  {
  }

  lemma GrowsMoved(core: Core, jobId: string, state: JobState)
    requires jobId in core.jobs && !Terminal(core.jobs[jobId].state)
    ensures Grows(core, core.(jobs := core.jobs[jobId := core.jobs[jobId].(state := state)]))
  {
  }

  lemma ConfirmKeeps(core: Core, approval: Approval)
    requires Sound(core)
    ensures Sound(Confirmed(core, approval)) && Grows(core, Confirmed(core, approval))
  {
    hide CreatedOnce, JobsNamed;
  }

  lemma GrowsTransitive(a: Core, b: Core, c: Core)
    requires Grows(a, b) && Grows(b, c)
    ensures Grows(a, c)
  {
  }

  // --------------------------------------------------------------------- keys

  function OpName(op: Op): string
  {
    match op
    case ValidateSources => "validate_sources"
    case Simulate => "simulate"
    case Synthesize => "synthesize"
    case Implement => "implement"
  }

  /** The idempotency key of a job: the same after every restart. */
  function JobKey(approvalId: string, op: Op): string
  {
    "formal-job-" + approvalId + "-" + OpName(op)
  }

  /** Length of what follows the last dash. */
  function LastPart(s: string): nat
  {
    if s == "" || s[|s| - 1] == '-' then 0 else 1 + LastPart(s[..|s| - 1])
  }

  lemma {:induction false} LastPartOf(head: string, name: string)
    requires head != "" && head[|head| - 1] == '-' && '-' !in name
    ensures LastPart(head + name) == |name|
  {
    if name == "" {
      assert head + name == head;
    } else {
      var rest := name[..|name| - 1];
      assert (head + name)[..|head + name| - 1] == head + rest;
      assert (head + name)[|head + name| - 1] == name[|name| - 1];
      LastPartOf(head, rest);
    }
  }

  lemma KeyParts(approvalId: string, op: Op)
    ensures LastPart(JobKey(approvalId, op)) == |OpName(op)|
    ensures |JobKey(approvalId, op)| == 12 + |approvalId| + |OpName(op)|
    ensures JobKey(approvalId, op)[11..11 + |approvalId|] == approvalId
  {
    var start, name := "formal-job-", "-" + OpName(op);
    AppendAssoc(start + approvalId, "-", OpName(op));
    LastPartOf(start + approvalId + "-", OpName(op));
    AppendAssoc(start, approvalId, name);
    assert (start + (approvalId + name))[|start|..] == approvalId + name;
  }

  /** Two jobs share a key only if they are the same operation of the same approval. */
  lemma JobKeyInjective(a: string, op: Op, b: string, op': Op)
    requires JobKey(a, op) == JobKey(b, op')
    ensures a == b && op == op'
  {
    hide JobKey;
    KeyParts(a, op);
    KeyParts(b, op');
  }
}
