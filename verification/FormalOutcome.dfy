/**
 * What a call of `advance` has asked Core and been told, and what it may return
 * for that: the checks field by field, apart from the state machine.
 */
module FormalOutcome {
  import opened Common
  import opened FormalCore
  import opened FormalFlow

  /** What a request is made for. */
  datatype Item = ForApproval | ForJob(op: Op) | ForEvidence(op: Op) | ForEvaluation | ForGate

  /** A request whose reply has arrived, with the progress that was saved when it was made. */
  datatype Exchange = Exchange(saved: Progress, item: Item, request: Request, reply: Reply)

  /** What a call asks, in this order, as long as nothing stops it. */
  function Agenda(p: Progress): seq<Item>
  {
    (if p.approval.None? then [ForApproval] else [])
    + [ForJob(ValidateSources), ForEvidence(ValidateSources), ForJob(Simulate), ForEvidence(Simulate),
       ForJob(Synthesize), ForEvidence(Synthesize), ForJob(Implement), ForEvidence(Implement)]
    + (if p.evaluation.None? then [ForEvaluation] else []) + [ForGate]
  }

  /** The request is the one for its item, from what has been saved. */
  predicate Rightly(hash: string -> string, x: Exchange)
  {
    var p := x.saved;
    match x.item
    case ForApproval => x.request == GetApproval(p.approvalId)
    case ForJob(op) =>
      && p.approval.Some?
      && x.request == if op in p.jobs then GetJob(p.jobs[op].jobId)
                      else SubmitJob(op, p.approval.value.id, JobKey(p.approval.value.id, op))
    case ForEvidence(op) =>
      && p.approval.Some? && op in p.jobs && p.jobs[op].state == Succeeded
      && x.request == if p.jobs[op].evidence.Some? then GetEvidence(p.jobs[op].jobId) else FreezeEvidence(p.jobs[op].jobId)
    case ForEvaluation =>
      && p.approval.Some? && p.evaluation.None?
      && x.request == CreateEvaluation("eval-" + hash(p.flow.submissionId + "\0" + p.flow.manifestHash + "\0"
                                                      + p.approval.value.preview.inputHash))
    case ForGate =>
      && p.approval.Some? && p.evaluation.Some?
      && x.request == SubmitGate(p.flow.submissionId, p.evaluation.value.id, p.evaluation.value.resultHash)
  }

  /** The reply is one to this kind of request. */
  predicate InKind(x: Exchange)
  {
    match x.item
    case ForApproval => x.reply.ApprovalReply?
    case ForJob(_) => x.reply.JobReply?
    case ForEvidence(_) => x.reply.EvidenceReply?
    case ForEvaluation => x.reply.EvaluationReply?
    case ForGate => x.reply.SubmissionReply?
  }

  // ------------------------------------------------- the checks, field by field

  predicate ApprovalFits(p: Progress, a: Approval)
  {
    a == Approval(p.approvalId, p.preview.(constraintsComplete := a.preview.constraintsComplete))
  }

  predicate JobFits(p: Progress, op: Op, j: Job)
    requires p.approval.Some?
  {
    var a := p.approval.value;
    j == Job(j.id, j.state, op, true, a.id, a.preview.snapshotId, a.preview.inputHash, a.preview.toolchainHash)
  }

  predicate EvidenceFits(p: Progress, op: Op, jobId: string, e: Evidence)
    requires p.approval.Some?
  {
    var a := p.approval.value;
    && e == Evidence(e.id, jobId, p.flow.projectId, Succeeded, op, true, a.preview.inputHash, a.preview.toolchainHash,
                     e.manifestHash, e.entries)
    && forall i :: 0 <= i < |e.entries| ==> e.entries[i] == Entry(true, false)
  }

  predicate EvaluationFits(p: Progress, e: Evaluation)
  {
    && e == Evaluation(e.id, p.flow.projectId, p.flow.submissionId, p.flow.workVersionId, p.flow.snapshotId,
                       p.flow.manifestHash, p.flow.profileHash, e.resultHash, true, e.sealedHash, e.releaseId)
    && e.sealedHash != None && e.releaseId != None
  }

  /** The reply is in kind and passes the check for it; of a job only its binding is checked here, not its state. */
  predicate Fits(hash: string -> string, x: Exchange)
    requires Rightly(hash, x)
  {
    InKind(x) &&
    match x.item
    case ForApproval => ApprovalFits(x.saved, x.reply.approval)
    case ForJob(op) => JobFits(x.saved, op, x.reply.job)
    case ForEvidence(op) =>
      var r, e := x.saved.jobs[op], x.reply.evidence;
      && EvidenceFits(x.saved, op, r.jobId, e)
      && (r.evidence.Some? ==> e.id == r.evidence.value.id && e.manifestHash == r.evidence.value.manifestHash)
    case ForEvaluation => x.reply.evaluation.id == x.request.evaluationId && EvaluationFits(x.saved, x.reply.evaluation)
    case ForGate => x.reply.submission == Submission(x.request.submissionId, x.request.passedEvaluation, x.request.resultHash)
  }

  /** The progress after the reply: a reply that fits is noted, any other changes nothing. */
  function Learned(hash: string -> string, x: Exchange): Progress
    requires Rightly(hash, x)
  {
    var p := x.saved;
    if !Fits(hash, x) then p
    else
      match x.item
      case ForApproval => p.(status := InProgress, approval := Some(x.reply.approval))
      case ForJob(op) =>
        var kept := if op in p.jobs then p.jobs[op].evidence else None;
        p.(status := InProgress, jobs := p.jobs[op := JobRecord(x.reply.job.id, x.reply.job.state, kept)])
      case ForEvidence(op) =>
        var e := x.reply.evidence;
        p.(jobs := p.jobs[op := p.jobs[op].(evidence := Some(EvidenceRef(e.id, e.manifestHash)))])
      case ForEvaluation => p.(evaluation := Some(x.reply.evaluation))
      case ForGate => p.(status := AwaitingGateApproval)
  }

  /** With the last evidence in place an evaluation recorded earlier is checked again. */
  predicate RecordedFails(x: Exchange)
  {
    x.item == ForEvidence(Implement) && x.saved.evaluation.Some? && !EvaluationFits(x.saved, x.saved.evaluation.value)
  }

  /** The call goes on after this reply. */
  predicate GoesOn(hash: string -> string, x: Exchange)
    requires Rightly(hash, x)
  {
    && Fits(hash, x) && x.item != ForGate && !RecordedFails(x)
    && (x.item.ForJob? ==> x.reply.job.state == Succeeded)
  }

  /** When a call ends with each of its outcomes, if this was the last reply that arrived. */
  ghost predicate Accounts(hash: string -> string, x: Exchange, outcome: Outcome)
    requires Rightly(hash, x)
  {
    && (outcome == Blocked(InputConfirmation) <==> x.item == ForApproval && x.reply == NotFound)
    && (outcome == Blocked(RunningJob) <==>
          x.item.ForJob? && Fits(hash, x) && x.reply.job.state in {Submitted, Queued, Preparing, Running, Cancelling})
    && (outcome == Blocked(GateApproval) <==> x.item == ForGate && Fits(hash, x))
    && (outcome == Threw(CoreRefused) <==> !InKind(x) && !(x.item == ForApproval && x.reply == NotFound))
    && (outcome == Threw(InputBindingMismatch) <==> x.item == ForApproval && InKind(x) && !Fits(hash, x))
    && (outcome == Threw(JobBindingMismatch) <==> x.item.ForJob? && InKind(x) && !Fits(hash, x))
    && (forall s :: outcome == Threw(JobFailed(s)) <==>
          && x.item.ForJob? && Fits(hash, x) && x.reply.job.state == s
          && s in {Failed, Cancelled, Timeout, Lost, UnknownEffect, Rejected})
    && (outcome == Threw(EvidenceBindingMismatch) <==> x.item.ForEvidence? && InKind(x) && !Fits(hash, x))
    && (outcome == Threw(EvaluationFailed) <==>
          (x.item == ForEvaluation && InKind(x) && !Fits(hash, x)) || (RecordedFails(x) && Fits(hash, x)))
    && (outcome == Threw(SubmissionBindingMismatch) <==> x.item == ForGate && InKind(x) && !Fits(hash, x))
  }

  // --------------------------------------------------------------- transcripts

  function Now(hash: string -> string, begun: Progress, xs: seq<Exchange>): Progress
    requires xs != [] ==> Rightly(hash, xs[|xs| - 1])
  {
    if xs == [] then begun else Learned(hash, xs[|xs| - 1])
  }

  /** The items are asked for in the order of the agenda, each from what the reply before it has left. */
  ghost predicate Told(hash: string -> string, begun: Progress, xs: seq<Exchange>)
  {
    && |xs| <= |Agenda(begun)|
    && (forall i :: 0 <= i < |xs| ==> xs[i].item == Agenda(begun)[i] && Rightly(hash, xs[i]))
    && (forall i :: 0 <= i < |xs| ==> xs[i].saved == Now(hash, begun, xs[..i]))
  }

  /** Nothing has stopped the call so far. */
  ghost predicate Smooth(hash: string -> string, begun: Progress, xs: seq<Exchange>)
  {
    Told(hash, begun, xs) && forall i :: 0 <= i < |xs| ==> GoesOn(hash, xs[i])
  }

  /** The call has ended with the last reply, and what it has learned is saved. */
  ghost predicate Ended(hash: string -> string, begun: Progress, xs: seq<Exchange>, outcome: Outcome, saved: Progress)
  {
    && xs != [] && Told(hash, begun, xs) && Smooth(hash, begun, xs[..|xs| - 1])
    && Accounts(hash, xs[|xs| - 1], outcome) && saved == Now(hash, begun, xs)
  }

  /** The process has died; what the last reply said may have been saved or not. */
  ghost predicate CutOff(hash: string -> string, begun: Progress, xs: seq<Exchange>, saved: Progress)
  {
    && Told(hash, begun, xs) && (xs != [] ==> Smooth(hash, begun, xs[..|xs| - 1]))
    && (saved == Now(hash, begun, xs) || (xs != [] && saved == xs[|xs| - 1].saved))
  }

  ghost predicate Returned(hash: string -> string, begun: Progress, xs: seq<Exchange>, outcome: Outcome, saved: Progress)
  {
    if outcome == Died then CutOff(hash, begun, xs, saved) else Ended(hash, begun, xs, outcome, saved)
  }

  lemma NowBefore(hash: string -> string, begun: Progress, xs: seq<Exchange>, x: Exchange)
    ensures (xs + [x])[..|xs|] == xs && (xs + [x])[|xs|] == x
    ensures forall i :: 0 <= i <= |xs| ==> (xs + [x])[..i] == xs[..i]
  {
  }

  lemma ToldMore(hash: string -> string, begun: Progress, xs: seq<Exchange>, x: Exchange)
    requires Smooth(hash, begun, xs) && |xs| < |Agenda(begun)| && x.item == Agenda(begun)[|xs|]
    requires Rightly(hash, x) && x.saved == Now(hash, begun, xs)
    ensures Told(hash, begun, xs + [x]) && Now(hash, begun, xs + [x]) == Learned(hash, x)
    ensures GoesOn(hash, x) ==> Smooth(hash, begun, xs + [x])
    ensures forall outcome :: Accounts(hash, x, outcome) ==> Ended(hash, begun, xs + [x], outcome, Learned(hash, x))
    ensures CutOff(hash, begun, xs + [x], x.saved) && CutOff(hash, begun, xs + [x], Learned(hash, x))
  {
    NowBefore(hash, begun, xs, x);
    hide Agenda, Rightly, Learned, GoesOn, Accounts;
    var more := xs + [x];
    forall i | 0 <= i < |more| ensures more[i].item == Agenda(begun)[i] && Rightly(hash, more[i]) {
      assert i < |xs| ==> more[i] == xs[i];
    }
    forall i | 0 <= i < |more| ensures more[i].saved == Now(hash, begun, more[..i]) {
      assert i < |xs| ==> more[i] == xs[i];
      assert xs[..|xs|] == xs;
    }
  }

  lemma CutOffHere(hash: string -> string, begun: Progress, xs: seq<Exchange>)
    requires Smooth(hash, begun, xs)
    ensures CutOff(hash, begun, xs, Now(hash, begun, xs))
  {
    hide Agenda, Rightly, Learned, GoesOn;
    if xs != [] {
      var before := xs[..|xs| - 1];
      assert forall i :: 0 <= i < |before| ==> before[i] == xs[i] && before[..i] == xs[..i];
    }
  }

  lemma NothingAsked(hash: string -> string, begun: Progress)
    ensures Smooth(hash, begun, []) && Now(hash, begun, []) == begun
  {
  }

  // ------------------------------------------------- the checks as the code has them

  lemma ChecksAgree(p: Progress, op: Op, id: string)
    ensures forall a :: VerifyApproval(p, a) <==> ApprovalFits(p, a)
    ensures p.approval.Some? ==> forall j :: VerifyJob(p, op, j) <==> JobFits(p, op, j)
    ensures p.approval.Some? ==> forall e :: VerifyEvidence(p, op, id, e) <==> EvidenceFits(p, op, id, e)
    ensures forall e :: VerifyEvaluation(p, e) <==> EvaluationFits(p, e)
  {
  }

  /** What a reply says is on record in Core. */
  predicate OnRecord(core: Core, request: Request, reply: Reply)
  {
    match reply
    case Refused => true
    case NotFound => request.GetApproval? && request.approvalId !in core.approvals
    case ApprovalReply(a) => request.GetApproval? && request.approvalId in core.approvals && core.approvals[request.approvalId] == a
    case JobReply(j) =>
      if request.GetJob? then request.jobId in core.jobs && core.jobs[request.jobId] == j
      else
        && request.SubmitJob? && request.key in core.intents
        && core.intents[request.key].op == request.op && core.intents[request.key].approvalId == request.forApproval
        && core.intents[request.key].jobId in core.jobs && core.jobs[core.intents[request.key].jobId] == j
    case EvidenceReply(e) =>
      if request.GetEvidence? then request.frozenJob in core.evidence && core.evidence[request.frozenJob] == e
      else request.FreezeEvidence? && request.ofJob in core.evidence && core.evidence[request.ofJob] == e
    case EvaluationReply(e) =>
      request.CreateEvaluation? && request.evaluationId in core.evaluations && core.evaluations[request.evaluationId] == e
    case SubmissionReply(_) => request.SubmitGate?
  }

  ghost predicate Backed(core: Core, xs: seq<Exchange>)
  {
    forall i :: 0 <= i < |xs| ==> OnRecord(core, xs[i].request, xs[i].reply)
  }

  lemma ReplyOnRecord(core: Core, request: Request, c: Choice)
    ensures var (after, reply) := Handle(core, request, c); OnRecord(after, request, reply)
  {
  }

  /** A request of the runtime itself changes no job that is on record. */
  lemma StaysOnRecord(core: Core, request: Request, reply: Reply, next: Request, c: Choice)
    requires OnRecord(core, request, reply)
    ensures OnRecord(Handle(core, next, c).0, request, reply)
  {
  }

  lemma BackedMore(core: Core, xs: seq<Exchange>, x: Exchange, c: Choice)
    requires Backed(core, xs) && x.reply == Handle(core, x.request, c).1
    ensures Backed(Handle(core, x.request, c).0, xs) && Backed(Handle(core, x.request, c).0, xs + [x])
  {
    ReplyOnRecord(core, x.request, c);
    hide Handle, OnRecord;
    forall i | 0 <= i < |xs| ensures OnRecord(Handle(core, x.request, c).0, xs[i].request, xs[i].reply) {
      StaysOnRecord(core, xs[i].request, xs[i].reply, x.request, c);
    }
  }

  // ------------------------------------------------------- what an outcome tells

  /** The job of the operation is saved as succeeded, with its evidence. */
  predicate HasEvidence(p: Progress, op: Op)
  {
    op in p.jobs && p.jobs[op].state == Succeeded && p.jobs[op].evidence.Some?
  }

  /** The place of the operation's job among the items; its evidence comes next. */
  function JobPlace(begun: Progress, op: Op): nat
  {
    (if begun.approval.None? then 1 else 0) + 2 * Rank(op)
  }

  lemma Places(begun: Progress, i: nat, op: Op)
    requires i < |Agenda(begun)|
    ensures Agenda(begun)[i] == ForJob(op) <==> i == JobPlace(begun, op)
    ensures Agenda(begun)[i] == ForEvidence(op) <==> i == JobPlace(begun, op) + 1
    ensures Agenda(begun)[i] in {ForEvaluation, ForGate} ==> JobPlace(begun, op) + 1 < i
    ensures Agenda(begun)[i] == ForApproval <==> i == 0 && begun.approval.None?
  {
    var n := JobPlace(begun, ValidateSources);
    AgendaFrom(begun);
    if i < n {
      assert Agenda(begun)[i] == ForApproval;
    } else if i < n + 8 {
      JobsAt(i - n, op);
    }
    hide Agenda;
  }

  const JOBS: seq<Item> := [ForJob(ValidateSources), ForEvidence(ValidateSources), ForJob(Simulate), ForEvidence(Simulate),
                            ForJob(Synthesize), ForEvidence(Synthesize), ForJob(Implement), ForEvidence(Implement)]

  lemma AgendaFrom(begun: Progress)
    ensures
      var n := JobPlace(begun, ValidateSources);
      && n <= 1 && (n == 1 <==> begun.approval.None?) && n + 8 < |Agenda(begun)| && |JOBS| == 8
      && (forall op :: n <= JobPlace(begun, op) == n + 2 * Rank(op) < n + 7)
      && (n == 1 ==> Agenda(begun)[0] == ForApproval)
      && (forall i :: n <= i < n + 8 ==> Agenda(begun)[i] == JOBS[i - n])
      && (forall i :: n + 8 <= i < |Agenda(begun)| ==> Agenda(begun)[i] in {ForEvaluation, ForGate})
  {
  }

  lemma JobsAt(i: nat, op: Op)
    requires i < 8
    ensures |JOBS| == 8 && (JOBS[i] == ForJob(op) <==> i == 2 * Rank(op))
    ensures JOBS[i] == ForEvidence(op) <==> i == 2 * Rank(op) + 1
    ensures JOBS[i].ForJob? || JOBS[i].ForEvidence?
  {
  }

  /** A reply about something else leaves an evidenced operation as it is. */
  lemma StaysEvidenced(hash: string -> string, x: Exchange, op: Op)
    requires Rightly(hash, x) && HasEvidence(x.saved, op) && x.item != ForJob(op) && x.item != ForEvidence(op)
    ensures HasEvidence(Learned(hash, x), op)
  {
    hide Fits;
  }

  lemma NowEvidenced(hash: string -> string, x: Exchange, op: Op)
    requires Rightly(hash, x) && GoesOn(hash, x) && x.item == ForEvidence(op)
    ensures HasEvidence(Learned(hash, x), op)
  {
  }

  /** As far as the evidence has been asked for and nothing has stopped the call, it is saved. */
  lemma {:induction false} EvidencedSoFar(hash: string -> string, begun: Progress, xs: seq<Exchange>, op: Op)
    requires Smooth(hash, begun, xs) && JobPlace(begun, op) + 1 < |xs|
    ensures HasEvidence(Now(hash, begun, xs), op)
    decreases |xs|
  {
    var n := |xs| - 1;
    var before, x := xs[..n], xs[n];
    SmoothBefore(hash, begun, xs);
    Places(begun, n, op);
    hide Agenda, Rightly, Learned, GoesOn, HasEvidence, Smooth, Told, JobPlace;
    if n == JobPlace(begun, op) + 1 {
      NowEvidenced(hash, x, op);
    } else {
      EvidencedSoFar(hash, begun, before, op);
      StaysEvidenced(hash, x, op);
    }
  }

  lemma SmoothBefore(hash: string -> string, begun: Progress, xs: seq<Exchange>)
    requires Smooth(hash, begun, xs) && xs != []
    ensures
      var n := |xs| - 1;
      && Smooth(hash, begun, xs[..n]) && n < |Agenda(begun)| && xs[n].item == Agenda(begun)[n] && Rightly(hash, xs[n])
      && GoesOn(hash, xs[n]) && xs[n].saved == Now(hash, begun, xs[..n])
  {
    hide Agenda, Rightly, Learned, GoesOn;
    var before := xs[..|xs| - 1];
    assert forall i :: 0 <= i < |before| ==> before[i] == xs[i] && before[..i] == xs[..i];
  }

  /** When the job of an operation is asked for, or anything later, every operation before it is evidenced. */
  lemma EarlierEvidenced(hash: string -> string, begun: Progress, xs: seq<Exchange>, op: Op)
    requires xs != [] && Told(hash, begun, xs) && Smooth(hash, begun, xs[..|xs| - 1])
    requires JobPlace(begun, op) + 1 < |xs| - 1
    ensures Rightly(hash, xs[|xs| - 1]) && HasEvidence(Learned(hash, xs[|xs| - 1]), op)
  {
    var n := |xs| - 1;
    Places(begun, n, op);
    EvidencedSoFar(hash, begun, xs[..n], op);
    hide Agenda, Learned, Smooth, JobPlace, HasEvidence, Rightly;
    StaysEvidenced(hash, xs[n], op);
  }

  /** The job of the operation is saved in this state, and all operations before it are evidenced. */
  predicate StandsAt(p: Progress, op: Op, state: JobState)
  {
    op in p.jobs && p.jobs[op].state == state && forall o :: Rank(o) < Rank(op) ==> HasEvidence(p, o)
  }

  /** A running or failed job that a call ends with. */
  ghost predicate StoppedBy(p: Progress, states: set<JobState>)
  {
    exists op, state :: state in states && StandsAt(p, op, state)
  }

  lemma GateMeans(hash: string -> string, begun: Progress, xs: seq<Exchange>)
    requires xs != [] && Told(hash, begun, xs) && Smooth(hash, begun, xs[..|xs| - 1])
    requires xs[|xs| - 1].item == ForGate && Fits(hash, xs[|xs| - 1])
    ensures
      var saved := Now(hash, begun, xs);
      saved.status == AwaitingGateApproval && saved.evaluation.Some? && forall op :: HasEvidence(saved, op)
  {
    forall op ensures HasEvidence(Now(hash, begun, xs), op) {
      Places(begun, |xs| - 1, op);
      EarlierEvidenced(hash, begun, xs, op);
    }
    hide Agenda, Smooth, JobPlace, HasEvidence, Fits;
  }

  lemma JobMeans(hash: string -> string, begun: Progress, xs: seq<Exchange>, op: Op)
    requires xs != [] && Told(hash, begun, xs) && Smooth(hash, begun, xs[..|xs| - 1])
    requires xs[|xs| - 1].item == ForJob(op) && Fits(hash, xs[|xs| - 1])
    ensures StandsAt(Now(hash, begun, xs), op, xs[|xs| - 1].reply.job.state)
  {
    Places(begun, |xs| - 1, op);
    forall o | Rank(o) < Rank(op) ensures HasEvidence(Now(hash, begun, xs), o) {
      EarlierEvidenced(hash, begun, xs, o);
    }
    hide Agenda, Smooth, JobPlace, HasEvidence;
    JobSaved(hash, xs[|xs| - 1], op);
  }

  lemma JobSaved(hash: string -> string, x: Exchange, op: Op)
    requires x.item == ForJob(op) && Rightly(hash, x) && Fits(hash, x)
    ensures op in Learned(hash, x).jobs && Learned(hash, x).jobs[op].state == x.reply.job.state
  {
  }

  lemma InputMeans(hash: string -> string, core: Core, begun: Progress, xs: seq<Exchange>)
    requires xs != [] && Told(hash, begun, xs) && Backed(core, xs)
    requires xs[|xs| - 1].item == ForApproval && xs[|xs| - 1].reply == NotFound
    ensures begun.approval.None? && Now(hash, begun, xs) == begun && begun.approvalId !in core.approvals
  {
    Places(begun, |xs| - 1, ValidateSources);
    assert xs[..0] == [];
    assert OnRecord(core, xs[0].request, xs[0].reply);
  }

  /**
   * What each outcome of a call says of the saved progress and of Core: the gate
   * is awaited only with the evaluation and all evidence saved; a running or
   * failed job is the one saved last, with everything before it done; and an
   * input that still has to be confirmed is not in Core.
   */
  lemma OutcomeMeans(hash: string -> string, core: Core, begun: Progress, xs: seq<Exchange>, outcome: Outcome, saved: Progress)
    requires Ended(hash, begun, xs, outcome, saved) && Backed(core, xs)
    ensures outcome == Blocked(GateApproval) ==>
      saved.status == AwaitingGateApproval && saved.evaluation.Some? && forall op :: HasEvidence(saved, op)
    ensures outcome == Blocked(RunningJob) ==> StoppedBy(saved, {Submitted, Queued, Preparing, Running, Cancelling})
    ensures outcome.Threw? && outcome.failure.JobFailed? ==>
      && outcome.failure.state in {Failed, Cancelled, Timeout, Lost, UnknownEffect, Rejected}
      && StoppedBy(saved, {outcome.failure.state})
    ensures outcome == Blocked(InputConfirmation) ==> begun.approval.None? && saved == begun && saved.approvalId !in core.approvals
  {
    var x := xs[|xs| - 1];
    EndedMeans(hash, begun, xs, outcome, saved);
    hide *;
    if outcome == Blocked(GateApproval) {
      GateMeans(hash, begun, xs);
    } else if outcome == Blocked(InputConfirmation) {
      InputMeans(hash, core, begun, xs);
    } else if outcome == Blocked(RunningJob) {
      JobMeans(hash, begun, xs, x.item.op);
      Stops(saved, x.item.op, x.reply.job.state, {Submitted, Queued, Preparing, Running, Cancelling});
    } else if outcome.Threw? && outcome.failure.JobFailed? {
      JobMeans(hash, begun, xs, x.item.op);
      Stops(saved, x.item.op, x.reply.job.state, {outcome.failure.state});
    }
  }

  lemma Stops(p: Progress, op: Op, state: JobState, states: set<JobState>)
    requires StandsAt(p, op, state) && state in states
    ensures StoppedBy(p, states)
  {
  }

  lemma EndedMeans(hash: string -> string, begun: Progress, xs: seq<Exchange>, outcome: Outcome, saved: Progress)
    requires Ended(hash, begun, xs, outcome, saved)
    ensures xs != [] && Told(hash, begun, xs) && Smooth(hash, begun, xs[..|xs| - 1])
    ensures Rightly(hash, xs[|xs| - 1]) && saved == Now(hash, begun, xs)
    ensures
      var x := xs[|xs| - 1];
      && (outcome == Blocked(InputConfirmation) ==> x.item == ForApproval && x.reply == NotFound)
      && (outcome == Blocked(GateApproval) ==> x.item == ForGate && Fits(hash, x))
      && (outcome == Blocked(RunningJob) ==>
            x.item.ForJob? && Fits(hash, x) && x.reply.JobReply?
            && x.reply.job.state in {Submitted, Queued, Preparing, Running, Cancelling})
      && (outcome.Threw? && outcome.failure.JobFailed? ==>
            && x.item.ForJob? && Fits(hash, x) && x.reply.JobReply? && x.reply.job.state == outcome.failure.state
            && outcome.failure.state in {Failed, Cancelled, Timeout, Lost, UnknownEffect, Rejected})
  {
    var x := xs[|xs| - 1];
    AccountsFor(hash, x, outcome);
    hide Agenda, Learned, Smooth, Accounts;
  }

  lemma AccountsFor(hash: string -> string, x: Exchange, outcome: Outcome)
    requires Rightly(hash, x) && Accounts(hash, x, outcome)
    ensures outcome == Blocked(InputConfirmation) ==> x.item == ForApproval && x.reply == NotFound
    ensures outcome == Blocked(GateApproval) ==> x.item == ForGate && Fits(hash, x)
    ensures outcome == Blocked(RunningJob) ==>
      x.item.ForJob? && Fits(hash, x) && x.reply.JobReply?
      && x.reply.job.state in {Submitted, Queued, Preparing, Running, Cancelling}
    ensures outcome.Threw? && outcome.failure.JobFailed? ==>
      && x.item.ForJob? && Fits(hash, x) && x.reply.JobReply? && x.reply.job.state == outcome.failure.state
      && outcome.failure.state in {Failed, Cancelled, Timeout, Lost, UnknownEffect, Rejected}
  {
    if outcome.Threw? && outcome.failure.JobFailed? {
      var s := outcome.failure.state;
      assert outcome == Threw(JobFailed(s));
    }
  }
}
