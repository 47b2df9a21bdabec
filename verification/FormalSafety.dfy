/** What every run of the formal flow keeps, however often the runtime dies. */
module FormalSafety {
  import opened Common
  import opened FormalCore
  import opened FormalFlow

  // ------------------------------------------------------- records only grow

  lemma JobBoundGrows(a: Core, b: Core, p: Progress, op: Op)
    requires Grows(a, b) && op in p.jobs && JobBound(a, p, op)
    ensures JobBound(b, p, op)
  {
    hide JobKey;
    var id := p.jobs[op].jobId;
    assert SameJob(a.jobs[id], b.jobs[id]);
  }

  lemma RecordedGrows(hash: string -> string, a: Core, b: Core, p: Progress)
    requires Grows(a, b) && Recorded(hash, a, p)
    ensures Recorded(hash, b, p)
  {
    hide JobBound, EvaluationId;
    forall op | op in p.jobs ensures JobBound(b, p, op) {
      JobBoundGrows(a, b, p, op);
    }
  }

  lemma {:induction false} PcGrows(hash: string -> string, a: Core, b: Core, saved: Progress, pc: Pc)
    requires Grows(a, b) && PcBound(hash, a, saved, pc)
    ensures PcBound(hash, b, saved, pc)
    decreases pc
  {
    hide Recorded, Extends, AllEvidenced, EvidencedBefore;
    match pc
    case Save(p, next) =>
      RecordedGrows(hash, a, b, p);
      PcGrows(hash, a, b, p, next);
    case NeedEvidence(p, op, job) =>
      assert SameJob(a.jobs[job.id], b.jobs[job.id]);
    case _ =>
  }

  lemma ExtendsTransitive(p: Progress, q: Progress, r: Progress)
    requires Extends(p, q) && Extends(q, r)
    ensures Extends(p, r)
  {
  }

  // --------------------------------------------------------- what a save adds

  lemma OnApprovalBound(hash: string -> string, core: Core, p: Progress, c: Choice)
    requires Recorded(hash, core, p) && p.approval.None?
    ensures PcBound(hash, core, p, OnApproval(p, Handle(core, GetApproval(p.approvalId), c).1))
  {
    var reply := Handle(core, GetApproval(p.approvalId), c).1;
    if OnApproval(p, reply).Save? {
      var p' := p.(status := InProgress, approval := Some(reply.approval));
      assert p.jobs == map[] by {
        assert forall op :: op !in p.jobs;
      }
      assert Recorded(hash, core, p');
      assert EvidencedBefore(p', ValidateSources);
    }
  }

  /** The job of a key, recorded: the other operations are as they were. */
  lemma OnJobBound(hash: string -> string, core: Core, p: Progress, op: Op, job: Job)
    requires Recorded(hash, core, p) && p.approval.Some? && EvidencedBefore(p, op)
    requires JobKey(p.approvalId, op) in core.intents && core.intents[JobKey(p.approvalId, op)].jobId == job.id
    requires job.id in core.jobs && core.jobs[job.id] == job
    requires op in p.jobs ==> p.jobs[op].jobId == job.id
    ensures PcBound(hash, core, p, OnJob(p, op, JobReply(job)))
  {
    hide Recorded, Extends, EvidencedBefore, WithJobRecord, JobKey;
    if VerifyJob(p, op, job) {
      JobRecordBound(hash, core, p, op, job);
      WithJobRecordHas(p, op, job);
    }
  }

  lemma WithJobRecordHas(p: Progress, op: Op, job: Job)
    ensures
      var p' := WithJobRecord(p, op, job);
      && p'.approval == p.approval && op in p'.jobs
      && p'.jobs[op].jobId == job.id && p'.jobs[op].state == job.state
  {
  }

  /** An operation's binding only looks at its own record and at which operations have evidence. */
  lemma OtherJobBound(core: Core, p: Progress, p': Progress, o: Op)
    requires o in p.jobs && o in p'.jobs && JobBound(core, p, o)
    requires p'.approval == p.approval && p'.approvalId == p.approvalId && p'.flow == p.flow
    requires p'.jobs[o] == p.jobs[o]
    requires forall earlier :: Evidenced(p, earlier) ==> Evidenced(p', earlier)
    ensures JobBound(core, p', o)
  {
    hide JobKey;
  }

  lemma OwnJobBound(core: Core, p: Progress, op: Op, job: Job)
    requires p.approval.Some? && EvidencedBefore(p, op) && VerifyJob(p, op, job)
    requires op in p.jobs ==> JobBound(core, p, op) && p.jobs[op].jobId == job.id
    requires JobKey(p.approvalId, op) in core.intents && core.intents[JobKey(p.approvalId, op)].jobId == job.id
    requires job.id in core.jobs && core.jobs[job.id] == job
    ensures EvidencedBefore(WithJobRecord(p, op, job), op)
    ensures JobBound(core, WithJobRecord(p, op, job), op)
  {
    hide JobKey;
    var p' := WithJobRecord(p, op, job);
    assert forall o :: Rank(o) < Rank(op) ==> Evidenced(p, o) && o != op;
  }

  lemma EvaluationStays(hash: string -> string, core: Core, p: Progress, p': Progress)
    requires Recorded(hash, core, p) && p.evaluation.Some?
    requires p'.approval == p.approval && p'.flow == p.flow && p'.evaluation == p.evaluation
    requires forall o :: Evidenced(p, o) ==> Evidenced(p', o)
    ensures EvaluationBound(hash, core, p')
  {
    hide JobBound;
  }

  /** Rewriting the record of one operation leaves a bound progress bound if that record is. */
  lemma RecordedStays(hash: string -> string, core: Core, p: Progress, p': Progress, op: Op)
    requires Recorded(hash, core, p) && p.approval.Some?
    requires p' == p.(jobs := p'.jobs, status := p'.status)
    requires p'.status == AwaitingGateApproval ==> p.evaluation.Some?
    requires forall o :: Evidenced(p, o) ==> Evidenced(p', o)
    requires forall o :: o in p'.jobs && o != op ==> o in p.jobs && p'.jobs[o] == p.jobs[o]
    requires op in p'.jobs ==> JobBound(core, p', op)
    ensures Recorded(hash, core, p')
  {
    forall o | o in p'.jobs ensures JobBound(core, p', o) {
      if o != op { OtherJobBound(core, p, p', o); }
    }
    hide JobBound;
    if p.evaluation.Some? { EvaluationStays(hash, core, p, p'); }
    hide EvaluationBound;
  }

  lemma JobRecordBound(hash: string -> string, core: Core, p: Progress, op: Op, job: Job)
    requires Recorded(hash, core, p) && p.approval.Some? && EvidencedBefore(p, op) && VerifyJob(p, op, job)
    requires JobKey(p.approvalId, op) in core.intents && core.intents[JobKey(p.approvalId, op)].jobId == job.id
    requires job.id in core.jobs && core.jobs[job.id] == job
    requires op in p.jobs ==> p.jobs[op].jobId == job.id
    ensures Recorded(hash, core, WithJobRecord(p, op, job)) && Extends(p, WithJobRecord(p, op, job))
    ensures EvidencedBefore(WithJobRecord(p, op, job), op)
  {
    hide JobKey, JobBound, EvaluationBound, ApprovalBound;
    var p' := WithJobRecord(p, op, job);
    assert forall o :: Evidenced(p, o) ==> Evidenced(p', o);
    OwnJobBound(core, p, op, job);
    hide VerifyJob, EvidencedBefore;
    RecordedStays(hash, core, p, p', op);
  }

  lemma EvidenceRefOwn(core: Core, p: Progress, op: Op, job: Job)
    requires op in p.jobs && JobBound(core, p, op) && !Evidenced(p, op) && p.jobs[op].jobId == job.id
    requires job.id in core.jobs && core.jobs[job.id].state == job.state == Succeeded
    requires job.id in core.evidence && VerifyEvidence(p, op, job.id, core.evidence[job.id])
    ensures
      var p' := WithEvidenceRef(p, op, job, core.evidence[job.id]);
      && JobBound(core, p', op) && EvidencedBefore(p', op)
      && forall o :: Evidenced(p, o) ==> Evidenced(p', o)
  {
    hide JobKey;
    var p' := WithEvidenceRef(p, op, job, core.evidence[job.id]);
    assert EvidenceBound(core, p', op);
  }

  /** The evidence of a job that succeeded, recorded. */
  lemma EvidenceRefBound(hash: string -> string, core: Core, p: Progress, op: Op, job: Job)
    requires Recorded(hash, core, p) && PcBound(hash, core, p, NeedEvidence(p, op, job)) && !Evidenced(p, op)
    requires job.id in core.evidence && VerifyEvidence(p, op, job.id, core.evidence[job.id])
    ensures
      var p' := WithEvidenceRef(p, op, job, core.evidence[job.id]);
      Recorded(hash, core, p') && Extends(p, p') && EvidencedBefore(p', op) && Evidenced(p', op)
  {
    hide JobKey, EvaluationBound, ApprovalBound, VerifyEvidence, JobBound;
    var p' := WithEvidenceRef(p, op, job, core.evidence[job.id]);
    EvidenceRefOwn(core, p, op, job);
    hide EvidencedBefore;
    RecordedStays(hash, core, p, p', op);
  }

  lemma AfterBound(hash: string -> string, core: Core, p: Progress, op: Op)
    requires p.approval.Some? && EvidencedBefore(p, op) && Evidenced(p, op)
    ensures PcBound(hash, core, p, After(p, op))
  {
    if op == Implement {
      forall o ensures Evidenced(p, o) {
        assert Rank(o) < Rank(op) || o == op;
      }
    } else {
      var next := OPS[Rank(op) + 1];
      forall o | Rank(o) < Rank(next) ensures Evidenced(p, o) {
        assert Rank(o) < Rank(op) || o == op;
      }
    }
  }

  lemma OnEvidenceBound(hash: string -> string, core: Core, p: Progress, op: Op, job: Job, reply: Reply)
    requires Recorded(hash, core, p) && PcBound(hash, core, p, NeedEvidence(p, op, job))
    requires reply.EvidenceReply? ==> job.id in core.evidence && reply.evidence == core.evidence[job.id]
    ensures PcBound(hash, core, p, OnEvidence(p, op, job, reply))
  {
    hide Recorded, Extends, EvidencedBefore, After;
    if reply.EvidenceReply? && VerifyEvidence(p, op, job.id, core.evidence[job.id]) {
      if Evidenced(p, op) {
        AfterBound(hash, core, p, op);
      } else {
        EvidenceRefBound(hash, core, p, op, job);
        AfterBound(hash, core, WithEvidenceRef(p, op, job, core.evidence[job.id]), op);
      }
    }
  }

  lemma OnEvaluationBound(hash: string -> string, core: Core, p: Progress, reply: Reply)
    requires Recorded(hash, core, p) && PcBound(hash, core, p, NeedEvaluation(p))
    requires reply.EvaluationReply? ==>
      EvaluationId(hash, p) in core.evaluations && reply.evaluation == core.evaluations[EvaluationId(hash, p)]
    ensures PcBound(hash, core, p, OnEvaluation(hash, p, reply))
  {
    if !reply.EvaluationReply? { return; }
    var e := reply.evaluation;
    if e.id == EvaluationId(hash, p) && VerifyEvaluation(p, e) {
      var p' := p.(evaluation := Some(e));
      assert forall o :: Evidenced(p, o) ==> Evidenced(p', o);
      assert EvaluationBound(hash, core, p');
      forall o | o in p'.jobs ensures JobBound(core, p', o) {
        OtherJobBound(core, p, p', o);
      }
      hide JobBound, EvaluationBound;
      assert Recorded(hash, core, p');
    }
  }

  lemma OnSubmissionBound(hash: string -> string, core: Core, p: Progress, reply: Reply)
    requires Recorded(hash, core, p) && PcBound(hash, core, p, NeedSubmission(p))
    ensures PcBound(hash, core, p, OnSubmission(p, reply))
  {
    hide EvaluationBound;
    var p' := p.(status := AwaitingGateApproval);
    assert forall o :: Evidenced(p, o) ==> Evidenced(p', o);
    assert Implement in p'.jobs ==> JobBound(core, p', Implement) by {
      if Implement in p'.jobs { OtherJobBound(core, p, p', Implement); }
    }
    hide JobBound;
    RecordedStays(hash, core, p, p', Implement);
    hide Recorded;
  }

  // --------------------------------------------------------------- every step

  /** Core's answer to the pending request leads to a state that is bound again. */
  lemma ReplyBound(hash: string -> string, w: World, c: Choice)
    requires Inv(hash, w) && Asking(w.pc)
    ensures
      var (core, reply) := Handle(w.core, RequestOf(hash, w.pc), c);
      PcBound(hash, core, w.saved, OnReply(hash, w.pc, reply))
  {
    hide Recorded, Extends, AllEvidenced, EvidencedBefore, Grows, HandleSubmit, OnApproval, OnJob, OnEvidence, OnEvaluation, OnSubmission;
    var request := RequestOf(hash, w.pc);
    var (core, reply) := Handle(w.core, request, c);
    HandleKeeps(w.core, request, c);
    RecordedGrows(hash, w.core, core, w.saved);
    PcGrows(hash, w.core, core, w.saved, w.pc);
    match w.pc {
      case NeedApproval(p) =>
        OnApprovalBound(hash, core, p, c);
      case NeedJob(p, op) =>
        JobReplyBound(hash, w, c);
      case NeedEvidence(p, op, job) =>
        OnEvidenceBound(hash, core, p, op, job, reply);
      case NeedEvaluation(p) =>
        OnEvaluationBound(hash, core, p, reply);
      case NeedSubmission(p) =>
        OnSubmissionBound(hash, core, p, reply);
      case _ =>
    }
  }

  lemma JobReplyBound(hash: string -> string, w: World, c: Choice)
    requires Inv(hash, w) && w.pc.NeedJob?
    ensures
      var (core, reply) := Handle(w.core, RequestOf(hash, w.pc), c);
      PcBound(hash, core, w.saved, OnJob(w.pc.p, w.pc.op, reply))
  {
    hide JobKey;
    var p, op := w.pc.p, w.pc.op;
    var request := RequestOf(hash, w.pc);
    var (core, reply) := Handle(w.core, request, c);
    HandleKeeps(w.core, request, c);
    RecordedGrows(hash, w.core, core, w.saved);
    if reply.JobReply? {
      var key := JobKey(p.approvalId, op);
      assert p.approval.value.id == p.approvalId;
      if op in p.jobs { assert JobBound(w.core, p, op); }
      assert key in core.intents && core.intents[key].jobId == reply.job.id;
      OnJobBound(hash, core, p, op, reply.job);
    }
  }

  /** A submission by the runtime adds its own key only, and in order. */
  lemma OwnKeyInOrder(hash: string -> string, w: World, c: Choice)
    requires Inv(hash, w) && Asking(w.pc)
    ensures KeysInOrder(Handle(w.core, RequestOf(hash, w.pc), c).0, w.saved)
  {
    hide JobKey;
    var request := RequestOf(hash, w.pc);
    var core := Handle(w.core, request, c).0;
    HandleKeeps(w.core, request, c);
    if request.SubmitJob? {
      forall op | JobKey(w.saved.approvalId, op) in core.intents
        ensures w.saved.approval.Some? && EvidencedBefore(w.saved, op)
        ensures core.intents[JobKey(w.saved.approvalId, op)].op == op
        ensures core.intents[JobKey(w.saved.approvalId, op)].approvalId == w.saved.approvalId
      {
        if JobKey(w.saved.approvalId, op) == request.key {
          JobKeyInjective(w.saved.approvalId, op, w.pc.p.approval.value.id, w.pc.op);
        }
      }
    }
  }

  /** A save never takes anything back, so the keys stay in order. */
  lemma KeysStayInOrder(core: Core, p: Progress, q: Progress)
    requires KeysInOrder(core, p) && Extends(p, q)
    ensures KeysInOrder(core, q)
  {
    hide JobKey;
    forall op | JobKey(q.approvalId, op) in core.intents ensures q.approval.Some? && EvidencedBefore(q, op) {
      assert EvidencedBefore(p, op);
      forall o | Rank(o) < Rank(op) ensures Evidenced(q, o) { assert Evidenced(p, o); }
    }
  }

  lemma ForeignKeyInOrder(w: World, request: Request, c: Choice)
    requires Sound(w.core) && KeysInOrder(w.core, w.saved) && Enabled(w, Foreign(request, c))
    ensures KeysInOrder(Handle(w.core, request, c).0, w.saved)
  {
    hide JobKey;
    HandleKeeps(w.core, request, c);
  }

  lemma CoreMoves(hash: string -> string, w: World, core: Core)
    requires Inv(hash, w) && Sound(core) && Grows(w.core, core) && KeysInOrder(core, w.saved)
    ensures Inv(hash, w.(core := core))
  {
    RecordedGrows(hash, w.core, core, w.saved);
    PcGrows(hash, w.core, core, w.saved, w.pc);
  }

  lemma EnterBound(hash: string -> string, core: Core, p: Progress)
    requires Recorded(hash, core, p)
    ensures PcBound(hash, core, p, Enter(p))
  {
    assert EvidencedBefore(p, ValidateSources);
  }

  /** One step keeps the invariant, and neither Core's records nor the saved progress lose anything. */
  lemma StepKeeps(hash: string -> string, w: World, a: Action)
    requires Inv(hash, w) && Enabled(w, a)
    ensures
      var w' := Step(hash, w, a);
      Inv(hash, w') && Grows(w.core, w'.core) && Extends(w.saved, w'.saved)
  {
    hide JobKey, Recorded, EvidencedBefore, RequestOf, OnReply, Handle, Sound, Grows;
    SelfKept(w);
    match a
    case Start => EnterBound(hash, w.core, w.saved);
    case Deliver(c) =>
      HandleKeeps(w.core, RequestOf(hash, w.pc), c);
      OwnKeyInOrder(hash, w, c);
      CoreMoves(hash, w, Handle(w.core, RequestOf(hash, w.pc), c).0);
      ReplyBound(hash, w, c);
    case LoseReply(c) =>
      HandleKeeps(w.core, RequestOf(hash, w.pc), c);
      OwnKeyInOrder(hash, w, c);
      CoreMoves(hash, w, Handle(w.core, RequestOf(hash, w.pc), c).0);
    case Persist => KeysStayInOrder(w.core, w.saved, w.pc.p);
    case Crash =>
    case Confirm(approval) =>
      ConfirmKeeps(w.core, approval);
      CoreMoves(hash, w, Confirmed(w.core, approval));
    case JobMoves(jobId, state) =>
      ProgressKeeps(w.core, jobId, state);
      CoreMoves(hash, w, Progressed(w.core, jobId, state));
    case Foreign(request, c) =>
      HandleKeeps(w.core, request, c);
      ForeignKeyInOrder(w, request, c);
      CoreMoves(hash, w, Handle(w.core, request, c).0);
  }

  lemma SelfKept(w: World)
    ensures Grows(w.core, w.core) && Extends(w.saved, w.saved)
  {
  }

  /** ... and so does every run. */
  lemma {:induction false} RunKeeps(hash: string -> string, w: World, actions: seq<Action>)
    requires Inv(hash, w) && Possible(hash, w, actions)
    ensures
      var w' := Run(hash, w, actions);
      Inv(hash, w') && Grows(w.core, w'.core) && Extends(w.saved, w'.saved)
    decreases |actions|
  {
    hide Inv, Grows, Extends, Step, Enabled;
    SelfKept(w);
    if actions != [] {
      var w1 := Step(hash, w, actions[0]);
      StepKeeps(hash, w, actions[0]);
      RunKeeps(hash, w1, actions[1..]);
      var w2 := Run(hash, w1, actions[1..]);
      GrowsTransitive(w.core, w1.core, w2.core);
      ExtendsTransitive(w.saved, w1.saved, w2.saved);
    }
  }
}
