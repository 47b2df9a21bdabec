/** A flow is never stuck: from every point of every run a willing Core can still bring it to its gate. */
module FormalCompletion {
  import opened Common
  import opened FormalCore
  import opened FormalFlow
  import opened FormalSafety

  /** What Core already holds for this flow does not contradict it: nothing failed, nothing is misbound. */
  ghost predicate Willing(hash: string -> string, core: Core, p: Progress)
    requires p.approval.Some?
  {
    (forall op :: WillingJob(core, p, op)) && WillingEvaluation(hash, core, p)
  }

  predicate WillingJob(core: Core, p: Progress, op: Op)
    requires p.approval.Some?
  {
    var key := JobKey(p.approvalId, op);
    key in core.intents ==>
      var id := core.intents[key].jobId;
      && id in core.jobs && VerifyJob(p, op, core.jobs[id])
      && (Terminal(core.jobs[id].state) ==> core.jobs[id].state == Succeeded)
      && (id in core.evidence ==> VerifyEvidence(p, op, id, core.evidence[id]))
  }

  predicate WillingEvaluation(hash: string -> string, core: Core, p: Progress)
    requires p.approval.Some?
  {
    EvaluationId(hash, p) in core.evaluations ==>
      var e := core.evaluations[EvaluationId(hash, p)];
      e.id == EvaluationId(hash, p) && VerifyEvaluation(p, e)
  }

  // ------------------------------------------------------------ a fresh name

  ghost function Longest(names: set<string>): nat
  {
    if names == {} then 0
    else
      var s :| s in names;
      Max(|s|, Longest(names - {s}))
  }

  lemma {:induction false} LongestBounds(names: set<string>, t: string)
    requires t in names
    ensures |t| <= Longest(names)
    decreases |names|
  {
    var s :| s in names && Longest(names) == Max(|s|, Longest(names - {s}));
    var rest := names - {s};
    assert Max(|s|, Longest(rest)) >= |s| && Max(|s|, Longest(rest)) >= Longest(rest);
    if t != s {
      LongestBounds(rest, t);
    }
  }

  lemma FreshName(names: set<string>) returns (s: string)
    ensures s !in names
  {
    s := seq(Longest(names) + 1, i => 'x');
    if s in names {
      LongestBounds(names, s);
    }
  }

  // ----------------------------------------------------------- one operation

  ghost predicate At(hash: string -> string, w: World, pc: Pc)
  {
    && Inv(hash, w) && w.pc == pc && !pc.Stopped? && pc.p == w.saved
    && w.saved.approval.Some? && Willing(hash, w.core, w.saved)
  }

  /** The records a willing Core makes. */
  function GoodJob(p: Progress, op: Op, id: string): Job
    requires p.approval.Some?
  {
    var a := p.approval.value;
    Job(id, Succeeded, op, true, a.id, a.preview.snapshotId, a.preview.inputHash, a.preview.toolchainHash)
  }

  function GoodEvidence(p: Progress, op: Op, id: string): Evidence
    requires p.approval.Some?
  {
    var a := p.approval.value;
    Evidence("", id, p.flow.projectId, Succeeded, op, true, a.preview.inputHash, a.preview.toolchainHash, "", [])
  }

  function GoodEvaluation(hash: string -> string, p: Progress): Evaluation
    requires p.approval.Some?
  {
    Evaluation(EvaluationId(hash, p), p.flow.projectId, p.flow.submissionId, p.flow.workVersionId, p.flow.snapshotId,
               p.flow.manifestHash, p.flow.profileHash, "", true, Some(""), Some(""))
  }

  /** The answer of Core to the pending request, and the save that follows it. */
  lemma AnswerAndSave(hash: string -> string, w: World, c: Choice, p': Progress, next: Pc)
    requires Inv(hash, w) && Asking(w.pc)
    requires OnReply(hash, w.pc, Handle(w.core, RequestOf(hash, w.pc), c).1) == Save(p', next)
    ensures
      var after := World(Handle(w.core, RequestOf(hash, w.pc), c).0, p', next);
      && Possible(hash, w, [Deliver(c), Persist]) && Run(hash, w, [Deliver(c), Persist]) == after && Inv(hash, after)
  {
    hide Inv, OnReply, Handle, RequestOf;
    StepKeeps(hash, w, Deliver(c));
    var w1 := Step(hash, w, Deliver(c));
    StepKeeps(hash, w1, Persist);
    assert [Deliver(c), Persist][1..] == [Persist] && [Persist][1..] == [];
  }

  /** A reply with a good job that has succeeded takes the runtime to its evidence. */
  lemma JobAnswered(hash: string -> string, w: World, p: Progress, op: Op, c: Choice, job: Job)
    requires Inv(hash, w) && w.pc == NeedJob(p, op) && w.saved.approval.Some?
    requires Handle(w.core, RequestOf(hash, w.pc), c).1 == JobReply(job)
    requires VerifyJob(p, op, job) && job.state == Succeeded
    ensures
      var after := World(Handle(w.core, RequestOf(hash, w.pc), c).0, WithJobRecord(p, op, job),
                         NeedEvidence(WithJobRecord(p, op, job), op, job));
      && Possible(hash, w, [Deliver(c), Persist]) && Run(hash, w, [Deliver(c), Persist]) == after && Inv(hash, after)
  {
    hide Handle, RequestOf, Possible, Run, VerifyJob, JobKey, Recorded, KeysInOrder;
    var p' := WithJobRecord(p, op, job);
    AnswerAndSave(hash, w, c, p', NeedEvidence(p', op, job));
  }

  /** Only the approval and the flow of a progress matter to what Core may hold. */
  lemma WillingSame(hash: string -> string, core: Core, p: Progress, p': Progress)
    requires p.approval.Some? && p'.approval == p.approval && p'.flow == p.flow && p'.approvalId == p.approvalId
    requires Willing(hash, core, p)
    ensures Willing(hash, core, p')
  {
    hide JobKey;
    forall op ensures WillingJob(core, p', op) {
      assert WillingJob(core, p, op);
    }
  }

  /** A job that is still running may succeed. */
  lemma LetSucceed(hash: string -> string, w: World, p: Progress, op: Op) returns (actions: seq<Action>)
    requires At(hash, w, NeedJob(p, op)) && JobKey(p.approvalId, op) in w.core.intents
    ensures Possible(hash, w, actions)
    ensures
      var after := Run(hash, w, actions);
      var id := w.core.intents[JobKey(p.approvalId, op)].jobId;
      && At(hash, after, NeedJob(p, op)) && after.core.intents == w.core.intents
      && id in after.core.jobs && after.core.jobs[id].state == Succeeded
  {
    hide JobKey, VerifyEvidence, EvaluationId, KeysInOrder, Recorded, PcBound;
    var id := w.core.intents[JobKey(p.approvalId, op)].jobId;
    assert WillingJob(w.core, p, op);
    if w.core.jobs[id].state == Succeeded {
      actions := [];
    } else {
      actions := [JobMoves(id, Succeeded)];
      assert actions[1..] == [];
      hide Inv, VerifyJob, WillingEvaluation, WillingJob, Terminal;
      StepKeeps(hash, w, actions[0]);
      SuccessWilling(hash, w.core, p, id);
    }
  }

  /** A job of the flow that succeeds is nothing against it. */
  lemma SuccessWilling(hash: string -> string, core: Core, p: Progress, id: string)
    requires p.approval.Some? && Willing(hash, core, p) && id in core.jobs && !Terminal(core.jobs[id].state)
    ensures Willing(hash, Progressed(core, id, Succeeded), p)
  {
    hide JobKey, VerifyEvidence, EvaluationId;
    var after := Progressed(core, id, Succeeded);
    forall o ensures WillingJob(after, p, o) {
      assert WillingJob(core, p, o);
    }
  }

  ghost predicate JobFinished(hash: string -> string, w: World, p: Progress, op: Op, job: Job)
  {
    && At(hash, w, NeedEvidence(WithJobRecord(p, op, job), op, job))
    && (job.id in w.core.evidence ==> VerifyEvidence(p, op, job.id, w.core.evidence[job.id]))
  }

  lemma FinishOldJob(hash: string -> string, w: World, p: Progress, op: Op, job: Job)
    requires At(hash, w, NeedJob(p, op)) && JobKey(p.approvalId, op) in w.core.intents
    requires w.core.intents[JobKey(p.approvalId, op)].jobId in w.core.jobs
    requires w.core.jobs[w.core.intents[JobKey(p.approvalId, op)].jobId] == job && job.state == Succeeded
    ensures Possible(hash, w, [Deliver(WithJob(job)), Persist])
    ensures JobFinished(hash, Run(hash, w, [Deliver(WithJob(job)), Persist]), p, op, job)
  {
    hide JobKey, EvaluationId, VerifyEvidence, EvidenceBound, EvaluationBound;
    assert WillingJob(w.core, p, op);
    if op in p.jobs { assert JobBound(w.core, p, op); }
    assert Handle(w.core, RequestOf(hash, w.pc), WithJob(job)) == (w.core, JobReply(job));
    hide Handle, RequestOf, Recorded, KeysInOrder, Possible, Run, PcBound, VerifyJob;
    JobAnswered(hash, w, p, op, WithJob(job), job);
    WillingSame(hash, w.core, p, WithJobRecord(p, op, job));
  }

  /** Submitting the job of an operation that has none. */
  lemma FinishNewJob(hash: string -> string, w: World, p: Progress, op: Op) returns (job: Job)
    requires At(hash, w, NeedJob(p, op)) && JobKey(p.approvalId, op) !in w.core.intents
    ensures Possible(hash, w, [Deliver(WithJob(job)), Persist])
    ensures JobFinished(hash, Run(hash, w, [Deliver(WithJob(job)), Persist]), p, op, job)
  {
    hide JobKey, EvaluationId, VerifyEvidence, EvidenceBound, EvaluationBound;
    assert op in p.jobs ==> JobBound(w.core, p, op);
    var id := FreshName(w.core.jobs.Keys + w.core.evidence.Keys);
    job := GoodJob(p, op, id);
    var core := Handle(w.core, RequestOf(hash, w.pc), WithJob(job)).0;
    assert Handle(w.core, RequestOf(hash, w.pc), WithJob(job)) == (core, JobReply(job));
    NewJobWilling(hash, w.core, core, p, op, job);
    hide Handle, RequestOf, Recorded, KeysInOrder, Possible, Run, PcBound, VerifyJob;
    JobAnswered(hash, w, p, op, WithJob(job), job);
    WillingSame(hash, core, p, WithJobRecord(p, op, job));
  }

  lemma NewJobWilling(hash: string -> string, a: Core, b: Core, p: Progress, op: Op, job: Job)
    requires p.approval.Some? && Willing(hash, a, p) && VerifyJob(p, op, job) && job.state == Succeeded
    requires JobKey(p.approvalId, op) !in a.intents && job.id !in a.jobs && job.id !in a.evidence
    requires b == a.(intents := a.intents[JobKey(p.approvalId, op) := Intent(op, p.approvalId, job.id)],
                     jobs := a.jobs[job.id := job], created := b.created)
    ensures Willing(hash, b, p)
  {
    hide JobKey, EvaluationId;
    forall o ensures WillingJob(b, p, o) {
      if JobKey(p.approvalId, o) == JobKey(p.approvalId, op) {
        JobKeyInjective(p.approvalId, o, p.approvalId, op);
      }
      assert WillingJob(a, p, o);
    }
  }

  lemma FinishJob(hash: string -> string, w: World, p: Progress, op: Op) returns (actions: seq<Action>, job: Job)
    requires At(hash, w, NeedJob(p, op))
    ensures Possible(hash, w, actions) && JobFinished(hash, Run(hash, w, actions), p, op, job)
  {
    hide JobKey, Possible, Run, At, JobFinished;
    if JobKey(p.approvalId, op) in w.core.intents {
      actions := LetSucceed(hash, w, p, op);
      var w1 := Run(hash, w, actions);
      job := w1.core.jobs[w1.core.intents[JobKey(p.approvalId, op)].jobId];
      FinishOldJob(hash, w1, p, op, job);
      RunAppend(hash, w, actions, [Deliver(WithJob(job)), Persist]);
      actions := actions + [Deliver(WithJob(job)), Persist];
    } else {
      job := FinishNewJob(hash, w, p, op);
      actions := [Deliver(WithJob(job)), Persist];
    }
  }

  // ------------------------------------------------------------- its evidence

  lemma NewEvidenceWilling(hash: string -> string, a: Core, b: Core, p: Progress, op: Op, job: Job, e: Evidence)
    requires p.approval.Some? && Willing(hash, a, p) && op in p.jobs && JobBound(a, p, op) && p.jobs[op].jobId == job.id
    requires VerifyEvidence(p, op, job.id, e) && b == a.(evidence := a.evidence[job.id := e])
    ensures Willing(hash, b, p)
  {
    hide JobKey, EvaluationId;
    forall o ensures WillingJob(b, p, o) {
      assert WillingJob(a, p, o);
      assert WillingJob(a, p, op);
    }
  }

  lemma AfterGoesOn(hash: string -> string, w: World, p: Progress, op: Op)
    requires Inv(hash, w) && w.saved == p && p.approval.Some? && Willing(hash, w.core, p) && w.pc == After(p, op)
    ensures At(hash, w, After(p, op))
  {
    hide JobKey, EvaluationId, Willing;
  }

  lemma FinishEvidence(hash: string -> string, w: World, p: Progress, op: Op, job: Job) returns (actions: seq<Action>)
    requires At(hash, w, NeedEvidence(p, op, job))
    requires job.id in w.core.evidence ==> VerifyEvidence(p, op, job.id, w.core.evidence[job.id])
    ensures Possible(hash, w, actions)
    ensures At(hash, Run(hash, w, actions), After(Run(hash, w, actions).saved, op))
  {
    JobNeeded(hash, w, p, op, job);
    hide JobKey, EvaluationId, VerifyEvidence, After, At, JobBound, Evidenced;
    if Evidenced(p, op) {
      actions := ReadAgain(hash, w, p, op, job);
    } else {
      GoodEvidenceVerifies(p, op, job.id);
      var e := if job.id in w.core.evidence then w.core.evidence[job.id] else GoodEvidence(p, op, job.id);
      actions := CollectNew(hash, w, p, op, job, e);
    }
  }

  lemma JobNeeded(hash: string -> string, w: World, p: Progress, op: Op, job: Job)
    requires At(hash, w, NeedEvidence(p, op, job))
    ensures op in p.jobs && JobBound(w.core, p, op) && p.jobs[op].jobId == job.id && p.approval.Some?
  {
    hide JobKey, EvaluationBound, ApprovalBound, JobBound, Willing;
  }

  /** Evidence that is recorded is in Core, and is accepted again. */
  lemma ReadAgain(hash: string -> string, w: World, p: Progress, op: Op, job: Job) returns (actions: seq<Action>)
    requires At(hash, w, NeedEvidence(p, op, job)) && Evidenced(p, op)
    requires op in p.jobs && JobBound(w.core, p, op) && p.jobs[op].jobId == job.id
    ensures Possible(hash, w, actions)
    ensures At(hash, Run(hash, w, actions), After(Run(hash, w, actions).saved, op))
  {
    hide JobKey, EvaluationId, VerifyEvidence, After, Inv, Willing, HandleSubmit;
    var c := WithJob(job);
    assert Handle(w.core, RequestOf(hash, w.pc), c) == (w.core, EvidenceReply(w.core.evidence[job.id]));
    assert OnReply(hash, w.pc, EvidenceReply(w.core.evidence[job.id])) == After(p, op);
    hide OnReply, Handle, RequestOf;
    actions := [Deliver(c)];
    assert actions[1..] == [];
    StepKeeps(hash, w, Deliver(c));
    AfterGoesOn(hash, Step(hash, w, Deliver(c)), p, op);
  }

  lemma CollectNew(hash: string -> string, w: World, p: Progress, op: Op, job: Job, e: Evidence)
    returns (actions: seq<Action>)
    requires At(hash, w, NeedEvidence(p, op, job)) && !Evidenced(p, op) && VerifyEvidence(p, op, job.id, e)
    requires op in p.jobs && JobBound(w.core, p, op) && p.jobs[op].jobId == job.id
    requires job.id in w.core.evidence ==> e == w.core.evidence[job.id]
    ensures Possible(hash, w, actions)
    ensures At(hash, Run(hash, w, actions), After(Run(hash, w, actions).saved, op))
  {
    hide JobKey, EvaluationId, VerifyEvidence, After, Inv, Willing, JobBound, HandleSubmit;
    var c, p' := WithEvidence(e), WithEvidenceRef(p, op, job, e);
    var core := Handle(w.core, RequestOf(hash, w.pc), c).0;
    assert core == w.core.(evidence := w.core.evidence[job.id := e]);
    assert Handle(w.core, RequestOf(hash, w.pc), c).1 == EvidenceReply(e);
    hide Handle, RequestOf, WithEvidenceRef;
    NewEvidenceWilling(hash, w.core, core, p, op, job, e);
    EvidenceRefSame(p, op, job, e);
    WillingSame(hash, core, p, p');
    actions := [Deliver(c), Persist];
    AnswerAndSave(hash, w, c, p', After(p', op));
    AfterGoesOn(hash, World(core, p', After(p', op)), p', op);
  }

  lemma EvidenceRefSame(p: Progress, op: Op, job: Job, e: Evidence)
    ensures var p' := WithEvidenceRef(p, op, job, e); p'.approval == p.approval && p'.flow == p.flow && p'.approvalId == p.approvalId
  {
  }

  lemma GoodEvidenceVerifies(p: Progress, op: Op, id: string)
    requires p.approval.Some?
    ensures VerifyEvidence(p, op, id, GoodEvidence(p, op, id))
  {
  }

  // ------------------------------------------------------------ the whole flow

  lemma FinishOperation(hash: string -> string, w: World, p: Progress, op: Op) returns (actions: seq<Action>)
    requires At(hash, w, NeedJob(p, op))
    ensures Possible(hash, w, actions)
    ensures At(hash, Run(hash, w, actions), After(Run(hash, w, actions).saved, op))
  {
    hide Possible, Run, At, After, VerifyEvidence;
    var first, job := FinishJob(hash, w, p, op);
    var w1 := Run(hash, w, first);
    var p' := WithJobRecord(p, op, job);
    assert VerifyEvidenceSame(p, p') by { SameEvidence(p, op, job); }
    var more := FinishEvidence(hash, w1, p', op, job);
    RunAppend(hash, w, first, more);
    actions := first + more;
  }

  ghost predicate VerifyEvidenceSame(p: Progress, p': Progress)
  {
    forall op, id, e :: VerifyEvidence(p, op, id, e) ==> VerifyEvidence(p', op, id, e)
  }

  lemma SameEvidence(p: Progress, op: Op, job: Job)
    ensures VerifyEvidenceSame(p, WithJobRecord(p, op, job))
  {
  }

  lemma {:induction false} FinishFrom(hash: string -> string, w: World, p: Progress, op: Op)
    returns (actions: seq<Action>)
    requires At(hash, w, NeedJob(p, op))
    ensures Possible(hash, w, actions)
    ensures At(hash, Run(hash, w, actions), EnterEvaluation(Run(hash, w, actions).saved))
    decreases |OPS| - Rank(op)
  {
    hide Possible, Run, At, EnterEvaluation;
    actions := FinishOperation(hash, w, p, op);
    if op != Implement {
      var w1 := Run(hash, w, actions);
      var more := FinishFrom(hash, w1, w1.saved, OPS[Rank(op) + 1]);
      RunAppend(hash, w, actions, more);
      actions := actions + more;
    }
  }

  lemma FinishEvaluation(hash: string -> string, w: World) returns (actions: seq<Action>)
    requires At(hash, w, EnterEvaluation(w.saved))
    ensures Possible(hash, w, actions)
    ensures Inv(hash, Run(hash, w, actions))
    ensures Run(hash, w, actions).pc == NeedSubmission(Run(hash, w, actions).saved)
  {
    hide JobKey, EvaluationId, Recorded, KeysInOrder, WillingJob;
    var p := w.saved;
    if p.evaluation.Some? {
      actions := [];
    } else {
      var id := EvaluationId(hash, p);
      var e := if id in w.core.evaluations then w.core.evaluations[id] else GoodEvaluation(hash, p);
      var c := WithEvaluation(e);
      var p' := p.(evaluation := Some(e));
      actions := [Deliver(c), Persist];
      assert OnReply(hash, w.pc, Handle(w.core, RequestOf(hash, w.pc), c).1) == Save(p', NeedSubmission(p'));
      hide Handle, RequestOf, Inv, Willing, OnReply;
      AnswerAndSave(hash, w, c, p', NeedSubmission(p'));
    }
  }

  lemma FinishGate(hash: string -> string, w: World) returns (actions: seq<Action>)
    requires Inv(hash, w) && w.pc == NeedSubmission(w.saved)
    ensures Possible(hash, w, actions) && Run(hash, w, actions).saved.status == AwaitingGateApproval
  {
    hide Recorded, KeysInOrder, Sound;
    var p := w.saved;
    var c := WithSubmission(Submission(p.flow.submissionId, p.evaluation.value.id, p.evaluation.value.resultHash));
    var p' := p.(status := AwaitingGateApproval);
    actions := [Deliver(c), Persist];
    AnswerAndSave(hash, w, c, p', Stopped(Blocked(GateApproval)));
  }

  /** The formal input has been confirmed, whether or not the runtime has seen it. */
  predicate Approved(core: Core, p: Progress)
  {
    p.approval.Some? || (p.approvalId in core.approvals && VerifyApproval(p, core.approvals[p.approvalId]))
  }

  function WithApproval(core: Core, p: Progress): (p': Progress)
    requires Approved(core, p)
    ensures p'.approval.Some?
  {
    if p.approval.Some? then p else p.(status := InProgress, approval := Some(core.approvals[p.approvalId]))
  }

  /** Whatever the runtime was doing, it can be started again, and it finds the approval. */
  lemma StartAgain(hash: string -> string, w: World) returns (actions: seq<Action>)
    requires Inv(hash, w) && Approved(w.core, w.saved) && Willing(hash, w.core, WithApproval(w.core, w.saved))
    ensures Possible(hash, w, actions)
    ensures At(hash, Run(hash, w, actions), NeedJob(Run(hash, w, actions).saved, ValidateSources))
  {
    hide JobKey, Recorded, KeysInOrder, Sound, Willing;
    StepKeeps(hash, w, Crash);
    var w1 := Step(hash, w, Crash);
    StepKeeps(hash, w1, Start);
    var w2 := Step(hash, w1, Start);
    actions := [Crash, Start];
    assert [Crash, Start][1..] == [Start] && [Start][1..] == [];
    assert Possible(hash, w, actions) && Run(hash, w, actions) == w2;
    if w.saved.approval.None? {
      var p' := WithApproval(w.core, w.saved);
      var c := WithJob(GoodJob(p', Simulate, ""));
      AnswerAndSave(hash, w2, c, p', NeedJob(p', ValidateSources));
      hide Possible, Run, Inv;
      RunAppend(hash, w, actions, [Deliver(c), Persist]);
      actions := actions + [Deliver(c), Persist];
    }
  }

  /**
   * From every point of every run, once the input is confirmed and as long as
   * Core holds nothing against the flow, there is a way on to the gate.
   */
  lemma CanFinish(hash: string -> string, w: World) returns (actions: seq<Action>)
    requires Inv(hash, w) && Approved(w.core, w.saved) && Willing(hash, w.core, WithApproval(w.core, w.saved))
    ensures Possible(hash, w, actions) && Run(hash, w, actions).saved.status == AwaitingGateApproval
  {
    hide Possible, Run, At, Inv, Willing;
    var a := StartAgain(hash, w);
    var w1 := Run(hash, w, a);
    var b := FinishFrom(hash, w1, w1.saved, ValidateSources);
    var w2 := Run(hash, w1, b);
    var c := FinishEvaluation(hash, w2);
    var w3 := Run(hash, w2, c);
    var d := FinishGate(hash, w3);
    RunAppend(hash, w2, c, d);
    RunAppend(hash, w1, b, c + d);
    RunAppend(hash, w, a, b + (c + d));
    actions := a + (b + (c + d));
  }
}
