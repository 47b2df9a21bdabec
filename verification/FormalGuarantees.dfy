/** The promises of the formal flow, stated for every run. */
module FormalGuarantees {
  import opened Common
  import opened FormalCore
  import opened FormalFlow
  import opened FormalSafety

  /** A flow just initialized, against a Core that has seen none of its keys. */
  ghost predicate Fresh(hash: string -> string, w: World, flow: Flow, preview: Preview)
  {
    && Initialize(hash, flow, preview) == Ok(w.saved) && w.pc.Stopped? && Sound(w.core)
    && forall op :: JobKey(w.saved.approvalId, op) !in w.core.intents
  }

  lemma FreshInv(hash: string -> string, w: World, flow: Flow, preview: Preview)
    requires Fresh(hash, w, flow, preview)
    ensures Inv(hash, w)
  {
    hide JobKey;
  }

  // ----------------------------------------------------- the runtime's own jobs

  /** A job the runtime has created, and the world at that moment. */
  datatype Made = Made(creation: Creation, at: World)

  /** The jobs Core creates in answer to the runtime, under whatever keys. */
  function OwnStep(hash: string -> string, w: World, a: Action): seq<Made>
    requires Enabled(w, a)
  {
    var created := CreatedSince(w.core, Step(hash, w, a).core);
    if a.Deliver? || a.LoseReply? then seq(|created|, i requires 0 <= i < |created| => Made(created[i], w)) else []
  }

  function Own(hash: string -> string, w: World, actions: seq<Action>): seq<Made>
    requires Possible(hash, w, actions)
    decreases |actions|
  {
    if actions == [] then []
    else OwnStep(hash, w, actions[0]) + Own(hash, Step(hash, w, actions[0]), actions[1..])
  }

  /** The evidence of an operation is saved, its job succeeded, and Core holds both, verified. */
  predicate Done(core: Core, p: Progress, op: Op)
  {
    p.approval.Some? && Evidenced(p, op) && EvidenceBound(core, p, op)
  }

  /** The job of an operation of this approval, under its key, created when those before it were done. */
  predicate InOrder(m: Made, approvalId: string)
  {
    var op := m.creation.intent.op;
    && m.creation.key == JobKey(approvalId, op) && m.creation.intent.approvalId == approvalId
    && m.at.saved.approvalId == approvalId && EvidencedBefore(m.at.saved, op)
    && forall earlier :: Rank(earlier) < Rank(op) ==> Done(m.at.core, m.at.saved, earlier)
  }

  /** A creation by the runtime is in order, of an operation that had no job, and on record. */
  predicate New(m: Made, approvalId: string, before: Core, after: Core)
  {
    && InOrder(m, approvalId)
    && JobKey(approvalId, m.creation.intent.op) !in before.intents
    && JobKey(approvalId, m.creation.intent.op) in after.intents
    && after.intents[JobKey(approvalId, m.creation.intent.op)] == m.creation.intent
  }

  lemma EarlierDone(core: Core, p: Progress, op: Op)
    requires p.approval.Some? && EvidencedBefore(p, op) && (forall o :: o in p.jobs ==> JobBound(core, p, o))
    ensures forall earlier :: Rank(earlier) < Rank(op) ==> Done(core, p, earlier)
  {
    hide JobKey, EvidenceBound, VerifyJob;
    forall earlier | Rank(earlier) < Rank(op) ensures Done(core, p, earlier) {
      assert Evidenced(p, earlier) && JobBound(core, p, earlier);
    }
  }

  /** The runtime's own step creates one new job or none, and uses no other key. */
  lemma OwnStepNew(hash: string -> string, w: World, a: Action)
    requires Inv(hash, w) && Enabled(w, a) && (a.Deliver? || a.LoseReply?)
    ensures
      var own, core := OwnStep(hash, w, a), Step(hash, w, a).core;
      && |own| <= 1 && (forall i :: 0 <= i < |own| ==> New(own[i], w.saved.approvalId, w.core, core))
      && (own == [] ==> core.intents == w.core.intents)
      && (own != [] ==> core.intents == w.core.intents[own[0].creation.key := own[0].creation.intent])
  {
    hide Handle, Inv, InOrder, JobKey, RequestOf;
    var request := RequestOf(hash, w.pc);
    var c := if a.Deliver? then a.choice else a.lost;
    CreatedBy(w.core, request, c);
    var core := Handle(w.core, request, c).0;
    assert core == Step(hash, w, a).core;
    if CreatedSince(w.core, core) != [] {
      OwnInOrder(hash, w, CreatedSince(w.core, core)[0]);
    }
  }

  /** A request creates the job it asks for, under a key that was not in use, or none. */
  lemma CreatedBy(core: Core, request: Request, c: Choice)
    ensures
      var after := Handle(core, request, c).0;
      if request.SubmitJob? && request.key !in core.intents && c.WithJob? && c.newJob.id !in core.jobs then
        var intent := Intent(request.op, request.forApproval, c.newJob.id);
        && CreatedSince(core, after) == [Creation(request.key, intent)]
        && after.intents == core.intents[request.key := intent]
      else CreatedSince(core, after) == [] && after.intents == core.intents
  {
  }

  lemma OwnInOrder(hash: string -> string, w: World, creation: Creation)
    requires Inv(hash, w) && Asking(w.pc)
    requires
      var request := RequestOf(hash, w.pc);
      request.SubmitJob? && creation == Creation(request.key, Intent(request.op, request.forApproval, creation.intent.jobId))
    ensures InOrder(Made(creation, w), w.saved.approvalId)
    ensures creation.key == JobKey(w.saved.approvalId, creation.intent.op)
  {
    hide JobKey, JobBound, EvaluationBound, KeysInOrder, EvidencedBefore, Done, Sound;
    EarlierDone(w.core, w.pc.p, w.pc.op);
  }

  /** A key of this flow comes into use by a step of the runtime only. */
  lemma OthersKeepKeys(hash: string -> string, w: World, a: Action, op: Op)
    requires Inv(hash, w) && Enabled(w, a) && !a.Deliver? && !a.LoseReply?
    ensures JobKey(w.saved.approvalId, op) in Step(hash, w, a).core.intents ==>
              JobKey(w.saved.approvalId, op) in w.core.intents
  {
    hide JobKey, Recorded, PcBound, KeysInOrder, Handle, Grows;
    if a.Foreign? { HandleKeeps(w.core, a.request, a.theirs); }
  }

  /** All own creations of a run: each in order and on record, no operation twice, no key used otherwise. */
  ghost predicate Ledger(own: seq<Made>, approvalId: string, before: Core, after: Core)
  {
    && (forall i :: 0 <= i < |own| ==> New(own[i], approvalId, before, after))
    && (forall i, j :: 0 <= i < j < |own| ==> own[i].creation.intent.op != own[j].creation.intent.op)
    && (forall op :: JobKey(approvalId, op) in after.intents && JobKey(approvalId, op) !in before.intents ==>
          exists i :: 0 <= i < |own| && own[i].creation.intent.op == op)
  }

  lemma LedgerMore(first: seq<Made>, rest: seq<Made>, id: string, a: Core, b: Core, c: Core)
    requires Ledger(first, id, a, b) && Ledger(rest, id, b, c) && Grows(a, b) && Grows(b, c)
    ensures Ledger(first + rest, id, a, c)
  {
    hide JobKey, InOrder;
    var own := first + rest;
    forall i | 0 <= i < |own| ensures New(own[i], id, a, c) {
      assert own[i] == if i < |first| then first[i] else rest[i - |first|];
    }
    forall i, j | 0 <= i < j < |own| ensures own[i].creation.intent.op != own[j].creation.intent.op {
      if i < |first| <= j { assert New(first[i], id, a, b) && New(rest[j - |first|], id, b, c); }
    }
    forall op | JobKey(id, op) in c.intents && JobKey(id, op) !in a.intents
      ensures exists i :: 0 <= i < |own| && own[i].creation.intent.op == op
    {
      if JobKey(id, op) in b.intents {
        var i :| 0 <= i < |first| && first[i].creation.intent.op == op;
        assert own[i].creation.intent.op == op;
      } else {
        var i :| 0 <= i < |rest| && rest[i].creation.intent.op == op;
        assert own[|first| + i].creation.intent.op == op;
      }
    }
  }

  lemma LedgerStep(hash: string -> string, w: World, a: Action)
    requires Inv(hash, w) && Enabled(w, a)
    ensures Ledger(OwnStep(hash, w, a), w.saved.approvalId, w.core, Step(hash, w, a).core)
  {
    hide JobKey, InOrder, Inv, Step, Enabled;
    var id := w.saved.approvalId;
    if a.Deliver? || a.LoseReply? {
      OwnStepNew(hash, w, a);
      var own := OwnStep(hash, w, a);
      if own != [] {
        forall op | JobKey(id, op) in Step(hash, w, a).core.intents && JobKey(id, op) !in w.core.intents
          ensures own[0].creation.intent.op == op
        {
          assert New(own[0], id, w.core, Step(hash, w, a).core);
          OwnKey(own[0], id, op);
        }
      }
    } else {
      forall op | JobKey(id, op) in Step(hash, w, a).core.intents ensures JobKey(id, op) in w.core.intents {
        OthersKeepKeys(hash, w, a, op);
      }
    }
  }

  lemma OwnKey(m: Made, id: string, op: Op)
    requires InOrder(m, id) && m.creation.key == JobKey(id, op)
    ensures m.creation.intent.op == op
  {
    hide JobKey;
    JobKeyInjective(id, m.creation.intent.op, id, op);
  }

  lemma {:induction false} OwnLedger(hash: string -> string, w: World, actions: seq<Action>)
    requires Inv(hash, w) && Possible(hash, w, actions)
    ensures Ledger(Own(hash, w, actions), w.saved.approvalId, w.core, Run(hash, w, actions).core)
    decreases |actions|
  {
    hide Inv, Ledger, Grows, Extends, Step, OwnStep, Enabled;
    if actions == [] {
      NoneOwn(w.saved.approvalId, w.core);
    } else {
      var w1 := Step(hash, w, actions[0]);
      StepKeeps(hash, w, actions[0]);
      SameFlow(w.saved, w1.saved);
      LedgerStep(hash, w, actions[0]);
      OwnLedger(hash, w1, actions[1..]);
      RunKeeps(hash, w1, actions[1..]);
      LedgerMore(OwnStep(hash, w, actions[0]), Own(hash, w1, actions[1..]), w.saved.approvalId,
                 w.core, w1.core, Run(hash, w1, actions[1..]).core);
    }
  }

  lemma NoneOwn(id: string, core: Core)
    ensures Ledger([], id, core, core)
  {
  }

  lemma SameFlow(p: Progress, q: Progress)
    requires Extends(p, q)
    ensures q.approvalId == p.approvalId
  {
  }

  /**
   * However often the runtime dies and starts again, it creates at most one job
   * for each operation, under whatever key, and the job recorded for an operation is that one.
   */
  lemma AtMostOneJob(hash: string -> string, w: World, flow: Flow, preview: Preview, actions: seq<Action>)
    requires Fresh(hash, w, flow, preview) && Possible(hash, w, actions)
    ensures
      var own, w' := Own(hash, w, actions), Run(hash, w, actions);
      && (forall i, j :: 0 <= i < j < |own| ==> own[i].creation.intent.op != own[j].creation.intent.op)
      && (forall i :: 0 <= i < |own| ==>
            && own[i].creation.key == JobKey(w.saved.approvalId, own[i].creation.intent.op)
            && own[i].creation.intent.approvalId == w.saved.approvalId)
      && (forall op :: op in w'.saved.jobs ==>
            && JobKey(w.saved.approvalId, op) in w'.core.intents
            && w'.core.intents[JobKey(w.saved.approvalId, op)].jobId == w'.saved.jobs[op].jobId
            && exists i :: 0 <= i < |own| && own[i].creation.intent == Intent(op, w.saved.approvalId, w'.saved.jobs[op].jobId))
      && (forall i, j :: 0 <= i < j < |w'.core.created| ==> w'.core.created[i].key != w'.core.created[j].key)
  {
    hide JobKey, Possible, Run, Own, EvaluationBound, PcBound, KeysInOrder;
    FreshInv(hash, w, flow, preview);
    RunKeeps(hash, w, actions);
    OwnLedger(hash, w, actions);
    var own, w' := Own(hash, w, actions), Run(hash, w, actions);
    assert forall i :: 0 <= i < |own| ==> New(own[i], w.saved.approvalId, w.core, w'.core);
    forall op | op in w'.saved.jobs
      ensures JobKey(w.saved.approvalId, op) in w'.core.intents
      ensures w'.core.intents[JobKey(w.saved.approvalId, op)].jobId == w'.saved.jobs[op].jobId
      ensures exists i :: 0 <= i < |own| && own[i].creation.intent == Intent(op, w.saved.approvalId, w'.saved.jobs[op].jobId)
    {
      assert JobBound(w'.core, w'.saved, op);
      var i :| 0 <= i < |own| && own[i].creation.intent.op == op;
      assert New(own[i], w.saved.approvalId, w.core, w'.core);
    }
  }

  /** At the moment the runtime creates the job of an operation, those before it have succeeded with their evidence saved. */
  lemma SubmittedInOrder(hash: string -> string, w: World, flow: Flow, preview: Preview, actions: seq<Action>,
                         k: nat, earlier: Op)
    requires Fresh(hash, w, flow, preview) && Possible(hash, w, actions)
    requires k < |Own(hash, w, actions)| && Rank(earlier) < Rank(Own(hash, w, actions)[k].creation.intent.op)
    ensures Done(Own(hash, w, actions)[k].at.core, Own(hash, w, actions)[k].at.saved, earlier)
  {
    hide JobKey, Possible, Run, Own, Done, Inv;
    FreshInv(hash, w, flow, preview);
    OwnLedger(hash, w, actions);
    assert New(Own(hash, w, actions)[k], w.saved.approvalId, w.core, Run(hash, w, actions).core);
  }

  /** Once the key of an operation is in use, those before it have succeeded with their evidence saved. */
  lemma KeyUsedInOrder(hash: string -> string, w: World, flow: Flow, preview: Preview, actions: seq<Action>,
                       op: Op, earlier: Op)
    requires Fresh(hash, w, flow, preview) && Possible(hash, w, actions)
    requires JobKey(w.saved.approvalId, op) in Run(hash, w, actions).core.intents && Rank(earlier) < Rank(op)
    ensures Done(Run(hash, w, actions).core, Run(hash, w, actions).saved, earlier)
  {
    hide JobKey, Possible, Run, EvaluationBound, PcBound;
    FreshInv(hash, w, flow, preview);
    RunKeeps(hash, w, actions);
    var w' := Run(hash, w, actions);
    assert EvidencedBefore(w'.saved, op);
    assert JobBound(w'.core, w'.saved, earlier);
  }

  /** What has been saved is never changed by a later step, crash or restart. */
  lemma FactsNeverChange(hash: string -> string, w: World, flow: Flow, preview: Preview,
                         actions: seq<Action>, later: seq<Action>)
    requires Fresh(hash, w, flow, preview) && Possible(hash, w, actions)
    requires Possible(hash, Run(hash, w, actions), later)
    ensures
      var now, then' := Run(hash, w, actions), Run(hash, Run(hash, w, actions), later);
      Extends(now.saved, then'.saved) && Grows(now.core, then'.core)
  {
    hide *;
    FreshInv(hash, w, flow, preview);
    RunKeeps(hash, w, actions);
    RunKeeps(hash, Run(hash, w, actions), later);
  }

  /** The job of an operation and its evidence are bound to the approval's inputs. */
  predicate ChainedJob(core: Core, p: Progress, op: Op)
  {
    && op in p.jobs && p.jobs[op].jobId in core.jobs && p.jobs[op].jobId in core.evidence
    && var job, evidence := core.jobs[p.jobs[op].jobId], core.evidence[p.jobs[op].jobId];
       && job.approvalId == p.approvalId && job.state == Succeeded && evidence.op == job.op == op
       && job.inputHash == evidence.inputHash == p.preview.inputHash
       && job.toolchainHash == evidence.toolchainHash == p.preview.toolchainHash
  }

  /** The four jobs and their evidence are bound to the approval's inputs, and the evaluation to the submission. */
  ghost predicate Chained(hash: string -> string, core: Core, p: Progress)
  {
    && p.approval.Some? && p.approval.value.id == p.approvalId && p.evaluation.Some?
    && p.approval.value.preview.(constraintsComplete := p.preview.constraintsComplete) == p.preview
    && (forall op :: ChainedJob(core, p, op))
    && p.evaluation.value.id == EvaluationId(hash, p) && p.evaluation.value.passed
    && p.evaluation.value.submissionId == p.flow.submissionId && p.evaluation.value.snapshotId == p.flow.snapshotId
    && p.evaluation.value.profileHash == p.flow.profileHash
  }

  lemma BoundIsChained(core: Core, p: Progress, op: Op)
    requires ApprovalBound(core, p) && Evidenced(p, op) && JobBound(core, p, op)
    ensures ChainedJob(core, p, op)
  {
    hide JobKey;
  }

  /** A gate is only ever awaited with the whole chain in place, and it stays in place. */
  lemma AwaitingIsChained(hash: string -> string, w: World, flow: Flow, preview: Preview, actions: seq<Action>)
    requires Fresh(hash, w, flow, preview) && Possible(hash, w, actions)
    requires
      var saved := Run(hash, w, actions).saved;
      saved.status == AwaitingGateApproval || saved.evaluation.Some?
    ensures Chained(hash, Run(hash, w, actions).core, Run(hash, w, actions).saved)
  {
    hide JobKey, Possible, Run, PcBound, Initialize, JobBound, ChainedJob;
    FreshInv(hash, w, flow, preview);
    RunKeeps(hash, w, actions);
    var w' := Run(hash, w, actions);
    assert EvaluationBound(hash, w'.core, w'.saved) && ApprovalBound(w'.core, w'.saved);
    forall op ensures ChainedJob(w'.core, w'.saved, op) {
      assert Evidenced(w'.saved, op);
      BoundIsChained(w'.core, w'.saved, op);
    }
  }

  // ------------------------------------------------------------------ release

  predicate ReleaseMatches(p: Progress, r: Release)
    requires p.approval.Some? && p.evaluation.Some?
  {
    && r.isSealed && r.projectId == p.flow.projectId && r.workVersionId == p.flow.workVersionId
    && r.evaluationId == p.evaluation.value.id && Some(r.candidateHash) == p.evaluation.value.sealedHash
    && r.approvalId == p.approval.value.id
  }

  /** `verifyReleased`: the first listed release with the id the evaluation names. */
  method VerifyReleased(p: Progress, releases: seq<Release>) returns (r: Result<Release, Failure>)
    ensures r == Err(ReleaseNotReady) <==>
      p.evaluation.None? || p.evaluation.value.sealedHash.None? || p.evaluation.value.releaseId.None? || p.approval.None?
    ensures r == Err(ReleaseMissing) ==>
      p.evaluation.Some? && forall i :: 0 <= i < |releases| ==> Some(releases[i].id) != p.evaluation.value.releaseId
    ensures r.Ok? || r == Err(ReleaseBindingMismatch) ==>
      && p.evaluation.Some? && p.approval.Some?
      && exists k :: 0 <= k < |releases|
           && Some(releases[k].id) == p.evaluation.value.releaseId
           && (forall i :: 0 <= i < k ==> Some(releases[i].id) != p.evaluation.value.releaseId)
           && (if r.Ok? then r.value == releases[k] && ReleaseMatches(p, releases[k])
               else !ReleaseMatches(p, releases[k]))
    ensures r.Err? ==> r.error in {ReleaseNotReady, ReleaseMissing, ReleaseBindingMismatch}
  {
    if p.evaluation.None? || p.evaluation.value.sealedHash.None? || p.evaluation.value.releaseId.None?
       || p.approval.None?
    {
      return Err(ReleaseNotReady);
    }
    var k := 0;
    while k < |releases| && Some(releases[k].id) != p.evaluation.value.releaseId
      invariant 0 <= k <= |releases|
      invariant forall i :: 0 <= i < k ==> Some(releases[i].id) != p.evaluation.value.releaseId
    {
      k := k + 1;
    }
    if k == |releases| { return Err(ReleaseMissing); }
    if !ReleaseMatches(p, releases[k]) { return Err(ReleaseBindingMismatch); }
    r := Ok(releases[k]);
  }

  /** A release that matches the saved progress of any run names the approval and the evaluation of that flow. */
  lemma ReleaseNamesTheChain(hash: string -> string, w: World, flow: Flow, preview: Preview, actions: seq<Action>,
                             r: Release)
    requires Fresh(hash, w, flow, preview) && Possible(hash, w, actions)
    requires
      var p := Run(hash, w, actions).saved;
      p.approval.Some? && p.evaluation.Some? && ReleaseMatches(p, r)
    ensures
      var w' := Run(hash, w, actions);
      && Chained(hash, w'.core, w'.saved)
      && r.approvalId == w.saved.approvalId && r.approvalId in w'.core.approvals
      && r.evaluationId == EvaluationId(hash, w'.saved) && r.evaluationId in w'.core.evaluations
      && Some(r.candidateHash) == w'.core.evaluations[r.evaluationId].sealedHash
      && w'.core.evaluations[r.evaluationId].submissionId == flow.submissionId
  {
    hide JobKey, Possible, Run, PcBound, JobBound, Chained;
    AwaitingIsChained(hash, w, flow, preview, actions);
    FreshInv(hash, w, flow, preview);
    RunKeeps(hash, w, actions);
    var w' := Run(hash, w, actions);
    assert EvaluationBound(hash, w'.core, w'.saved) && ApprovalBound(w'.core, w'.saved);
  }
}
