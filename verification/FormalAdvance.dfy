/** `advance` as it is written: one pass over the operations, saving after every fact. */
module FormalAdvance {
  import opened Common
  import opened FormalCore
  import opened FormalFlow
  import opened FormalOutcome
  import opened FormalSafety

  /** What befalls an await: it completes, the process dies before the effect, or after it. */
  datatype Fate = Completes | DiesBefore | DiesAfter

  datatype Await = Await(fate: Fate, choice: Choice)

  // --------------------------------------------------------------- one re-entry

  /** The runtime is stopped, or knows what to ask or save next. */
  predicate Ready(pc: Pc)
    decreases pc
  {
    pc.Stopped? || Asking(pc) || (pc.Save? && Ready(pc.next))
  }

  lemma AfterReady(p: Progress, op: Op)
    requires p.approval.Some?
    ensures Ready(After(p, op)) && Ready(Enter(p))
  {
  }

  lemma ReplyReady(hash: string -> string, pc: Pc, reply: Reply)
    requires Asking(pc)
    ensures Ready(OnReply(hash, pc, reply))
  {
    hide VerifyApproval, VerifyJob, VerifyEvidence, VerifyEvaluation, EvaluationId, After;
    if pc.NeedEvidence? {
      AfterReady(pc.p, pc.op);
      if reply.EvidenceReply? { AfterReady(WithEvidenceRef(pc.p, pc.op, pc.job, reply.evidence), pc.op); }
    }
  }

  /** The actions that make up one await. */
  function Actions(pc: Pc, a: Await): (actions: seq<Action>)
    requires Asking(pc) || pc.Save?
  {
    match a.fate
    case Completes => [if pc.Save? then Persist else Deliver(a.choice)]
    case DiesBefore => [Crash]
    case DiesAfter => if pc.Save? then [Persist, Crash] else [LoseReply(a.choice)]
  }

  lemma ActionsPossible(hash: string -> string, w: World, a: Await)
    requires Ready(w.pc) && !w.pc.Stopped?
    ensures Possible(hash, w, Actions(w.pc, a)) && Ready(Run(hash, w, Actions(w.pc, a)).pc)
  {
    var actions := Actions(w.pc, a);
    assert actions[1..] == if |actions| == 2 then [Crash] else [];
    if Asking(w.pc) && a.fate == Completes {
      ReplyReady(hash, w.pc, Handle(w.core, RequestOf(hash, w.pc), a.choice).1);
    }
    hide OnReply, Handle, RequestOf, Asking;
    if |actions| == 2 { assert [Crash][1..] == []; }
  }

  /** The world after the runtime has gone on until it stops; where the script ends, it dies. */
  function Drive(hash: string -> string, w: World, script: seq<Await>): World
    requires Ready(w.pc)
    decreases |script|
  {
    if w.pc.Stopped? then w
    else if script == [] then Step(hash, w, Crash)
    else
      ActionsPossible(hash, w, script[0]);
      Drive(hash, Run(hash, w, Actions(w.pc, script[0])), script[1..])
  }

  /** Entering `advance` and going on until it returns, throws or dies. */
  function Advanced(hash: string -> string, w: World, script: seq<Await>): World
    requires w.pc.Stopped?
  {
    Drive(hash, Step(hash, w, Start), script)
  }

  /** Whatever one call of `advance` does is a run of the flow that ends with the runtime stopped. */
  lemma {:induction false} DriveIsRun(hash: string -> string, w: World, script: seq<Await>) returns (actions: seq<Action>)
    requires Ready(w.pc)
    ensures Possible(hash, w, actions) && Run(hash, w, actions) == Drive(hash, w, script)
    ensures Drive(hash, w, script).pc.Stopped?
    decreases |script|
  {
    hide Actions;
    if w.pc.Stopped? {
      actions := [];
    } else if script == [] {
      actions := [Crash];
      assert actions[1..] == [];
    } else {
      ActionsPossible(hash, w, script[0]);
      var first := Actions(w.pc, script[0]);
      hide Possible, Run, Ready;
      var more := DriveIsRun(hash, Run(hash, w, first), script[1..]);
      RunAppend(hash, w, first, more);
      actions := first + more;
    }
  }

  /** One call of `advance` keeps the invariant and takes nothing back, wherever it is cut off. */
  lemma AdvanceKeeps(hash: string -> string, w: World, script: seq<Await>)
    requires Inv(hash, w) && w.pc.Stopped?
    ensures
      var after := Advanced(hash, w, script);
      Inv(hash, after) && after.pc.Stopped? && Grows(w.core, after.core) && Extends(w.saved, after.saved)
  {
    hide Inv, Possible, Run, Grows, Extends;
    StepKeeps(hash, w, Start);
    var w1 := Step(hash, w, Start);
    var actions := DriveIsRun(hash, w1, script);
    RunKeeps(hash, w1, actions);
    GrowsTransitive(w.core, w1.core, Advanced(hash, w, script).core);
    ExtendsTransitive(w.saved, w1.saved, Advanced(hash, w, script).saved);
  }

  // ------------------------------------------------------------------- the code

  const NOJOB := Job("", Submitted, ValidateSources, false, "", "", "", "")

  class FormalFlowOrchestrator {
    const hash: string -> string
    var core: Core
    var saved: Progress
    var script: seq<Await>
    /** Where the code is, in terms of the state machine. */
    ghost var pc: Pc
    /** What this call has asked and been told, and the progress it began with. */
    ghost var asked: seq<Exchange>
    ghost var begun: Progress

    ghost function Now(): World
      reads this
    {
      World(core, saved, pc)
    }

    /** Nothing has stopped the call so far, all it has learned is saved, and this is next on its agenda. */
    ghost predicate Next(item: Item)
      reads this
    {
      && Smooth(hash, begun, asked) && saved == FormalOutcome.Now(hash, begun, asked) && Backed(core, asked)
      && |asked| < |Agenda(begun)| && Agenda(begun)[|asked|] == item
    }

    /** The call has come to its end, or been cut off. */
    ghost predicate Over(outcome: Outcome)
      reads this
    {
      Returned(hash, begun, asked, outcome, saved) && Backed(core, asked)
    }

    constructor (digest: string -> string, service: Core, progress: Progress, awaits: seq<Await>)
      ensures hash == digest && Now() == World(service, progress, Stopped(Died)) && script == awaits
    {
      hash, core, saved, script, pc := digest, service, progress, awaits, Stopped(Died);
      asked, begun := [], progress;
    }

    /** The await at hand; a script that has run out is a process that dies. */
    method Take() returns (await: Await)
      modifies this`script
      ensures old(script) == [] ==> await.fate == DiesBefore && script == []
      ensures old(script) != [] ==> await == old(script)[0] && script == old(script)[1..]
    {
      if |script| == 0 { return Await(DiesBefore, Refuse); }
      await := script[0];
      script := script[1..];
    }

    /** One call to Core. */
    method Ask(request: Request, ghost item: Item) returns (reply: Reply, alive: bool)
      requires Asking(pc) && request == RequestOf(hash, pc)
      requires Next(item) && Rightly(hash, Exchange(saved, item, request, Refused))
      modifies this`core, this`script, this`pc, this`asked
      ensures pc == if alive then OnReply(hash, old(pc), reply) else Stopped(Died)
      ensures Ready(pc) && Drive(hash, Now(), script) == old(Drive(hash, Now(), script))
      ensures alive <==> old(script) != [] && old(script)[0].fate == Completes
      ensures !alive ==> Over(Died)
      ensures alive ==>
        asked == old(asked) + [Exchange(saved, item, request, reply)] && Heard(Exchange(saved, item, request, reply))
    {
      hide OnReply, RequestOf, Handle, Smooth, Told, Ended, Agenda, Backed, Learned, GoesOn, Accounts, CutOff, OnRecord;
      CutOffHere(hash, begun, asked);
      var await := Take();
      if old(script) != [] { ActionsPossible(hash, Now(), await); }
      assert Actions(pc, await)[1..] == [];
      if await.fate == DiesBefore {
        pc := Stopped(Died);
        return Refused, false;
      }
      var answer := Handle(core, request, await.choice);
      ghost var x := Exchange(saved, item, request, answer.1);
      RightlyAnyReply(hash, saved, item, request, answer.1);
      BackedMore(core, asked, x, await.choice);
      ReplyOnRecord(core, request, await.choice);
      core, reply, alive := answer.0, answer.1, await.fate == Completes;
      ReplyReady(hash, pc, reply);
      pc := if alive then OnReply(hash, pc, reply) else Stopped(Died);
      if alive {
        ToldMore(hash, begun, asked, x);
        asked := asked + [x];
      }
    }

    /** A reply has just arrived: what the call may do with it. */
    ghost predicate Heard(x: Exchange)
      reads this`asked, this`begun, this`core
    {
      && Rightly(hash, x) && Backed(core, asked) && OnRecord(core, x.request, x.reply)
      && asked != [] && asked[|asked| - 1] == x && FormalOutcome.Now(hash, begun, asked) == Learned(hash, x)
      && (GoesOn(hash, x) ==> Smooth(hash, begun, asked))
      && (forall outcome :: Accounts(hash, x, outcome) ==> Ended(hash, begun, asked, outcome, Learned(hash, x)))
      && CutOff(hash, begun, asked, x.saved) && CutOff(hash, begun, asked, Learned(hash, x))
    }

    /** The call ends with the outcome that the reply accounts for, once what it has learned is saved. */
    lemma MayEnd(x: Exchange, outcome: Outcome)
      requires Heard(x) && Rightly(hash, x) && Accounts(hash, x, outcome) && outcome != Died && saved == Learned(hash, x)
      ensures Over(outcome)
    {
      hide Accounts, Ended, CutOff, Learned, GoesOn, Smooth, Backed, OnRecord;
    }

    lemma MayDie(x: Exchange)
      requires Heard(x) && Rightly(hash, x) && (saved == x.saved || saved == Learned(hash, x))
      ensures Over(Died)
    {
      hide Accounts, Ended, CutOff, Learned, GoesOn, Smooth, Backed, OnRecord;
    }

    lemma MayGoOn(x: Exchange)
      requires Heard(x) && Rightly(hash, x) && GoesOn(hash, x) && saved == Learned(hash, x)
      ensures Smooth(hash, begun, asked) && saved == FormalOutcome.Now(hash, begun, asked) && Backed(core, asked)
      ensures forall item :: |asked| < |Agenda(begun)| && Agenda(begun)[|asked|] == item ==> Next(item)
    {
      hide Accounts, Ended, CutOff, Learned, GoesOn, Smooth, Backed, OnRecord, Agenda;
    }

    lemma RightlyAnyReply(hash: string -> string, p: Progress, item: Item, request: Request, reply: Reply)
      requires Rightly(hash, Exchange(p, item, request, Refused))
      ensures Rightly(hash, Exchange(p, item, request, reply))
    {
    }

    /** `onProgress`. */
    method Keep(progress: Progress) returns (alive: bool)
      requires Ready(pc) && pc.Save? && pc.p == progress
      modifies this`saved, this`script, this`pc
      ensures pc == if alive then old(pc).next else Stopped(Died)
      ensures Ready(pc) && Drive(hash, Now(), script) == old(Drive(hash, Now(), script))
      ensures alive <==> old(script) != [] && old(script)[0].fate == Completes
      ensures saved == progress || (!alive && saved == old(saved))
    {
      var await := Take();
      if old(script) != [] { ActionsPossible(hash, Now(), await); }
      var actions := Actions(pc, await);
      assert actions[1..] == if |actions| == 2 then [Crash] else [];
      assert [Crash][1..] == [];
      if await.fate != DiesBefore { saved := progress; }
      alive := await.fate == Completes;
      pc := if alive then pc.next else Stopped(Died);
    }

    /**
     * `advance`, from the saved progress. It does what driving the state machine
     * does; and whatever it returns, the replies that have arrived account for it.
     * The gate is awaited only with everything saved, a job it waits for or fails
     * with is saved with everything before it done, and an input that is still to be
     * confirmed is not in Core.
     */
    method Advance() returns (outcome: Outcome)
      requires pc.Stopped?
      modifies this`core, this`saved, this`script, this`pc, this`asked, this`begun
      ensures Now() == Advanced(hash, old(Now()), old(script)) && pc == Stopped(outcome)
      ensures begun == old(saved) && Returned(hash, begun, asked, outcome, saved) && Backed(core, asked)
      ensures outcome == Blocked(GateApproval) ==>
        saved.status == AwaitingGateApproval && saved.evaluation.Some? && forall op :: HasEvidence(saved, op)
      ensures outcome == Blocked(RunningJob) ==> StoppedBy(saved, {Submitted, Queued, Preparing, Running, Cancelling})
      ensures outcome.Threw? && outcome.failure.JobFailed? ==>
        && outcome.failure.state in {Failed, Cancelled, Timeout, Lost, UnknownEffect, Rejected}
        && StoppedBy(saved, {outcome.failure.state})
      ensures outcome == Blocked(InputConfirmation) ==>
        old(saved).approval.None? && saved == old(saved) && saved.approvalId !in core.approvals
    {
      hide Drive, Backed, Ended, CutOff, Advanced, HasEvidence, StoppedBy;
      outcome := WalkThrough();
      if outcome != Died { OutcomeMeans(hash, core, begun, asked, outcome, saved); }
    }

    /** The statements of `advance`. */
    method WalkThrough() returns (outcome: Outcome)
      requires pc.Stopped?
      modifies this`core, this`saved, this`script, this`pc, this`asked, this`begun
      ensures Now() == Advanced(hash, old(Now()), old(script)) && pc == Stopped(outcome)
      ensures begun == old(saved) && Returned(hash, begun, asked, outcome, saved) && Backed(core, asked)
    {
      hide Drive, Returned, Backed, Agenda, At, Next, EnterEvaluation;
      var progress := saved;
      asked, begun := [], saved;
      NothingBacked(core);
      pc := Enter(progress);
      DriveStops();
      if progress.approval.None? {
        var blocked := SeekApproval();
        DriveStops();
        if blocked.Some? { return blocked.value; }
        progress := saved;
      }
      AtFirst(progress);
      var stopped;
      progress, stopped := RunOperations(progress);
      DriveStops();
      if stopped.Some? { return stopped.value; }
      AtEvaluation(progress);
      outcome := SubmitForReview(progress);
      DriveStops();
    }

    /** The loop over the operations. */
    method RunOperations(initial: Progress) returns (progress: Progress, stopped: Option<Outcome>)
      requires At(0, initial) && pc == NeedJob(initial, OPS[0]) && initial.approval.Some?
      modifies this`core, this`saved, this`script, this`pc, this`asked
      ensures Ready(pc) && Drive(hash, Now(), script) == old(Drive(hash, Now(), script))
      ensures stopped.Some? ==> pc == Stopped(stopped.value) && Over(stopped.value)
      ensures stopped.None? ==> pc == EnterEvaluation(progress) && At(|OPS|, progress)
    {
      hide Drive, Returned, Backed, Agenda, At, Next, EnterEvaluation;
      progress := initial;
      for i := 0 to |OPS|
        invariant Ready(pc) && Drive(hash, Now(), script) == old(Drive(hash, Now(), script))
        invariant At(i, progress) && pc == if i == |OPS| then EnterEvaluation(progress) else NeedJob(progress, OPS[i])
      {
        AtOperation(i, progress);
        progress, stopped := RunOperation(progress, OPS[i]);
        if stopped.Some? { return; }
        AtNext(i, progress);
      }
      stopped := None;
    }

    /** The call is at its `i`-th operation, or behind the last one. */
    ghost predicate At(i: nat, progress: Progress)
      reads this
    {
      && i <= |OPS| && progress == saved && progress.approval.Some? && progress.evaluation == begun.evaluation
      && Backed(core, asked) && |asked| == 2 * i + (if begun.approval.None? then 1 else 0)
      && if i < |OPS| then Next(ForJob(OPS[i]))
         else if progress.evaluation.None? then Next(ForEvaluation)
         else if VerifyEvaluation(progress, progress.evaluation.value) then Next(ForGate)
         else Over(Threw(EvaluationFailed))
    }

    lemma AtFirst(progress: Progress)
      requires progress == saved && progress.approval.Some? && progress.evaluation == begun.evaluation && Backed(core, asked)
      requires if begun.approval.None? then |asked| == 1 && Next(ForJob(ValidateSources)) else asked == [] && saved == begun
      ensures At(0, progress)
    {
      NothingAsked(hash, begun);
      AgendaAt(begun, 0);
    }

    lemma AtOperation(i: nat, progress: Progress)
      requires i < |OPS| && At(i, progress)
      ensures progress == saved && progress.approval.Some? && Next(ForJob(OPS[i]))
      ensures |asked| + 1 < |Agenda(begun)| && Agenda(begun)[|asked| + 1] == ForEvidence(OPS[i])
      ensures |asked| == 2 * i + (if begun.approval.None? then 1 else 0) && progress.evaluation == begun.evaluation
    {
      AgendaAt(begun, i);
      hide Smooth, Backed, Agenda, VerifyEvaluation, Returned;
    }

    lemma AtNext(i: nat, progress: Progress)
      requires i < |OPS| && |asked| == 2 * (i + 1) + (if begun.approval.None? then 1 else 0)
      requires progress.approval.Some? && progress.evaluation == begun.evaluation && Collected(progress, OPS[i])
      ensures At(i + 1, progress)
    {
      AgendaAt(begun, i);
      EvaluationChecked(progress);
      hide Smooth, Backed, Agenda, VerifyEvaluation, EvaluationFits, Returned;
    }

    lemma AtEvaluation(progress: Progress)
      requires At(|OPS|, progress)
      ensures progress == saved && progress.approval.Some? && Backed(core, asked)
      ensures if progress.evaluation.None? then
          Next(ForEvaluation) && |asked| + 1 < |Agenda(begun)| && Agenda(begun)[|asked| + 1] == ForGate
        else if VerifyEvaluation(progress, progress.evaluation.value) then Next(ForGate)
        else Over(Threw(EvaluationFailed))
    {
      AgendaAt(begun, |OPS| - 1);
      hide Smooth, Backed, Agenda, VerifyEvaluation, Returned;
    }

    /** A runtime that has stopped does nothing more. */
    lemma DriveStops()
      requires Ready(pc)
      ensures pc.Stopped? ==> Drive(hash, Now(), script) == Now()
    {
    }

    lemma NothingBacked(core: Core)
      ensures Backed(core, [])
    {
    }

    /** Where the `i`-th operation stands on the agenda, and what follows the last one. */
    lemma AgendaAt(p: Progress, i: nat)
      requires i < |OPS|
      ensures
        var at, agenda := 2 * i + (if p.approval.None? then 1 else 0), Agenda(p);
        && at + 2 < |agenda| && agenda[at] == ForJob(OPS[i]) && agenda[at + 1] == ForEvidence(OPS[i])
        && (i + 1 < |OPS| ==> agenda[at + 2] == ForJob(OPS[i + 1]))
        && (i + 1 == |OPS| ==> agenda[at + 2] == if p.evaluation.None? then ForEvaluation else ForGate)
        && (i + 1 == |OPS| && p.evaluation.None? ==> at + 3 < |agenda| && agenda[at + 3] == ForGate)
    {
    }

    /** The approval is looked up, checked and saved. */
    method SeekApproval() returns (stopped: Option<Outcome>)
      requires pc == NeedApproval(saved) && saved.approval.None? && asked == [] && begun == saved && Backed(core, asked)
      modifies this`core, this`saved, this`script, this`pc, this`asked
      ensures Ready(pc) && Drive(hash, Now(), script) == old(Drive(hash, Now(), script))
      ensures stopped.Some? ==> pc == Stopped(stopped.value) && Over(stopped.value)
      ensures stopped.None? ==>
        && pc == NeedJob(saved, ValidateSources) && saved.approval.Some? && saved.evaluation == begun.evaluation
        && |asked| == 1 && Next(ForJob(ValidateSources)) && Backed(core, asked)
    {
      NothingAsked(hash, begun);
      AgendaFirst(begun);
      ApprovalChecked(saved);
      hide VerifyApproval, ApprovalFits, Handle, Drive, Smooth, Backed, Agenda, Learned, Fits, GoesOn, Accounts, Heard, Returned;
      var request := GetApproval(saved.approvalId);
      var reply, alive := Ask(request, ForApproval);
      if !alive { return Some(Died); }
      ghost var x := Exchange(saved, ForApproval, request, reply);
      ApprovalVerdict(hash, x);
      if reply.NotFound? { MayEnd(x, Blocked(InputConfirmation)); return Some(Blocked(InputConfirmation)); }
      if !reply.ApprovalReply? { MayEnd(x, Threw(CoreRefused)); return Some(Threw(CoreRefused)); }
      if !VerifyApproval(saved, reply.approval) { MayEnd(x, Threw(InputBindingMismatch)); return Some(Threw(InputBindingMismatch)); }
      alive := Keep(saved.(status := InProgress, approval := Some(reply.approval)));
      if !alive { MayDie(x); return Some(Died); }
      MayGoOn(x);
      stopped := None;
    }

    lemma AgendaFirst(p: Progress)
      ensures p.approval.None? ==> |Agenda(p)| > 1 && Agenda(p)[0] == ForApproval && Agenda(p)[1] == ForJob(ValidateSources)
    {
    }

    lemma ApprovalChecked(p: Progress)
      ensures forall a :: VerifyApproval(p, a) <==> ApprovalFits(p, a)
    {
    }

    lemma ApprovalVerdict(hash: string -> string, x: Exchange)
      requires x.item == ForApproval && Rightly(hash, x)
      ensures x.reply.NotFound? ==> Accounts(hash, x, Blocked(InputConfirmation)) && Learned(hash, x) == x.saved
      ensures !x.reply.NotFound? && !x.reply.ApprovalReply? ==> Accounts(hash, x, Threw(CoreRefused)) && Learned(hash, x) == x.saved
      ensures x.reply.ApprovalReply? ==>
        var p, a := x.saved, x.reply.approval;
        if ApprovalFits(p, a) then GoesOn(hash, x) && Learned(hash, x) == p.(status := InProgress, approval := Some(a))
        else Accounts(hash, x, Threw(InputBindingMismatch)) && Learned(hash, x) == p
    {
    }

    /** The body of the loop over the operations. */
    method RunOperation(initial: Progress, op: Op) returns (progress: Progress, stopped: Option<Outcome>)
      requires pc == NeedJob(initial, op) && initial.approval.Some? && initial == saved && Next(ForJob(op))
      requires |asked| + 1 < |Agenda(begun)| && Agenda(begun)[|asked| + 1] == ForEvidence(op)
      modifies this`core, this`saved, this`script, this`pc, this`asked
      ensures Ready(pc) && Drive(hash, Now(), script) == old(Drive(hash, Now(), script)) && progress.approval.Some?
      ensures pc == if stopped.Some? then Stopped(stopped.value) else After(progress, op)
      ensures stopped.Some? ==> Over(stopped.value)
      ensures stopped.None? ==> Collected(progress, op) && |asked| == old(|asked|) + 2 && progress.evaluation == initial.evaluation
    {
      hide EvaluationId, Handle, EnterEvaluation, Drive, Agenda, Returned, Smooth, Backed, Collected;
      var job, existing;
      progress, job, existing, stopped := FindJob(initial, op);
      if stopped.Some? { return; }
      progress, stopped := CollectEvidence(progress, op, job, existing);
    }

    /** The job of the operation: looked up or submitted, checked and recorded; `existing` says whether it has evidence. */
    method FindJob(initial: Progress, op: Op) returns (progress: Progress, job: Job, existing: bool, stopped: Option<Outcome>)
      requires pc == NeedJob(initial, op) && initial.approval.Some? && initial == saved && Next(ForJob(op))
      requires |asked| + 1 < |Agenda(begun)| && Agenda(begun)[|asked| + 1] == ForEvidence(op)
      modifies this`core, this`saved, this`script, this`pc, this`asked
      ensures Ready(pc) && Drive(hash, Now(), script) == old(Drive(hash, Now(), script)) && progress.approval.Some?
      ensures stopped.Some? ==> pc == Stopped(stopped.value) && Over(stopped.value)
      ensures stopped.None? ==>
        && pc == NeedEvidence(progress, op, job) && progress == saved && progress.evaluation == initial.evaluation
        && op in progress.jobs && progress.jobs[op].jobId == job.id && progress.jobs[op].state == job.state == Succeeded
        && existing == progress.jobs[op].evidence.Some?
        && |asked| == old(|asked|) + 1 && Next(ForEvidence(op))
    {
      hide Handle, JobKey, Drive, OnReply, Smooth, Backed, Agenda, Heard, Returned;
      var known := if op in initial.jobs then Some(initial.jobs[op]) else None;
      var request := if known.Some? then GetJob(known.value.jobId)
                     else SubmitJob(op, initial.approval.value.id, JobKey(initial.approval.value.id, op));
      var reply, alive := Ask(request, ForJob(op));
      if !alive { return initial, NOJOB, false, Some(Died); }
      progress, job, existing, stopped := NoteJob(initial, op, known, reply, Exchange(initial, ForJob(op), request, reply));
    }

    /** What is made of the reply. */
    method NoteJob(initial: Progress, op: Op, known: Option<JobRecord>, reply: Reply, ghost x: Exchange)
      returns (progress: Progress, job: Job, existing: bool, stopped: Option<Outcome>)
      requires initial.approval.Some? && initial == saved && known == if op in initial.jobs then Some(initial.jobs[op]) else None
      requires x == Exchange(initial, ForJob(op), x.request, reply) && Heard(x)
      requires Ready(pc) && pc == OnReply(hash, NeedJob(initial, op), reply)
      requires |asked| < |Agenda(begun)| && Agenda(begun)[|asked|] == ForEvidence(op)
      modifies this`saved, this`script, this`pc
      ensures Ready(pc) && Drive(hash, Now(), script) == old(Drive(hash, Now(), script)) && progress.approval.Some?
      ensures stopped.Some? ==> pc == Stopped(stopped.value) && Over(stopped.value)
      ensures stopped.None? ==>
        && pc == NeedEvidence(progress, op, job) && progress == saved && progress.evaluation == initial.evaluation
        && op in progress.jobs && progress.jobs[op].jobId == job.id && progress.jobs[op].state == job.state == Succeeded
        && existing == progress.jobs[op].evidence.Some? && Next(ForEvidence(op))
    {
      RightlyHeard(x);
      JobChecked(initial, op);
      JobVerdict(hash, x, op);
      JobMoves(initial, op, reply);
      hide VerifyJob, Handle, JobKey, Drive, OnReply, Terminal, Rightly;
      hide Smooth, Backed, Agenda, Learned, Fits, GoesOn, Accounts, Heard, Returned, JobFits;
      if !reply.JobReply? {
        MayEnd(x, Threw(CoreRefused));
        return initial, NOJOB, false, Some(Threw(CoreRefused));
      }
      job := reply.job;
      if !VerifyJob(initial, op, job) {
        MayEnd(x, Threw(JobBindingMismatch));
        return initial, job, false, Some(Threw(JobBindingMismatch));
      }
      var evidence := if known.Some? then known.value.evidence else None;
      progress := initial.(status := InProgress, jobs := initial.jobs[op := JobRecord(job.id, job.state, evidence)]);
      existing := evidence.Some?;
      stopped := SaveJob(progress, op, job, x);
    }

    /** The job is recorded and saved, and its state says whether the call goes on. */
    method SaveJob(progress: Progress, op: Op, job: Job, ghost x: Exchange) returns (stopped: Option<Outcome>)
      requires x.item == ForJob(op) && Rightly(hash, x) && Heard(x) && x.saved == saved
      requires progress == Learned(hash, x) && progress.approval.Some?
      requires !Terminal(job.state) ==> Accounts(hash, x, Blocked(RunningJob))
      requires Terminal(job.state) && job.state != Succeeded ==> Accounts(hash, x, Threw(JobFailed(job.state)))
      requires job.state == Succeeded ==> GoesOn(hash, x)
      requires Ready(pc)
      requires pc == Save(progress, if !Terminal(job.state) then Stopped(Blocked(RunningJob))
                                    else if job.state != Succeeded then Stopped(Threw(JobFailed(job.state)))
                                    else NeedEvidence(progress, op, job))
      requires |asked| < |Agenda(begun)| && Agenda(begun)[|asked|] == ForEvidence(op)
      modifies this`saved, this`script, this`pc
      ensures Ready(pc) && Drive(hash, Now(), script) == old(Drive(hash, Now(), script))
      ensures stopped.Some? ==> pc == Stopped(stopped.value) && Over(stopped.value)
      ensures stopped.None? ==>
        pc == NeedEvidence(progress, op, job) && progress == saved && job.state == Succeeded && Next(ForEvidence(op))
    {
      hide VerifyJob, Handle, JobKey, Drive, OnReply, Terminal, Rightly;
      hide Smooth, Backed, Agenda, Learned, Fits, GoesOn, Accounts, Heard, Returned, JobFits;
      stopped := None;
      var alive := Keep(progress);
      if !alive {
        MayDie(x);
        stopped := Some(Died);
      } else if !Terminal(job.state) {
        MayEnd(x, Blocked(RunningJob));
        stopped := Some(Blocked(RunningJob));
      } else if job.state != Succeeded {
        MayEnd(x, Threw(JobFailed(job.state)));
        stopped := Some(Threw(JobFailed(job.state)));
      } else {
        MayGoOn(x);
      }
    }

    lemma RightlyHeard(x: Exchange)
      requires Heard(x)
      ensures Rightly(hash, x)
    {
    }

    /** The evidence of the operation is in place; an evaluation recorded earlier has been checked after the last one. */
    ghost predicate Collected(progress: Progress, op: Op)
      reads this
    {
      && progress == saved && Backed(core, asked)
      && if op == Implement && progress.evaluation.Some? && !EvaluationFits(progress, progress.evaluation.value)
         then Over(Threw(EvaluationFailed))
         else Smooth(hash, begun, asked) && saved == FormalOutcome.Now(hash, begun, asked)
    }

    lemma JobChecked(p: Progress, op: Op)
      requires p.approval.Some?
      ensures forall j :: VerifyJob(p, op, j) <==> JobFits(p, op, j)
    {
    }

    /** What the state machine does with the reply. */
    lemma JobMoves(p: Progress, op: Op, reply: Reply)
      requires p.approval.Some?
      ensures
        var pc := OnReply(hash, NeedJob(p, op), reply);
        if !reply.JobReply? then pc == Stopped(Threw(CoreRefused))
        else if !VerifyJob(p, op, reply.job) then pc == Stopped(Threw(JobBindingMismatch))
        else
          var job := reply.job;
          var record := JobRecord(job.id, job.state, if op in p.jobs then p.jobs[op].evidence else None);
          var p' := p.(status := InProgress, jobs := p.jobs[op := record]);
          pc == Save(p', if !Terminal(job.state) then Stopped(Blocked(RunningJob))
                         else if job.state != Succeeded then Stopped(Threw(JobFailed(job.state)))
                         else NeedEvidence(p', op, job))
    {
      hide VerifyJob, Terminal;
    }

    lemma JobVerdict(hash: string -> string, x: Exchange, op: Op)
      requires x.item == ForJob(op) && Rightly(hash, x)
      ensures !x.reply.JobReply? ==> Accounts(hash, x, Threw(CoreRefused)) && Learned(hash, x) == x.saved
      ensures x.reply.JobReply? && !JobFits(x.saved, op, x.reply.job) ==>
        Accounts(hash, x, Threw(JobBindingMismatch)) && Learned(hash, x) == x.saved
      ensures x.reply.JobReply? && JobFits(x.saved, op, x.reply.job) ==> JobNoted(hash, x, op)
    {
      hide JobFits, Terminal;
      if x.reply.JobReply? && JobFits(x.saved, op, x.reply.job) { FittingJob(hash, x, op); }
    }

    ghost predicate JobNoted(hash: string -> string, x: Exchange, op: Op)
      requires x.item == ForJob(op) && Rightly(hash, x) && x.reply.JobReply?
    {
      var p, job := x.saved, x.reply.job;
      && Learned(hash, x)
           == p.(status := InProgress,
                 jobs := p.jobs[op := JobRecord(job.id, job.state, if op in p.jobs then p.jobs[op].evidence else None)])
      && (if !Terminal(job.state) then Accounts(hash, x, Blocked(RunningJob))
          else if job.state != Succeeded then Accounts(hash, x, Threw(JobFailed(job.state)))
          else GoesOn(hash, x))
    }

    lemma FittingJob(hash: string -> string, x: Exchange, op: Op)
      requires x.item == ForJob(op) && Rightly(hash, x) && x.reply.JobReply? && JobFits(x.saved, op, x.reply.job)
      ensures JobNoted(hash, x, op)
    {
      Unfinished(x.reply.job.state);
      hide JobFits, Terminal;
    }

    lemma Unfinished(state: JobState)
      ensures !Terminal(state) <==> state in {Submitted, Queued, Preparing, Running, Cancelling}
      ensures Terminal(state) && state != Succeeded <==> state in {Failed, Cancelled, Timeout, Lost, UnknownEffect, Rejected}
    {
    }

    /** The evidence of a job that has succeeded: read again, or frozen and recorded. */
    method CollectEvidence(initial: Progress, op: Op, job: Job, existing: bool)
      returns (progress: Progress, stopped: Option<Outcome>)
      requires pc == NeedEvidence(initial, op, job) && initial.approval.Some? && initial == saved && Next(ForEvidence(op))
      requires op in initial.jobs && initial.jobs[op].jobId == job.id && initial.jobs[op].state == job.state == Succeeded
      requires existing == initial.jobs[op].evidence.Some?
      modifies this`core, this`saved, this`script, this`pc, this`asked
      ensures Ready(pc) && Drive(hash, Now(), script) == old(Drive(hash, Now(), script)) && progress.approval.Some?
      ensures pc == if stopped.Some? then Stopped(stopped.value) else After(progress, op)
      ensures stopped.Some? ==> Over(stopped.value)
      ensures stopped.None? ==> Collected(progress, op) && |asked| == old(|asked|) + 1 && progress.evaluation == initial.evaluation
    {
      hide Handle, Drive, OnReply, Smooth, Backed, Agenda, Heard, Returned, Collected, After;
      var request := if existing then GetEvidence(job.id) else FreezeEvidence(job.id);
      var reply, alive := Ask(request, ForEvidence(op));
      if !alive { return initial, Some(Died); }
      progress, stopped := NoteEvidence(initial, op, job, existing, reply, Exchange(initial, ForEvidence(op), request, reply));
    }

    /** What is made of the reply. */
    method NoteEvidence(initial: Progress, op: Op, job: Job, existing: bool, reply: Reply, ghost x: Exchange)
      returns (progress: Progress, stopped: Option<Outcome>)
      requires initial.approval.Some? && initial == saved
      requires op in initial.jobs && initial.jobs[op].jobId == job.id && initial.jobs[op].state == job.state == Succeeded
      requires existing == initial.jobs[op].evidence.Some?
      requires x == Exchange(initial, ForEvidence(op), x.request, reply) && Heard(x)
      requires Ready(pc) && pc == OnReply(hash, NeedEvidence(initial, op, job), reply)
      modifies this`saved, this`script, this`pc
      ensures Ready(pc) && Drive(hash, Now(), script) == old(Drive(hash, Now(), script)) && progress.approval.Some?
      ensures pc == if stopped.Some? then Stopped(stopped.value) else After(progress, op)
      ensures stopped.Some? ==> Over(stopped.value)
      ensures stopped.None? ==> Collected(progress, op) && progress.evaluation == initial.evaluation
    {
      RightlyHeard(x);
      EvidenceChecked(initial, op, job.id);
      EvidenceVerdict(hash, x, op, job);
      EvidenceMoves(initial, op, job, reply);
      hide VerifyEvidence, Handle, After, Drive, OnReply, Rightly;
      hide Smooth, Backed, Agenda, Learned, Fits, GoesOn, Accounts, Heard, Returned, EvidenceFits, EvaluationFits;
      progress, stopped := initial, None;
      if !reply.EvidenceReply? {
        MayEnd(x, Threw(CoreRefused));
        return progress, Some(Threw(CoreRefused));
      }
      var e := reply.evidence;
      if !VerifyEvidence(progress, op, job.id, e)
         || (existing && (e.id != progress.jobs[op].evidence.value.id || e.manifestHash != progress.jobs[op].evidence.value.manifestHash))
      {
        MayEnd(x, Threw(EvidenceBindingMismatch));
        return progress, Some(Threw(EvidenceBindingMismatch));
      }
      if !existing {
        var ref := EvidenceRef(e.id, e.manifestHash);
        progress := progress.(jobs := progress.jobs[op := JobRecord(job.id, job.state, Some(ref))]);
        var alive := Keep(progress);
        if !alive {
          MayDie(x);
          return progress, Some(Died);
        }
      }
      SameFacts(initial, progress);
      if op == Implement && progress.evaluation.Some? && !EvaluationFits(progress, progress.evaluation.value) {
        MayEnd(x, Threw(EvaluationFailed));
      } else {
        MayGoOn(x);
      }
    }

    /** What the state machine does with the reply. */
    lemma EvidenceMoves(p: Progress, op: Op, job: Job, reply: Reply)
      requires p.approval.Some? && op in p.jobs
      ensures
        var pc := OnReply(hash, NeedEvidence(p, op, job), reply);
        if !reply.EvidenceReply? then pc == Stopped(Threw(CoreRefused))
        else
          var e, r := reply.evidence, p.jobs[op].evidence;
          if !VerifyEvidence(p, op, job.id, e) || (r.Some? && (e.id != r.value.id || e.manifestHash != r.value.manifestHash))
          then pc == Stopped(Threw(EvidenceBindingMismatch))
          else if r.Some? then pc == After(p, op)
          else
            var p' := p.(jobs := p.jobs[op := JobRecord(job.id, job.state, Some(EvidenceRef(e.id, e.manifestHash)))]);
            pc == Save(p', After(p', op))
    {
      hide VerifyEvidence, After;
    }

    lemma EvidenceChecked(p: Progress, op: Op, id: string)
      requires p.approval.Some?
      ensures forall e :: VerifyEvidence(p, op, id, e) <==> EvidenceFits(p, op, id, e)
    {
    }

    /** An evaluation is checked against the facts of the flow alone. */
    lemma SameFacts(p: Progress, q: Progress)
      requires p.flow == q.flow
      ensures forall e :: EvaluationFits(p, e) <==> EvaluationFits(q, e)
    {
    }

    lemma EvidenceVerdict(hash: string -> string, x: Exchange, op: Op, job: Job)
      requires x.item == ForEvidence(op) && Rightly(hash, x)
      requires x.saved.jobs[op].jobId == job.id && x.saved.jobs[op].state == job.state
      ensures !x.reply.EvidenceReply? ==> Accounts(hash, x, Threw(CoreRefused)) && Learned(hash, x) == x.saved
      ensures x.reply.EvidenceReply? ==>
        var p, e, r := x.saved, x.reply.evidence, x.saved.jobs[op].evidence;
        if !EvidenceFits(p, op, job.id, e) || (r.Some? && (e.id != r.value.id || e.manifestHash != r.value.manifestHash)) then
          Accounts(hash, x, Threw(EvidenceBindingMismatch)) && Learned(hash, x) == p
        else
          && Learned(hash, x) == (if r.Some? then p
               else p.(jobs := p.jobs[op := JobRecord(job.id, job.state, Some(EvidenceRef(e.id, e.manifestHash)))]))
          && if op == Implement && p.evaluation.Some? && !EvaluationFits(p, p.evaluation.value)
             then Accounts(hash, x, Threw(EvaluationFailed)) else GoesOn(hash, x)
    {
      hide EvidenceFits, EvaluationFits;
      if x.reply.EvidenceReply? && Fits(hash, x) && x.saved.jobs[op].evidence.Some? {
        assert x.saved.jobs[op := x.saved.jobs[op]] == x.saved.jobs;
      }
    }

    /** The evaluation and the submission of the gate. */
    method SubmitForReview(initial: Progress) returns (outcome: Outcome)
      requires pc == EnterEvaluation(initial) && initial.approval.Some? && initial == saved && Backed(core, asked)
      requires if initial.evaluation.None? then
          Next(ForEvaluation) && |asked| + 1 < |Agenda(begun)| && Agenda(begun)[|asked| + 1] == ForGate
        else if VerifyEvaluation(initial, initial.evaluation.value) then Next(ForGate)
        else Over(Threw(EvaluationFailed))
      modifies this`core, this`saved, this`script, this`pc, this`asked
      ensures pc == Stopped(outcome) && Drive(hash, Now(), script) == old(Drive(hash, Now(), script)) && Over(outcome)
    {
      EvaluationChecked(initial);
      hide VerifyEvaluation, EvaluationId, Handle, Drive;
      hide Smooth, Backed, Agenda, Learned, Fits, GoesOn, Accounts, Heard, Returned, EvaluationFits;
      var progress := initial;
      if progress.evaluation.None? {
        var id := EvaluationId(hash, progress);
        EvaluationRequest(hash, progress);
        var reply, alive := Ask(CreateEvaluation(id), ForEvaluation);
        if !alive { return Died; }
        ghost var x := Exchange(initial, ForEvaluation, CreateEvaluation(id), reply);
        EvaluationVerdict(hash, x);
        if !reply.EvaluationReply? { MayEnd(x, Threw(CoreRefused)); return Threw(CoreRefused); }
        if reply.evaluation.id != id { MayEnd(x, Threw(EvaluationFailed)); return Threw(EvaluationFailed); }
        if !VerifyEvaluation(progress, reply.evaluation) { MayEnd(x, Threw(EvaluationFailed)); return Threw(EvaluationFailed); }
        progress := progress.(evaluation := Some(reply.evaluation));
        alive := Keep(progress);
        if !alive { MayDie(x); return Died; }
        MayGoOn(x);
      } else if !VerifyEvaluation(progress, progress.evaluation.value) {
        return Threw(EvaluationFailed);
      }
      outcome := SubmitGate(progress);
    }

    /** The submission, with the evaluation it is to reference. */
    method SubmitGate(initial: Progress) returns (outcome: Outcome)
      requires pc == NeedSubmission(initial) && initial.approval.Some? && initial.evaluation.Some? && initial == saved
      requires Next(ForGate)
      modifies this`core, this`saved, this`script, this`pc, this`asked
      ensures pc == Stopped(outcome) && Drive(hash, Now(), script) == old(Drive(hash, Now(), script)) && Over(outcome)
    {
      hide Handle, Drive, Smooth, Backed, Agenda, Learned, Fits, GoesOn, Accounts, Heard, Returned;
      var progress := initial;
      var evaluation := progress.evaluation.value;
      var request := Request.SubmitGate(progress.flow.submissionId, evaluation.id, evaluation.resultHash);
      var reply, alive := Ask(request, ForGate);
      if !alive { return Died; }
      ghost var x := Exchange(initial, ForGate, request, reply);
      GateVerdict(hash, x);
      if !reply.SubmissionReply? { MayEnd(x, Threw(CoreRefused)); return Threw(CoreRefused); }
      if reply.submission.id != progress.flow.submissionId || reply.submission.evaluationId != evaluation.id
         || reply.submission.resultHash != evaluation.resultHash
      {
        MayEnd(x, Threw(SubmissionBindingMismatch));
        return Threw(SubmissionBindingMismatch);
      }
      progress := progress.(status := AwaitingGateApproval);
      alive := Keep(progress);
      if !alive { MayDie(x); return Died; }
      MayEnd(x, Blocked(GateApproval));
      outcome := Blocked(GateApproval);
    }

    lemma EvaluationChecked(p: Progress)
      ensures forall e :: VerifyEvaluation(p, e) <==> EvaluationFits(p, e)
    {
    }

    lemma EvaluationRequest(hash: string -> string, p: Progress)
      requires p.approval.Some? && p.evaluation.None?
      ensures Rightly(hash, Exchange(p, ForEvaluation, CreateEvaluation(EvaluationId(hash, p)), Refused))
    {
    }

    lemma EvaluationVerdict(hash: string -> string, x: Exchange)
      requires x.item == ForEvaluation && Rightly(hash, x)
      ensures !x.reply.EvaluationReply? ==> Accounts(hash, x, Threw(CoreRefused)) && Learned(hash, x) == x.saved
      ensures x.reply.EvaluationReply? ==>
        var p, e := x.saved, x.reply.evaluation;
        if e.id == x.request.evaluationId && EvaluationFits(p, e)
        then GoesOn(hash, x) && Learned(hash, x) == p.(evaluation := Some(e))
        else Accounts(hash, x, Threw(EvaluationFailed)) && Learned(hash, x) == p
    {
      hide EvaluationFits;
    }

    lemma GateVerdict(hash: string -> string, x: Exchange)
      requires x.item == ForGate && Rightly(hash, x)
      ensures !x.reply.SubmissionReply? ==> Accounts(hash, x, Threw(CoreRefused)) && Learned(hash, x) == x.saved
      ensures x.reply.SubmissionReply? ==>
        if x.reply.submission == Submission(x.request.submissionId, x.request.passedEvaluation, x.request.resultHash)
        then Accounts(hash, x, Blocked(GateApproval)) && Learned(hash, x) == x.saved.(status := AwaitingGateApproval)
        else Accounts(hash, x, Threw(SubmissionBindingMismatch)) && Learned(hash, x) == x.saved
    {
    }
  }
}
