/** The stage chain of the process and its gates, over runs that crash and are resumed from the saved state. */
module StageChain {
  import opened Common

  datatype Stage =
    | Intake | BehaviorWave | Architecture | RegisterSpec | RtlBuild | Validate | Tb | Simulate | Xdc | Synthesize | Implement

  const STAGES: seq<Stage> :=
    [Intake, BehaviorWave, Architecture, RegisterSpec, RtlBuild, Validate, Tb, Simulate, Xdc, Synthesize, Implement]

  function Index(s: Stage): (i: nat)
    ensures i < |STAGES| && STAGES[i] == s
  {
    match s
    case Intake => 0
    case BehaviorWave => 1
    case Architecture => 2
    case RegisterSpec => 3
    case RtlBuild => 4
    case Validate => 5
    case Tb => 6
    case Simulate => 7
    case Xdc => 8
    case Synthesize => 9
    case Implement => 10
  }

  datatype Gate = G1 | G2 | G3 | G4

  /** `GATE_AFTER_STAGE`. */
  function StageOf(g: Gate): Stage
  {
    match g
    case G1 => Intake
    case G2 => BehaviorWave
    case G3 => RegisterSpec
    case G4 => Implement
  }

  /** `gateAfterStage`. */
  function GateAfter(s: Stage): (g: Option<Gate>)
    ensures g.Some? ==> StageOf(g.value) == s
    ensures g.None? ==> forall h :: StageOf(h) != s
  {
    match s
    case Intake => Some(G1)
    case BehaviorWave => Some(G2)
    case RegisterSpec => Some(G3)
    case Implement => Some(G4)
    case _ => None
  }

  /** `stageAfterGate`. */
  function StageAfter(g: Gate): Option<Stage>
  {
    match g
    case G1 => Some(BehaviorWave)
    case G2 => Some(Architecture)
    case G3 => Some(RtlBuild)
    case G4 => None
  }

  /** The gate is placed before the stage. */
  predicate Before(g: Gate, s: Stage)
  {
    Index(StageOf(g)) < Index(s)
  }

  predicate Cleared(approved: set<Gate>, s: Stage)
  {
    forall g :: Before(g, s) ==> g in approved
  }

  /** The stage after an approved gate is the next one, and is cleared if the gate's own stage was. */
  lemma ClearedAfterGate(approved: set<Gate>, g: Gate)
    requires Cleared(approved, StageOf(g)) && g in approved && StageAfter(g).Some?
    ensures Index(StageAfter(g).value) == Index(StageOf(g)) + 1 && Cleared(approved, StageAfter(g).value)
  {
  }

  lemma ClearedNext(approved: set<Gate>, i: nat)
    requires i + 1 < |STAGES| && Cleared(approved, STAGES[i])
    requires GateAfter(STAGES[i]).Some? ==> GateAfter(STAGES[i]).value in approved
    ensures Cleared(approved, STAGES[i + 1])
  {
    assert forall g :: Before(g, STAGES[i + 1]) ==> Before(g, STAGES[i]) || StageOf(g) == STAGES[i];
  }

  // -------------------------------------------------------------------- state

  /** What the stages have produced: revision ids of documents, and the generated sources with theirs. */
  datatype Context = Context(docs: map<Stage, string>, rtl: Option<string>, rtlRevision: Option<string>,
                             tb: Option<string>, tbRevision: Option<string>,
                             xdc: Option<string>, xdcRevision: Option<string>, submissions: map<Gate, string>)

  const NOTHING := Context(map[], None, None, None, None, None, None, map[])

  datatype Status = Running | AwaitingApproval

  datatype AgentState = AgentState(status: Status, currentStage: Option<Stage>, awaitingGate: Option<Gate>, kept: Context)

  function OrElse<T>(a: Option<T>, b: Option<T>): Option<T>
  {
    if a.Some? then a else b
  }

  /** What a later context says, and where it says nothing what was there. */
  function Over(now: Context, before: Context): Context
  {
    Context(now.docs, OrElse(now.rtl, before.rtl), OrElse(now.rtlRevision, before.rtlRevision),
            OrElse(now.tb, before.tb), OrElse(now.tbRevision, before.tbRevision),
            OrElse(now.xdc, before.xdc), OrElse(now.xdcRevision, before.xdcRevision), now.submissions)
  }

  /** Documents and submissions are those of the context; a source or its revision is kept where the context has none. */
  predicate SyncedFrom(now: Context, before: Context, kept: Context)
  {
    && kept.docs == now.docs && kept.submissions == now.submissions
    && kept.rtl == (if now.rtl.None? then before.rtl else now.rtl)
    && kept.rtlRevision == (if now.rtlRevision.None? then before.rtlRevision else now.rtlRevision)
    && kept.tb == (if now.tb.None? then before.tb else now.tb)
    && kept.tbRevision == (if now.tbRevision.None? then before.tbRevision else now.tbRevision)
    && kept.xdc == (if now.xdc.None? then before.xdc else now.xdc)
    && kept.xdcRevision == (if now.xdcRevision.None? then before.xdcRevision else now.xdcRevision)
  }

  /** `revisionsForGate`. */
  function Revisions(c: Context, g: Gate): seq<string>
  {
    match g
    case G1 => DocRevision(c, Intake)
    case G2 => DocRevision(c, BehaviorWave)
    case G3 => DocRevision(c, Architecture) + DocRevision(c, RegisterSpec)
    case G4 => Listed(c.rtlRevision) + Listed(c.tbRevision) + Listed(c.xdcRevision)
               + DocRevision(c, Intake) + DocRevision(c, BehaviorWave)
               + DocRevision(c, Architecture) + DocRevision(c, RegisterSpec)
  }

  function DocRevision(c: Context, s: Stage): seq<string>
  {
    if s in c.docs then [c.docs[s]] else []
  }

  function Listed(r: Option<string>): seq<string>
  {
    if r.Some? then [r.value] else []
  }

  /** The revision a stage has registered, for the stages that register one. */
  function RevisionOf(c: Context, s: Stage): Option<string>
  {
    match s
    case RtlBuild => c.rtlRevision
    case Tb => c.tbRevision
    case Xdc => c.xdcRevision
    case _ => if s in c.docs then Some(c.docs[s]) else None
  }

  /** The stages whose revisions a gate reviews. */
  function Reviewed(g: Gate): set<Stage>
  {
    match g
    case G1 => {Intake}
    case G2 => {BehaviorWave}
    case G3 => {Architecture, RegisterSpec}
    case G4 => {Intake, BehaviorWave, Architecture, RegisterSpec, RtlBuild, Tb, Xdc}
  }

  /** What is listed for a gate is exactly the revisions of the stages it reviews. */
  lemma RevisionsExactly(c: Context, g: Gate, r: string)
    ensures r in Revisions(c, g) <==> exists s :: s in Reviewed(g) && RevisionOf(c, s) == Some(r)
  {
    ListedIs(c);
    if g == G4 {
      var sources := Listed(c.rtlRevision) + Listed(c.tbRevision) + Listed(c.xdcRevision);
      assert r in sources <==> c.rtlRevision == Some(r) || c.tbRevision == Some(r) || c.xdcRevision == Some(r);
    }
    hide Listed, DocRevision, RevisionOf;
    assert Intake in Reviewed(G1) && Intake in Reviewed(G4) && BehaviorWave in Reviewed(G2) && BehaviorWave in Reviewed(G4);
    assert Architecture in Reviewed(G3) && RegisterSpec in Reviewed(G3) && Architecture in Reviewed(G4);
    assert RegisterSpec in Reviewed(G4) && RtlBuild in Reviewed(G4) && Tb in Reviewed(G4) && Xdc in Reviewed(G4);
  }

  lemma ListedIs(c: Context)
    ensures forall s, r :: s in {Intake, BehaviorWave, Architecture, RegisterSpec} ==>
      (r in DocRevision(c, s) <==> RevisionOf(c, s) == Some(r))
    ensures RevisionOf(c, RtlBuild) == c.rtlRevision && RevisionOf(c, Tb) == c.tbRevision && RevisionOf(c, Xdc) == c.xdcRevision
  {
  }

  /** A snapshot for this gate with a revision of every stage under review. */
  predicate Full(g: Gate, revisions: seq<string>)
  {
    |revisions| == |Reviewed(g)|
  }

  /** A snapshot is full exactly when every stage under review has registered its revision. */
  lemma FullExactly(c: Context, g: Gate)
    ensures Full(g, Revisions(c, g)) <==> forall s :: s in Reviewed(g) ==> RevisionOf(c, s).Some?
  {
    ReviewedSizes();
    if g == G4 {
      hide Reviewed, Revisions, Full;
      FinalExactly(c);
    }
  }

  lemma ReviewedSizes()
    ensures |Reviewed(G1)| == 1 && |Reviewed(G2)| == 1 && |Reviewed(G3)| == 2 && |Reviewed(G4)| == 7
  {
  }

  lemma FinalExactly(c: Context)
    ensures Full(G4, Revisions(c, G4)) <==> forall s :: s in Reviewed(G4) ==> RevisionOf(c, s).Some?
  {
    ReviewedSizes();
    var three := Listed(c.rtlRevision) + Listed(c.tbRevision) + Listed(c.xdcRevision);
    var four := DocRevision(c, Intake) + DocRevision(c, BehaviorWave) + DocRevision(c, Architecture) + DocRevision(c, RegisterSpec);
    assert |Revisions(c, G4)| == |three| + |four|;
    assert |three| == 3 <==> c.rtlRevision.Some? && c.tbRevision.Some? && c.xdcRevision.Some?;
    assert |four| == 4 <==> Intake in c.docs && BehaviorWave in c.docs && Architecture in c.docs && RegisterSpec in c.docs;
  }

  /** RTL and testbench are never held without the revisions they were registered as. */
  predicate Paired(c: Context)
  {
    (c.rtl.Some? ==> c.rtlRevision.Some?) && (c.tb.Some? ==> c.tbRevision.Some?)
  }

  /** The stage has left in the context what the later stages and the gates look for. */
  predicate Made(c: Context, s: Stage)
  {
    match s
    case RtlBuild => c.rtl.Some? && c.rtlRevision.Some?
    case Validate => c.rtl.Some?
    case Tb => c.tb.Some? && c.tbRevision.Some?
    case Simulate => c.rtl.Some? && c.tb.Some?
    case Xdc => c.xdc.Some? && c.xdcRevision.Some?
    case Synthesize => c.rtl.Some?
    case Implement => c.rtl.Some? && c.xdc.Some?
    case _ => s in c.docs
  }

  predicate MadeBefore(c: Context, i: nat)
  {
    forall s :: Index(s) < i ==> Made(c, s)
  }

  /** Whatever is made in the one is made in the other. */
  predicate Keeps(a: Context, b: Context)
  {
    forall s :: Made(a, s) ==> Made(b, s)
  }

  /** The stage before a gate always leaves something to review: there is no empty snapshot. */
  lemma NeverEmpty(c: Context, g: Gate)
    requires Made(c, StageOf(g)) && Paired(c)
    ensures Revisions(c, g) != []
  {
  }

  /** With everything up to the gate made, its snapshot is full. */
  lemma MadeIsFull(c: Context, g: Gate)
    requires MadeBefore(c, Index(StageOf(g)) + 1)
    ensures Full(g, Revisions(c, g))
  {
    FullExactly(c, g);
    forall s | s in Reviewed(g) ensures RevisionOf(c, s).Some? {
      assert Made(c, s);
    }
  }

  // ------------------------------------------------- what a process began with

  /** The same stages have a revision, among those before the `i`-th. */
  predicate SameBefore(a: Context, b: Context, i: nat)
  {
    forall s :: Index(s) < i ==> (RevisionOf(a, s).Some? <==> RevisionOf(b, s).Some?)
  }

  predicate MadeFrom(c: Context, i: nat, j: nat)
  {
    forall s :: i <= Index(s) < j ==> Made(c, s)
  }

  /** Every stage the gate reviews is run by the process, or has a revision in the context it begins with. */
  predicate Covered(begun: Context, start: Stage, g: Gate)
  {
    forall s :: s in Reviewed(g) ==> Index(start) <= Index(s) || RevisionOf(begun, s).Some?
  }

  /** From `n` on, each snapshot is full exactly if its gate's stages are covered. */
  predicate FullIfCovered(snapshots: seq<(Gate, seq<string>)>, n: nat, begun: Context, start: Stage)
  {
    forall k :: n <= k < |snapshots| ==> (Full(snapshots[k].0, snapshots[k].1) <==> Covered(begun, start, snapshots[k].0))
  }

  /** The snapshot after the gate's own stage, in a process that has run everything from `start` to there. */
  lemma SnapshotExactly(begun: Context, start: Stage, c: Context, g: Gate)
    requires SameBefore(begun, c, Index(start)) && MadeFrom(c, Index(start), Index(StageOf(g)) + 1)
    ensures Full(g, Revisions(c, g)) <==> Covered(begun, start, g)
  {
    FullExactly(c, g);
    hide Full, Revisions, Made, RevisionOf, SameBefore, MadeFrom;
    forall s | s in Reviewed(g)
      ensures RevisionOf(c, s).Some? <==> Index(start) <= Index(s) || RevisionOf(begun, s).Some?
    {
      NotReviewedLater(g, s);
      HasRevision(begun, c, s, Index(start), Index(StageOf(g)) + 1);
    }
  }

  lemma NotReviewedLater(g: Gate, s: Stage)
    requires s in Reviewed(g)
    ensures Index(s) <= Index(StageOf(g)) && s in {Intake, BehaviorWave, Architecture, RegisterSpec, RtlBuild, Tb, Xdc}
  {
  }

  lemma HasRevision(begun: Context, c: Context, s: Stage, i: nat, j: nat)
    requires SameBefore(begun, c, i) && MadeFrom(c, i, j)
    requires Index(s) < j && s in {Intake, BehaviorWave, Architecture, RegisterSpec, RtlBuild, Tb, Xdc}
    ensures RevisionOf(c, s).Some? <==> i <= Index(s) || RevisionOf(begun, s).Some?
  {
    if i <= Index(s) {
      assert Made(c, s);
    }
  }

  /** With nothing to begin with, the process must itself run every stage the gate reviews. */
  lemma CoveredByNothing(start: Stage, g: Gate)
    ensures Covered(NOTHING, start, g) <==> forall s :: s in Reviewed(g) ==> Index(start) <= Index(s)
  {
    assert forall s :: RevisionOf(NOTHING, s).None?;
  }

  // ----------------------------------------------------------------- the world

  datatype Fate = Goes | Fails | DiesBefore | DiesAfter

  datatype GateState = InReview | Approved | Rejected

  /** The answer to one await. */
  datatype Answer = Answer(fate: Fate, text: string, ok: bool, gate: GateState)

  datatype Outcome = Succeeded | FailClosed | Paused(gate: Gate) | Threw | Died

  /** A stage that was run, with the gates that had been approved by then. */
  datatype Executed = Executed(stage: Stage, approved: set<Gate>)

  ghost predicate InOrder(executed: seq<Executed>)
  {
    forall i :: 0 <= i < |executed| ==> Cleared(executed[i].approved, executed[i].stage)
  }

  function Ran(executed: seq<Executed>): (stages: seq<Stage>)
    ensures |stages| == |executed|
  {
    seq(|executed|, i requires 0 <= i < |executed| => executed[i].stage)
  }

  lemma RanMore(executed: seq<Executed>, e: Executed)
    ensures Ran(executed + [e]) == Ran(executed) + [e.stage]
  {
  }

  lemma RanPrefix(a: seq<Executed>, b: seq<Executed>)
    requires a <= b
    ensures Ran(a) <= Ran(b)
  {
  }

  /** More stages have been run, beginning with this one. */
  ghost predicate Continues(before: seq<Executed>, after: seq<Executed>, stage: Stage)
  {
    Ran(before) + [stage] <= Ran(after)
  }

  /** The stages from the `i`-th up to the `j`-th. */
  function Path(i: nat, j: nat): seq<Stage>
    requires i <= j <= |STAGES|
  {
    STAGES[i..j]
  }

  lemma PathMore(before: seq<Stage>, i: nat, j: nat)
    requires i <= j < |STAGES|
    ensures (before + Path(i, j)) + [STAGES[j]] == before + Path(i, j + 1) <= before + Path(i, |STAGES|)
  {
    Pieces(before, STAGES, i, j);
  }

  lemma Pieces(before: seq<Stage>, stages: seq<Stage>, i: nat, j: nat)
    requires i <= j < |stages|
    ensures (before + stages[i..j]) + [stages[j]] == before + stages[i..j + 1] <= before + stages[i..|stages|]
  {
  }

  predicate AllApproved(approved: set<Gate>)
  {
    forall g: Gate :: g in approved
  }

  lemma LastGate(approved: set<Gate>)
    requires Cleared(approved, Implement) && G4 in approved
    ensures AllApproved(approved)
  {
    forall g: Gate ensures g in approved {
      assert g != G4 ==> Before(g, Implement);
    }
  }

  /** What is saved holds everything made before the stage or gate it stands at. */
  predicate SavedWhole(a: AgentState)
  {
    && (a.currentStage.Some? ==> MadeBefore(a.kept, Index(a.currentStage.value)))
    && (a.awaitingGate.Some? ==> MadeBefore(a.kept, Index(StageOf(a.awaitingGate.value)) + 1))
  }

  predicate StateOk(a: AgentState, approved: set<Gate>, whole: bool)
  {
    && (a.currentStage.Some? ==> Cleared(approved, a.currentStage.value))
    && (a.awaitingGate.Some? ==>
          && a.status == AwaitingApproval && a.awaitingGate.value in a.kept.submissions
          && Cleared(approved, StageOf(a.awaitingGate.value)))
    && Paired(a.kept) && (whole ==> SavedWhole(a))
  }

  lemma MoreApproved(a: AgentState, approved: set<Gate>, g: Gate, whole: bool)
    requires StateOk(a, approved, whole)
    ensures StateOk(a, approved + {g}, whole)
  {
  }

  /** A saved state whose context has grown is as good as it was. */
  lemma StateGrows(a: AgentState, kept: Context, approved: set<Gate>, whole: bool)
    requires StateOk(a, approved, whole) && Keeps(a.kept, kept) && Paired(kept) && kept.submissions == a.kept.submissions
    ensures StateOk(a.(kept := kept), approved, whole)
  {
  }

  lemma OverKeeps(now: Context, before: Context)
    ensures Paired(now) && Paired(before) ==> Paired(Over(now, before))
    ensures Keeps(now, Over(now, before))
  {
  }

  // ------------------------------------------------ what lies behind a saved state

  /** The sources that the stages from the `i`-th on look for, as far as they have been made before it. */
  predicate Sources(c: Context, i: nat)
  {
    && (i > Index(RtlBuild) ==> Made(c, Validate))
    && (i > Index(Tb) ==> Made(c, Simulate))
    && (i > Index(Xdc) ==> Made(c, Implement))
  }

  /** No source is lost. */
  predicate KeepsSources(a: Context, b: Context)
  {
    forall s :: s in {Validate, Simulate, Implement} && Made(a, s) ==> Made(b, s)
  }

  /** Every stage before the `i`-th has been run, and its sources are there. */
  ghost predicate Behind(executed: seq<Executed>, kept: Context, i: nat)
  {
    (forall s :: Index(s) < i ==> s in Ran(executed)) && Sources(kept, i)
  }

  /** The saved state stands where the stages that were run have brought it. */
  ghost predicate Grounded(a: AgentState, executed: seq<Executed>)
  {
    && (a.currentStage.Some? ==> Behind(executed, a.kept, Index(a.currentStage.value)))
    && (a.awaitingGate.Some? ==> Behind(executed, a.kept, Index(StageOf(a.awaitingGate.value)) + 1))
  }

  ghost predicate AllRan(executed: seq<Executed>)
  {
    forall s: Stage :: s in Ran(executed)
  }

  lemma BehindGrows(executed: seq<Executed>, a: Context, b: Context, i: nat)
    requires KeepsSources(a, b)
    ensures Behind(executed, a, i) ==> Behind(executed, b, i)
    ensures Sources(a, i) ==> Sources(b, i)
  {
    hide Made, Ran;
  }

  lemma BehindMore(before: seq<Executed>, after: seq<Executed>, kept: Context, i: nat)
    requires before <= after
    ensures Behind(before, kept, i) ==> Behind(after, kept, i)
  {
    RanLonger(before, after);
    hide Ran, Sources;
  }

  lemma RanLonger(before: seq<Executed>, after: seq<Executed>)
    requires before <= after
    ensures forall s :: s in Ran(before) ==> s in Ran(after)
  {
    assert forall i :: 0 <= i < |before| ==> Ran(after)[i] == Ran(before)[i];
  }

  /** The `i`-th stage has been run and has left what it makes. */
  lemma BehindNext(executed: seq<Executed>, kept: Context, i: nat, stage: Stage)
    requires Index(stage) == i && stage in Ran(executed)
    ensures Behind(executed, kept, i) && Made(kept, stage) ==> Behind(executed, kept, i + 1)
    ensures Sources(kept, i) && Made(kept, stage) ==> Sources(kept, i + 1)
  {
    hide Ran;
    assert forall s :: Index(s) == i ==> s == stage;
  }

  lemma BehindAll(executed: seq<Executed>, kept: Context)
    requires Behind(executed, kept, |STAGES|)
    ensures AllRan(executed)
  {
    hide Ran, Sources;
    forall s: Stage ensures s in Ran(executed) {
      assert Index(s) < |STAGES|;
    }
  }

  lemma GroundedMore(a: AgentState, before: seq<Executed>, after: seq<Executed>)
    requires Grounded(a, before) && before <= after
    ensures Grounded(a, after)
  {
    hide Behind;
    if a.currentStage.Some? { BehindMore(before, after, a.kept, Index(a.currentStage.value)); }
    if a.awaitingGate.Some? { BehindMore(before, after, a.kept, Index(StageOf(a.awaitingGate.value)) + 1); }
  }

  lemma GroundedGrows(a: AgentState, kept: Context, executed: seq<Executed>)
    requires Grounded(a, executed) && KeepsSources(a.kept, kept)
    ensures Grounded(a.(kept := kept), executed)
  {
    hide Behind, KeepsSources;
    if a.currentStage.Some? { BehindGrows(executed, a.kept, kept, Index(a.currentStage.value)); }
    if a.awaitingGate.Some? { BehindGrows(executed, a.kept, kept, Index(StageOf(a.awaitingGate.value)) + 1); }
  }

  lemma OverSources(now: Context, before: Context)
    ensures KeepsSources(before, Over(now, before)) && KeepsSources(now, Over(now, before))
  {
  }

  lemma SourcesKept(a: Context, b: Context)
    requires Keeps(a, b)
    ensures KeepsSources(a, b)
  {
    hide Made;
  }

  lemma SourcesTwice(a: Context, b: Context, c: Context)
    requires KeepsSources(a, b) && KeepsSources(b, c)
    ensures KeepsSources(a, c)
  {
    hide Made;
  }

  // --------------------------------------------------------------- when all goes well

  /** The `n` awaits from here on complete. */
  predicate Going(answers: seq<Answer>, from: nat, n: nat)
  {
    from + n <= |answers| && forall i :: from <= i < from + n ==> answers[i].fate == Goes
  }

  /** All awaits from here on go well and every gate is approved, and there are at least `n` of them. */
  predicate Fair(answers: seq<Answer>, from: nat, n: nat)
  {
    from + n <= |answers| && forall i :: from <= i < |answers| ==> answers[i] == Answer(Goes, answers[i].text, true, Approved)
  }

  lemma FairOn(answers: seq<Answer>, from: nat, n: nat, to: nat, k: nat)
    requires Fair(answers, from, n) && from <= to && to + k <= from + n
    ensures Fair(answers, to, k)
  {
  }

  lemma FairNext(answers: seq<Answer>, from: nat, n: nat)
    requires Fair(answers, from, n) && n > 0
    ensures from < |answers| && answers[from].fate == Goes && answers[from].ok && answers[from].gate == Approved
    ensures Going(answers, from, 1)
  {
  }

  function OrIntake(s: Option<Stage>): Stage
  {
    if s.Some? then s.value else Intake
  }

  /** The stage a process on this saved state continues with, if it comes to run one. */
  function StartOf(a: AgentState): Stage
  {
    if a.awaitingGate.None? then OrIntake(a.currentStage) else OrIntake(StageAfter(a.awaitingGate.value))
  }

  /** `run` takes up what was saved only when it finds a pending gate; `resume` always does. */
  function BegunWith(a: AgentState, resume: bool): Context
  {
    if resume || a.awaitingGate.Some? then a.kept else NOTHING
  }

  /** No gate is pending, and the saved stage is not the first one: `run` loses what earlier stages have made. */
  predicate Midway(a: AgentState)
  {
    a.awaitingGate.None? && a.currentStage.Some? && a.currentStage != Some(Intake)
  }

  class LoopExecutor {
    const maxRepairRounds: int
    /** The evaluator has given a testbench of its own. */
    const acceptance: bool
    /** The state on disk, and in the memory of the process. */
    var saved: AgentState
    var agentState: AgentState
    var chainCtx: Context

    const answers: seq<Answer>
    var next: nat

    ghost var approved: set<Gate>
    ghost var executed: seq<Executed>
    /** The snapshots put up for review. */
    ghost var snapshots: seq<(Gate, seq<string>)>
    /** No process has started in the middle of the chain without the saved context. */
    ghost var whole: bool

    /** What holds of the disk and of the history, whatever the process is doing. */
    ghost predicate Safe()
      reads this
    {
      && StateOk(saved, approved, whole) && StateOk(agentState, approved, whole) && InOrder(executed)
      && Grounded(saved, executed) && Grounded(agentState, executed)
      && (whole ==> forall k :: 0 <= k < |snapshots| ==> Full(snapshots[k].0, snapshots[k].1))
    }

    ghost predicate Valid()
      reads this
    {
      Safe() && Paired(chainCtx)
    }

    constructor (rounds: int, evaluated: bool, world: seq<Answer>)
      ensures Valid() && saved.currentStage.None? && approved == {} && executed == [] && snapshots == [] && whole
      ensures maxRepairRounds == rounds && acceptance == evaluated && answers == world
    {
      maxRepairRounds, acceptance, answers, next := rounds, evaluated, world, 0;
      saved := AgentState(Running, None, None, NOTHING);
      agentState := AgentState(Running, None, None, NOTHING);
      chainCtx, approved, executed, snapshots, whole := NOTHING, {}, [], [], true;
    }

    /** A process whose memory is new, on a state that is on disk. */
    constructor Restarted (rounds: int, evaluated: bool, world: seq<Answer>, state: AgentState,
                           ghost gates: set<Gate>, ghost past: seq<Executed>, ghost sound: bool)
      requires StateOk(state, gates, sound) && Grounded(state, past) && InOrder(past)
      ensures Valid() && saved == state && approved == gates && executed == past && snapshots == [] && whole == sound
      ensures maxRepairRounds == rounds && acceptance == evaluated && answers == world && next == 0
    {
      maxRepairRounds, acceptance, answers, next := rounds, evaluated, world, 0;
      saved, agentState := state, state;
      chainCtx, approved, executed, snapshots, whole := NOTHING, gates, past, [], sound;
      hide StateOk, Grounded, InOrder;
    }

    /** The next `n` awaits go well, whatever the gates are said to be. */
    ghost predicate Ahead(n: nat)
      reads this
    {
      next + n <= |answers| && forall i :: next <= i < next + n ==> answers[i].fate == Goes && answers[i].ok
    }

    /** The next await; a world that has ended is a process that dies. */
    method Await() returns (a: Answer)
      modifies this`next
      ensures a == if old(next) < |answers| then answers[old(next)] else Answer(DiesBefore, "", false, InReview)
      ensures next == if old(next) < |answers| then old(next) + 1 else old(next)
      ensures Fair(answers, old(next), 1) ==> a.fate == Goes && a.ok && a.gate == Approved && next == old(next) + 1
    {
      if next >= |answers| { return Answer(DiesBefore, "", false, InReview); }
      a := answers[next];
      next := next + 1;
    }

    /** `updateState`; the write may or may not have happened when the process dies. */
    method UpdateState(state: AgentState) returns (end: Option<Outcome>)
      requires Safe() && StateOk(state, approved, whole) && Grounded(state, executed)
      modifies this`saved, this`agentState, this`next
      ensures Safe() && agentState == state && (end.None? ==> saved == state) && (end.Some? ==> end.value in {Threw, Died})
      ensures saved == state || saved == old(saved)
      ensures old(Ahead(1)) || Going(answers, old(next), 1) || Fair(answers, old(next), 1) ==> end.None? && next == old(next) + 1
      ensures old(next) <= next && (end.None? ==> next == old(next) + 1)
    {
      hide StateOk, InOrder, Full, Grounded;
      agentState := state;
      var a := Await();
      if a.fate == Goes || a.fate == DiesAfter { saved := state; }
      end := match a.fate
        case Goes => None
        case Fails => Some(Threw)
        case _ => Some(Died);
    }

    /** `syncChainContextToState`. */
    method SyncContext(status: Status, awaiting: Option<Gate>) returns (end: Option<Outcome>)
      requires Valid() && agentState.currentStage.Some?
      requires whole ==> MadeBefore(chainCtx, Index(agentState.currentStage.value))
      requires awaiting.Some? ==>
        && status == AwaitingApproval && awaiting.value in chainCtx.submissions && Cleared(approved, StageOf(awaiting.value))
        && (whole ==> MadeBefore(chainCtx, Index(StageOf(awaiting.value)) + 1))
        && Behind(executed, agentState.kept, Index(StageOf(awaiting.value)) + 1)
      modifies this`saved, this`agentState, this`next
      ensures Valid() && (end.None? ==> saved == agentState) && (end.Some? ==> end.value in {Threw, Died})
      ensures agentState == AgentState(status, old(agentState).currentStage, awaiting, Over(chainCtx, old(agentState).kept))
      ensures SyncedFrom(chainCtx, old(agentState).kept, agentState.kept) && KeepsSources(old(agentState).kept, agentState.kept)
      ensures old(Ahead(1)) || Fair(answers, old(next), 1) ==> end.None? && next == old(next) + 1
      ensures old(next) <= next
    {
      OverKeeps(chainCtx, agentState.kept);
      OverSources(chainCtx, agentState.kept);
      OverIsSynced(chainCtx, agentState.kept);
      var state := AgentState(status, agentState.currentStage, awaiting, Over(chainCtx, agentState.kept));
      assert StateOk(state, approved, whole) by { SyncedOk(state); }
      SyncedGrounded(agentState, state, executed);
      hide StateOk, InOrder, Full, Over, Grounded, Behind, KeepsSources;
      end := UpdateState(state);
    }

    lemma OverIsSynced(now: Context, before: Context)
      ensures SyncedFrom(now, before, Over(now, before))
    {
    }

    lemma SyncedGrounded(a: AgentState, b: AgentState, executed: seq<Executed>)
      requires Grounded(a, executed) && b.currentStage == a.currentStage && KeepsSources(a.kept, b.kept)
      requires b.awaitingGate.Some? ==> Behind(executed, a.kept, Index(StageOf(b.awaitingGate.value)) + 1)
      ensures Grounded(b, executed)
    {
      hide Behind, KeepsSources;
      if b.currentStage.Some? { BehindGrows(executed, a.kept, b.kept, Index(b.currentStage.value)); }
      if b.awaitingGate.Some? { BehindGrows(executed, a.kept, b.kept, Index(StageOf(b.awaitingGate.value)) + 1); }
    }

    lemma SyncedOk(state: AgentState)
      requires Valid() && agentState.currentStage.Some? && state.currentStage == agentState.currentStage
      requires whole ==> MadeBefore(chainCtx, Index(agentState.currentStage.value))
      requires state.awaitingGate.Some? ==>
        && state.status == AwaitingApproval && state.awaitingGate.value in chainCtx.submissions
        && Cleared(approved, StageOf(state.awaitingGate.value))
        && (whole ==> MadeBefore(chainCtx, Index(StageOf(state.awaitingGate.value)) + 1))
      requires state.kept.submissions == chainCtx.submissions && Keeps(chainCtx, state.kept) && Paired(state.kept)
      ensures StateOk(state, approved, whole)
    {
    }

    /** `restoreChainContext`, in a new process. */
    method RestoreContext()
      requires Safe()
      modifies this`chainCtx
      ensures Valid() && chainCtx == agentState.kept
    {
      hide InOrder, Cleared, SavedWhole, Full, Grounded;
      chainCtx := agentState.kept;
    }

    /** The text an await brings, or how it ended. */
    method Ask() returns (text: string, ok: bool, end: Option<Outcome>)
      modifies this`next
      ensures end.Some? ==> end.value in {Threw, Died}
      ensures old(Ahead(1)) || Fair(answers, old(next), 1) ==>
        end.None? && next == old(next) + 1 && ok && text == answers[old(next)].text
      ensures end.None? ==> old(next) < |answers| && text == answers[old(next)].text && ok == answers[old(next)].ok
      ensures old(next) <= next && (end.None? ==> next == old(next) + 1)
    {
      var a := Await();
      text, ok := a.text, a.ok;
      end := if a.fate == Goes then None else if a.fate == Fails then Some(Threw) else Some(Died);
    }

    /** What registering an artifact does to the saved state. */
    method NoteRevision(kept: Context) returns (end: Option<Outcome>)
      requires Valid() && Keeps(agentState.kept, kept) && kept.submissions == agentState.kept.submissions
      requires Paired(agentState.kept) ==> Paired(kept)
      modifies this`saved, this`agentState, this`next
      ensures Valid() && (end.Some? ==> end.value in {Threw, Died})
      ensures agentState == old(agentState).(kept := kept) && KeepsSources(old(agentState).kept, kept)
      ensures old(Ahead(1)) || Fair(answers, old(next), 1) ==> end.None? && next == old(next) + 1
      ensures old(next) <= next && (end.None? ==> next == old(next) + 1)
    {
      StateGrows(agentState, kept, approved, whole);
      SourcesKept(agentState.kept, kept);
      GroundedGrows(agentState, kept, executed);
      hide StateOk, InOrder, Full, Keeps, Grounded, KeepsSources;
      end := UpdateState(agentState.(kept := kept));
    }

    lemma SourcesStay(c: Context)
      ensures KeepsSources(c, c)
    {
    }

    /** A stage that writes a document: generated, registered, and noted in the saved state. */
    method WriteDoc(stage: Stage) returns (end: Option<Outcome>)
      requires Valid() && stage in {Intake, BehaviorWave, Architecture, RegisterSpec}
      modifies this`chainCtx, this`saved, this`agentState, this`next
      ensures Valid() && (end.Some? ==> end.value in {Threw, Died})
      ensures agentState == old(agentState).(kept := agentState.kept) && KeepsSources(old(agentState).kept, agentState.kept)
      ensures end.None? ==>
        && next == old(next) + 3 <= |answers| + 1
        && stage in chainCtx.docs && chainCtx == old(chainCtx).(docs := old(chainCtx).docs[stage := chainCtx.docs[stage]])
        && chainCtx.docs[stage] == answers[old(next) + 1].text
      ensures old(Ahead(3)) || Fair(answers, old(next), 3) ==> end.None?
      ensures old(next) <= next
    {
      hide InOrder, Cleared, StateOk, Full, Grounded, KeepsSources;
      SourcesStay(agentState.kept);
      var doc, _, gone := Ask();
      if gone.Some? { return gone; }
      var revision, _, lost := Ask();
      if lost.Some? { return lost; }
      chainCtx := chainCtx.(docs := chainCtx.docs[stage := revision]);
      end := NoteRevision(agentState.kept.(docs := agentState.kept.docs[stage := revision]));
    }

    /** New RTL, registered at once. */
    method WriteRtl() returns (end: Option<Outcome>)
      requires Valid()
      modifies this`chainCtx, this`saved, this`agentState, this`next
      ensures Safe() && (end.Some? ==> end.value in {Threw, Died})
      ensures agentState == old(agentState).(kept := agentState.kept) && KeepsSources(old(agentState).kept, agentState.kept)
      ensures end.None? ==>
        && Valid() && chainCtx.rtl.Some? && chainCtx.rtlRevision.Some? && next == old(next) + 3 <= |answers| + 1
        && chainCtx == old(chainCtx).(rtl := Some(answers[old(next)].text), rtlRevision := Some(answers[old(next) + 1].text))
      ensures old(Ahead(3)) || Fair(answers, old(next), 3) ==> end.None?
      ensures old(next) <= next
    {
      hide InOrder, Cleared, StateOk, Full, Grounded, KeepsSources;
      SourcesStay(agentState.kept);
      var rtl, _, gone := Ask();
      if gone.Some? { return gone; }
      chainCtx := chainCtx.(rtl := Some(rtl));
      var revision, _, lost := Ask();
      if lost.Some? { return lost; }
      chainCtx := chainCtx.(rtlRevision := Some(revision));
      end := NoteRevision(agentState.kept.(rtl := Some(rtl), rtlRevision := Some(revision)));
    }

    /** A new testbench, registered at once. */
    method WriteTb() returns (end: Option<Outcome>)
      requires Valid()
      modifies this`chainCtx, this`saved, this`agentState, this`next
      ensures Safe() && (end.Some? ==> end.value in {Threw, Died})
      ensures agentState == old(agentState).(kept := agentState.kept) && KeepsSources(old(agentState).kept, agentState.kept)
      ensures end.None? ==>
        && Valid() && chainCtx.tb.Some? && chainCtx.tbRevision.Some? && next == old(next) + 3 <= |answers| + 1
        && chainCtx == old(chainCtx).(tb := Some(answers[old(next)].text), tbRevision := Some(answers[old(next) + 1].text))
      ensures old(Ahead(3)) || Fair(answers, old(next), 3) ==> end.None?
      ensures old(next) <= next
    {
      hide InOrder, Cleared, StateOk, Full, Grounded, KeepsSources;
      SourcesStay(agentState.kept);
      var text, _, gone := Ask();
      if gone.Some? { return gone; }
      chainCtx := chainCtx.(tb := Some(text));
      var revision, _, lost := Ask();
      if lost.Some? { return lost; }
      chainCtx := chainCtx.(tbRevision := Some(revision));
      end := NoteRevision(agentState.kept.(tb := Some(text), tbRevision := Some(revision)));
    }

    /** New constraints; the saved state notes their revision at once, and their text after the stage. */
    method WriteXdc() returns (end: Option<Outcome>)
      requires Valid()
      modifies this`chainCtx, this`saved, this`agentState, this`next
      ensures Valid() && (end.Some? ==> end.value in {Threw, Died})
      ensures agentState == old(agentState).(kept := agentState.kept) && KeepsSources(old(agentState).kept, agentState.kept)
      ensures end.None? ==>
        && chainCtx.xdc.Some? && chainCtx.xdcRevision.Some? && next == old(next) + 3 <= |answers| + 1
        && chainCtx == old(chainCtx).(xdc := Some(answers[old(next)].text), xdcRevision := Some(answers[old(next) + 1].text))
      ensures old(Ahead(3)) || Fair(answers, old(next), 3) ==> end.None?
      ensures old(next) <= next
    {
      hide InOrder, Cleared, StateOk, Full, Grounded, KeepsSources;
      SourcesStay(agentState.kept);
      var text, _, gone := Ask();
      if gone.Some? { return gone; }
      chainCtx := chainCtx.(xdc := Some(text));
      var revision, _, lost := Ask();
      if lost.Some? { return lost; }
      chainCtx := chainCtx.(xdcRevision := Some(revision));
      end := NoteRevision(agentState.kept.(xdcRevision := Some(revision)));
    }

    /** Simulations with repairs in between, as far as the gates are concerned; `RepairLoop` has the rest. */
    method SimulateRounds(testbenchToo: bool) returns (end: Option<Outcome>)
      requires Valid() && agentState.currentStage.Some? && agentState.awaitingGate.None?
      requires chainCtx.rtl.Some? && chainCtx.tb.Some?
      requires whole ==> MadeBefore(chainCtx, Index(agentState.currentStage.value))
      modifies this`chainCtx, this`saved, this`agentState, this`next
      ensures Safe() && (end.Some? ==> end.value in {Threw, Died})
      ensures agentState == old(agentState).(kept := agentState.kept) && KeepsSources(old(agentState).kept, agentState.kept)
      ensures end.None? ==> Valid() && Keeps(old(chainCtx), chainCtx) && SameBefore(old(chainCtx), chainCtx, |STAGES|)
      ensures Fair(answers, old(next), 1) ==> end.None? && next <= old(next) + 1
      ensures old(next) <= next
    {
      hide InOrder, Cleared, StateOk, Full, SavedWhole, Over, Grounded, KeepsSources, Fair;
      SourcesStay(agentState.kept);
      var round := 0;
      while round <= maxRepairRounds
        invariant 0 <= round && Valid() && chainCtx.rtl.Some? && chainCtx.tb.Some?
        invariant Keeps(old(chainCtx), chainCtx) && SameBefore(old(chainCtx), chainCtx, |STAGES|)
        invariant agentState == old(agentState).(kept := agentState.kept)
        invariant KeepsSources(old(agentState).kept, agentState.kept)
        invariant old(next) <= next && (Fair(answers, old(next), 1) ==> next == old(next))
      {
        ghost var before := agentState.kept;
        var _, passed, gone := Ask();
        if gone.Some? { return gone; }
        if passed { return None; }
        if round == maxRepairRounds { return Some(Threw); }
        end := RepairSources(testbenchToo);
        SourcesTwice(old(agentState).kept, before, agentState.kept);
        if end.Some? { return; }
        var _, _, lost := Ask();
        if lost.Some? { return lost; }
        round := round + 1;
      }
      end := None;
    }

    /** What a failed simulation is answered with: new RTL, and at times a new testbench. */
    method RepairSources(testbenchToo: bool) returns (end: Option<Outcome>)
      requires Valid() && agentState.currentStage.Some? && agentState.awaitingGate.None?
      requires chainCtx.rtl.Some? && chainCtx.tb.Some?
      requires whole ==> MadeBefore(chainCtx, Index(agentState.currentStage.value))
      modifies this`chainCtx, this`saved, this`agentState, this`next
      ensures Safe() && (end.Some? ==> end.value in {Threw, Died})
      ensures agentState == old(agentState).(kept := agentState.kept) && KeepsSources(old(agentState).kept, agentState.kept)
      ensures end.None? ==>
        && Valid() && chainCtx.rtl.Some? && chainCtx.tb.Some?
        && Keeps(old(chainCtx), chainCtx) && SameBefore(old(chainCtx), chainCtx, |STAGES|)
      ensures old(next) <= next
    {
      hide InOrder, Cleared, StateOk, Full, SavedWhole, Over, Grounded, KeepsSources, Fair, Ahead, MadeBefore, Index, SyncedFrom;
      end := WriteRtl();
      if end.Some? { return; }
      RtlAnew(old(chainCtx), chainCtx);
      if !testbenchToo { return; }
      var _, proposed, _ := Ask();  // whether the repair has a testbench, too
      ghost var before, rtl := agentState.kept, chainCtx;
      SourcesStay(before);
      if proposed {
        end := WriteTb();
        SourcesTwice(old(agentState).kept, before, agentState.kept);
        if end.Some? { return; }
        TbAnew(old(chainCtx), rtl, chainCtx);
      }
      before := agentState.kept;
      MadeStill(old(chainCtx), chainCtx, agentState.currentStage.value);
      end := SyncContext(agentState.status, agentState.awaitingGate);
      SourcesTwice(old(agentState).kept, before, agentState.kept);
    }

    lemma RtlAnew(a: Context, b: Context)
      requires a.rtl.Some? && Paired(a) && b == a.(rtl := b.rtl, rtlRevision := b.rtlRevision)
      requires b.rtl.Some? && b.rtlRevision.Some?
      ensures Keeps(a, b) && SameBefore(a, b, |STAGES|)
    {
    }

    lemma TbAnew(a: Context, b: Context, c: Context)
      requires Keeps(a, b) && SameBefore(a, b, |STAGES|) && b.tb.Some? && Paired(b)
      requires c == b.(tb := c.tb, tbRevision := c.tbRevision) && c.tb.Some? && c.tbRevision.Some?
      ensures Keeps(a, c) && SameBefore(a, c, |STAGES|)
    {
    }

    lemma MadeStill(a: Context, b: Context, stage: Stage)
      requires Keeps(a, b)
      ensures MadeBefore(a, Index(stage)) ==> MadeBefore(b, Index(stage))
    {
      MadeKept(a, b);
    }

    /** The simulate stage: the generated testbench, then the evaluator's if there is one. */
    method RunSimulateStage() returns (end: Option<Outcome>)
      requires Valid() && agentState.currentStage.Some? && agentState.awaitingGate.None?
      requires chainCtx.rtl.Some? && chainCtx.tb.Some?
      requires whole ==> MadeBefore(chainCtx, Index(agentState.currentStage.value))
      modifies this`chainCtx, this`saved, this`agentState, this`next
      ensures Safe() && (end.Some? ==> end.value in {Threw, Died})
      ensures agentState == old(agentState).(kept := agentState.kept) && KeepsSources(old(agentState).kept, agentState.kept)
      ensures end.None? ==> Valid() && Keeps(old(chainCtx), chainCtx) && SameBefore(old(chainCtx), chainCtx, |STAGES|)
      ensures Fair(answers, old(next), 2) ==> end.None? && next <= old(next) + 2
      ensures old(next) <= next
    {
      hide InOrder, Cleared, StateOk, Full, SavedWhole, Grounded, KeepsSources, Fair;
      assert Made(chainCtx, Simulate);
      if Fair(answers, next, 2) { FairOn(answers, next, 2, next, 1); }
      end := SimulateRounds(true);
      if end.Some? { return; }
      ghost var before := agentState.kept;
      if Fair(answers, old(next), 2) { FairOn(answers, old(next), 2, next, 1); }
      if acceptance { end := SimulateRounds(false); }
      SourcesStay(before);
      SourcesTwice(old(agentState).kept, before, agentState.kept);
    }

    /** One stage. What it needs from earlier stages it finds in the context, or it throws. */
    method RunStage(stage: Stage) returns (end: Option<Outcome>)
      requires Valid() && agentState.currentStage == Some(stage) && agentState.awaitingGate.None?
      requires whole ==> MadeBefore(chainCtx, Index(stage))
      modifies this`chainCtx, this`saved, this`agentState, this`next
      ensures Safe() && (end.Some? ==> end.value in {FailClosed, Threw, Died})
      ensures agentState == old(agentState).(kept := agentState.kept) && KeepsSources(old(agentState).kept, agentState.kept)
      ensures end.None? ==> Valid() && Made(chainCtx, stage) && Keeps(old(chainCtx), chainCtx)
      ensures end.None? ==> SameBefore(old(chainCtx), chainCtx, Index(stage))
      ensures stage == RegisterSpec && old(Ahead(3)) ==> end.None? && next == old(next) + 3
      ensures Fair(answers, old(next), 3) && Sources(old(chainCtx), Index(stage)) ==> end.None? && next <= old(next) + 3
      ensures end.None? && Index(RtlBuild) < Index(stage) ==> old(chainCtx).rtl.Some?
      ensures old(next) <= next
    {
      if Sources(chainCtx, Index(stage)) { SourcesThere(chainCtx, stage); }
      FairFewer(answers, next);
      hide InOrder, Cleared, StateOk, Full, SavedWhole, MadeBefore, Made, Keeps, SameBefore, Paired, Safe;
      hide Grounded, KeepsSources, Fair, Sources;
      if stage in {Intake, BehaviorWave, Architecture, RegisterSpec} {
        end := WriteDoc(stage);
        if end.None? { DocWritten(old(chainCtx), stage, chainCtx.docs[stage]); }
      } else if stage in {RtlBuild, Tb, Xdc} {
        end := WriteSource(stage);
      } else {
        end := UseSources(stage);
      }
    }

    lemma FairFewer(answers: seq<Answer>, from: nat)
      ensures Fair(answers, from, 3) ==> Fair(answers, from, 2) && Fair(answers, from, 1)
    {
    }

    /** A stage that writes RTL, testbench or constraints. */
    method WriteSource(stage: Stage) returns (end: Option<Outcome>)
      requires Valid() && stage in {RtlBuild, Tb, Xdc}
      modifies this`chainCtx, this`saved, this`agentState, this`next
      ensures Safe() && (end.Some? ==> end.value in {Threw, Died})
      ensures agentState == old(agentState).(kept := agentState.kept) && KeepsSources(old(agentState).kept, agentState.kept)
      ensures end.None? ==>
        && Valid() && Made(chainCtx, stage) && Keeps(old(chainCtx), chainCtx) && SameBefore(old(chainCtx), chainCtx, Index(stage))
        && next == old(next) + 3 && (stage != RtlBuild ==> old(chainCtx).rtl.Some?)
      ensures Fair(answers, old(next), 3) && (stage != RtlBuild ==> old(chainCtx).rtl.Some?) ==> end.None?
      ensures old(next) <= next
    {
      SourcesStay(agentState.kept);
      hide InOrder, Cleared, StateOk, Full, SavedWhole, MadeBefore, Made, Keeps, SameBefore, Paired, Safe;
      hide Grounded, KeepsSources, Fair, Sources, Index;
      if stage != RtlBuild && chainCtx.rtl.None? { return Some(Threw); }
      match stage {
        case RtlBuild => end := WriteRtl();
        case Tb => end := WriteTb();
        case Xdc => end := WriteXdc();
      }
      if end.None? { SourceWritten(old(chainCtx), chainCtx, stage); }
    }

    /** A stage that puts the sources to use. */
    method UseSources(stage: Stage) returns (end: Option<Outcome>)
      requires Valid() && agentState.currentStage == Some(stage) && agentState.awaitingGate.None?
      requires stage in {Validate, Simulate, Synthesize, Implement} && (whole ==> MadeBefore(chainCtx, Index(stage)))
      modifies this`chainCtx, this`saved, this`agentState, this`next
      ensures Safe() && (end.Some? ==> end.value in {FailClosed, Threw, Died})
      ensures agentState == old(agentState).(kept := agentState.kept) && KeepsSources(old(agentState).kept, agentState.kept)
      ensures end.None? ==>
        && Valid() && Made(chainCtx, stage) && Keeps(old(chainCtx), chainCtx) && SameBefore(old(chainCtx), chainCtx, Index(stage))
        && old(chainCtx).rtl.Some?
      ensures Fair(answers, old(next), 2) && Fair(answers, old(next), 1) && old(chainCtx).rtl.Some?
        && (stage == Simulate ==> old(chainCtx).tb.Some?) && (stage == Implement ==> old(chainCtx).xdc.Some?)
        ==> end.None? && next <= old(next) + 2
      ensures old(next) <= next
    {
      SourcesStay(agentState.kept);
      hide InOrder, Cleared, StateOk, Full, SavedWhole, MadeBefore, Made, Keeps, SameBefore, Paired;
      hide Grounded, KeepsSources, Fair, Sources, Index;
      match stage {
        case Validate => end := RunTool(chainCtx.rtl.Some?, false);
        case Simulate =>
          if chainCtx.rtl.None? || chainCtx.tb.None? { return Some(Threw); }
          end := RunSimulateStage();
        case Synthesize => end := RunTool(chainCtx.rtl.Some?, true);
        case Implement => end := RunTool(chainCtx.rtl.Some? && chainCtx.xdc.Some?, true);
      }
      if end.None? {
        if stage == Simulate { Simulated(old(chainCtx), chainCtx); } else { StageUnchanged(chainCtx, stage); }
      }
    }

    /** With its sources there, no stage misses anything. */
    lemma SourcesThere(c: Context, stage: Stage)
      requires Sources(c, Index(stage))
      ensures Index(RtlBuild) < Index(stage) ==> c.rtl.Some?
      ensures stage == Simulate ==> c.tb.Some?
      ensures stage == Implement ==> c.xdc.Some?
    {
    }

    lemma DocWritten(c: Context, stage: Stage, revision: string)
      requires stage in {Intake, BehaviorWave, Architecture, RegisterSpec}
      ensures
        var c' := c.(docs := c.docs[stage := revision]);
        Made(c', stage) && Keeps(c, c') && SameBefore(c, c', Index(stage))
    {
    }

    lemma SourceWritten(a: Context, b: Context, stage: Stage)
      requires
        || (stage == RtlBuild && b == a.(rtl := b.rtl, rtlRevision := b.rtlRevision) && b.rtl.Some? && b.rtlRevision.Some?)
        || (stage == Tb && b == a.(tb := b.tb, tbRevision := b.tbRevision) && b.tb.Some? && b.tbRevision.Some?)
        || (stage == Xdc && b == a.(xdc := b.xdc, xdcRevision := b.xdcRevision) && b.xdc.Some? && b.xdcRevision.Some?)
      ensures Made(b, stage) && Keeps(a, b) && SameBefore(a, b, Index(stage))
    {
    }

    lemma Simulated(a: Context, b: Context)
      requires Keeps(a, b) && SameBefore(a, b, |STAGES|) && a.rtl.Some? && a.tb.Some?
      ensures Made(b, Simulate) && SameBefore(a, b, Index(Simulate))
    {
      assert Made(a, Simulate);
    }

    lemma StageUnchanged(c: Context, stage: Stage)
      requires stage in {Validate, Synthesize, Implement} && c.rtl.Some? && (stage == Implement ==> c.xdc.Some?)
      ensures Made(c, stage) && Keeps(c, c) && SameBefore(c, c, Index(stage))
    {
    }

    method RunTool(ready: bool, mustSucceed: bool) returns (end: Option<Outcome>)
      modifies this`next
      ensures end.None? ==> ready && 0 < next <= |answers| && (mustSucceed ==> answers[next - 1].ok)
      ensures end.Some? ==> end.value in {FailClosed, Threw, Died}
      ensures ready && Fair(answers, old(next), 1) ==> end.None? && next == old(next) + 1
      ensures old(next) <= next
    {
      if !ready { return Some(Threw); }
      var a := Await();
      if a.fate != Goes { return Some(if a.fate == Fails then Threw else Died); }
      end := if mustSucceed && !a.ok then Some(FailClosed) else None;
    }

    /** `runContentConformityGate`: repairs rewrite what is there, and never take anything away. */
    method ConformityGate(gate: Gate) returns (end: Option<Outcome>)
      requires Valid()
      modifies this`chainCtx, this`saved, this`agentState, this`next
      ensures Safe() && (end.Some? ==> end.value in {FailClosed, Threw, Died})
      ensures agentState == old(agentState).(kept := agentState.kept) && KeepsSources(old(agentState).kept, agentState.kept)
      ensures end.None? ==> Valid() && Keeps(old(chainCtx), chainCtx) && SameBefore(old(chainCtx), chainCtx, |STAGES|)
      ensures gate == G1 || gate == G2 ==> end.None? && chainCtx == old(chainCtx)
      ensures gate == G3 && 0 <= maxRepairRounds && old(Ahead(1)) ==> end.None? && next == old(next) + 1
      ensures Fair(answers, old(next), 1) ==> end.None? && next <= old(next) + 1
      ensures old(next) <= next
    {
      hide InOrder, Cleared, StateOk, Full, SavedWhole, Grounded, KeepsSources, Fair;
      SourcesStay(agentState.kept);
      if gate != G3 && gate != G4 { return None; }
      var round := 0;
      while round <= maxRepairRounds
        invariant 0 <= round && Valid() && agentState == old(agentState).(kept := agentState.kept)
        invariant KeepsSources(old(agentState).kept, agentState.kept)
        invariant old(next) <= next && (Fair(answers, old(next), 1) ==> next == old(next))
        invariant Keeps(old(chainCtx), chainCtx) && SameBefore(old(chainCtx), chainCtx, |STAGES|)
        invariant round == 0 ==> next == old(next)
        invariant gate == G3 && old(Ahead(1)) ==> round == 0
      {
        var blamed, ok, gone := Ask();
        if gone.Some? { return gone; }
        // Only what is there can fail the checks.
        var architecture := gate == G3 && Architecture in chainCtx.docs && blamed != "register_spec";
        var registers := gate == G3 && RegisterSpec in chainCtx.docs && blamed != "architecture";
        var rtl := gate == G4 && chainCtx.rtl.Some?;
        if ok || !(architecture || registers || rtl) { return None; }
        if round == maxRepairRounds { return Some(FailClosed); }
        ghost var before := agentState.kept;
        end := Repair(architecture, registers, rtl);
        SourcesTwice(old(agentState).kept, before, agentState.kept);
        if end.Some? { return; }
        round := round + 1;
      }
      end := None;
    }

    /** `repairContentConformity`. */
    method Repair(architecture: bool, registers: bool, rtl: bool) returns (end: Option<Outcome>)
      requires Valid() && (architecture ==> Architecture in chainCtx.docs) && (registers ==> RegisterSpec in chainCtx.docs)
      requires rtl ==> chainCtx.rtl.Some?
      modifies this`chainCtx, this`saved, this`agentState, this`next
      ensures Safe() && (end.Some? ==> end.value in {Threw, Died})
      ensures agentState == old(agentState).(kept := agentState.kept) && KeepsSources(old(agentState).kept, agentState.kept)
      ensures end.None? ==> Valid() && Keeps(old(chainCtx), chainCtx) && SameBefore(old(chainCtx), chainCtx, |STAGES|)
      ensures old(next) <= next
    {
      hide InOrder, Cleared, StateOk, Full, SavedWhole, Grounded, KeepsSources, Fair, Ahead;
      SourcesStay(agentState.kept);
      if architecture {
        end := WriteDoc(Architecture);
        if end.Some? { return; }
      }
      ghost var before := agentState.kept;
      if registers {
        end := WriteDoc(RegisterSpec);
        SourcesTwice(old(agentState).kept, before, agentState.kept);
        if end.Some? { return; }
      }
      end := None;
      before := agentState.kept;
      if rtl { end := WriteRtl(); }
      SourcesStay(before);
      SourcesTwice(old(agentState).kept, before, agentState.kept);
    }

    /** What governance says of a submission: the only way a gate is ever approved. */
    method AskGovernance(gate: Gate) returns (state: GateState, end: Option<Outcome>)
      requires Safe()
      modifies this`next, this`approved
      ensures Safe() && (end.Some? ==> end.value in {Threw, Died})
      ensures approved == if end.None? && state == Approved then old(approved) + {gate} else old(approved)
      ensures end.None? ==> 0 < next <= |answers| && next == old(next) + 1 && state == answers[next - 1].gate
      ensures old(Ahead(1)) || Going(answers, old(next), 1) ==> end.None? && next == old(next) + 1
      ensures Fair(answers, old(next), 1) ==> end.None? && state == Approved
      ensures old(next) <= next
    {
      MoreApproved(saved, approved, gate, whole);
      MoreApproved(agentState, approved, gate, whole);
      hide StateOk, InOrder, Full, Grounded;
      var a := Await();
      state := a.gate;
      end := if a.fate == Goes then None else if a.fate == Fails then Some(Threw) else Some(Died);
      if end.None? && state == Approved { approved := approved + {gate}; }
    }

    /** The snapshot that is put up for review. */
    method CreateSnapshot(gate: Gate, memberRevs: seq<string>) returns (end: Option<Outcome>)
      requires Valid() && (whole ==> Full(gate, memberRevs))
      modifies this`next, this`snapshots
      ensures Valid() && snapshots == old(snapshots) + [(gate, memberRevs)] && (end.Some? ==> end.value in {Threw, Died})
      ensures old(Ahead(1)) || Fair(answers, old(next), 1) ==> end.None? && next == old(next) + 1
      ensures old(next) <= next
    {
      hide StateOk, InOrder, Full, Grounded;
      snapshots := snapshots + [(gate, memberRevs)];
      var _, _, gone := Ask();
      end := gone;
    }

    /** `handleGate`: the chain goes on only when governance has approved the gate. */
    method HandleGate(gate: Gate, ghost begun: Context, ghost start: Stage) returns (end: Option<Outcome>)
      requires Valid() && Made(chainCtx, StageOf(gate)) && Cleared(approved, StageOf(gate))
      requires agentState.currentStage == Some(StageOf(gate)) && agentState.awaitingGate.None?
      requires whole ==> MadeBefore(chainCtx, Index(StageOf(gate)) + 1)
      requires SameBefore(begun, chainCtx, Index(start)) && MadeFrom(chainCtx, Index(start), Index(StageOf(gate)) + 1)
      requires Behind(executed, agentState.kept, Index(StageOf(gate)) + 1)
      modifies this`chainCtx, this`saved, this`agentState, this`next, this`approved, this`snapshots
      ensures KeepsSources(old(agentState).kept, agentState.kept)
      ensures Fair(answers, old(next), 5) ==> end.None? && next <= old(next) + 5
      ensures old(next) <= next
      ensures Safe() && approved == if end.None? then old(approved) + {gate} else old(approved)
      ensures end.None? ==>
        && Valid() && Keeps(old(chainCtx), chainCtx) && Keeps(chainCtx, agentState.kept)
        && agentState == old(agentState).(kept := agentState.kept) && SameBefore(begun, chainCtx, Index(start))
      ensures snapshots == old(snapshots) || snapshots == old(snapshots) + [(gate, Revisions(chainCtx, gate))]
      ensures FullIfCovered(snapshots, |old(snapshots)|, begun, start)
      ensures end.None? || end == Some(Paused(gate)) ==> snapshots != old(snapshots)
      ensures end.Some? && end.value.Paused? ==> end == Some(Paused(gate)) && saved.awaitingGate == Some(gate)
      ensures end.Some? ==> end.value in {FailClosed, Threw, Died} || end.value.Paused?
      ensures gate == G3 && 0 <= maxRepairRounds && old(Ahead(6)) && answers[old(next) + 4].gate != Approved ==>
        end == Some(Paused(gate))
    {
      hide InOrder, Cleared, StateOk, Full, SavedWhole, Over, Made, MadeBefore, Keeps, Revisions, Paired;
      hide FullIfCovered, SameBefore, MadeFrom, Grounded, KeepsSources, Behind, Fair;
      NoneNew(snapshots, begun, start);
      if Fair(answers, next, 5) { FairOn(answers, next, 5, next, 1); }
      end := ConformityGate(gate);
      if end.Some? { return; }
      ghost var before := agentState.kept;
      BehindGrows(executed, old(agentState).kept, before, Index(StageOf(gate)) + 1);
      if Fair(answers, old(next), 5) { FairOn(answers, old(next), 5, next, 4); }
      Reviewable(old(chainCtx), chainCtx, gate, begun, start);
      OneNew(snapshots, gate, chainCtx, begun, start);
      var memberRevs := Revisions(chainCtx, gate);
      if |memberRevs| == 0 {
        assert false;
      }
      ghost var reviewed := chainCtx;
      end := PutUpForReview(gate, memberRevs);
      SourcesTwice(old(agentState).kept, before, agentState.kept);
      StillReviewed(old(chainCtx), reviewed, chainCtx, gate, begun, start);
    }

    /** `handleGate` from the snapshot on. */
    method PutUpForReview(gate: Gate, memberRevs: seq<string>) returns (end: Option<Outcome>)
      requires Valid() && Cleared(approved, StageOf(gate))
      requires agentState.currentStage == Some(StageOf(gate)) && agentState.awaitingGate.None?
      requires whole ==> MadeBefore(chainCtx, Index(StageOf(gate)) + 1) && Full(gate, memberRevs)
      requires Behind(executed, agentState.kept, Index(StageOf(gate)) + 1)
      modifies this`chainCtx, this`saved, this`agentState, this`next, this`approved, this`snapshots
      ensures Safe() && approved == if end.None? then old(approved) + {gate} else old(approved)
      ensures snapshots == old(snapshots) + [(gate, memberRevs)]
      ensures chainCtx == old(chainCtx).(submissions := chainCtx.submissions)
      ensures end.None? ==>
        Valid() && Keeps(chainCtx, agentState.kept) && agentState == old(agentState).(kept := agentState.kept)
      ensures end.Some? && end.value.Paused? ==> end == Some(Paused(gate)) && saved.awaitingGate == Some(gate)
      ensures end.Some? ==> end.value in {FailClosed, Threw, Died} || end.value.Paused?
      ensures old(Ahead(5)) && answers[old(next) + 3].gate != Approved ==> end == Some(Paused(gate))
      ensures KeepsSources(old(agentState).kept, agentState.kept)
      ensures Fair(answers, old(next), 4) ==> end.None? && next <= old(next) + 4
      ensures old(next) <= next
    {
      hide InOrder, Cleared, StateOk, Full, SavedWhole, Over, Made, MadeBefore, Keeps, Revisions, Paired;
      hide Grounded, KeepsSources, Behind, Fair;
      SourcesStay(agentState.kept);
      if Fair(answers, next, 4) { FairOn(answers, next, 4, next, 1); }
      end := CreateSnapshot(gate, memberRevs);
      if end.Some? { return; }
      if Fair(answers, old(next), 4) { FairOn(answers, old(next), 4, next, 1); }
      var submissionId, _, lost := Ask();
      if lost.Some? { return lost; }
      if Fair(answers, old(next), 4) { FairOn(answers, old(next), 4, next, 2); }
      end := SubmitForReview(gate, submissionId);
    }

    /** What a gate's checks have left is still all there, and there is something to review. */
    lemma Reviewable(before: Context, c: Context, gate: Gate, begun: Context, start: Stage)
      requires Made(before, StageOf(gate)) && Keeps(before, c) && SameBefore(before, c, |STAGES|) && Paired(c)
      requires SameBefore(begun, before, Index(start)) && MadeFrom(before, Index(start), Index(StageOf(gate)) + 1)
      ensures SameBefore(begun, c, Index(start)) && MadeFrom(c, Index(start), Index(StageOf(gate)) + 1)
      ensures Revisions(c, gate) != []
      ensures MadeBefore(before, Index(StageOf(gate)) + 1) ==>
        MadeBefore(c, Index(StageOf(gate)) + 1) && Full(gate, Revisions(c, gate))
    {
      MadeKept(before, c);
      Continued(begun, before, c, Index(start), Index(StageOf(gate)) + 1);
      NeverEmpty(c, gate);
      hide Full, Revisions, Made, SameBefore, MadeFrom, Keeps, Paired;
      if MadeBefore(before, Index(StageOf(gate)) + 1) { MadeIsFull(c, gate); }
    }

    /** A new submission id changes nothing of what has been made and is reviewed. */
    lemma StillReviewed(before: Context, c: Context, c': Context, gate: Gate, begun: Context, start: Stage)
      requires c' == c.(submissions := c'.submissions)
      requires Keeps(before, c) && SameBefore(begun, c, Index(start))
      ensures Keeps(before, c') && SameBefore(begun, c', Index(start)) && Revisions(c', gate) == Revisions(c, gate)
    {
    }

    lemma NoneNew(snapshots: seq<(Gate, seq<string>)>, begun: Context, start: Stage)
      ensures FullIfCovered(snapshots, |snapshots|, begun, start)
    {
    }

    lemma OneNew(snapshots: seq<(Gate, seq<string>)>, gate: Gate, c: Context, begun: Context, start: Stage)
      requires SameBefore(begun, c, Index(start)) && MadeFrom(c, Index(start), Index(StageOf(gate)) + 1)
      ensures FullIfCovered(snapshots + [(gate, Revisions(c, gate))], |snapshots|, begun, start)
    {
      SnapshotExactly(begun, start, c, gate);
      hide Full, Covered, Revisions, SameBefore, MadeFrom;
    }

    lemma MoreNew(before: seq<(Gate, seq<string>)>, after: seq<(Gate, seq<string>)>, n: nat, begun: Context, start: Stage)
      requires before <= after
      requires FullIfCovered(before, n, begun, start) && FullIfCovered(after, |before|, begun, start)
      ensures FullIfCovered(after, n, begun, start)
    {
      hide Full, Covered;
    }

    lemma Continued(begun: Context, a: Context, b: Context, i: nat, j: nat)
      requires Keeps(a, b)
      ensures SameBefore(begun, a, i) && SameBefore(a, b, |STAGES|) ==> SameBefore(begun, b, i)
      ensures MadeFrom(a, i, j) ==> MadeFrom(b, i, j)
    {
      hide Made, RevisionOf;
    }

    /** Of the snapshots that were put up since, the last is one for this gate. */
    static ghost predicate PutUp(before: seq<(Gate, seq<string>)>, after: seq<(Gate, seq<string>)>, g: Gate)
    {
      before < after && after[|after| - 1].0 == g
    }

    /** Everything goes well from the register specification to the review of its gate. */
    ghost predicate ToReview()
      reads this
    {
      Ahead(11) && answers[next + 9].gate != Approved && 0 <= maxRepairRounds
    }

    /** Only the submission is new: what has been made and what is reviewed stays the same. */
    lemma SubmissionNoted(c: Context, gate: Gate, submissionId: string)
      ensures
        var c' := c.(submissions := c.submissions[gate := submissionId]);
        && Keeps(c, c') && (Paired(c) ==> Paired(c')) && (forall i: nat :: MadeBefore(c, i) ==> MadeBefore(c', i))
        && forall g :: Revisions(c', g) == Revisions(c, g)
    {
    }

    lemma MadeKept(a: Context, b: Context)
      requires Keeps(a, b)
      ensures forall s :: Made(a, s) ==> Made(b, s)
      ensures forall i: nat :: MadeBefore(a, i) ==> MadeBefore(b, i)
    {
    }

    /** `handleGate` from the new submission on. */
    method SubmitForReview(gate: Gate, submissionId: string) returns (end: Option<Outcome>)
      requires Valid() && Cleared(approved, StageOf(gate))
      requires agentState.currentStage == Some(StageOf(gate)) && agentState.awaitingGate.None?
      requires whole ==> MadeBefore(chainCtx, Index(StageOf(gate)) + 1)
      requires Behind(executed, agentState.kept, Index(StageOf(gate)) + 1)
      modifies this`chainCtx, this`saved, this`agentState, this`next, this`approved
      ensures KeepsSources(old(agentState).kept, agentState.kept)
      ensures Fair(answers, old(next), 2) ==> end.None? && next <= old(next) + 2
      ensures old(next) <= next
      ensures Safe() && approved == if end.None? then old(approved) + {gate} else old(approved)
      ensures chainCtx == old(chainCtx).(submissions := old(chainCtx).submissions[gate := submissionId])
      ensures end.None? ==>
        && Valid() && Keeps(old(chainCtx), chainCtx) && Keeps(chainCtx, agentState.kept)
        && agentState == old(agentState).(kept := agentState.kept)
      ensures end.Some? && end.value.Paused? ==> end == Some(Paused(gate)) && saved.awaitingGate == Some(gate)
      ensures end.Some? ==> end.value in {Threw, Died} || end.value.Paused?
      ensures old(Ahead(3)) && answers[old(next) + 1].gate != Approved ==> end == Some(Paused(gate))
    {
      if Fair(answers, next, 2) { FairOn(answers, next, 2, next, 1); FairOn(answers, next, 2, next + 1, 1); }
      AheadOn();
      hide *;
      ghost var first := agentState.kept;
      end := NoteSubmission(gate, submissionId);
      if end.Some? { return; }
      ghost var before := agentState.kept;
      end := AwaitReview(gate);
      SourcesTwice(first, before, agentState.kept);
    }

    lemma AheadOn()
      ensures Ahead(3) ==> Ahead(1) && next + 3 <= |answers|
    {
    }

    /** The new submission is noted and saved. */
    method NoteSubmission(gate: Gate, submissionId: string) returns (end: Option<Outcome>)
      requires Valid() && agentState.currentStage == Some(StageOf(gate)) && agentState.awaitingGate.None?
      requires whole ==> MadeBefore(chainCtx, Index(StageOf(gate)) + 1)
      requires Behind(executed, agentState.kept, Index(StageOf(gate)) + 1)
      modifies this`chainCtx, this`saved, this`agentState, this`next
      ensures Valid() && KeepsSources(old(agentState).kept, agentState.kept)
      ensures chainCtx == old(chainCtx).(submissions := old(chainCtx).submissions[gate := submissionId])
      ensures agentState == old(agentState).(kept := agentState.kept)
      ensures Keeps(old(chainCtx), chainCtx) && Keeps(chainCtx, agentState.kept)
      ensures gate in chainCtx.submissions && Behind(executed, agentState.kept, Index(StageOf(gate)) + 1)
      ensures whole ==> MadeBefore(chainCtx, Index(StageOf(gate))) && MadeBefore(chainCtx, Index(StageOf(gate)) + 1)
      ensures end.Some? ==> end.value in {Threw, Died}
      ensures old(Ahead(1)) || Fair(answers, old(next), 1) ==> end.None? && next == old(next) + 1
      ensures old(Ahead(3)) ==> Ahead(2)
      ensures old(next) <= next
    {
      SubmissionNoted(chainCtx, gate, submissionId);
      MadeFewer(chainCtx, Index(StageOf(gate)));
      hide InOrder, Cleared, StateOk, Full, SavedWhole, Over, Made, MadeBefore, Keeps;
      hide Grounded, KeepsSources, Behind, Fair, SyncedFrom, Going, Paired, Index;
      ghost var before := agentState.kept;
      chainCtx := chainCtx.(submissions := chainCtx.submissions[gate := submissionId]);
      end := SyncContext(agentState.status, agentState.awaitingGate);
      OverKeeps(chainCtx, before);
      BehindGrows(executed, before, agentState.kept, Index(StageOf(gate)) + 1);
    }

    /** The submission is put before governance: the chain goes on if it is approved at once, or pauses. */
    method AwaitReview(gate: Gate) returns (end: Option<Outcome>)
      requires Valid() && Cleared(approved, StageOf(gate)) && gate in chainCtx.submissions
      requires agentState.currentStage == Some(StageOf(gate)) && agentState.awaitingGate.None?
      requires whole ==> MadeBefore(chainCtx, Index(StageOf(gate))) && MadeBefore(chainCtx, Index(StageOf(gate)) + 1)
      requires Behind(executed, agentState.kept, Index(StageOf(gate)) + 1)
      modifies this`saved, this`agentState, this`next, this`approved
      ensures Valid() && approved == if end.None? then old(approved) + {gate} else old(approved)
      ensures KeepsSources(old(agentState).kept, agentState.kept) && (end.None? ==> agentState == old(agentState))
      ensures Fair(answers, old(next), 1) ==> end.None? && next == old(next) + 1
      ensures old(next) <= next
      ensures end.Some? && end.value.Paused? ==> end == Some(Paused(gate)) && saved.awaitingGate == Some(gate)
      ensures end.Some? ==> end.value in {Threw, Died} || end.value.Paused?
      ensures old(Ahead(2)) && answers[old(next)].gate != Approved ==> end == Some(Paused(gate))
    {
      SourcesStay(agentState.kept);
      hide InOrder, Cleared, StateOk, Full, SavedWhole, Over, Made, MadeBefore, Keeps;
      hide Grounded, KeepsSources, Behind, Fair, SyncedFrom, Going, Paired, Index;
      var state;
      state, end := AskGovernance(gate);
      if end.Some? || state == Approved { return; }
      end := SyncContext(AwaitingApproval, Some(gate));
      if end.None? { end := Some(Paused(gate)); }
    }

    lemma MadeFewer(c: Context, i: nat)
      ensures MadeBefore(c, i + 1) ==> MadeBefore(c, i)
    {
    }

    /** `executeChain`, with the context it finds. */
    method ExecuteChain(start: Stage) returns (outcome: Outcome)
      requires Valid() && Cleared(approved, start) && agentState.awaitingGate.None?
      requires whole ==> MadeBefore(chainCtx, Index(start)) && MadeBefore(agentState.kept, Index(start))
      requires Behind(executed, agentState.kept, Index(start))
      modifies this`chainCtx, this`saved, this`agentState, this`next, this`approved, this`executed, this`snapshots
      ensures Safe() && old(executed) <= executed && old(approved) <= approved
      ensures Ran(executed) <= Ran(old(executed)) + Path(Index(start), |STAGES|)
      ensures old(snapshots) <= snapshots && FullIfCovered(snapshots, |old(snapshots)|, old(chainCtx), start)
      ensures outcome == Succeeded ==>
        AllApproved(approved) && AllRan(executed) && Ran(executed) == Ran(old(executed)) + Path(Index(start), |STAGES|)
      ensures outcome.Paused? ==> saved.awaitingGate == Some(outcome.gate) && PutUp(old(snapshots), snapshots, outcome.gate)
      ensures start == RegisterSpec && old(ToReview()) ==> outcome == Paused(G3)
      ensures Going(answers, old(next), 1) ==> Continues(old(executed), executed, start)
      ensures Fair(answers, old(next), 110) && Sources(old(chainCtx), Index(start)) ==> outcome == Succeeded
      ensures Index(RtlBuild) < Index(start) && old(chainCtx).rtl.None? ==> outcome != Succeeded
    {
      hide Safe, FullIfCovered, ToReview, PutUp, AllApproved, AllRan, Ran, Path, Index, Valid, Behind, Sources, Fair, Going;
      hide Cleared, MadeBefore;
      outcome := RunChain(start);
    }

    /** How a chain may end that began with these stages run, gates approved, snapshots shown and this context. */
    ghost predicate ChainEnds(outcome: Outcome, start: Stage, ran: seq<Executed>, gates: set<Gate>,
                              shown: seq<(Gate, seq<string>)>, begun: Context, from: nat)
      reads this
    {
      && Safe() && ran <= executed && gates <= approved
      && Ran(executed) <= Ran(ran) + Path(Index(start), |STAGES|)
      && shown <= snapshots && FullIfCovered(snapshots, |shown|, begun, start)
      && (outcome == Succeeded ==>
            AllApproved(approved) && AllRan(executed) && Ran(executed) == Ran(ran) + Path(Index(start), |STAGES|))
      && (outcome.Paused? ==> saved.awaitingGate == Some(outcome.gate) && PutUp(shown, snapshots, outcome.gate))
      && (Going(answers, from, 1) ==> Continues(ran, executed, start))
      && (Fair(answers, from, 110) && Sources(begun, Index(start)) ==> outcome == Succeeded)
      && (Index(RtlBuild) < Index(start) && begun.rtl.None? ==> outcome != Succeeded)
    }

    /** The loop of `executeChain`. */
    method RunChain(start: Stage) returns (outcome: Outcome)
      requires Valid() && Cleared(approved, start) && agentState.awaitingGate.None?
      requires whole ==> MadeBefore(chainCtx, Index(start)) && MadeBefore(agentState.kept, Index(start))
      requires Behind(executed, agentState.kept, Index(start))
      modifies this`chainCtx, this`saved, this`agentState, this`next, this`approved, this`executed, this`snapshots
      ensures ChainEnds(outcome, start, old(executed), old(approved), old(snapshots), old(chainCtx), old(next))
      ensures start == RegisterSpec && old(ToReview()) ==> outcome == Paused(G3)
    {
      hide *;
      var idx := Index(start);
      AlongAtFirst(start);
      OnwardAtFirst(start);
      assert start == RegisterSpec ==> STAGES[idx] == RegisterSpec;
      while idx < |STAGES|
        invariant Index(start) <= idx <= |STAGES|
        invariant Along(idx, old(executed), old(approved), old(snapshots), old(chainCtx), start)
        invariant Onward(idx, start, old(executed), old(next), old(chainCtx))
        invariant start == RegisterSpec && old(ToReview()) ==> idx < |STAGES| && STAGES[idx] == RegisterSpec && ToReview()
      {
        var end := Round(idx, old(executed), old(approved), old(snapshots), old(chainCtx), start, old(next));
        if end.Some? { return end.value; }
        idx := idx + 1;
      }
      EndsAtLast(start, old(executed), old(approved), old(snapshots), old(chainCtx), old(next));
      outcome := Succeeded;
    }

    lemma EndsAtLast(start: Stage, ran: seq<Executed>, gates: set<Gate>, shown: seq<(Gate, seq<string>)>,
                     begun: Context, from: nat)
      requires Along(|STAGES|, ran, gates, shown, begun, start) && Onward(|STAGES|, start, ran, from, begun)
      ensures ChainEnds(Succeeded, start, ran, gates, shown, begun, from)
    {
      OnwardAtLast(start, ran, from, begun);
      AlongAtLast(ran, gates, shown, begun, start);
      hide Along, Onward, Safe, FullIfCovered, PutUp, AllApproved, AllRan, Ran, Path, Index, Sources, Fair, Going;
    }

    /** How far the chain has come since it began at `from`, with this context and these stages run. */
    ghost predicate Onward(idx: nat, start: Stage, ran: seq<Executed>, from: nat, begun: Context)
      reads this
    {
      && Index(start) <= idx <= |STAGES| && from <= next && ran <= executed
      && (idx == Index(start) ==> next == from && executed == ran && chainCtx == begun)
      && (idx > Index(start) ==> Continues(ran, executed, start))
      && (idx > Index(start) && Index(RtlBuild) < Index(start) ==> begun.rtl.Some?)
      && (Fair(answers, from, 110) && Sources(begun, Index(start)) ==> next <= from + 10 * (idx - Index(start)))
    }

    lemma OnwardAtFirst(start: Stage)
      ensures Onward(Index(start), start, executed, next, chainCtx)
    {
    }

    lemma OnwardAtLast(start: Stage, ran: seq<Executed>, from: nat, begun: Context)
      requires Onward(|STAGES|, start, ran, from, begun)
      ensures Continues(ran, executed, start)
      ensures Index(RtlBuild) < Index(start) ==> begun.rtl.Some?
    {
      BeforeLast(start);
      hide Ran, Fair, Sources;
    }

    lemma OnwardMeans(idx: nat, start: Stage, ran: seq<Executed>, from: nat, begun: Context)
      requires idx < |STAGES| && Onward(idx, start, ran, from, begun)
      ensures from <= next && ran <= executed && (idx == Index(start) ==> next == from && executed == ran && STAGES[idx] == start)
      ensures Fair(answers, from, 110) && Sources(begun, Index(start)) ==> Fair(answers, next, 10)
    {
      hide Ran, Sources;
      StageIs(start, idx);
      if Fair(answers, from, 110) && Sources(begun, Index(start)) { FairOn(answers, from, 110, next, 10); }
    }

    /** After one more turn, from the executed stages and the position before it. */
    lemma OnwardNext(idx: nat, start: Stage, ran: seq<Executed>, from: nat, begun: Context,
                     before: seq<Executed>, at: nat, c: Context)
      requires Index(start) <= idx < |STAGES| && from <= at <= next && ran <= before <= executed
      requires Ran(executed) == Ran(before) + [STAGES[idx]]
      requires idx == Index(start) ==> at == from && before == ran && c == begun
      requires idx > Index(start) ==> Continues(ran, before, start)
      requires idx > Index(start) && Index(RtlBuild) < Index(start) ==> begun.rtl.Some?
      requires Index(RtlBuild) < idx ==> c.rtl.Some?
      requires Fair(answers, from, 110) && Sources(begun, Index(start)) ==>
        at <= from + 10 * (idx - Index(start)) && next <= at + 10
      ensures Onward(idx + 1, start, ran, from, begun)
    {
      StageIs(start, idx);
      hide Ran, Sources, Fair;
    }

    lemma RanOnward(start: Stage, ran: seq<Executed>, before: seq<Executed>, after: seq<Executed>)
      requires Continues(ran, before, start) && before <= after
      ensures Continues(ran, after, start)
    {
      RanPrefix(before, after);
    }

    /** One turn of the loop, and what it does for the whole chain. */
    method Round(idx: nat, ghost ran: seq<Executed>, ghost gates: set<Gate>, ghost shown: seq<(Gate, seq<string>)>,
                 ghost begun: Context, ghost start: Stage, ghost from: nat) returns (end: Option<Outcome>)
      requires idx < |STAGES| && Along(idx, ran, gates, shown, begun, start) && Onward(idx, start, ran, from, begun)
      modifies this`chainCtx, this`saved, this`agentState, this`next, this`approved, this`executed, this`snapshots
      ensures end.None? ==> Along(idx + 1, ran, gates, shown, begun, start) && Onward(idx + 1, start, ran, from, begun)
      ensures end.Some? ==> ChainEnds(end.value, start, ran, gates, shown, begun, from)
      ensures STAGES[idx] == RegisterSpec && old(ToReview()) ==> end == Some(Paused(G3))
    {
      OnwardMeans(idx, start, ran, from, begun);
      OnwardWas(idx, start, ran, from, begun);
      hide *;
      ghost var before, at, c := executed, next, chainCtx;
      end := Turn(idx, ran, gates, shown, begun, start);
      if end.None? {
        OnwardNext(idx, start, ran, from, begun, before, at, c);
      } else {
        if idx != Index(start) { RanOnward(start, ran, before, executed); }
        EndsInTurn(end.value, start, ran, gates, shown, begun, from);
      }
    }

    lemma EndsInTurn(outcome: Outcome, start: Stage, ran: seq<Executed>, gates: set<Gate>,
                     shown: seq<(Gate, seq<string>)>, begun: Context, from: nat)
      requires TurnEnds(outcome, ran, gates, shown, begun, start)
      requires Going(answers, from, 1) ==> Continues(ran, executed, start)
      requires !(Fair(answers, from, 110) && Sources(begun, Index(start)))
      ensures ChainEnds(outcome, start, ran, gates, shown, begun, from)
    {
      hide Safe, FullIfCovered, PutUp, Ran, Path, Index, Sources, Fair, Going;
    }

    lemma OnwardWas(idx: nat, start: Stage, ran: seq<Executed>, from: nat, begun: Context)
      requires Onward(idx, start, ran, from, begun)
      ensures Index(start) <= idx && (idx == Index(start) ==> chainCtx == begun)
      ensures idx > Index(start) ==> Continues(ran, executed, start)
      ensures idx > Index(start) && Index(RtlBuild) < Index(start) ==> begun.rtl.Some?
      ensures Fair(answers, from, 110) && Sources(begun, Index(start)) ==> next <= from + 10 * (idx - Index(start))
    {
      hide Ran, Sources, Fair;
    }

    lemma StageIs(start: Stage, idx: nat)
      ensures idx == Index(start) ==> STAGES[idx] == start
      ensures Index(start) <= idx < |STAGES| ==> 10 * (idx - Index(start)) <= 100
    {
    }

    lemma BeforeLast(start: Stage)
      ensures Index(start) < |STAGES|
    {
    }

    /** Where the chain is before its `idx`-th stage: all before it run in order, all gates passed, everything made kept. */
    ghost predicate Along(idx: nat, ran: seq<Executed>, gates: set<Gate>, shown: seq<(Gate, seq<string>)>,
                          begun: Context, start: Stage)
      reads this
    {
      && Index(start) <= idx <= |STAGES| && Valid() && agentState.awaitingGate.None?
      && ran <= executed && gates <= approved && shown <= snapshots
      && Ran(executed) == Ran(ran) + Path(Index(start), idx)
      && (if idx < |STAGES| then Cleared(approved, STAGES[idx]) else AllApproved(approved))
      && (idx < |STAGES| && whole ==> MadeBefore(chainCtx, idx) && MadeBefore(agentState.kept, idx))
      && SameBefore(begun, chainCtx, Index(start)) && MadeFrom(chainCtx, Index(start), idx)
      && FullIfCovered(snapshots, |shown|, begun, start)
      && Behind(executed, agentState.kept, idx) && (Sources(begun, Index(start)) ==> Sources(chainCtx, idx))
    }

    lemma AlongAtFirst(start: Stage)
      requires Valid() && Cleared(approved, start) && agentState.awaitingGate.None?
      requires Behind(executed, agentState.kept, Index(start))
      requires whole ==> MadeBefore(chainCtx, Index(start)) && MadeBefore(agentState.kept, Index(start))
      ensures Along(Index(start), executed, approved, snapshots, chainCtx, start)
    {
      var idx := Index(start);
      NoPath(Ran(executed), idx);
      NoneNew(snapshots, chainCtx, start);
      Begun(chainCtx, start);
      hide FullIfCovered, SameBefore, MadeFrom, MadeBefore, Valid, Behind, Sources, Ran, Path, Cleared, Index, AllApproved;
    }

    lemma NoPath(before: seq<Stage>, i: nat)
      requires i <= |STAGES|
      ensures before + Path(i, i) == before
    {
    }

    lemma AlongAtLast(ran: seq<Executed>, gates: set<Gate>, shown: seq<(Gate, seq<string>)>, begun: Context, start: Stage)
      requires Along(|STAGES|, ran, gates, shown, begun, start)
      ensures Safe() && ran <= executed && gates <= approved && shown <= snapshots && AllApproved(approved)
      ensures Ran(executed) == Ran(ran) + Path(Index(start), |STAGES|)
      ensures FullIfCovered(snapshots, |shown|, begun, start) && AllRan(executed)
    {
      BehindAll(executed, agentState.kept);
      hide FullIfCovered, SameBefore, MadeFrom, MadeBefore, Ran, Path, AllApproved, Index, Safe, Behind, Sources, AllRan;
    }

    /** How a turn may end the chain. */
    ghost predicate TurnEnds(outcome: Outcome, ran: seq<Executed>, gates: set<Gate>, shown: seq<(Gate, seq<string>)>,
                             begun: Context, start: Stage)
      reads this
    {
      && Safe() && ran <= executed && gates <= approved && outcome != Succeeded
      && Ran(executed) <= Ran(ran) + Path(Index(start), |STAGES|)
      && shown <= snapshots && FullIfCovered(snapshots, |shown|, begun, start)
      && (outcome.Paused? ==> saved.awaitingGate == Some(outcome.gate) && PutUp(shown, snapshots, outcome.gate))
    }

    lemma TurnEndsHere(outcome: Outcome, ran: seq<Executed>, gates: set<Gate>, shown: seq<(Gate, seq<string>)>,
                       begun: Context, start: Stage)
      requires Safe() && ran <= executed && gates <= approved && outcome != Succeeded
      requires Ran(executed) <= Ran(ran) + Path(Index(start), |STAGES|)
      requires shown <= snapshots && FullIfCovered(snapshots, |shown|, begun, start)
      requires outcome.Paused? ==> saved.awaitingGate == Some(outcome.gate) && PutUp(shown, snapshots, outcome.gate)
      ensures TurnEnds(outcome, ran, gates, shown, begun, start)
    {
      hide Safe, FullIfCovered, PutUp, Ran, Path, Index;
    }

    /** One turn of the loop. */
    method Turn(idx: nat, ghost ran: seq<Executed>, ghost gates: set<Gate>, ghost shown: seq<(Gate, seq<string>)>,
                ghost begun: Context, ghost start: Stage) returns (end: Option<Outcome>)
      requires idx < |STAGES| && Along(idx, ran, gates, shown, begun, start)
      modifies this`chainCtx, this`saved, this`agentState, this`next, this`approved, this`executed, this`snapshots
      ensures end.None? ==> Along(idx + 1, ran, gates, shown, begun, start)
      ensures end.Some? ==> TurnEnds(end.value, ran, gates, shown, begun, start)
      ensures STAGES[idx] == RegisterSpec && old(ToReview()) ==> end == Some(Paused(G3))
      ensures old(executed) <= executed && old(next) <= next
      ensures end.None? || Going(answers, old(next), 1) ==> Ran(executed) == Ran(old(executed)) + [STAGES[idx]]
      ensures Fair(answers, old(next), 10) && Sources(begun, Index(start)) ==> end.None? && next <= old(next) + 10
      ensures end.None? && Index(RtlBuild) < idx ==> old(chainCtx).rtl.Some?
    {
      var stage := STAGES[idx];
      StageIndex(idx);
      PathMore(Ran(ran), Index(start), idx);
      AlongMeans(idx, ran, gates, shown, begun, start);
      hide InOrder, Cleared, StateOk, Full, SavedWhole, Made, MadeBefore, Paired, AllApproved, Ran, Path, Index;
      hide Safe, FullIfCovered, SameBefore, MadeFrom, ToReview, PutUp, Valid, Along, Behind, Sources, Fair, Going;
      end := StageAndGate(stage, begun, start);
      MoreNew(old(snapshots), snapshots, |shown|, begun, start);
      if end.Some? {
        if end.value.Paused? { PutUpLater(shown, old(snapshots), snapshots, end.value.gate); }
        TurnEndsHere(end.value, ran, gates, shown, begun, start);
        return;
      }
      if idx + 1 < |STAGES| { ClearedNext(approved, idx); } else { LastGate(approved); }
      AlongNext(idx, ran, gates, shown, begun, start);
    }

    lemma AlongMeans(idx: nat, ran: seq<Executed>, gates: set<Gate>, shown: seq<(Gate, seq<string>)>,
                     begun: Context, start: Stage)
      requires idx < |STAGES| && Along(idx, ran, gates, shown, begun, start)
      ensures Index(start) <= idx && Valid() && agentState.awaitingGate.None? && Cleared(approved, STAGES[idx])
      ensures ran <= executed && gates <= approved && shown <= snapshots
      ensures Ran(executed) == Ran(ran) + Path(Index(start), idx)
      ensures whole ==> MadeBefore(chainCtx, idx) && MadeBefore(agentState.kept, idx)
      ensures SameBefore(begun, chainCtx, Index(start)) && MadeFrom(chainCtx, Index(start), idx)
      ensures FullIfCovered(snapshots, |shown|, begun, start)
      ensures Behind(executed, agentState.kept, idx) && (Sources(begun, Index(start)) ==> Sources(chainCtx, idx))
    {
      hide FullIfCovered, SameBefore, MadeFrom, MadeBefore, Ran, Path, AllApproved, Index, Valid, Cleared, Behind, Sources;
    }

    lemma AlongNext(idx: nat, ran: seq<Executed>, gates: set<Gate>, shown: seq<(Gate, seq<string>)>,
                    begun: Context, start: Stage)
      requires Index(start) <= idx < |STAGES| && Valid() && agentState.awaitingGate.None?
      requires if idx + 1 < |STAGES| then Cleared(approved, STAGES[idx + 1]) else AllApproved(approved)
      requires ran <= executed && gates <= approved && shown <= snapshots
      requires Ran(executed) == Ran(ran) + Path(Index(start), idx + 1)
      requires whole ==> MadeBefore(chainCtx, idx + 1) && MadeBefore(agentState.kept, idx + 1)
      requires SameBefore(begun, chainCtx, Index(start)) && MadeFrom(chainCtx, Index(start), idx + 1)
      requires FullIfCovered(snapshots, |shown|, begun, start)
      requires Behind(executed, agentState.kept, idx + 1) && (Sources(begun, Index(start)) ==> Sources(chainCtx, idx + 1))
      ensures Along(idx + 1, ran, gates, shown, begun, start)
    {
      hide FullIfCovered, SameBefore, MadeFrom, MadeBefore, Ran, Path, AllApproved, Index, Valid, Cleared, Behind, Sources;
    }

    lemma Begun(c: Context, start: Stage)
      ensures SameBefore(c, c, Index(start)) && MadeFrom(c, Index(start), Index(start))
    {
    }

    lemma PutUpLater(a: seq<(Gate, seq<string>)>, b: seq<(Gate, seq<string>)>, c: seq<(Gate, seq<string>)>, g: Gate)
      requires a <= b && PutUp(b, c, g)
      ensures PutUp(a, c, g)
    {
    }

    lemma StageIndex(i: nat)
      requires i < |STAGES|
      ensures Index(STAGES[i]) == i && (i + 1 == |STAGES| ==> STAGES[i] == Implement)
      ensures i + 1 == |STAGES| ==> GateAfter(STAGES[i]) == Some(G4)
    {
    }

    /** The stage is noted as the current one and run, and its gate is passed. */
    method StageAndGate(stage: Stage, ghost begun: Context, ghost start: Stage) returns (end: Option<Outcome>)
      requires Valid() && Cleared(approved, stage) && agentState.awaitingGate.None?
      requires whole ==> MadeBefore(chainCtx, Index(stage)) && MadeBefore(agentState.kept, Index(stage))
      requires Index(start) <= Index(stage)
      requires SameBefore(begun, chainCtx, Index(start)) && MadeFrom(chainCtx, Index(start), Index(stage))
      requires Behind(executed, agentState.kept, Index(stage))
      modifies this`chainCtx, this`saved, this`agentState, this`next, this`approved, this`executed, this`snapshots
      ensures Safe() && old(executed) <= executed && old(approved) <= approved
      ensures Ran(executed) <= Ran(old(executed)) + [stage]
      ensures old(snapshots) <= snapshots && FullIfCovered(snapshots, |old(snapshots)|, begun, start)
      ensures end.Some? ==> end != Some(Succeeded)
      ensures Going(answers, old(next), 1) ==> Ran(executed) == Ran(old(executed)) + [stage]
      ensures Fair(answers, old(next), 10) && Sources(old(chainCtx), Index(stage)) ==> end.None? && next <= old(next) + 10
      ensures end.None? ==>
        && Behind(executed, agentState.kept, Index(stage) + 1) && (Index(RtlBuild) < Index(stage) ==> old(chainCtx).rtl.Some?)
        && (Sources(old(chainCtx), Index(stage)) ==> Sources(chainCtx, Index(stage) + 1))
      ensures old(next) <= next
      ensures end.Some? && end.value.Paused? ==>
        saved.awaitingGate == Some(end.value.gate) && PutUp(old(snapshots), snapshots, end.value.gate)
      ensures end.None? ==>
        && Valid() && Cleared(approved, stage) && agentState.awaitingGate.None? && Ran(executed) == Ran(old(executed)) + [stage]
        && (GateAfter(stage).Some? ==> GateAfter(stage).value in approved)
        && (whole ==> MadeBefore(chainCtx, Index(stage) + 1) && MadeBefore(agentState.kept, Index(stage) + 1))
        && SameBefore(begun, chainCtx, Index(start)) && MadeFrom(chainCtx, Index(start), Index(stage) + 1)
      ensures stage == RegisterSpec && old(ToReview()) ==> end == Some(Paused(G3))
    {
      hide InOrder, Cleared, StateOk, Full, SavedWhole, Made, Paired, Over, Ran, Keeps, MadeBefore, Index;
      hide Safe, FullIfCovered, SameBefore, MadeFrom, PutUp, Behind, Sources, Fair, Going;
      NoneNew(snapshots, begun, start);
      if Fair(answers, next, 10) { FairOn(answers, next, 10, next, 5); }
      end := NoteAndRun(stage, begun, start);
      if end.Some? { return; }
      if Fair(answers, old(next), 10) && next <= old(next) + 5 { FairOn(answers, old(next), 10, next, 5); }
      end := PassGate(stage, begun, start);
      if end.None? { StillCleared(old(approved), approved, stage); }
    }

    method NoteAndRun(stage: Stage, ghost begun: Context, ghost start: Stage) returns (end: Option<Outcome>)
      requires Valid() && Cleared(approved, stage) && agentState.awaitingGate.None? && Index(start) <= Index(stage)
      requires whole ==> MadeBefore(chainCtx, Index(stage)) && MadeBefore(agentState.kept, Index(stage))
      requires SameBefore(begun, chainCtx, Index(start)) && MadeFrom(chainCtx, Index(start), Index(stage))
      requires Behind(executed, agentState.kept, Index(stage))
      modifies this`chainCtx, this`saved, this`agentState, this`next, this`executed
      ensures Safe() && old(executed) <= executed && Ran(executed) <= Ran(old(executed)) + [stage]
      ensures end.Some? ==> end.value in {FailClosed, Threw, Died}
      ensures Going(answers, old(next), 1) ==> Ran(executed) == Ran(old(executed)) + [stage]
      ensures Fair(answers, old(next), 5) && Sources(old(chainCtx), Index(stage)) ==> end.None? && next <= old(next) + 5
      ensures end.None? ==>
        && Behind(executed, agentState.kept, Index(stage) + 1) && (Index(RtlBuild) < Index(stage) ==> old(chainCtx).rtl.Some?)
        && (Sources(old(chainCtx), Index(stage)) ==> Sources(chainCtx, Index(stage) + 1))
      ensures old(next) <= next
      ensures end.None? ==>
        && Valid() && agentState.currentStage == Some(stage) && agentState.awaitingGate.None?
        && Ran(executed) == Ran(old(executed)) + [stage] && Made(chainCtx, stage)
        && (whole ==> MadeBefore(chainCtx, Index(stage) + 1) && MadeBefore(agentState.kept, Index(stage) + 1))
        && SameBefore(begun, chainCtx, Index(start)) && MadeFrom(chainCtx, Index(start), Index(stage) + 1)
      ensures stage == RegisterSpec && old(Ahead(5)) ==> end.None? && next == old(next) + 5
    {
      hide InOrder, Cleared, StateOk, Full, SavedWhole, Made, Paired, Over, Ran, Keeps, MadeBefore, Index;
      hide Safe, SameBefore, MadeFrom, Behind, Sources, KeepsSources, Fair, Going, Grounded;
      if Fair(answers, next, 5) { FairOn(answers, next, 5, next, 1); }
      end := Note(stage);
      if end.Some? { return; }
      NoteRun(stage);
      JustRan(old(executed), executed, agentState.kept, stage);
      if Fair(answers, old(next), 5) { FairOn(answers, old(next), 5, next, 4); }
      ghost var before := agentState.kept;
      end := RunAndSync(stage);
      if end.Some? { return; }
      AfterRun(executed, before, agentState.kept, old(chainCtx), chainCtx, stage);
      Extended(begun, old(chainCtx), chainCtx, start, stage);
    }

    lemma JustRan(before: seq<Executed>, after: seq<Executed>, kept: Context, stage: Stage)
      requires before <= after && Ran(after) == Ran(before) + [stage]
      ensures stage in Ran(after) && (Behind(before, kept, Index(stage)) ==> Behind(after, kept, Index(stage)))
    {
      BehindMore(before, after, kept, Index(stage));
      hide Ran, Behind, Index;
      assert Ran(after)[|Ran(before)|] == stage;
    }

    lemma AfterRun(ran: seq<Executed>, k: Context, k': Context, c: Context, c': Context, stage: Stage)
      requires stage in Ran(ran) && Behind(ran, k, Index(stage)) && KeepsSources(k, k') && Made(k', stage)
      requires Keeps(c, c') && Made(c', stage)
      ensures Behind(ran, k', Index(stage) + 1)
      ensures Sources(c, Index(stage)) ==> Sources(c', Index(stage) + 1)
    {
      hide Behind, Sources, KeepsSources, Keeps, Made, Ran, Index;
      BehindGrows(ran, k, k', Index(stage));
      BehindNext(ran, k', Index(stage), stage);
      SourcesKept(c, c');
      BehindGrows(ran, c, c', Index(stage));
      BehindNext(ran, c', Index(stage), stage);
    }

    /** The gate after the stage, if there is one. */
    method PassGate(stage: Stage, ghost begun: Context, ghost start: Stage) returns (end: Option<Outcome>)
      requires Valid() && Made(chainCtx, stage) && Cleared(approved, stage)
      requires agentState.currentStage == Some(stage) && agentState.awaitingGate.None?
      requires whole ==> MadeBefore(chainCtx, Index(stage) + 1) && MadeBefore(agentState.kept, Index(stage) + 1)
      requires SameBefore(begun, chainCtx, Index(start)) && MadeFrom(chainCtx, Index(start), Index(stage) + 1)
      requires Behind(executed, agentState.kept, Index(stage) + 1)
      modifies this`chainCtx, this`saved, this`agentState, this`next, this`approved, this`snapshots
      ensures Safe() && old(approved) <= approved
      ensures Fair(answers, old(next), 5) ==> end.None? && next <= old(next) + 5
      ensures old(next) <= next
      ensures end.None? ==>
        && Behind(executed, agentState.kept, Index(stage) + 1)
        && (Sources(old(chainCtx), Index(stage) + 1) ==> Sources(chainCtx, Index(stage) + 1))
      ensures old(snapshots) <= snapshots && FullIfCovered(snapshots, |old(snapshots)|, begun, start)
      ensures end.Some? ==> end.value in {FailClosed, Threw, Died} || end.value.Paused?
      ensures end.Some? && end.value.Paused? ==>
        saved.awaitingGate == Some(end.value.gate) && PutUp(old(snapshots), snapshots, end.value.gate)
      ensures end.None? ==>
        && Valid() && agentState.awaitingGate.None? && (GateAfter(stage).Some? ==> GateAfter(stage).value in approved)
        && (whole ==> MadeBefore(chainCtx, Index(stage) + 1) && MadeBefore(agentState.kept, Index(stage) + 1))
        && SameBefore(begun, chainCtx, Index(start)) && MadeFrom(chainCtx, Index(start), Index(stage) + 1)
      ensures stage == RegisterSpec && 0 <= maxRepairRounds && old(Ahead(6)) && answers[old(next) + 4].gate != Approved ==>
        end == Some(Paused(G3))
    {
      hide InOrder, Cleared, StateOk, Full, SavedWhole, Made, Paired, Over, Keeps, MadeBefore, Index;
      hide Safe, FullIfCovered, SameBefore, MadeFrom, Revisions, Behind, Sources, KeepsSources, Fair;
      NoneNew(snapshots, begun, start);
      var gate := GateAfter(stage);
      if gate.None? { return None; }
      end := HandleGate(gate.value, begun, start);
      if end.Some? { return; }
      BehindGrows(executed, old(agentState).kept, agentState.kept, Index(stage) + 1);
      SourcesKept(old(chainCtx), chainCtx);
      BehindGrows(executed, old(chainCtx), chainCtx, Index(stage) + 1);
      StillMade(old(chainCtx), chainCtx, Index(start), Index(stage) + 1);
      StillMade(chainCtx, agentState.kept, Index(start), Index(stage) + 1);
    }

    lemma StillMade(a: Context, b: Context, i: nat, j: nat)
      requires Keeps(a, b)
      ensures MadeBefore(a, j) ==> MadeBefore(b, j)
      ensures MadeFrom(a, i, j) ==> MadeFrom(b, i, j)
    {
      hide Made;
    }

    lemma Extended(begun: Context, a: Context, b: Context, start: Stage, stage: Stage)
      requires SameBefore(begun, a, Index(start)) && MadeFrom(a, Index(start), Index(stage)) && Index(start) <= Index(stage)
      requires Keeps(a, b) && Made(b, stage) && SameBefore(a, b, Index(stage))
      ensures SameBefore(begun, b, Index(start)) && MadeFrom(b, Index(start), Index(stage) + 1)
    {
      forall s | Index(start) <= Index(s) < Index(stage) + 1 ensures Made(b, s) {
        assert Index(s) == Index(stage) ==> s == stage;
      }
    }

    /** The stage is run, and what it has made is saved. */
    method RunAndSync(stage: Stage) returns (end: Option<Outcome>)
      requires Valid() && agentState.currentStage == Some(stage) && agentState.awaitingGate.None?
      requires whole ==> MadeBefore(chainCtx, Index(stage))
      modifies this`chainCtx, this`saved, this`agentState, this`next
      ensures Safe() && (end.Some? ==> end.value in {FailClosed, Threw, Died})
      ensures agentState == old(agentState).(kept := agentState.kept) && KeepsSources(old(agentState).kept, agentState.kept)
      ensures Fair(answers, old(next), 4) && Sources(old(chainCtx), Index(stage)) ==> end.None? && next <= old(next) + 4
      ensures end.None? ==> Made(agentState.kept, stage) && (Index(RtlBuild) < Index(stage) ==> old(chainCtx).rtl.Some?)
      ensures old(next) <= next
      ensures end.None? ==>
        && Valid() && Made(chainCtx, stage) && Keeps(old(chainCtx), chainCtx) && SameBefore(old(chainCtx), chainCtx, Index(stage))
        && (whole ==> MadeBefore(chainCtx, Index(stage) + 1) && MadeBefore(agentState.kept, Index(stage) + 1))
      ensures stage == RegisterSpec && old(Ahead(4)) ==> end.None? && next == old(next) + 4
    {
      hide InOrder, Cleared, StateOk, Full, SavedWhole, Made, Paired, Over, Keeps, MadeBefore, Index;
      hide Grounded, KeepsSources, Sources, Fair, Safe, SyncedFrom, Going;
      if Fair(answers, next, 4) { FairOn(answers, next, 4, next, 3); }
      end := RunStage(stage);
      if end.Some? { return; }
      if Fair(answers, old(next), 4) && next <= old(next) + 3 { FairOn(answers, old(next), 4, next, 1); }
      MadeKept(old(chainCtx), chainCtx);
      MadeNext(chainCtx, stage);
      ghost var kept := agentState.kept;
      end := SyncContext(agentState.status, agentState.awaitingGate);
      SourcesTwice(old(agentState).kept, kept, agentState.kept);
      if end.Some? { return; }
      OverKeeps(chainCtx, kept);
      MadeKept(chainCtx, agentState.kept);
    }

    lemma MadeNext(c: Context, stage: Stage)
      requires Made(c, stage)
      ensures MadeBefore(c, Index(stage)) ==> MadeBefore(c, Index(stage) + 1)
    {
      forall s | MadeBefore(c, Index(stage)) && Index(s) < Index(stage) + 1 ensures Made(c, s) {
        assert Index(s) == Index(stage) ==> s == stage;
      }
    }

    /** The stage is saved as the current one. */
    method Note(stage: Stage) returns (end: Option<Outcome>)
      requires Valid() && Cleared(approved, stage) && agentState.awaitingGate.None?
      requires whole ==> MadeBefore(agentState.kept, Index(stage))
      requires Behind(executed, agentState.kept, Index(stage))
      modifies this`saved, this`agentState, this`next
      ensures Valid() && (end.Some? ==> end.value in {Threw, Died})
      ensures agentState == old(agentState).(status := Running, currentStage := Some(stage))
      ensures old(Ahead(1)) || Going(answers, old(next), 1) || Fair(answers, old(next), 1) ==> end.None? && next == old(next) + 1
      ensures old(next) <= next
    {
      var state := agentState.(status := Running, currentStage := Some(stage));
      assert StateOk(state, approved, whole);
      hide Behind;
      assert Grounded(state, executed);
      hide StateOk, InOrder, Full, Grounded;
      end := UpdateState(state);
    }

    ghost method NoteRun(stage: Stage)
      requires Valid() && Cleared(approved, stage)
      modifies this`executed
      ensures Valid() && executed == old(executed) + [Executed(stage, approved)]
      ensures Ran(executed) == Ran(old(executed)) + [stage]
    {
      RanMore(executed, Executed(stage, approved));
      GroundedMore(saved, executed, executed + [Executed(stage, approved)]);
      GroundedMore(agentState, executed, executed + [Executed(stage, approved)]);
      hide StateOk, Full, Grounded;
      executed := executed + [Executed(stage, approved)];
    }

    lemma StillCleared(before: set<Gate>, after: set<Gate>, stage: Stage)
      requires Cleared(before, stage) && before <= after
      ensures Cleared(after, stage)
    {
    }

    /** Where a chain that waits for no gate goes on. */
    method ContinueChain() returns (outcome: Outcome)
      requires Valid() && agentState.awaitingGate.None?
      requires whole && agentState.currentStage.Some? ==> MadeBefore(chainCtx, Index(agentState.currentStage.value))
      modifies this`chainCtx, this`saved, this`agentState, this`next, this`approved, this`executed, this`snapshots
      ensures Safe() && old(executed) <= executed && old(approved) <= approved
      ensures old(snapshots) <= snapshots
      ensures FullIfCovered(snapshots, |old(snapshots)|, old(chainCtx), OrIntake(old(agentState).currentStage))
      ensures outcome == Succeeded ==> AllApproved(approved) && AllRan(executed)
      ensures
        var start := OrIntake(old(agentState).currentStage);
        && (Going(answers, old(next), 1) ==> Continues(old(executed), executed, start))
        && (Fair(answers, old(next), 110) && Sources(old(chainCtx), Index(start)) ==> outcome == Succeeded)
        && (Index(RtlBuild) < Index(start) && old(chainCtx).rtl.None? ==> outcome != Succeeded)
      ensures outcome.Paused? ==> saved.awaitingGate == Some(outcome.gate) && PutUp(old(snapshots), snapshots, outcome.gate)
      ensures old(agentState).currentStage == Some(RegisterSpec) && old(ToReview()) ==> outcome == Paused(G3)
    {
      FromStart(agentState, executed);
      hide InOrder, Full, AllApproved, AllRan, Made, Paired, Ran, FullIfCovered, ToReview, PutUp, Behind, Sources, Grounded, Fair, Going;
      outcome := ExecuteChain(OrIntake(agentState.currentStage));
    }

    lemma FromStart(a: AgentState, executed: seq<Executed>)
      requires Grounded(a, executed)
      ensures Behind(executed, a.kept, Index(OrIntake(a.currentStage)))
    {
      hide Made, Ran;
    }

    /** What becomes of a pending gate, by what governance answers. */
    static ghost predicate Decided(gate: Gate, answers: seq<Answer>, from: nat, before: seq<Executed>, after: seq<Executed>,
                                   outcome: Outcome)
    {
      Going(answers, from, 1) ==>
        match answers[from].gate
        case Rejected => outcome == FailClosed
        case InReview => outcome == Paused(gate)
        case Approved =>
          if gate == G4 then Going(answers, from, 2) ==> outcome == Succeeded
          else Going(answers, from, 3) ==> Continues(before, after, StageAfter(gate).value)
    }

    /** `resumeFromGate`, with the saved state of an earlier process. */
    method ResumeFromGate() returns (outcome: Outcome)
      requires Safe() && agentState == saved
      modifies this`chainCtx, this`saved, this`agentState, this`next, this`approved, this`executed, this`snapshots
      ensures Safe() && old(executed) <= executed && old(approved) <= approved
      ensures old(snapshots) <= snapshots
      ensures FullIfCovered(snapshots, |old(snapshots)|, old(saved).kept, StartOf(old(saved)))
      ensures outcome == Succeeded ==> AllApproved(approved) && AllRan(executed)
      ensures old(saved).awaitingGate.Some? ==>
        Decided(old(saved).awaitingGate.value, answers, old(next), old(executed), executed, outcome)
      ensures old(saved).awaitingGate.None? && Going(answers, old(next), 1) ==>
        Continues(old(executed), executed, OrIntake(old(saved).currentStage))
      ensures Fair(answers, old(next), 112) ==> outcome == Succeeded
      ensures outcome.Paused? ==> saved.awaitingGate == Some(outcome.gate)
      ensures old(saved).awaitingGate.None? && outcome.Paused? ==> PutUp(old(snapshots), snapshots, outcome.gate)
      ensures Midway(old(saved)) && old(saved).currentStage == Some(RegisterSpec) && old(ToReview()) ==> outcome == Paused(G3)
    {
      Pending();
      StartIs(saved);
      if Fair(answers, next, 112) { FairOn(answers, next, 112, next, 110); }
      hide *;
      if agentState.awaitingGate.None? {
        RestoreContext();
        outcome := ContinueChain();
        return;
      }
      var gate := agentState.awaitingGate.value;
      if gate !in agentState.kept.submissions {
        assert false;
      }
      RestoreContext();
      ghost var shown := snapshots;
      outcome := PollGate(gate);
      LifeMeans(outcome, old(executed), old(approved), shown, old(saved).kept, StartOf(old(saved)));
    }

    /** A pending gate has a submission, and what was saved holds what its stages have made. */
    lemma Pending()
      requires Safe() && agentState == saved
      ensures saved.awaitingGate.Some? ==> saved.awaitingGate.value in saved.kept.submissions
      ensures whole && saved.currentStage.Some? ==> MadeBefore(saved.kept, Index(saved.currentStage.value))
      ensures Sources(saved.kept, Index(OrIntake(saved.currentStage)))
    {
      FromStart(saved, executed);
      hide InOrder, Full, Grounded, Cleared, MadeBefore, Ran, Sources, Index;
    }

    lemma StartIs(a: AgentState)
      ensures a.awaitingGate.None? ==> StartOf(a) == OrIntake(a.currentStage)
      ensures Midway(a) ==> a.awaitingGate.None?
    {
    }

    /** How a process may end that found these stages run, gates approved and snapshots shown. */
    ghost predicate LifeEnds(outcome: Outcome, ran: seq<Executed>, gates: set<Gate>, shown: seq<(Gate, seq<string>)>,
                             begun: Context, start: Stage)
      reads this
    {
      && Safe() && ran <= executed && gates <= approved && shown <= snapshots
      && FullIfCovered(snapshots, |shown|, begun, start)
      && (outcome == Succeeded ==> AllApproved(approved) && AllRan(executed))
      && (outcome.Paused? ==> saved.awaitingGate == Some(outcome.gate))
    }

    lemma LifeMeans(outcome: Outcome, ran: seq<Executed>, gates: set<Gate>, shown: seq<(Gate, seq<string>)>,
                    begun: Context, start: Stage)
      requires LifeEnds(outcome, ran, gates, shown, begun, start)
      ensures Safe() && ran <= executed && gates <= approved && shown <= snapshots
      ensures FullIfCovered(snapshots, |shown|, begun, start)
      ensures outcome == Succeeded ==> AllApproved(approved) && AllRan(executed)
      ensures outcome.Paused? ==> saved.awaitingGate == Some(outcome.gate)
    {
      hide Safe, FullIfCovered, AllApproved, AllRan;
    }

    lemma LifeEndsHere(outcome: Outcome, gates: set<Gate>, begun: Context, start: Stage)
      requires Safe() && gates <= approved && outcome != Succeeded
      requires outcome.Paused? ==> saved.awaitingGate == Some(outcome.gate)
      ensures LifeEnds(outcome, executed, gates, snapshots, begun, start)
    {
      NoneNew(snapshots, begun, start);
      hide Safe, FullIfCovered;
    }

    lemma LifeEndsWider(outcome: Outcome, ran: seq<Executed>, gates: set<Gate>, more: set<Gate>,
                        shown: seq<(Gate, seq<string>)>, begun: Context, start: Stage)
      requires LifeEnds(outcome, ran, more, shown, begun, start) && gates <= more
      ensures LifeEnds(outcome, ran, gates, shown, begun, start)
    {
      hide Safe, FullIfCovered, AllApproved, AllRan;
    }

    /** The pending gate, asked about at governance. */
    method PollGate(gate: Gate) returns (outcome: Outcome)
      requires Valid() && agentState == saved && saved.awaitingGate == Some(gate) && chainCtx == saved.kept
      modifies this`chainCtx, this`saved, this`agentState, this`next, this`approved, this`executed, this`snapshots
      ensures LifeEnds(outcome, old(executed), old(approved), old(snapshots), old(saved).kept, StartOf(old(saved)))
      ensures Decided(gate, answers, old(next), old(executed), executed, outcome)
      ensures Fair(answers, old(next), 112) ==> outcome == Succeeded
    {
      GoingOn(answers, next);
      if Fair(answers, next, 112) { FairOn(answers, next, 112, next, 1); FairOn(answers, next, 112, next + 1, 111); }
      hide *;
      ghost var ran, gates, begun := executed, approved, saved;
      var state, end := AskGovernance(gate);
      ghost var more := approved;
      assert gates <= more;
      if end.Some? || state != Approved {
        outcome := if end.Some? then end.value else if state == Rejected then FailClosed else Paused(gate);
        LifeEndsHere(outcome, gates, begun.kept, StartOf(begun));
      } else {
        outcome := MoveOn(gate);
        LifeEndsWider(outcome, ran, gates, more, old(snapshots), begun.kept, StartOf(begun));
      }
      DecidedBy(gate, answers, old(next), ran, executed, state, end, outcome);
    }

    lemma DecidedBy(gate: Gate, answers: seq<Answer>, from: nat, before: seq<Executed>, after: seq<Executed>,
                    state: GateState, end: Option<Outcome>, outcome: Outcome)
      requires Going(answers, from, 1) ==> end.None? && from < |answers| && state == answers[from].gate
      requires end.None? && state == Rejected ==> outcome == FailClosed
      requires end.None? && state == InReview ==> outcome == Paused(gate)
      requires end.None? && state == Approved && gate == G4 && Going(answers, from, 2) ==> outcome == Succeeded
      requires end.None? && state == Approved && gate != G4 && Going(answers, from, 3) ==>
        Continues(before, after, StageAfter(gate).value)
      ensures Decided(gate, answers, from, before, after, outcome)
    {
      hide Ran, Going;
    }

    lemma GoingOn(answers: seq<Answer>, from: nat)
      ensures Going(answers, from, 1) ==> from < |answers|
      ensures Going(answers, from, 2) ==> Going(answers, from + 1, 1)
      ensures Going(answers, from, 3) ==> Going(answers, from + 1, 2)
    {
    }

    /** From an approved gate to the stage after it. */
    method MoveOn(gate: Gate) returns (outcome: Outcome)
      requires Valid() && agentState == saved && agentState.awaitingGate == Some(gate) && gate in approved
      requires chainCtx == agentState.kept
      modifies this`chainCtx, this`saved, this`agentState, this`next, this`approved, this`executed, this`snapshots
      ensures LifeEnds(outcome, old(executed), old(approved), old(snapshots), old(saved).kept, StartOf(old(saved)))
      ensures gate == G4 && Going(answers, old(next), 1) ==> outcome == Succeeded
      ensures gate != G4 && Going(answers, old(next), 2) ==> Continues(old(executed), executed, StageAfter(gate).value)
      ensures Fair(answers, old(next), 111) ==> outcome == Succeeded
      ensures outcome.Paused? ==> saved.awaitingGate == Some(outcome.gate)
    {
      var nextStage := StageAfter(gate);
      if nextStage.Some? { ClearedAfterGate(approved, gate); } else { LastGate(approved); }
      var state := agentState.(status := Running, awaitingGate := None);
      assert StateOk(state, approved, whole);
      PastGate(agentState, state, executed, gate);
      StartsAfter(agentState, gate);
      if nextStage.Some? { AllSaved(agentState, gate); }
      if Going(answers, next, 2) { assert Going(answers, next, 1) && Going(answers, next + 1, 1); }
      if Fair(answers, next, 111) { FairOn(answers, next, 111, next, 1); FairOn(answers, next, 111, next + 1, 110); }
      hide *;
      ghost var ran, begun := executed, saved;
      var end := UpdateState(state);
      if end.Some? || nextStage.None? {
        outcome := if end.Some? then end.value else Succeeded;
        if end.Some? {
          LifeEndsHere(outcome, approved, begun.kept, StartOf(begun));
        } else {
          LifeSucceeds(approved, begun.kept, StartOf(begun));
        }
        return;
      }
      outcome := ExecuteChain(nextStage.value);
      LifeOfChain(outcome, ran, old(approved), old(snapshots), begun.kept, nextStage.value);
    }

    lemma AllSaved(a: AgentState, gate: Gate)
      requires StateOk(a, approved, whole) && a.awaitingGate == Some(gate) && StageAfter(gate).Some?
      ensures whole ==> MadeBefore(a.kept, Index(StageAfter(gate).value))
    {
    }

    lemma StartsAfter(a: AgentState, gate: Gate)
      requires a.awaitingGate == Some(gate)
      ensures StageAfter(gate).Some? ==> StartOf(a) == StageAfter(gate).value
      ensures gate == G4 <==> StageAfter(gate).None?
    {
    }

    lemma LifeSucceeds(gates: set<Gate>, begun: Context, start: Stage)
      requires Safe() && gates <= approved && AllApproved(approved) && AllRan(executed)
      ensures LifeEnds(Succeeded, executed, gates, snapshots, begun, start)
    {
      NoneNew(snapshots, begun, start);
      hide Safe, FullIfCovered, AllApproved, AllRan;
    }

    lemma LifeOfChain(outcome: Outcome, ran: seq<Executed>, gates: set<Gate>, shown: seq<(Gate, seq<string>)>,
                      begun: Context, start: Stage)
      requires Safe() && ran <= executed && gates <= approved && shown <= snapshots
      requires FullIfCovered(snapshots, |shown|, begun, start)
      requires outcome == Succeeded ==> AllApproved(approved) && AllRan(executed)
      requires outcome.Paused? ==> saved.awaitingGate == Some(outcome.gate)
      ensures LifeEnds(outcome, ran, gates, shown, begun, start)
    {
      hide Safe, FullIfCovered, AllApproved, AllRan;
    }

    lemma PastGate(a: AgentState, b: AgentState, executed: seq<Executed>, gate: Gate)
      requires Grounded(a, executed) && a.awaitingGate == Some(gate) && b == a.(status := Running, awaitingGate := None)
      ensures Grounded(b, executed) && Sources(a.kept, Index(StageOf(gate)) + 1)
      ensures gate == G4 ==> AllRan(executed)
      ensures StageAfter(gate).Some? ==>
        Behind(executed, a.kept, Index(StageAfter(gate).value)) && Sources(a.kept, Index(StageAfter(gate).value))
    {
      if gate == G4 { BehindAll(executed, a.kept); }
      hide Made, Ran;
    }

    /**
     * A new process on the saved state: `run` or `resume`. Its snapshots are full
     * exactly if it covers what is under review, by running the stages from the
     * saved one on or with the context it begins with.
     */
    method Live(resume: bool) returns (outcome: Outcome)
      requires Safe()
      modifies this`chainCtx, this`saved, this`agentState, this`next, this`approved, this`executed, this`snapshots, this`whole
      ensures Safe() && old(executed) <= executed && old(approved) <= approved
      ensures old(snapshots) <= snapshots
      ensures FullIfCovered(snapshots, |old(snapshots)|, BegunWith(old(saved), resume), StartOf(old(saved)))
      ensures whole == (old(whole) && (resume || !Midway(old(saved))))
      ensures outcome == Succeeded ==> AllApproved(approved) && AllRan(executed)
      ensures old(saved).awaitingGate.Some? ==>
        Decided(old(saved).awaitingGate.value, answers, old(next), old(executed), executed, outcome)
      ensures old(saved).awaitingGate.None? && Going(answers, old(next), 1) ==>
        Continues(old(executed), executed, OrIntake(old(saved).currentStage))
      ensures Fair(answers, old(next), 112) ==>
        (outcome == Succeeded
         <==> resume || !Midway(old(saved)) || Index(old(saved).currentStage.value) <= Index(RtlBuild))
      ensures outcome.Paused? ==> saved.awaitingGate == Some(outcome.gate)
      ensures old(saved).awaitingGate.None? && outcome.Paused? ==> PutUp(old(snapshots), snapshots, outcome.gate)
      ensures Midway(old(saved)) && old(saved).currentStage == Some(RegisterSpec) && old(ToReview()) ==> outcome == Paused(G3)
    {
      WithNothing();
      if Fair(answers, next, 112) { FairOn(answers, next, 112, next, 110); }
      LiveBegins(saved);
      hide *;
      Wake(resume);
      if resume || (agentState.status == AwaitingApproval && agentState.awaitingGate.Some?) {
        outcome := ResumeFromGate();
      } else {
        outcome := ContinueChain();
      }
    }

    /** The memory of a new process. */
    method Wake(ghost resume: bool)
      requires Safe()
      modifies this`chainCtx, this`agentState, this`whole
      ensures Valid() && agentState == saved && chainCtx == NOTHING && whole == (old(whole) && (resume || !Midway(saved)))
      ensures saved.awaitingGate.Some? ==> saved.status == AwaitingApproval
      ensures !resume && whole && saved.awaitingGate.None? && saved.currentStage.Some? ==>
        MadeBefore(NOTHING, Index(saved.currentStage.value))
      ensures ToReview() == old(ToReview())
    {
      hide InOrder, Full, Grounded, Cleared, SavedWhole;
      whole := whole && (resume || !Midway(saved));
      agentState, chainCtx := saved, NOTHING;
    }

    lemma LiveBegins(a: AgentState)
      ensures a.awaitingGate.None? ==> StartOf(a) == OrIntake(a.currentStage)
      ensures BegunWith(a, true) == a.kept && (a.awaitingGate.Some? ==> BegunWith(a, false) == a.kept)
      ensures a.awaitingGate.None? ==> BegunWith(a, false) == NOTHING
      ensures Midway(a) <==> a.awaitingGate.None? && a.currentStage.Some? && a.currentStage != Some(Intake)
      ensures a.currentStage.None? || a.currentStage == Some(Intake) ==> OrIntake(a.currentStage) == Intake
      ensures a.currentStage.Some? ==> OrIntake(a.currentStage) == a.currentStage.value
      ensures Index(Intake) <= Index(RtlBuild) && NOTHING.rtl.None?
    {
    }

    /** A process that begins with nothing finds all it looks for up to the RTL. */
    lemma WithNothing()
      ensures forall s :: Index(s) <= Index(RtlBuild) ==> Sources(NOTHING, Index(s))
    {
    }

    /**
     * The snapshots a process started by `run` in the middle of the chain puts up
     * are full if and only if their gate reviews no stage before the one it
     * starts at: at G3 from the register specification on, and at G4 always, they are not.
     */
    method StartedMidway() returns (outcome: Outcome)
      requires Safe() && Midway(saved)
      modifies this`chainCtx, this`saved, this`agentState, this`next, this`approved, this`executed, this`snapshots, this`whole
      ensures Safe() && old(snapshots) <= snapshots
      ensures FullIfNoneEarlier(snapshots, |old(snapshots)|, old(saved).currentStage.value)
      ensures old(saved).currentStage == Some(RegisterSpec) && old(ToReview()) ==>
        outcome == Paused(G3) && LastNotFull(old(snapshots), snapshots, G3)
    {
      MidwayBegins(saved);
      hide *;
      ghost var start := saved.currentStage.value;
      outcome := Live(false);
      FullFromNothing(snapshots, |old(snapshots)|, start);
      if start == RegisterSpec && old(ToReview()) { PutUpNotFull(old(snapshots), snapshots, G3); }
    }

    lemma MidwayBegins(a: AgentState)
      requires Midway(a)
      ensures a.currentStage.Some? && a.awaitingGate.None?
      ensures BegunWith(a, false) == NOTHING && StartOf(a) == a.currentStage.value
    {
    }

    /** From `n` on, each snapshot is full exactly if its gate reviews no stage before `start`. */
    static ghost predicate FullIfNoneEarlier(snapshots: seq<(Gate, seq<string>)>, n: nat, start: Stage)
    {
      forall k :: n <= k < |snapshots| ==>
        (Full(snapshots[k].0, snapshots[k].1) <==> forall s :: s in Reviewed(snapshots[k].0) ==> Index(start) <= Index(s))
    }

    /** The last snapshot put up since is one for this gate, and not full. */
    static ghost predicate LastNotFull(before: seq<(Gate, seq<string>)>, after: seq<(Gate, seq<string>)>, g: Gate)
    {
      before < after && var last := after[|after| - 1]; last.0 == g && !Full(g, last.1)
    }

    lemma FullFromNothing(snapshots: seq<(Gate, seq<string>)>, n: nat, start: Stage)
      requires FullIfCovered(snapshots, n, NOTHING, start)
      ensures FullIfNoneEarlier(snapshots, n, start)
    {
      hide Full;
      forall k | n <= k < |snapshots|
        ensures Full(snapshots[k].0, snapshots[k].1) <==> forall s :: s in Reviewed(snapshots[k].0) ==> Index(start) <= Index(s)
      {
        CoveredByNothing(start, snapshots[k].0);
      }
    }

    lemma PutUpNotFull(before: seq<(Gate, seq<string>)>, after: seq<(Gate, seq<string>)>, g: Gate)
      requires g == G3 && PutUp(before, after, g) && FullIfCovered(after, |before|, NOTHING, RegisterSpec)
      ensures LastNotFull(before, after, g)
    {
      CoveredByNothing(RegisterSpec, G3);
      hide Full;
      assert Architecture in Reviewed(G3) && Index(Architecture) < Index(RegisterSpec);
    }

    /**
     * Wherever earlier processes have left the chain, there is a next one, with
     * these answers, that resumes it and ends with every stage run and every gate approved.
     */
    method CanFinish() returns (e: LoopExecutor, outcome: Outcome)
      requires Safe()
      ensures fresh(e) && outcome == Succeeded && executed <= e.executed && approved <= e.approved
      ensures e.Safe() && AllRan(e.executed) && AllApproved(e.approved)
    {
      SafeMeans();
      hide *;
      var world := seq(112, i requires 0 <= i < 112 => Answer(Goes, "", true, Approved));
      AllFair(world);
      e := new LoopExecutor.Restarted(maxRepairRounds, acceptance, world, saved, approved, executed, whole);
      outcome := e.Live(true);
    }

    lemma SafeMeans()
      requires Safe()
      ensures StateOk(saved, approved, whole) && Grounded(saved, executed) && InOrder(executed)
    {
      hide StateOk, Grounded, InOrder, Full;
    }

    static lemma AllFair(world: seq<Answer>)
      requires |world| == 112 && forall i :: 0 <= i < |world| ==> world[i] == Answer(Goes, "", true, Approved)
      ensures Fair(world, 0, 112)
    {
    }

    /** Any number of processes, each ending as it may, each taking up what the last one had saved. */
    method LiveAll(resumes: seq<bool>)
      requires Safe()
      modifies this`chainCtx, this`saved, this`agentState, this`next, this`approved, this`executed, this`snapshots, this`whole
      ensures Safe() && old(executed) <= executed && old(approved) <= approved
      ensures old(whole) && (forall i :: 0 <= i < |resumes| ==> resumes[i]) ==> whole
    {
      hide Safe;
      for i := 0 to |resumes|
        invariant Safe() && old(executed) <= executed && old(approved) <= approved
        invariant old(whole) && (forall j :: 0 <= j < i ==> resumes[j]) ==> whole
      {
        var outcome := Live(resumes[i]);
      }
    }
  }

  /** A process died with the register specification as its current stage, after both gates before it. */
  const HALFWAY :=
    AgentState(Running, Some(RegisterSpec), None,
               Context(map[Intake := "req-1", BehaviorWave := "wave-1", Architecture := "arch-1"],
                       None, None, None, None, None, None, map[G1 := "sub-1", G2 := "sub-2"]))

  const HALFWAY_RUN := [Executed(Intake, {}), Executed(BehaviorWave, {G1}), Executed(Architecture, {G1, G2})]

  lemma HalfwayGrounded()
    ensures Grounded(HALFWAY, HALFWAY_RUN)
  {
    HalfwayRan();
    hide Ran;
  }

  lemma HalfwayInOrder()
    ensures InOrder(HALFWAY_RUN)
  {
  }

  lemma HalfwayRan()
    ensures Ran(HALFWAY_RUN) == [Intake, BehaviorWave, Architecture]
  {
    assert Ran(HALFWAY_RUN)[0] == Intake && Ran(HALFWAY_RUN)[1] == BehaviorWave && Ran(HALFWAY_RUN)[2] == Architecture;
  }

  lemma HalfwayOk()
    ensures StateOk(HALFWAY, {G1, G2}, true) && Midway(HALFWAY) && StartOf(HALFWAY) == RegisterSpec
    ensures HALFWAY.currentStage == Some(RegisterSpec) && HALFWAY.awaitingGate.None?
  {
  }

  lemma HalfwayCovered(resume: bool)
    ensures Covered(BegunWith(HALFWAY, resume), RegisterSpec, G3) <==> resume
  {
    if resume {
      assert forall s :: s in Reviewed(G3) ==> s == RegisterSpec || s in HALFWAY.kept.docs;
    } else {
      CoveredByNothing(RegisterSpec, G3);
      assert Architecture in Reviewed(G3) && Index(Architecture) < Index(RegisterSpec);
    }
  }

  /** What G3 is then given to review: with `resume` both documents, with `run` only the one that has just been written. */
  method Restarted(resume: bool) returns (e: LoopExecutor, outcome: Outcome)
    ensures fresh(e) && outcome == Paused(G3) && |e.snapshots| > 0
    ensures var last := e.snapshots[|e.snapshots| - 1]; last.0 == G3 && (Full(G3, last.1) <==> resume)
  {
    HalfwayOk();
    HalfwayCovered(resume);
    HalfwayGrounded();
    HalfwayInOrder();
    hide Full, Covered, StateOk, HALFWAY, Midway, StartOf, BegunWith, AllApproved, AllRan, InOrder, Grounded;
    e := new LoopExecutor.Restarted(3, false, seq(11, _ => Answer(Goes, "spec-1", true, InReview)), HALFWAY,
                                  {G1, G2}, HALFWAY_RUN, true);
    outcome := e.Live(resume);
  }
}
