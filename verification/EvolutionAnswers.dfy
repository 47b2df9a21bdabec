/** What the answers of the workers, the schedule and the host count for, read off the history itself. */
module EvolutionAnswers {
  import opened Common
  import opened EvolutionModel
  import opened EvolutionHistory
  import opened EvolutionGuarantees

  // -------------------------------------------------------------- what counts

  /** The time of a persistent Curator run: a completed one, or a completed real run the host has told of. */
  function CompletedAt(e: Event): Option<nat>
  {
    match e
    case WorkerTold(Curator, WorkerCompleted(Absent), at) => Some(at)
    case WorkerTold(Curator, WorkerCompleted(WithState(state)), at) => if state == "completed" then Some(at) else None
    case Reported(Manual(false, true, Some(at), _)) => Some(at)
    case Reported(Manual(false, true, None, reading)) => Some(reading)
    case _ => None
  }

  /** The answer is no failure of the lane. */
  predicate Healthy(e: Event, lane: Lane)
  {
    match e
    case WorkerTold(l, reply, _) => l == lane && (reply.WorkerIdle? || reply.WorkerCompleted?)
    case ScheduleTold(answer, _) => lane == Curator && (answer.NoWork? || answer.AlreadyCompleted?)
    case Success(_) => lane == Curator
    case _ => false
  }

  /** The answer, or the lack of one, is a failure of the lane at this time. */
  predicate Unhealthy(e: Event, lane: Lane, t: nat)
  {
    match e
    case WorkerTold(l, reply, at) => l == lane && at == t && reply in {WorkerFailed, WorkerInvalid, WorkerRejected}
    case ScheduleTold(answer, at) => lane == Curator && at == t && answer in {EnsureInvalid, EnsureRejected}
    case _ => false
  }

  /** What has to follow an answer, and what has to precede a failure or a recovery. */
  ghost predicate Paired(trace: seq<Event>, i: nat)
    requires i < |trace|
  {
    && (trace[i].Failure? ==> i > 0 && Unhealthy(trace[i - 1], trace[i].lane, trace[i].t))
    && (trace[i].Recovered? ==> i > 0 && Healthy(trace[i - 1], trace[i].lane))
    && (forall lane :: Healthy(trace[i], lane) ==> i + 1 < |trace| && trace[i + 1] == Recovered(lane))
    && (forall lane, t :: Unhealthy(trace[i], lane, t) ==>
          i + 1 < |trace| && trace[i + 1].Failure? && trace[i + 1].lane == lane && trace[i + 1].t == t)
  }

  ghost predicate AllPaired(trace: seq<Event>)
  {
    forall i :: 0 <= i < |trace| ==> Paired(trace, i)
  }

  predicate Reached(bound: Option<nat>, u: nat)
  {
    bound.Some? && u <= bound.value
  }

  /** No run on record is later than this. */
  ghost predicate Bounded(trace: seq<Event>, bound: Option<nat>)
  {
    forall j :: 0 <= j < |trace| && CompletedAt(trace[j]).Some? ==> Reached(bound, CompletedAt(trace[j]).value)
  }

  /** The last success is that of a run, or was saved before. */
  ghost predicate Founded(trace: seq<Event>, last: Option<nat>)
  {
    last.Some? ==> exists j :: 0 <= j < |trace| && FoundedBy(trace[j], last)
  }

  predicate FoundedBy(e: Event, last: Option<nat>)
  {
    CompletedAt(e) == last || (e.Began? && e.from.lastSuccess == last)
  }

  /** The schedule is not ensured before an interval has passed since every run on record. */
  ghost predicate Spaced(cfg: Config, trace: seq<Event>)
  {
    forall j, i :: 0 <= j < i < |trace| && CompletedAt(trace[j]).Some? && trace[i].Ensure? ==>
      CompletedAt(trace[j]).value + cfg.interval <= trace[i].t
  }

  /** `bound` is the last success, or where it will be once a run that has just ended is recorded. */
  ghost predicate Counted(cfg: Config, trace: seq<Event>, last: Option<nat>, bound: Option<nat>)
  {
    AllPaired(trace) && Bounded(trace, bound) && Founded(trace, last) && Spaced(cfg, trace)
  }

  ghost predicate Right(cfg: Config, s: State)
  {
    Counted(cfg, s.trace, s.lastSuccess, s.lastSuccess)
  }

  function Raised(last: Option<nat>, u: nat): Option<nat>
  {
    Some(if last.Some? then Max(last.value, u) else u)
  }

  // ------------------------------------------------- adding events to a trace

  predicate Plain(e: Event)
  {
    && CompletedAt(e) == None && !e.Ensure? && !e.Failure? && !e.Recovered? && !e.Success?
    && (e.WorkerTold? ==> e.reply.WorkerAborted?) && (e.ScheduleTold? ==> e.answer.Ready?)
  }

  lemma PairedStays(trace: seq<Event>, more: seq<Event>, i: nat)
    requires i < |trace| && Paired(trace, i)
    ensures Paired(trace + more, i)
  {
    assert (trace + more)[i] == trace[i] && (i > 0 ==> (trace + more)[i - 1] == trace[i - 1]);
    assert i + 1 < |trace| ==> (trace + more)[i + 1] == trace[i + 1];
  }

  lemma PairedAfter(trace: seq<Event>, e: Event)
    requires AllPaired(trace) && Plain(e)
    ensures AllPaired(trace + [e])
  {
    hide Paired;
    forall i | 0 <= i < |trace| + 1 ensures Paired(trace + [e], i) {
      if i < |trace| { PairedStays(trace, [e], i); } else { PlainPaired(trace, e); }
    }
  }

  lemma PlainPaired(trace: seq<Event>, e: Event)
    requires Plain(e)
    ensures Paired(trace + [e], |trace|)
  {
  }

  lemma BoundedAfter(trace: seq<Event>, bound: Option<nat>, e: Event)
    requires Bounded(trace, bound) && (CompletedAt(e).Some? ==> Reached(bound, CompletedAt(e).value))
    ensures Bounded(trace + [e], bound)
  {
    hide CompletedAt;
  }

  lemma FoundedAfter(trace: seq<Event>, last: Option<nat>, e: Event)
    requires Founded(trace, last)
    ensures Founded(trace + [e], last)
  {
    hide FoundedBy;
    if last.Some? {
      var j :| 0 <= j < |trace| && FoundedBy(trace[j], last);
      assert FoundedBy((trace + [e])[j], last);
    }
  }

  lemma SpacedAfter(cfg: Config, trace: seq<Event>, bound: Option<nat>, e: Event)
    requires Spaced(cfg, trace) && Bounded(trace, bound)
    requires e.Ensure? && bound.Some? ==> bound.value + cfg.interval <= e.t
    ensures Spaced(cfg, trace + [e])
  {
    hide CompletedAt;
    var more := trace + [e];
    forall j, i | 0 <= j < i < |more| && CompletedAt(more[j]).Some? && more[i].Ensure?
      ensures CompletedAt(more[j]).value + cfg.interval <= more[i].t
    {
      if i < |trace| { assert more[j] == trace[j] && more[i] == trace[i]; } else { assert more[j] == trace[j]; }
    }
  }

  lemma PlainCounts(cfg: Config, trace: seq<Event>, last: Option<nat>, bound: Option<nat>, e: Event)
    requires Counted(cfg, trace, last, bound) && Plain(e)
    ensures Counted(cfg, trace + [e], last, bound)
  {
    PairedAfter(trace, e);
    BoundedAfter(trace, bound, e);
    FoundedAfter(trace, last, e);
    SpacedAfter(cfg, trace, bound, e);
  }

  lemma EnsureCounts(cfg: Config, trace: seq<Event>, last: Option<nat>, t: nat, key: Option<nat>)
    requires Counted(cfg, trace, last, last) && (last.Some? ==> last.value + cfg.interval <= t)
    ensures Counted(cfg, trace + [Ensure(t, key)], last, last)
  {
    var e := Ensure(t, key);
    hide Paired;
    forall i | 0 <= i < |trace| + 1 ensures Paired(trace + [e], i) {
      if i < |trace| { PairedStays(trace, [e], i); } else { EnsurePaired(trace, t, key); }
    }
    BoundedAfter(trace, last, e);
    FoundedAfter(trace, last, e);
    SpacedAfter(cfg, trace, last, e);
  }

  lemma EnsurePaired(trace: seq<Event>, t: nat, key: Option<nat>)
    ensures Paired(trace + [Ensure(t, key)], |trace|)
  {
  }

  /** An answer and what it leads to. */
  predicate Answer(e: Event, f: Event)
  {
    || (exists lane :: f == Recovered(lane) && Healthy(e, lane))
    || (f.Failure? && Unhealthy(e, f.lane, f.t))
  }

  lemma AnswerPaired(trace: seq<Event>, e: Event, f: Event)
    requires AllPaired(trace) && Answer(e, f)
    ensures AllPaired(trace + [e] + [f])
  {
    var more := trace + [e] + [f];
    assert more == trace + ([e] + [f]);
    hide Paired;
    forall i | 0 <= i < |more| ensures Paired(more, i) {
      if i < |trace| { PairedStays(trace, [e] + [f], i); } else { LastPaired(trace, e, f, i); }
    }
  }

  lemma LastPaired(trace: seq<Event>, e: Event, f: Event, i: nat)
    requires Answer(e, f) && |trace| <= i < |trace| + 2
    ensures Paired(trace + [e] + [f], i)
  {
    var more := trace + [e] + [f];
    assert more[|trace|] == e && more[|trace| + 1] == f;
  }

  /** The answer is taken down; the bound rises if it tells of a run. */
  lemma AnswerCounts(cfg: Config, trace: seq<Event>, last: Option<nat>, bound: Option<nat>, e: Event, f: Event)
    requires Counted(cfg, trace, last, bound) && Answer(e, f)
    ensures Counted(cfg, trace + [e] + [f], last,
                    if CompletedAt(e).Some? then Raised(bound, CompletedAt(e).value) else bound)
  {
    var above := if CompletedAt(e).Some? then Raised(bound, CompletedAt(e).value) else bound;
    AnswerPaired(trace, e, f);
    HigherBound(trace, bound, above);
    BoundedAfter(trace, above, e);
    BoundedAfter(trace + [e], above, f);
    FoundedAfter(trace, last, e);
    FoundedAfter(trace + [e], last, f);
    SpacedAfter(cfg, trace, above, e);
    SpacedAfter(cfg, trace + [e], above, f);
  }

  lemma HigherBound(trace: seq<Event>, bound: Option<nat>, above: Option<nat>)
    requires Bounded(trace, bound) && (bound.Some? ==> above.Some? && bound.value <= above.value)
    ensures Bounded(trace, above)
  {
    hide CompletedAt;
  }

  /** The success of a run on record is recorded. */
  lemma SuccessCounts(cfg: Config, trace: seq<Event>, last: Option<nat>, u: nat, j: nat)
    requires Counted(cfg, trace, last, Raised(last, u)) && j < |trace| && CompletedAt(trace[j]) == Some(u)
    ensures Counted(cfg, trace + [Success(u)] + [Recovered(Curator)], Raised(last, u), Raised(last, u))
  {
    AnswerCounts(cfg, trace, last, Raised(last, u), Success(u), Recovered(Curator));
    var more := trace + [Success(u)] + [Recovered(Curator)];
    assert more[j] == trace[j];
    assert Founded(more, last);
    assert FoundedBy(more[j], Some(u));
  }

  // ------------------------------------------------------------ the steps of a tick

  lemma ManualCounts(cfg: Config, s: State, m: Manual)
    requires Right(cfg, s)
    ensures Right(cfg, RecordManual(s, m))
  {
    var e := Reported(m);
    if m.dryRun || !m.completed {
      PlainCounts(cfg, s.trace, s.lastSuccess, s.lastSuccess, e);
    } else {
      var u := if m.completedAt.Some? then m.completedAt.value else m.reading;
      var above := Raised(s.lastSuccess, u);
      assert CompletedAt(e) == Some(u);
      ReportedCounts(cfg, s.trace, s.lastSuccess, m, u);
      assert (s.trace + [e])[|s.trace|] == e;
      SuccessCounts(cfg, s.trace + [e], s.lastSuccess, u, |s.trace|);
    }
  }

  lemma ReportedCounts(cfg: Config, trace: seq<Event>, last: Option<nat>, m: Manual, u: nat)
    requires Counted(cfg, trace, last, last) && CompletedAt(Reported(m)) == Some(u)
    ensures Counted(cfg, trace + [Reported(m)], last, Raised(last, u))
  {
    var e, above := Reported(m), Raised(last, u);
    hide Paired;
    forall i | 0 <= i < |trace| + 1 ensures Paired(trace + [e], i) {
      if i < |trace| { PairedStays(trace, [e], i); } else { ReportedPaired(trace, m); }
    }
    HigherBound(trace, last, above);
    BoundedAfter(trace, above, e);
    FoundedAfter(trace, last, e);
    SpacedAfter(cfg, trace, above, e);
  }

  lemma ReportedPaired(trace: seq<Event>, m: Manual)
    ensures Paired(trace + [Reported(m)], |trace|)
  {
  }

  lemma {:induction false} ManualsCount(cfg: Config, s: State, manuals: seq<Manual>)
    requires Right(cfg, s)
    ensures Right(cfg, RecordManuals(s, manuals))
    decreases |manuals|
  {
    hide Right, RecordManual;
    if manuals != [] {
      ManualCounts(cfg, s, manuals[0]);
      ManualsCount(cfg, RecordManual(s, manuals[0]), manuals[1..]);
    }
  }

  lemma TimeCounts(cfg: Config, s: State, now: nat)
    requires Right(cfg, s)
    ensures Right(cfg, ObserveTime(s, now))
  {
    PlainCounts(cfg, s.trace, s.lastSuccess, s.lastSuccess, Reading(now));
    hide Counted;
  }

  lemma LogCounts(cfg: Config, s: State, e: Event)
    requires Right(cfg, s) && Plain(e)
    ensures Right(cfg, Log(s, e))
  {
    PlainCounts(cfg, s.trace, s.lastSuccess, s.lastSuccess, e);
    hide Counted;
  }

  lemma EndCounts(cfg: Config, s: State, e: Event, lane: Lane, t: nat)
    requires Right(cfg, s)
    ensures Healthy(e, lane) ==>
      var r := ResetBackoff(Log(s, e), lane);
      Counted(cfg, r.trace, s.lastSuccess, if CompletedAt(e).Some? then Raised(s.lastSuccess, CompletedAt(e).value) else s.lastSuccess)
    ensures Unhealthy(e, lane, t) ==> Right(cfg, RecordFailure(cfg, Log(s, e), lane, t))
  {
    var k := BackoffOf(s, lane).failures + 1;
    if Healthy(e, lane) { AnswerCounts(cfg, s.trace, s.lastSuccess, s.lastSuccess, e, Recovered(lane)); }
    if Unhealthy(e, lane, t) { AnswerCounts(cfg, s.trace, s.lastSuccess, s.lastSuccess, e, Failure(lane, t, k)); }
    hide Counted, Delay;
  }

  /** The Curator has completed a persistent run that is still to be recorded. */
  ghost predicate Due(cfg: Config, s: State, u: nat)
  {
    Counted(cfg, s.trace, s.lastSuccess, Raised(s.lastSuccess, u))
    && exists j :: 0 <= j < |s.trace| && CompletedAt(s.trace[j]) == Some(u)
  }

  ghost predicate LaneDone(cfg: Config, s: State, lane: Lane, result: Option<Attempted>)
  {
    if lane == Curator && result.Some? && result.value.lane.LaneCompleted? && result.value.persistent
    then Due(cfg, s, result.value.terminalAt) else Right(cfg, s)
  }

  lemma RunLaneCounts(cfg: Config, s: State, rolled: bool, lane: Lane, start: nat, a: Await<WorkerReply>)
    requires Right(cfg, s)
    ensures
      var r := RunLane(cfg, s, rolled, lane, start, a);
      LaneDone(cfg, r.s, lane, r.result)
  {
    hide Right, RecordManuals, ObserveTime, RecordFailure, ResetBackoff, Counted, Persistent;
    var s0 := Log(s, Attempt(lane, start));
    LogCounts(cfg, s, Attempt(lane, start));
    ManualsCount(cfg, s0, a.manuals);
    var s1 := RecordManuals(s0, a.manuals);
    TimeCounts(cfg, s1, a.reading);
    ToldCounts(cfg, ObserveTime(s1, a.reading), lane, a.reply, Max(start, a.reading));
  }

  lemma ToldCounts(cfg: Config, s: State, lane: Lane, reply: WorkerReply, at: nat)
    requires Right(cfg, s)
    ensures
      var s3 := Log(s, WorkerTold(lane, reply, at));
      && (reply.WorkerIdle? ==> Right(cfg, ResetBackoff(s3, lane)))
      && (reply.WorkerCompleted? ==>
            if lane == Curator && Persistent(reply.nested) then Due(cfg, ResetBackoff(s3, lane), at)
            else Right(cfg, ResetBackoff(s3, lane)))
      && (reply in {WorkerFailed, WorkerInvalid, WorkerRejected} ==> Right(cfg, RecordFailure(cfg, s3, lane, at)))
  {
    var told := WorkerTold(lane, reply, at);
    EndCounts(cfg, s, told, lane, at);
    hide Counted, RecordFailure;
    assert ResetBackoff(Log(s, told), lane).trace[|s.trace|] == told;
  }

  lemma EnsureAndRunCounts(cfg: Config, s: State, rolled: bool, start: nat, e: Await<EnsureReply>, a: Await<WorkerReply>)
    requires Right(cfg, s) && CuratorSkipReason(cfg, s, start, true) == None
    ensures
      var r := EnsureAndRunCurator(cfg, s, rolled, start, e, a);
      LaneDone(cfg, r.s, Curator, r.result)
  {
    hide Right, RecordManuals, ObserveTime, RecordFailure, ResetBackoff, RunLane, Due, Plain;
    EnsureStarts(cfg, s, start);
    var called := Log(Log(s, Attempt(Curator, start)), Ensure(start, EligibleAt(cfg, s)));
    ManualsCount(cfg, called, e.manuals);
    var s1 := RecordManuals(called, e.manuals);
    TimeCounts(cfg, s1, e.reading);
    var s2, at := ObserveTime(s1, e.reading), Max(start, e.reading);
    ScheduleCounts(cfg, s2, e.reply, at);
    if e.reply.Ready? {
      RunLaneCounts(cfg, Log(s2, ScheduleTold(e.reply, at)), rolled || RollsBack(s1, e.reading), Curator, at, a);
    }
  }

  lemma EnsureStarts(cfg: Config, s: State, start: nat)
    requires Right(cfg, s) && CuratorSkipReason(cfg, s, start, true) == None
    ensures Right(cfg, Log(Log(s, Attempt(Curator, start)), Ensure(start, EligibleAt(cfg, s))))
  {
    PlainCounts(cfg, s.trace, s.lastSuccess, s.lastSuccess, Attempt(Curator, start));
    hide Counted;
    EnsureCounts(cfg, s.trace + [Attempt(Curator, start)], s.lastSuccess, start, EligibleAt(cfg, s));
  }

  lemma ScheduleCounts(cfg: Config, s: State, answer: EnsureReply, at: nat)
    requires Right(cfg, s)
    ensures
      var s3 := Log(s, ScheduleTold(answer, at));
      && (answer.Ready? ==> Right(cfg, s3))
      && (answer.NoWork? || answer.AlreadyCompleted? ==> Right(cfg, ResetBackoff(s3, Curator)))
      && (answer in {EnsureInvalid, EnsureRejected} ==> Right(cfg, RecordFailure(cfg, s3, Curator, at)))
  {
    var told := ScheduleTold(answer, at);
    EndCounts(cfg, s, told, Curator, at);
    if answer.Ready? { LogCounts(cfg, s, told); }
    hide Counted, RecordFailure;
  }

  lemma AfterCuratorCounts(cfg: Config, s: State, r: Attempted)
    requires LaneDone(cfg, s, Curator, Some(r))
    ensures Right(cfg, AfterCurator(s, r))
  {
    if r.lane.LaneCompleted? && r.persistent {
      var j :| 0 <= j < |s.trace| && CompletedAt(s.trace[j]) == Some(r.terminalAt);
      SuccessCounts(cfg, s.trace, s.lastSuccess, r.terminalAt, j);
    }
    hide Counted;
    var s1 := if r.lane.LaneCompleted? && r.persistent then RecordCuratorSuccess(s, r.terminalAt) else s;
    LogCounts(cfg, s1, CuratorTried);
  }

  lemma IdleCounts(cfg: Config, s: State, now: nat, idle: bool, rolled: bool)
    requires Right(cfg, s)
    ensures Right(cfg, ObserveIdle(s, now, idle, rolled))
  {
    LogCounts(cfg, s, Probed(idle, now));
    hide Counted;
  }

  lemma TickCuratorCounts(cfg: Config, s: State, rolled: bool, distiller: LaneResult, input: TickInput)
    requires Right(cfg, s)
    ensures Right(cfg, TickCurator(cfg, s, rolled, distiller, input).0)
  {
    hide Counted, EnsureAndRunCurator, AfterCurator, ObserveIdle, CuratorSkipReason, RecordManuals, ObserveTime, LaneDone;
    ManualsCount(cfg, s, input.probe.manuals);
    var s1 := RecordManuals(s, input.probe.manuals);
    if !input.probe.reply.Answered? {
      LogCounts(cfg, s1, ProbeFailed);
    } else {
      var idle, now := input.probe.reply.idle, input.probe.reading;
      TimeCounts(cfg, s1, now);
      var rolled2 := rolled || RollsBack(s1, now);
      IdleCounts(cfg, ObserveTime(s1, now), now, idle, rolled2);
      var s3 := ObserveIdle(ObserveTime(s1, now), now, idle, rolled2);
      if CuratorSkipReason(cfg, s3, now, idle).None? {
        OnlyWhenIdle(cfg, s3, now, idle);
        EnsureAndRunCounts(cfg, s3, rolled2, now, input.ensure, input.curator);
        var r := EnsureAndRunCurator(cfg, s3, rolled2, now, input.ensure, input.curator);
        if r.result.Some? { AfterCuratorCounts(cfg, r.s, r.result.value); } else { NotDue(cfg, r.s); }
      }
    }
  }

  lemma NotDue(cfg: Config, s: State)
    requires LaneDone(cfg, s, Curator, None)
    ensures Right(cfg, s)
  {
  }

  lemma DistillerDone(cfg: Config, s: State, result: Option<Attempted>)
    requires LaneDone(cfg, s, Distiller, result)
    ensures Right(cfg, s)
  {
  }

  lemma TickCounts(cfg: Config, s: State, input: TickInput)
    requires Right(cfg, s)
    ensures Right(cfg, Tick(cfg, s, input).0)
  {
    hide Counted, TickCurator, RunLane, ObserveTime, LaneDone;
    var s0 := s.(running := true);
    TimeCounts(cfg, s0, input.first);
    var s1, rolled := ObserveTime(s0, input.first), RollsBack(s0, input.first);
    RunLaneCounts(cfg, s1, rolled, Distiller, input.first, input.distiller);
    var d := RunLane(cfg, s1, rolled, Distiller, input.first, input.distiller);
    DistillerDone(cfg, d.s, d.result);
    if d.result.Some? { TickCuratorCounts(cfg, d.s, d.clockRollback, d.result.value.lane, input); }
  }

  lemma TakenUpCounts(cfg: Config, s: State, enabled: bool)
    requires Right(cfg, s)
    ensures Right(cfg, TakenUp(s, enabled))
  {
    TakenUpFields(s, enabled);
    LogCounts(cfg, s, Began(Snapshot(s)));
    hide Counted;
  }

  lemma ActCounts(cfg: Config, s: State, a: Action)
    requires Right(cfg, s)
    ensures Right(cfg, Act(cfg, s, a))
  {
    hide Counted, Tick, TakenUp, RecordManual;
    match a
    case DoTick(input) => TickCounts(cfg, s, input);
    case DoManual(m) => ManualCounts(cfg, s, m);
    case DoSetEnabled(enabled) => LogCounts(cfg, s, SwitchedOff);
    case SaveAndRestore(enabled) => TakenUpCounts(cfg, s, enabled);
  }

  lemma {:induction false} RunCounts(cfg: Config, s: State, actions: seq<Action>)
    requires Right(cfg, s)
    ensures Right(cfg, Run(cfg, s, actions))
    decreases |actions|
  {
    hide Right, Act;
    if actions != [] {
      ActCounts(cfg, s, actions[0]);
      RunCounts(cfg, Act(cfg, s, actions[0]), actions[1..]);
    }
  }

  // ------------------------------------------------------------------ promises

  lemma BeginsRight(cfg: Config, saved: Saved, enabled: bool)
    ensures Right(cfg, Restored(saved, enabled))
  {
    assert FoundedBy(Began(saved), saved.lastSuccess);
    assert Restored(saved, enabled).trace[0] == Began(saved);
  }

  /**
   * Every persistent run counts from the moment it ends: after any history the
   * last success is no earlier than any of them and is the time of one of them,
   * and once one has ended the schedule is not ensured before an interval has passed.
   */
  lemma EveryRunCounts(cfg: Config, saved: Saved, enabled: bool, actions: seq<Action>)
    ensures
      var s := Run(cfg, Restored(saved, enabled), actions);
      && (forall j :: 0 <= j < |s.trace| && CompletedAt(s.trace[j]).Some? ==>
            s.lastSuccess.Some? && CompletedAt(s.trace[j]).value <= s.lastSuccess.value)
      && (s.lastSuccess.Some? ==> exists j :: 0 <= j < |s.trace| && FoundedBy(s.trace[j], s.lastSuccess))
      && (forall j, i :: 0 <= j < i < |s.trace| && CompletedAt(s.trace[j]).Some? && s.trace[i].Ensure? ==>
            CompletedAt(s.trace[j]).value + cfg.interval <= s.trace[i].t)
  {
    BeginsRight(cfg, saved, enabled);
    hide CompletedAt, FoundedBy, Run, Restored;
    RunCounts(cfg, Restored(saved, enabled), actions);
  }

  /** A lane fails when its worker or its schedule says so or gives no proper answer, and then only, and likewise recovers. */
  lemma EveryAnswerCounts(cfg: Config, saved: Saved, enabled: bool, actions: seq<Action>, i: nat)
    requires i < |Run(cfg, Restored(saved, enabled), actions).trace|
    ensures Paired(Run(cfg, Restored(saved, enabled), actions).trace, i)
  {
    BeginsRight(cfg, saved, enabled);
    hide Paired, Run, Restored;
    RunCounts(cfg, Restored(saved, enabled), actions);
  }

  // ------------------------------------------------ every answer is taken down

  /** The history has gone on from `s` to `r`, and this is in what has been added. */
  ghost predicate Adds(s: State, r: State, e: Event)
  {
    s.trace <= r.trace && exists n :: |s.trace| <= n < |r.trace| && r.trace[n] == e
  }

  /** The history has gone on, and the schedule has not been ensured. */
  ghost predicate GoesOn(s: State, r: State)
  {
    s.trace <= r.trace && forall n :: |s.trace| <= n < |r.trace| ==> !r.trace[n].Ensure?
  }

  lemma AddsLater(s: State, r: State, q: State, e: Event)
    requires Adds(s, r, e) && r.trace <= q.trace
    ensures Adds(s, q, e)
  {
    var n :| |s.trace| <= n < |r.trace| && r.trace[n] == e;
    assert q.trace[n] == e;
  }

  lemma AddsEarlier(s: State, r: State, q: State, e: Event)
    requires s.trace <= r.trace && Adds(r, q, e)
    ensures Adds(s, q, e)
  {
    var n :| |r.trace| <= n < |q.trace| && q.trace[n] == e;
    assert |s.trace| <= n;
  }

  lemma GoesOnFurther(s: State, r: State, q: State)
    requires GoesOn(s, r) && GoesOn(r, q)
    ensures GoesOn(s, q)
  {
    forall n | |s.trace| <= n < |q.trace| ensures !q.trace[n].Ensure? {
      if n < |r.trace| { assert q.trace[n] == r.trace[n]; }
    }
  }

  lemma LogGoesOn(s: State, e: Event)
    requires !e.Ensure?
    ensures GoesOn(s, Log(s, e)) && Adds(s, Log(s, e), e)
  {
    assert Log(s, e).trace[|s.trace|] == e;
  }

  lemma {:induction false} ManualsGoOn(s: State, manuals: seq<Manual>)
    ensures GoesOn(s, RecordManuals(s, manuals))
    ensures forall i :: 0 <= i < |manuals| ==> Adds(s, RecordManuals(s, manuals), Reported(manuals[i]))
    decreases |manuals|
  {
    hide RecordManual, Adds, GoesOn;
    if manuals == [] {
      NothingHappens(s);
    } else {
      var m, r := manuals[0], RecordManual(s, manuals[0]);
      ManualGoesOn(s, m);
      ManualsGoOn(r, manuals[1..]);
      var q := RecordManuals(s, manuals);
      GoesOnFurther(s, r, q);
      Longer(s, r);
      Longer(r, q);
      AddsLater(s, r, q, Reported(m));
      forall i | 0 <= i < |manuals| ensures Adds(s, q, Reported(manuals[i])) {
        if i > 0 {
          assert manuals[1..][i - 1] == manuals[i];
          AddsEarlier(s, r, q, Reported(manuals[i]));
        }
      }
    }
  }

  lemma Longer(s: State, r: State)
    requires GoesOn(s, r)
    ensures s.trace <= r.trace
  {
  }

  lemma NothingHappens(s: State)
    ensures GoesOn(s, s)
  {
  }

  /** A manual run is taken down when it is told of. */
  lemma ManualGoesOn(s: State, m: Manual)
    ensures GoesOn(s, RecordManual(s, m)) && Adds(s, RecordManual(s, m), Reported(m))
  {
    assert RecordManual(s, m).trace[|s.trace|] == Reported(m);
  }

  lemma TimeGoesOn(s: State, now: nat)
    ensures GoesOn(s, ObserveTime(s, now))
  {
  }

  lemma EndGoesOn(cfg: Config, s: State, lane: Lane, t: nat)
    ensures GoesOn(s, ResetBackoff(s, lane)) && GoesOn(s, RecordFailure(cfg, s, lane, t))
  {
    hide Delay;
  }

  /** What a lane's worker answers is taken down, with the time, unless the tick is aborted. */
  lemma RunLaneTells(cfg: Config, s: State, rolled: bool, lane: Lane, start: nat, a: Await<WorkerReply>)
    ensures
      var r := RunLane(cfg, s, rolled, lane, start, a);
      && GoesOn(s, r.s)
      && (Rested(BackoffOf(s, lane), start) ==>
            if a.reply.WorkerAborted? then r.result == None
            else
              && Adds(s, r.s, WorkerTold(lane, a.reply, Max(start, a.reading)))
              && r.result.Some? && r.result.value.terminalAt == Max(start, a.reading)
              && r.result.value.lane == match a.reply
                                        case WorkerIdle => LaneIdle
                                        case WorkerCompleted(_) => LaneCompleted
                                        case _ => LaneFailed)
  {
    var r := RunLane(cfg, s, rolled, lane, start, a);
    if Rested(BackoffOf(s, lane), start) {
      var told := WorkerTold(lane, a.reply, Max(start, a.reading));
      var s0 := Log(s, Attempt(lane, start));
      var s1 := RecordManuals(s0, a.manuals);
      var s2 := ObserveTime(s1, a.reading);
      var s3 := Log(s2, told);
      LogGoesOn(s, Attempt(lane, start));
      ManualsGoOn(s0, a.manuals);
      TimeGoesOn(s1, a.reading);
      LogGoesOn(s2, told);
      EndGoesOn(cfg, s3, lane, Max(start, a.reading));
      hide GoesOn, Adds, RecordManuals, ObserveTime, ResetBackoff, RecordFailure, Log;
      GoesOnFurther(s, s0, s1);
      if !a.reply.WorkerAborted? {
        GoesOnFurther(s, s1, s2);
        GoesOnFurther(s, s2, s3);
        GoesOnFurther(s, s3, r.s);
        Longer(s, s2);
        Longer(s3, r.s);
        AddsLater(s2, s3, r.s, told);
        AddsEarlier(s, s2, r.s, told);
      }
    } else {
      NothingHappens(s);
    }
  }

  /** Which result a Curator attempt has, by what was answered. */
  function ResultOf(answer: EnsureReply, reply: WorkerReply): LaneResult
  {
    match answer
    case AlreadyCompleted(_) => LaneIdle
    case NoWork(_) => LaneIdle
    case Ready(_) => if reply.WorkerIdle? then LaneIdle else if reply.WorkerCompleted? then LaneCompleted else LaneFailed
    case _ => LaneFailed
  }

  lemma ManualsRest(s: State, manuals: seq<Manual>, now: nat)
    requires Rested(s.curator, now)
    ensures Rested(RecordManuals(s, manuals).curator, now)
    decreases |manuals|
  {
    if manuals != [] {
      ManualsRest(RecordManual(s, manuals[0]), manuals[1..], now);
    }
  }

  /** The schedule is ensured, and what it and the Curator answer is taken down and gives the result. */
  lemma EnsureAndRunTells(cfg: Config, s: State, rolled: bool, start: nat, e: Await<EnsureReply>, a: Await<WorkerReply>)
    requires Rested(s.curator, start)
    ensures
      var r := EnsureAndRunCurator(cfg, s, rolled, start, e, a);
      && Adds(s, r.s, Ensure(start, EligibleAt(cfg, s)))
      && (e.reply.EnsureAborted? || (e.reply.Ready? && a.reply.WorkerAborted?) ==> r.result == None)
      && (!e.reply.EnsureAborted? ==> Adds(s, r.s, ScheduleTold(e.reply, Max(start, e.reading))))
      && (e.reply.Ready? && !a.reply.WorkerAborted? ==>
            Adds(s, r.s, WorkerTold(Curator, a.reply, Max(Max(start, e.reading), a.reading))))
      && (!e.reply.EnsureAborted? && !(e.reply.Ready? && a.reply.WorkerAborted?) ==>
            r.result.Some? && r.result.value.lane == ResultOf(e.reply, a.reply))
  {
    var r := EnsureAndRunCurator(cfg, s, rolled, start, e, a);
    var at := Max(start, e.reading);
    var s1, s3 := ScheduleAnswered(cfg, s, start, e);
    EnsureAndRunIs(cfg, s, rolled, start, e, a, s1, s3);
    EndGoesOn(cfg, s3, Curator, at);
    RunLaneTells(cfg, s3, rolled || RollsBack(s1, e.reading), Curator, at, a);
    hide GoesOn, Adds, RecordManuals, ObserveTime, ResetBackoff, RecordFailure, RunLane, Log, EnsureAndRunCurator, RollsBack;
    if !e.reply.EnsureAborted? {
      Longer(s3, r.s);
      AddsLater(s, s3, r.s, Ensure(start, EligibleAt(cfg, s)));
      AddsLater(s, s3, r.s, ScheduleTold(e.reply, at));
      if e.reply.Ready? && !a.reply.WorkerAborted? {
        LongerStill(s, s3, ScheduleTold(e.reply, at));
        AddsEarlier(s, s3, r.s, WorkerTold(Curator, a.reply, Max(at, a.reading)));
      }
    }
  }

  lemma EnsureAndRunIs(cfg: Config, s: State, rolled: bool, start: nat, e: Await<EnsureReply>, a: Await<WorkerReply>,
                       s1: State, s3: State)
    requires s1 == RecordManuals(Log(Log(s, Attempt(Curator, start)), Ensure(start, EligibleAt(cfg, s))), e.manuals)
    requires s3 == Log(ObserveTime(s1, e.reading), ScheduleTold(e.reply, Max(start, e.reading)))
    ensures
      var r, at := EnsureAndRunCurator(cfg, s, rolled, start, e, a), Max(start, e.reading);
      var lane := RunLane(cfg, s3, rolled || RollsBack(s1, e.reading), Curator, at, a);
      && r.s == (if e.reply.EnsureAborted? then s1 else if e.reply.Ready? then lane.s
                 else if e.reply.NoWork? || e.reply.AlreadyCompleted? then ResetBackoff(s3, Curator)
                 else RecordFailure(cfg, s3, Curator, at))
      && (r.result.Some? <==> !e.reply.EnsureAborted? && (e.reply.Ready? ==> lane.result.Some?))
      && (r.result.Some? ==>
            r.result.value.lane == if e.reply.Ready? then lane.result.value.lane
                                   else if e.reply.NoWork? || e.reply.AlreadyCompleted? then LaneIdle else LaneFailed)
  {
    hide RecordManuals, ObserveTime, ResetBackoff, RecordFailure, RunLane, Log, RollsBack;
  }

  /** Up to the schedule's answer. */
  lemma ScheduleAnswered(cfg: Config, s: State, start: nat, e: Await<EnsureReply>) returns (s1: State, s3: State)
    requires Rested(s.curator, start)
    ensures s1 == RecordManuals(Log(Log(s, Attempt(Curator, start)), Ensure(start, EligibleAt(cfg, s))), e.manuals)
    ensures s3 == Log(ObserveTime(s1, e.reading), ScheduleTold(e.reply, Max(start, e.reading)))
    ensures Adds(s, s1, Ensure(start, EligibleAt(cfg, s))) && Adds(s, s3, Ensure(start, EligibleAt(cfg, s)))
    ensures Adds(s, s3, ScheduleTold(e.reply, Max(start, e.reading)))
    ensures BackoffOf(s3, Curator) == s1.curator && Rested(s1.curator, start)
  {
    var ensure, told := Ensure(start, EligibleAt(cfg, s)), ScheduleTold(e.reply, Max(start, e.reading));
    var called := Log(Log(s, Attempt(Curator, start)), ensure);
    s1 := RecordManuals(called, e.manuals);
    var s2 := ObserveTime(s1, e.reading);
    s3 := Log(s2, told);
    assert called.trace[|s.trace| + 1] == ensure;
    assert Adds(s, called, ensure);
    ManualsGoOn(called, e.manuals);
    ManualsRest(called, e.manuals, start);
    TimeGoesOn(s1, e.reading);
    LogGoesOn(s2, told);
    hide GoesOn, Adds, RecordManuals;
    Longer(called, s1);
    AddsLater(s, called, s1, ensure);
    LongerStill(s, s1, ensure);
    Longer(s1, s2);
    Longer(s2, s3);
    AddsLater(s, s1, s3, ensure);
    AddsEarlier(s, s2, s3, told);
  }

  lemma LongerStill(s: State, r: State, e: Event)
    requires Adds(s, r, e)
    ensures s.trace <= r.trace
  {
  }

  /** When the schedule has been ensured in this tick, what must have been answered and taken down by its end. */
  ghost predicate Heard(s: State, r: State, input: TickInput, result: Option<TickResult>)
  {
    var at := Max(input.probe.reading, input.ensure.reading);
    var scheduled, ready := !input.ensure.reply.EnsureAborted?, input.ensure.reply.Ready?;
    var ran := ready && !input.curator.reply.WorkerAborted?;
    && input.probe.reply == Answered(true)
    && (scheduled ==> Adds(s, r, ScheduleTold(input.ensure.reply, at)))
    && (ran ==> Adds(s, r, WorkerTold(Curator, input.curator.reply, Max(at, input.curator.reading))))
    && (result.Some? <==> scheduled && (ready ==> ran))
    && (result.Some? ==> result.value.Ticked? && result.value.curator == ResultOf(input.ensure.reply, input.curator.reply))
  }

  /** From the probe on, the schedule is left alone or everything about it is taken down. */
  lemma TickCuratorTells(cfg: Config, s: State, rolled: bool, distiller: LaneResult, input: TickInput)
    ensures
      var (r, result) := TickCurator(cfg, s, rolled, distiller, input);
      s.trace <= r.trace && (GoesOn(s, r) || Heard(s, r, input, result))
  {
    var (r, result) := TickCurator(cfg, s, rolled, distiller, input);
    ManualsGoOn(s, input.probe.manuals);
    var s1 := RecordManuals(s, input.probe.manuals);
    LogGoesOn(s1, ProbeFailed);
    var now := input.probe.reading;
    var s2 := ObserveTime(s1, now);
    TimeGoesOn(s1, now);
    hide RecordManuals, ObserveTime, EnsureAndRunCurator, AfterCurator, RollsBack;
    if !input.probe.reply.Answered? {
      assert r.trace == Log(s1, ProbeFailed).trace;
      GoesOnFurther(s, s1, Log(s1, ProbeFailed));
    } else {
      var idle, rolled2 := input.probe.reply.idle, rolled || RollsBack(s1, now);
      var s3 := ObserveIdle(s2, now, idle, rolled2);
      IdleGoesOn(s2, now, idle, rolled2);
      hide GoesOn, Adds, Heard, ObserveIdle;
      GoesOnFurther(s, s1, s2);
      GoesOnFurther(s, s2, s3);
      Longer(s, s3);
      if CuratorSkipReason(cfg, s3, now, idle).None? {
        EnsureAndRunTells(cfg, s3, rolled2, now, input.ensure, input.curator);
        var t := EnsureAndRunCurator(cfg, s3, rolled2, now, input.ensure, input.curator);
        var key := EligibleAt(cfg, s3);
        assert t.result.Some? <==> result.Some?;
        if t.result.Some? { AfterCuratorGrows(t.s, t.result.value); }
        AllHeard(s, s3, t.s, r, input, result, key);
      }
    }
  }

  lemma IdleGoesOn(s: State, now: nat, idle: bool, rolled: bool)
    ensures GoesOn(s, ObserveIdle(s, now, idle, rolled))
  {
  }

  lemma AllHeard(s: State, s3: State, t: State, r: State, input: TickInput, result: Option<TickResult>, key: Option<nat>)
    requires s.trace <= s3.trace && t.trace <= r.trace && input.probe.reply == Answered(true)
    requires Adds(s3, t, Ensure(input.probe.reading, key))
    requires
      var at := Max(input.probe.reading, input.ensure.reading);
      var scheduled, ready := !input.ensure.reply.EnsureAborted?, input.ensure.reply.Ready?;
      var ran := ready && !input.curator.reply.WorkerAborted?;
      && (scheduled ==> Adds(s3, t, ScheduleTold(input.ensure.reply, at)))
      && (ran ==> Adds(s3, t, WorkerTold(Curator, input.curator.reply, Max(at, input.curator.reading))))
      && (result.Some? <==> scheduled && (ready ==> ran))
      && (result.Some? ==> result.value.Ticked? && result.value.curator == ResultOf(input.ensure.reply, input.curator.reply))
    ensures s.trace <= r.trace && Heard(s, r, input, result)
  {
    var at := Max(input.probe.reading, input.ensure.reading);
    var told, ended := ScheduleTold(input.ensure.reply, at), WorkerTold(Curator, input.curator.reply, Max(at, input.curator.reading));
    assert s3.trace <= t.trace;
    if Adds(s3, t, told) {
      AddsLater(s3, t, r, told);
      AddsEarlier(s, s3, r, told);
    }
    if Adds(s3, t, ended) {
      AddsLater(s3, t, r, ended);
      AddsEarlier(s, s3, r, ended);
    }
  }

  /**
   * One tick: the Distiller's answer is taken down unless it is backing off, and
   * once the schedule has been ensured, so are its answer and the Curator's, and
   * the result says what they were. None is missed but by an abort.
   */
  lemma TickTells(cfg: Config, s: State, input: TickInput)
    requires s.enabled && !s.running && !input.aborted
    ensures
      var (r, result) := Tick(cfg, s, input);
      && s.trace <= r.trace
      && (Rested(s.distiller, input.first) && !input.distiller.reply.WorkerAborted? ==>
            Adds(s, r, WorkerTold(Distiller, input.distiller.reply, Max(input.first, input.distiller.reading))))
      && ((exists n :: |s.trace| <= n < |r.trace| && r.trace[n].Ensure?) ==> Heard(s, r, input, result))
  {
    var (r, result) := Tick(cfg, s, input);
    var s0 := s.(running := true);
    var s1, rolled := ObserveTime(s0, input.first), RollsBack(s0, input.first);
    TimeGoesOn(s0, input.first);
    var d := RunLane(cfg, s1, rolled, Distiller, input.first, input.distiller);
    RunLaneTells(cfg, s1, rolled, Distiller, input.first, input.distiller);
    assert s1.distiller == s.distiller;
    hide RunLane, TickCurator, ObserveTime, RollsBack, Adds, GoesOn, Heard;
    var told := WorkerTold(Distiller, input.distiller.reply, Max(input.first, input.distiller.reading));
    GoesOnFurther(s0, s1, d.s);
    Longer(s0, s1);
    Longer(s0, d.s);
    SameTrace(s, s0, d.s);
    if Rested(s.distiller, input.first) && !input.distiller.reply.WorkerAborted? {
      AddsEarlier(s0, s1, d.s, told);
    }
    if d.result.Some? {
      TickCuratorTells(cfg, d.s, d.clockRollback, d.result.value.lane, input);
      var (q, _) := TickCurator(cfg, d.s, d.clockRollback, d.result.value.lane, input);
      TickEnds(s, s0, d.s, q, r, told, input, result);
    } else {
      TickEnds(s, s0, d.s, d.s, r, told, input, result);
    }
  }

  lemma SameTrace(s: State, s0: State, d: State)
    requires s.trace == s0.trace && GoesOn(s0, d)
    ensures GoesOn(s, d)
  {
  }

  lemma TickEnds(s: State, s0: State, d: State, q: State, r: State, told: Event, input: TickInput, result: Option<TickResult>)
    requires s.trace == s0.trace && r.trace == q.trace && GoesOn(s, d) && d.trace <= q.trace
    requires d == q || GoesOn(d, q) || Heard(d, q, input, result)
    ensures s.trace <= r.trace && (Adds(s0, d, told) ==> Adds(s, r, told))
    ensures (exists n :: |s.trace| <= n < |r.trace| && r.trace[n].Ensure?) ==> Heard(s, r, input, result)
  {
    if Adds(s0, d, told) { AddsLater(s0, d, q, told); }
    if GoesOn(d, q) { GoesOnFurther(s, d, q); }
    if Heard(d, q, input, result) { HeardEarlier(s, d, q, r, input, result); }
  }

  lemma HeardEarlier(s: State, d: State, q: State, r: State, input: TickInput, result: Option<TickResult>)
    requires s.trace <= d.trace && Heard(d, q, input, result) && r.trace == q.trace
    ensures Heard(s, r, input, result)
  {
    var at := Max(input.probe.reading, input.ensure.reading);
    var told, ended := ScheduleTold(input.ensure.reply, at), WorkerTold(Curator, input.curator.reply, Max(at, input.curator.reading));
    if Adds(d, q, told) { AddsEarlier(s, d, q, told); }
    if Adds(d, q, ended) { AddsEarlier(s, d, q, ended); }
  }

  /**
   * A tick in which the schedule is ensured and the Curator completes, with no
   * nested result or one that says it has completed: from its end on the last
   * success is no earlier than the end of that run.
   */
  lemma CompletionCounts(cfg: Config, saved: Saved, enabled: bool, actions: seq<Action>, input: TickInput)
    requires
      var s := Run(cfg, Restored(saved, enabled), actions);
      && s.enabled && !s.running && !input.aborted
      && (exists n :: |s.trace| <= n < |Tick(cfg, s, input).0.trace| && Tick(cfg, s, input).0.trace[n].Ensure?)
      && input.ensure.reply.Ready?
      && input.curator.reply in {WorkerCompleted(Absent), WorkerCompleted(WithState("completed"))}
    ensures
      var r := Tick(cfg, Run(cfg, Restored(saved, enabled), actions), input).0;
      r.lastSuccess.Some? && Max(Max(input.probe.reading, input.ensure.reading), input.curator.reading) <= r.lastSuccess.value
  {
    var s := Run(cfg, Restored(saved, enabled), actions);
    BeginsRight(cfg, saved, enabled);
    hide Run, Restored, Tick;
    RunCounts(cfg, Restored(saved, enabled), actions);
    TickCounts(cfg, s, input);
    TickTells(cfg, s, input);
    var r := Tick(cfg, s, input).0;
    var u := Max(Max(input.probe.reading, input.ensure.reading), input.curator.reading);
    assert Adds(s, r, WorkerTold(Curator, input.curator.reply, u));
    assert CompletedAt(WorkerTold(Curator, input.curator.reply, u)) == Some(u);
  }
}
