/** The promises of the scheduler, stated for every history of ticks, manual runs, switches and restarts. */
module EvolutionGuarantees {
  import opened Common
  import opened EvolutionModel
  import opened EvolutionHistory

  // ---------------------------------------------------------------- histories

  lemma RestoredInv(cfg: Config, saved: Saved, enabled: bool)
    requires ValidSaved(saved)
    ensures Inv(cfg, Restored(saved, enabled))
  {
    var s := Restored(saved, enabled);
  }

  /** Taking up the saved fields leaves the fields as they were. */
  lemma TakenUpFields(s: State, enabled: bool)
    ensures TakenUp(s, enabled) == s.(enabled := enabled, running := false, trace := s.trace + [Began(Snapshot(s))])
  {
  }

  lemma LaneBegan(cfg: Config, trace: seq<Event>, lane: Lane, b: Backoff, from: Saved)
    requires LaneOk(cfg, trace, lane, b) && SavedBackoff(from, lane) == b
    ensures LaneOk(cfg, trace + [Began(from)], lane, b)
  {
    var more := trace + [Began(from)];
    assert forall j :: 0 <= j < |trace| ==> more[j] == trace[j];
    forall j | 0 <= j < |trace| && NoRecovery(more, lane, j, |more|) ensures NoRecovery(trace, lane, j, |trace|) {
    }
  }

  lemma TakenUpKeeps(cfg: Config, s: State, enabled: bool)
    requires Inv(cfg, s)
    ensures Inv(cfg, TakenUp(s, enabled))
  {
    TakenUpFields(s, enabled);
    var e := Began(Snapshot(s));
    HistoryPlain(cfg, s.trace, e);
    assert SuccessOk(s.trace + [e], s.lastSuccess);
    WindowAppend(s.trace, s.idleSince, s.lastObserved, s.openedAt, e, s.lastObserved);
    LaneBegan(cfg, s.trace, Distiller, s.distiller, Snapshot(s));
    LaneBegan(cfg, s.trace, Curator, s.curator, Snapshot(s));
    hide HistoryOk, SuccessOk, LaneOk, WindowOk;
  }

  lemma ActKeeps(cfg: Config, s: State, a: Action)
    requires Inv(cfg, s)
    ensures Inv(cfg, Act(cfg, s, a))
  {
    hide Inv, Tick, TakenUp;
    match a
    case DoTick(input) => TickKeeps(cfg, s, input);
    case DoManual(m) =>
      ManualsKeep(cfg, s, [m], 0);
      assert [m][1..] == [];
    case DoSetEnabled(enabled) =>
      BreakKeeps(cfg, s, SwitchedOff);
      FlagsKeep(cfg, s, true, s.running);
      FlagsKeep(cfg, Log(s, SwitchedOff).(idleSince := None), false, s.running);
    case SaveAndRestore(enabled) => TakenUpKeeps(cfg, s, enabled);
  }

  lemma {:induction false} RunKeeps(cfg: Config, s: State, actions: seq<Action>)
    requires Inv(cfg, s)
    ensures Inv(cfg, Run(cfg, s, actions))
    decreases |actions|
  {
    hide Inv, Act;
    if actions != [] {
      ActKeeps(cfg, s, actions[0]);
      RunKeeps(cfg, Act(cfg, s, actions[0]), actions[1..]);
    }
  }

  // ------------------------------------------------------------------ promises

  /**
   * Whenever the Curator's schedule is ensured at a time `t`, the idle probe has
   * answered yes ever since a time at least the required idle span earlier, with
   * no clock reading going backwards and no Curator attempt in between, and every
   * persistent success on record is at least an interval back.
   */
  lemma CuratorHistory(cfg: Config, saved: Saved, enabled: bool, actions: seq<Action>, i: nat)
    returns (k: nat, s: nat)
    requires ValidSaved(saved)
    requires i < |Run(cfg, Restored(saved, enabled), actions).trace|
    requires Run(cfg, Restored(saved, enabled), actions).trace[i].Ensure?
    ensures
      var trace := Run(cfg, Restored(saved, enabled), actions).trace;
      && k < i && Opens(trace[k], s) && s + cfg.idleRequired <= trace[i].t
      && Unbroken(trace, k, i) && SuccessesOld(cfg, trace, i, trace[i].t)
  {
    hide Run, Restored, Opens, Unbroken, SuccessesOld;
    RestoredInv(cfg, saved, enabled);
    RunKeeps(cfg, Restored(saved, enabled), actions);
    var trace := Run(cfg, Restored(saved, enabled), actions).trace;
    assert EventOk(cfg, trace, i);
    k, s :| 0 <= k < i && Opens(trace[k], s) && s + cfg.idleRequired <= trace[i].t && Unbroken(trace, k, i);
  }

  /** After its `k`-th failure in a row a lane is not tried again before the delay for `k` has passed. */
  lemma BackoffBound(cfg: Config, saved: Saved, enabled: bool, actions: seq<Action>, lane: Lane, j: nat, i: nat)
    requires ValidSaved(saved)
    requires j < i < |Run(cfg, Restored(saved, enabled), actions).trace|
    requires
      var trace := Run(cfg, Restored(saved, enabled), actions).trace;
      && trace[j].Failure? && trace[j].lane == lane && trace[i].Attempt? && trace[i].lane == lane
      && NoRecovery(trace, lane, j, i)
    ensures
      var trace := Run(cfg, Restored(saved, enabled), actions).trace;
      var k := SeriesLength(trace, lane, j + 1);
      k > 0 && trace[i].start >= trace[j].t + Min(cfg.max, cfg.base * Pow2(Min(k - 1, 52)))
  {
    hide Run, Restored;
    RestoredInv(cfg, saved, enabled);
    RunKeeps(cfg, Restored(saved, enabled), actions);
    var trace := Run(cfg, Restored(saved, enabled), actions).trace;
    assert EventOk(cfg, trace, i) && EventOk(cfg, trace, j);
  }

  /** The failures of a series lie apart by at least all the delays between them. */
  lemma SeriesSpan(cfg: Config, saved: Saved, enabled: bool, actions: seq<Action>, lane: Lane, j: nat, i: nat)
    requires ValidSaved(saved)
    requires j < i < |Run(cfg, Restored(saved, enabled), actions).trace|
    requires
      var trace := Run(cfg, Restored(saved, enabled), actions).trace;
      && trace[j].Failure? && trace[j].lane == lane && trace[i].Failure? && trace[i].lane == lane
      && NoRecovery(trace, lane, j, i)
    ensures
      var trace := Run(cfg, Restored(saved, enabled), actions).trace;
      var k, n := SeriesLength(trace, lane, j + 1), SeriesLength(trace, lane, i + 1);
      0 < k < n && trace[i].t >= trace[j].t + Delays(cfg, k, n)
  {
    hide Run, Restored;
    RestoredInv(cfg, saved, enabled);
    RunKeeps(cfg, Restored(saved, enabled), actions);
    var trace := Run(cfg, Restored(saved, enabled), actions).trace;
    assert EventOk(cfg, trace, i) && EventOk(cfg, trace, j);
  }

  /** Delays double up to the maximum, and never shrink. */
  lemma DelayGrows(cfg: Config, k: nat)
    requires ValidConfig(cfg) && k > 0
    ensures cfg.base <= Delay(cfg, k) <= Delay(cfg, k + 1) <= cfg.max
    ensures Delay(cfg, k + 1) == Min(cfg.max, 2 * Delay(cfg, k)) || k > 52
  {
    var p := Pow2(Min(k - 1, 52));
    ScaleUp(cfg.base, p);
    if k <= 52 {
      assert Pow2(k) == 2 * Pow2(k - 1);
      assert cfg.base * (2 * p) == 2 * (cfg.base * p);
    }
  }

  lemma ScaleUp(b: nat, p: nat)
    requires p > 0
    ensures b * p >= b
  {
  }

  // ----------------------------------------------------------- save and restore

  /** Whatever has happened, the saved fields pass validation. */
  lemma SnapshotIsValid(cfg: Config, saved: Saved, enabled: bool, actions: seq<Action>)
    requires ValidSaved(saved)
    ensures ValidSaved(Snapshot(Run(cfg, Restored(saved, enabled), actions)))
  {
    hide Run, Restored, HistoryOk, SuccessOk;
    RestoredInv(cfg, saved, enabled);
    RunKeeps(cfg, Restored(saved, enabled), actions);
  }

  /** Two schedulers that differ only in what they remember of the past. */
  predicate Same(a: State, b: State)
  {
    a.(trace := b.trace, openedAt := b.openedAt) == b
  }

  lemma LogSame(cfg: Config, a: State, b: State, e: Event)
    requires Same(a, b)
    ensures Same(Log(a, e), Log(b, e)) && EligibleAt(cfg, a) == EligibleAt(cfg, b)
    ensures BackoffOf(a, Distiller) == BackoffOf(b, Distiller) && BackoffOf(a, Curator) == BackoffOf(b, Curator)
  {
  }

  lemma TimeSame(a: State, b: State, now: nat)
    requires Same(a, b)
    ensures Same(ObserveTime(a, now), ObserveTime(b, now)) && RollsBack(a, now) == RollsBack(b, now)
  {
  }

  lemma EndSame(cfg: Config, a: State, b: State, lane: Lane, now: nat)
    requires Same(a, b)
    ensures Same(ResetBackoff(a, lane), ResetBackoff(b, lane))
    ensures Same(RecordFailure(cfg, a, lane, now), RecordFailure(cfg, b, lane, now))
  {
  }

  lemma SuccessSame(a: State, b: State, now: nat)
    requires Same(a, b)
    ensures Same(RecordCuratorSuccess(a, now), RecordCuratorSuccess(b, now))
  {
  }

  lemma IdleSame(cfg: Config, a: State, b: State, now: nat, idle: bool, rolled: bool)
    requires Same(a, b)
    ensures Same(ObserveIdle(a, now, idle, rolled), ObserveIdle(b, now, idle, rolled))
    ensures CuratorSkipReason(cfg, a, now, idle) == CuratorSkipReason(cfg, b, now, idle)
  {
  }

  lemma {:induction false} ManualsSame(cfg: Config, a: State, b: State, manuals: seq<Manual>)
    requires Same(a, b)
    ensures Same(RecordManuals(a, manuals), RecordManuals(b, manuals))
    decreases |manuals|
  {
    hide Same, RecordCuratorSuccess;
    if manuals != [] {
      var m := manuals[0];
      LogSame(cfg, a, b, Reported(m));
      SuccessSame(Log(a, Reported(m)), Log(b, Reported(m)), if m.completedAt.Some? then m.completedAt.value else m.reading);
      ManualsSame(cfg, RecordManual(a, m), RecordManual(b, m), manuals[1..]);
    }
  }

  lemma RunLaneSame(cfg: Config, a: State, b: State, rolled: bool, lane: Lane, start: nat, w: Await<WorkerReply>)
    requires Same(a, b)
    ensures
      var x, y := RunLane(cfg, a, rolled, lane, start, w), RunLane(cfg, b, rolled, lane, start, w);
      Same(x.s, y.s) && x.clockRollback == y.clockRollback && x.result == y.result
  {
    hide RecordManuals, Same, ObserveTime, ResetBackoff, RecordFailure, Log, BackoffOf, RollsBack;
    LogSame(cfg, a, b, Attempt(lane, start));
    ManualsSame(cfg, Log(a, Attempt(lane, start)), Log(b, Attempt(lane, start)), w.manuals);
    var a1, b1 := RecordManuals(Log(a, Attempt(lane, start)), w.manuals),
                  RecordManuals(Log(b, Attempt(lane, start)), w.manuals);
    TimeSame(a1, b1, w.reading);
    var at := Max(start, w.reading);
    var a2, b2 := ObserveTime(a1, w.reading), ObserveTime(b1, w.reading);
    LogSame(cfg, a2, b2, WorkerTold(lane, w.reply, at));
    EndSame(cfg, Log(a2, WorkerTold(lane, w.reply, at)), Log(b2, WorkerTold(lane, w.reply, at)), lane, at);
  }

  lemma EnsureSame(cfg: Config, a: State, b: State, rolled: bool, start: nat, e: Await<EnsureReply>, w: Await<WorkerReply>)
    requires Same(a, b)
    ensures
      var x, y := EnsureAndRunCurator(cfg, a, rolled, start, e, w), EnsureAndRunCurator(cfg, b, rolled, start, e, w);
      Same(x.s, y.s) && x.clockRollback == y.clockRollback && x.result == y.result
  {
    hide RecordManuals, RunLane, Same, ObserveTime, ResetBackoff, RecordFailure, Log, RollsBack, EligibleAt;
    LogSame(cfg, a, b, Attempt(Curator, start));
    var key := EligibleAt(cfg, a);
    var a0, b0 := Log(a, Attempt(Curator, start)), Log(b, Attempt(Curator, start));
    LogSame(cfg, a0, b0, Ensure(start, key));
    ManualsSame(cfg, Log(a0, Ensure(start, key)), Log(b0, Ensure(start, key)), e.manuals);
    var a1, b1 := RecordManuals(Log(a0, Ensure(start, key)), e.manuals),
                  RecordManuals(Log(b0, Ensure(start, key)), e.manuals);
    TimeSame(a1, b1, e.reading);
    var a2, b2 := ObserveTime(a1, e.reading), ObserveTime(b1, e.reading);
    var at := Max(start, e.reading);
    LogSame(cfg, a2, b2, ScheduleTold(e.reply, at));
    var a3, b3 := Log(a2, ScheduleTold(e.reply, at)), Log(b2, ScheduleTold(e.reply, at));
    EndSame(cfg, a3, b3, Curator, at);
    RunLaneSame(cfg, a3, b3, rolled || RollsBack(a1, e.reading), Curator, at, w);
  }

  lemma AfterCuratorSame(cfg: Config, a: State, b: State, r: Attempted)
    requires Same(a, b)
    ensures Same(AfterCurator(a, r), AfterCurator(b, r))
    ensures AfterCurator(a, r).lastObserved == AfterCurator(b, r).lastObserved
  {
  }

  lemma ProbeFailedSame(a: State, b: State)
    requires Same(a, b)
    ensures Same(Log(a, ProbeFailed).(idleSince := None), Log(b, ProbeFailed).(idleSince := None))
  {
  }

  lemma TickCuratorSame(cfg: Config, a: State, b: State, rolled: bool, d: LaneResult, input: TickInput)
    requires Same(a, b)
    ensures
      var x, y := TickCurator(cfg, a, rolled, d, input), TickCurator(cfg, b, rolled, d, input);
      Same(x.0, y.0) && x.1 == y.1
  {
    hide RecordManuals, EnsureAndRunCurator, Same, ObserveTime, ObserveIdle, RollsBack, AfterCurator, CuratorSkipReason;
    ManualsSame(cfg, a, b, input.probe.manuals);
    var a1, b1 := RecordManuals(a, input.probe.manuals), RecordManuals(b, input.probe.manuals);
    ProbeFailedSame(a1, b1);
    if input.probe.reply.Answered? {
      var now, idle := input.probe.reading, input.probe.reply.idle;
      TimeSame(a1, b1, now);
      var rolled2 := rolled || RollsBack(a1, now);
      IdleSame(cfg, ObserveTime(a1, now), ObserveTime(b1, now), now, idle, rolled2);
      var a3 := ObserveIdle(ObserveTime(a1, now), now, idle, rolled2);
      var b3 := ObserveIdle(ObserveTime(b1, now), now, idle, rolled2);
      IdleSame(cfg, a3, b3, now, idle, rolled2);
      EnsureSame(cfg, a3, b3, rolled2, now, input.ensure, input.curator);
      var x, y := EnsureAndRunCurator(cfg, a3, rolled2, now, input.ensure, input.curator),
                  EnsureAndRunCurator(cfg, b3, rolled2, now, input.ensure, input.curator);
      if x.result.Some? { AfterCuratorSame(cfg, x.s, y.s, x.result.value); }
    }
  }

  lemma TickBodySame(cfg: Config, a: State, b: State, input: TickInput)
    requires Same(a, b)
    ensures Same(TickBody(cfg, a, input).0, TickBody(cfg, b, input).0)
    ensures TickBody(cfg, a, input).1 == TickBody(cfg, b, input).1
  {
    hide RunLane, TickCurator, ObserveTime, RollsBack, Same;
    TimeSame(a, b, input.first);
    var rolled := RollsBack(a, input.first);
    var a1, b1 := ObserveTime(a, input.first), ObserveTime(b, input.first);
    RunLaneSame(cfg, a1, b1, rolled, Distiller, input.first, input.distiller);
    var x, y := RunLane(cfg, a1, rolled, Distiller, input.first, input.distiller),
                RunLane(cfg, b1, rolled, Distiller, input.first, input.distiller);
    if x.result.Some? {
      TickCuratorSame(cfg, x.s, y.s, x.clockRollback, x.result.value.lane, input);
    }
  }

  /** What a scheduler does next depends on its fields alone. */
  lemma TickSame(cfg: Config, a: State, b: State, input: TickInput)
    requires Same(a, b)
    ensures Same(Tick(cfg, a, input).0, Tick(cfg, b, input).0) && Tick(cfg, a, input).1 == Tick(cfg, b, input).1
  {
    hide TickBody;
    TickBodySame(cfg, a.(running := true), b.(running := true), input);
  }

  /** Manual runs, switches and restarts, too. */
  lemma ActSame(cfg: Config, a: State, b: State, action: Action)
    requires Same(a, b)
    ensures Same(Act(cfg, a, action), Act(cfg, b, action))
  {
    hide Tick, RecordCuratorSuccess;
    match action
    case DoTick(input) => TickSame(cfg, a, b, input);
    case DoManual(m) =>
      LogSame(cfg, a, b, Reported(m));
      SuccessSame(Log(a, Reported(m)), Log(b, Reported(m)), if m.completedAt.Some? then m.completedAt.value else m.reading);
    case DoSetEnabled(enabled) =>
    case SaveAndRestore(enabled) =>
      TakenUpFields(a, enabled);
      TakenUpFields(b, enabled);
  }

  /** The results of the ticks among a series of actions. */
  function Results(cfg: Config, s: State, actions: seq<Action>): seq<Option<TickResult>>
    decreases |actions|
  {
    if actions == [] then []
    else
      (if actions[0].DoTick? then [Tick(cfg, s, actions[0].input).1] else [])
      + Results(cfg, Act(cfg, s, actions[0]), actions[1..])
  }

  lemma {:induction false} ResultsSame(cfg: Config, a: State, b: State, actions: seq<Action>)
    requires Same(a, b)
    ensures Results(cfg, a, actions) == Results(cfg, b, actions)
    ensures Same(Run(cfg, a, actions), Run(cfg, b, actions))
    decreases |actions|
  {
    hide Tick, Act, Same;
    if actions != [] {
      ActSame(cfg, a, b, actions[0]);
      if actions[0].DoTick? { TickSame(cfg, a, b, actions[0].input); }
      ResultsSame(cfg, Act(cfg, a, actions[0]), Act(cfg, b, actions[0]), actions[1..]);
    }
  }

  /**
   * A scheduler restored from the saved fields of another gives the same
   * results on the same later ticks, manual runs, switches and restarts, and
   * ends up with the same fields.
   */
  lemma RestoreIsFaithful(cfg: Config, s: State, actions: seq<Action>)
    requires !s.running
    ensures Results(cfg, Restored(Snapshot(s), s.enabled), actions) == Results(cfg, s, actions)
    ensures Snapshot(Run(cfg, Restored(Snapshot(s), s.enabled), actions)) == Snapshot(Run(cfg, s, actions))
  {
    ResultsSame(cfg, Restored(Snapshot(s), s.enabled), s, actions);
    hide Run, Results;
  }

  // ------------------------------------------------------------ it does run

  /** A tick in which nothing goes wrong: the Distiller has nothing to do and the probe answers idle. */
  predicate Quiet(input: TickInput)
  {
    && !input.aborted && input.distiller.reply == WorkerIdle && input.distiller.manuals == []
    && input.probe.reply == Answered(true) && input.probe.manuals == []
    && input.first <= input.distiller.reading <= input.probe.reading
  }

  /** The fields after a quiet tick has observed its probe. */
  lemma QuietProbe(cfg: Config, s: State, input: TickInput) returns (s3: State)
    requires s.enabled && !s.running && s.distiller == HEALTHY && s.curator == HEALTHY && s.lastSuccess.None?
    requires Quiet(input) && (s.lastObserved.Some? ==> s.lastObserved.value <= input.first)
    requires s.idleSince.Some? ==> s.lastObserved.Some? && s.idleSince.value <= s.lastObserved.value
    ensures
      var since := if s.idleSince.Some? then s.idleSince.value else input.probe.reading;
      && s3 == s.(running := true, idleSince := Some(since), lastObserved := Some(input.probe.reading),
                  trace := s3.trace, openedAt := s3.openedAt)
      && Tick(cfg, s, input)
           == (var skip := CuratorSkipReason(cfg, s3, input.probe.reading, true);
               if skip.Some? then
                 (s3.(running := false), Some(Ticked(input.probe.reading, false, None, LaneIdle, Skipped(skip.value))))
               else
                 var r := EnsureAndRunCurator(cfg, s3, false, input.probe.reading, input.ensure, input.curator);
                 if r.result.None? then (r.s.(running := false), None)
                 else
                   var s4 := AfterCurator(r.s, r.result.value);
                   var at := if s4.lastObserved.Some? then s4.lastObserved.value else input.probe.reading;
                   (s4.(running := false),
                    Some(Ticked(at, r.clockRollback, r.result.value.bucket, LaneIdle, r.result.value.lane))))
  {
    hide EnsureAndRunCurator, AfterCurator;
    var s0 := s.(running := true);
    var s1 := ObserveTime(s0, input.first);
    var told := WorkerTold(Distiller, WorkerIdle, input.distiller.reading);
    var s2 := ResetBackoff(Log(ObserveTime(Log(s1, Attempt(Distiller, input.first)), input.distiller.reading), told), Distiller);
    assert RunLane(cfg, s1, false, Distiller, input.first, input.distiller).s == s2;
    s3 := ObserveIdle(ObserveTime(s2, input.probe.reading), input.probe.reading, true, false);
  }

  lemma {:induction false} ManualsGrow(s: State, manuals: seq<Manual>)
    ensures s.trace <= RecordManuals(s, manuals).trace
    decreases |manuals|
  {
    if manuals != [] {
      ManualsGrow(RecordManual(s, manuals[0]), manuals[1..]);
    }
  }

  lemma RunLaneGrows(cfg: Config, s: State, rolled: bool, lane: Lane, start: nat, a: Await<WorkerReply>)
    ensures s.trace <= RunLane(cfg, s, rolled, lane, start, a).s.trace
  {
    hide RecordManuals, ObserveTime, RecordFailure, ResetBackoff;
    var s1 := RecordManuals(Log(s, Attempt(lane, start)), a.manuals);
    ManualsGrow(Log(s, Attempt(lane, start)), a.manuals);
    OutcomeGrows(cfg, s1, lane, a.reading, Max(start, a.reading), WorkerTold(lane, a.reply, Max(start, a.reading)));
  }

  lemma OutcomeGrows(cfg: Config, s: State, lane: Lane, reading: nat, at: nat, told: Event)
    ensures s.trace <= ResetBackoff(Log(ObserveTime(s, reading), told), lane).trace
    ensures s.trace <= RecordFailure(cfg, Log(ObserveTime(s, reading), told), lane, at).trace
  {
    hide Delay;
  }

  lemma EnsureGrows(cfg: Config, s: State, rolled: bool, start: nat, e: Await<EnsureReply>, a: Await<WorkerReply>)
    ensures Ensure(start, EligibleAt(cfg, s)) in EnsureAndRunCurator(cfg, s, rolled, start, e, a).s.trace
  {
    hide RecordManuals, RunLane;
    var called := Log(Log(s, Attempt(Curator, start)), Ensure(start, EligibleAt(cfg, s)));
    assert called.trace[|s.trace| + 1] == Ensure(start, EligibleAt(cfg, s));
    ManualsGrow(called, e.manuals);
    var s1 := RecordManuals(called, e.manuals);
    assert s1.trace[|s.trace| + 1] == Ensure(start, EligibleAt(cfg, s));
    var s3 := Log(ObserveTime(s1, e.reading), ScheduleTold(e.reply, Max(start, e.reading)));
    RunLaneGrows(cfg, s3, rolled || RollsBack(s1, e.reading), Curator, Max(start, e.reading), a);
    assert s3.trace[|s.trace| + 1] == Ensure(start, EligibleAt(cfg, s));
    assert EnsureAndRunCurator(cfg, s, rolled, start, e, a).s.trace[|s.trace| + 1] == Ensure(start, EligibleAt(cfg, s));
  }

  lemma AfterCuratorGrows(s: State, r: Attempted)
    ensures s.trace <= AfterCurator(s, r).trace
  {
  }

  /**
   * A healthy scheduler that has never run the Curator ensures its schedule in
   * the first quiet tick that completes the required idle span, and not before.
   */
  lemma QuietTick(cfg: Config, s: State, input: TickInput)
    requires s.enabled && !s.running && s.distiller == HEALTHY && s.curator == HEALTHY && s.lastSuccess.None?
    requires Quiet(input) && (s.lastObserved.Some? ==> s.lastObserved.value <= input.first)
    requires s.idleSince.Some? ==> s.lastObserved.Some? && s.idleSince.value <= s.lastObserved.value
    ensures
      var since := if s.idleSince.Some? then s.idleSince.value else input.probe.reading;
      var (s1, r) := Tick(cfg, s, input);
      && (input.probe.reading - since >= cfg.idleRequired ==> Ensure(input.probe.reading, None) in s1.trace)
      && (input.probe.reading - since < cfg.idleRequired ==>
            && r == Some(Ticked(input.probe.reading, false, None, LaneIdle, Skipped(IdleWindow)))
            && s1 == s.(idleSince := Some(since), lastObserved := Some(input.probe.reading),
                        trace := s1.trace, openedAt := s1.openedAt))
  {
    hide Tick, EnsureAndRunCurator, AfterCurator;
    var now := input.probe.reading;
    var s3 := QuietProbe(cfg, s, input);
    EnsureGrows(cfg, s3, false, now, input.ensure, input.curator);
    var r := EnsureAndRunCurator(cfg, s3, false, now, input.ensure, input.curator);
    if r.result.Some? { AfterCuratorGrows(r.s, r.result.value); }
  }
}
