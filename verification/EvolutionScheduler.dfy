/** The scheduler's code: private fields updated by each tick, tied to `EvolutionModel`. */
module EvolutionScheduler {
  import opened Common
  import opened EvolutionModel
  import opened EvolutionHistory
  import opened EvolutionGuarantees
  import opened EvolutionAnswers

  class Scheduler {
    const cfg: Config
    var enabled: bool
    var running: bool
    var idleSinceMs: Option<nat>
    var lastObservedAtMs: Option<nat>
    var lastSuccessfulCuratorRunAtMs: Option<nat>
    var distillerBackoff: Backoff
    var curatorBackoff: Backoff

    ghost var trace: seq<Event>
    ghost var openedAt: nat

    ghost function Fields(): State
      reads this
    {
      State(enabled, running, idleSinceMs, lastObservedAtMs, lastSuccessfulCuratorRunAtMs,
            distillerBackoff, curatorBackoff, trace, openedAt)
    }

    constructor (config: Config, enabledAtFirst: bool, saved: Saved)
      requires ValidConfig(config) && ValidSaved(saved)
      ensures cfg == config && Fields() == Restored(saved, enabledAtFirst) && Inv(cfg, Fields()) && Right(cfg, Fields())
    {
      cfg, enabled, running := config, enabledAtFirst, false;
      idleSinceMs, lastObservedAtMs, lastSuccessfulCuratorRunAtMs := saved.idleSince, saved.lastObserved, saved.lastSuccess;
      distillerBackoff, curatorBackoff := saved.distiller, saved.curator;
      trace, openedAt := [Began(saved)], 0;
      RestoredInv(config, saved, enabledAtFirst);
      BeginsRight(config, saved, enabledAtFirst);
      hide Inv, Right;
    }

    method SetEnabled(on: bool)
      modifies this
      ensures Fields() == EvolutionModel.SetEnabled(old(Fields()), on)
    {
      enabled := on;
      if !on {
        idleSinceMs := None;
        trace := trace + [SwitchedOff];
      }
    }

    /** `#observeTime`. */
    method ObserveTime(now: nat) returns (clockRollback: bool)
      modifies this
      ensures Fields() == EvolutionModel.ObserveTime(old(Fields()), now)
      ensures clockRollback == RollsBack(old(Fields()), now)
    {
      clockRollback := lastObservedAtMs.Some? && now < lastObservedAtMs.value;
      if clockRollback { idleSinceMs := None; }
      lastObservedAtMs := Some(now);
      trace := trace + [Reading(now)];
    }

    /** `#observeIdle`. */
    method ObserveIdle(now: nat, idle: bool, clockRollback: bool)
      modifies this
      ensures Fields() == EvolutionModel.ObserveIdle(old(Fields()), now, idle, clockRollback)
    {
      trace := trace + [Probed(idle, now)];
      if !idle {
        idleSinceMs := None;
        return;
      }
      if clockRollback || idleSinceMs.None? || now < idleSinceMs.value {
        idleSinceMs := Some(now);
        openedAt := |trace| - 1;
      }
    }

    /** `#recordFailure`. */
    method RecordFailure(lane: Lane, now: nat)
      modifies this
      ensures Fields() == EvolutionModel.RecordFailure(cfg, old(Fields()), lane, now)
    {
      var failures := (if lane == Distiller then distillerBackoff.failures else curatorBackoff.failures) + 1;
      var exponent := Min(failures - 1, 52);
      var delay := Min(cfg.max, cfg.base * Pow2(exponent));
      var backoff := Backoff(failures, Some(now + delay));
      if lane == Distiller { distillerBackoff := backoff; } else { curatorBackoff := backoff; }
      trace := trace + [Failure(lane, now, failures)];
    }

    /** `resetBackoff`. */
    method ResetBackoff(lane: Lane)
      modifies this
      ensures Fields() == EvolutionModel.ResetBackoff(old(Fields()), lane)
    {
      if lane == Distiller { distillerBackoff := HEALTHY; } else { curatorBackoff := HEALTHY; }
      trace := trace + [Recovered(lane)];
    }

    /** `#recordCuratorSuccess`. */
    method RecordCuratorSuccess(atMs: nat)
      modifies this
      ensures Fields() == EvolutionModel.RecordCuratorSuccess(old(Fields()), atMs)
    {
      var last := if lastSuccessfulCuratorRunAtMs.Some? then lastSuccessfulCuratorRunAtMs.value else 0;
      lastSuccessfulCuratorRunAtMs := Some(Max(last, atMs));
      trace := trace + [Success(atMs)];
      ResetBackoff(Curator);
    }

    /** `recordManualCuratorRun`. */
    method RecordManualCuratorRun(record: Manual)
      modifies this
      ensures Fields() == RecordManual(old(Fields()), record)
    {
      trace := trace + [Reported(record)];
      if record.dryRun || !record.completed { return; }
      RecordCuratorSuccess(if record.completedAt.None? then record.reading else record.completedAt.value);
    }

    /** The manual runs the host reports while an await is pending. */
    method Meanwhile(manuals: seq<Manual>)
      modifies this
      ensures Fields() == RecordManuals(old(Fields()), manuals)
    {
      hide RecordManual;
      var i := 0;
      assert manuals[0..] == manuals;
      while i < |manuals|
        invariant 0 <= i <= |manuals|
        invariant RecordManuals(Fields(), manuals[i..]) == RecordManuals(old(Fields()), manuals)
      {
        assert manuals[i..][1..] == manuals[i + 1..];
        RecordManualCuratorRun(manuals[i]);
        i := i + 1;
      }
    }

    /** `#runLane`; `None` when the abort signal made it throw. */
    method RunLane(lane: Lane, startedAtMs: nat, a: Await<WorkerReply>, rolledBefore: bool)
      returns (attempt: Option<Attempted>, rolled: bool)
      modifies this
      ensures EvolutionModel.Step(Fields(), rolled, attempt)
           == EvolutionModel.RunLane(cfg, old(Fields()), rolledBefore, lane, startedAtMs, a)
    {
      hide EvolutionModel.ResetBackoff, EvolutionModel.RecordFailure, RecordManuals, EvolutionModel.ObserveTime, RollsBack;
      rolled := rolledBefore;
      var backoff := if lane == Distiller then distillerBackoff else curatorBackoff;
      if backoff.retryNotBefore.Some? && startedAtMs < backoff.retryNotBefore.value {
        return Some(Attempted(Skipped(BackingOff), startedAtMs, false, None)), rolled;
      }
      trace := trace + [Attempt(lane, startedAtMs)];
      Meanwhile(a.manuals);
      if a.reply.WorkerAborted? { return None, rolled; }
      var back := ObserveTime(a.reading);
      rolled := rolledBefore || back;
      var terminalAtMs := Max(startedAtMs, a.reading);
      trace := trace + [WorkerTold(lane, a.reply, terminalAtMs)];
      if a.reply.WorkerIdle? {
        ResetBackoff(lane);
        return Some(Attempted(LaneIdle, terminalAtMs, false, None)), rolled;
      }
      if a.reply.WorkerCompleted? {
        ResetBackoff(lane);
        return Some(Attempted(LaneCompleted, terminalAtMs, Persistent(a.reply.nested), None)), rolled;
      }
      RecordFailure(lane, terminalAtMs);
      attempt := Some(Attempted(LaneFailed, terminalAtMs, false, None));
    }

    /** `#ensureAndRunCurator`. */
    method EnsureAndRunCurator(startedAtMs: nat, e: Await<EnsureReply>, a: Await<WorkerReply>, rolledBefore: bool)
      returns (attempt: Option<Attempted>, rolled: bool)
      modifies this
      ensures EvolutionModel.Step(Fields(), rolled, attempt)
           == EvolutionModel.EnsureAndRunCurator(cfg, old(Fields()), rolledBefore, startedAtMs, e, a)
    {
      hide EvolutionModel.ResetBackoff, EvolutionModel.RecordFailure, RecordManuals, EvolutionModel.ObserveTime, RollsBack;
      hide EvolutionModel.RunLane;
      rolled := rolledBefore;
      var last := lastSuccessfulCuratorRunAtMs;
      var requestKey := if last.None? then None else Some(last.value + cfg.interval);
      trace := trace + [Attempt(Curator, startedAtMs)] + [Ensure(startedAtMs, requestKey)];
      Meanwhile(e.manuals);
      if e.reply.EnsureAborted? { return None, rolled; }
      var back := ObserveTime(e.reading);
      rolled := rolledBefore || back;
      var ensuredAtMs := Max(startedAtMs, e.reading);
      trace := trace + [ScheduleTold(e.reply, ensuredAtMs)];
      if e.reply.EnsureInvalid? || e.reply.EnsureRejected? {
        RecordFailure(Curator, ensuredAtMs);
        return Some(Attempted(LaneFailed, ensuredAtMs, false, None)), rolled;
      }
      if e.reply.NoWork? || e.reply.AlreadyCompleted? {
        ResetBackoff(Curator);
        var bucket := if e.reply.AlreadyCompleted? then Some(e.reply.bucket) else None;
        return Some(Attempted(LaneIdle, ensuredAtMs, false, bucket)), rolled;
      }
      attempt, rolled := RunLane(Curator, ensuredAtMs, a, rolled);
      if attempt.Some? { attempt := Some(attempt.value.(bucket := Some(e.reply.bucket))); }
    }

    /** What becomes of the result of a Curator attempt. */
    method NoteCurator(r: Attempted)
      modifies this
      ensures Fields() == AfterCurator(old(Fields()), r)
    {
      if r.lane.LaneCompleted? && r.persistent { RecordCuratorSuccess(r.terminalAt); }
      if r.lane.LaneCompleted? || r.lane.LaneFailed? {
        idleSinceMs := None;
        trace := trace + [CuratorTried];
      }
    }

    /** `tick` from the idle probe on. */
    method TickFromProbe(rolledBefore: bool, distiller: LaneResult, input: TickInput) returns (result: Option<TickResult>)
      modifies this
      ensures (Fields(), result) == TickCurator(cfg, old(Fields()), rolledBefore, distiller, input)
    {
      hide RecordManuals, EvolutionModel.ObserveTime, EvolutionModel.ObserveIdle, RollsBack, CuratorSkipReason;
      hide EvolutionModel.EnsureAndRunCurator, AfterCurator;
      Meanwhile(input.probe.manuals);
      if !input.probe.reply.Answered? {
        idleSinceMs := None;
        trace := trace + [ProbeFailed];
        return None;
      }
      var idle := input.probe.reply.idle;
      var back := ObserveTime(input.probe.reading);
      var rolled := rolledBefore || back;
      var atMs := input.probe.reading;
      ObserveIdle(atMs, idle, rolled);
      var curatorSkip := CuratorSkip(atMs, idle);
      if curatorSkip.Some? {
        return Some(Ticked(atMs, rolled, None, distiller, Skipped(curatorSkip.value)));
      }
      var attempt;
      attempt, rolled := EnsureAndRunCurator(atMs, input.ensure, input.curator, rolled);
      if attempt.None? { return None; }
      NoteCurator(attempt.value);
      atMs := if lastObservedAtMs.Some? then lastObservedAtMs.value else atMs;
      result := Some(Ticked(atMs, rolled, attempt.value.bucket, distiller, attempt.value.lane));
    }

    /** `#curatorSkipReason`. */
    method CuratorSkip(now: nat, idle: bool) returns (reason: Option<SkipReason>)
      ensures reason == CuratorSkipReason(cfg, Fields(), now, idle)
    {
      if !idle { return Some(NotIdle); }
      if idleSinceMs.None? || now - idleSinceMs.value < cfg.idleRequired { return Some(IdleWindow); }
      var last := lastSuccessfulCuratorRunAtMs;
      if last.Some? && now < last.value + cfg.interval { return Some(NotEligible); }
      if curatorBackoff.retryNotBefore.Some? && now < curatorBackoff.retryNotBefore.value { return Some(BackingOff); }
      reason := None;
    }

    /** The body of `tick`, inside its `try`. */
    method TickBody(input: TickInput) returns (result: Option<TickResult>)
      modifies this
      ensures (Fields(), result) == EvolutionModel.TickBody(cfg, old(Fields()), input)
    {
      hide EvolutionModel.ObserveTime, RollsBack, EvolutionModel.RunLane, TickCurator;
      var rolled := ObserveTime(input.first);
      var distiller;
      distiller, rolled := RunLane(Distiller, input.first, input.distiller, rolled);
      if distiller.None? { return None; }
      result := TickFromProbe(rolled, distiller.value.lane, input);
    }

    /** `tick`. */
    method Tick(input: TickInput) returns (result: Option<TickResult>)
      requires Inv(cfg, Fields()) && Right(cfg, Fields())
      modifies this
      ensures (Fields(), result) == EvolutionModel.Tick(cfg, old(Fields()), input)
      ensures Inv(cfg, Fields()) && Right(cfg, Fields())
      ensures
        (old(enabled) && !old(running) && !input.aborted
         && exists n :: |old(trace)| <= n < |trace| && trace[n].Ensure?)
        ==> Heard(old(Fields()), Fields(), input, result)
    {
      TickKeeps(cfg, Fields(), input);
      TickCounts(cfg, Fields(), input);
      if enabled && !running && !input.aborted { TickTells(cfg, Fields(), input); }
      hide Inv, Right, Heard, EvolutionModel.TickBody;
      if input.aborted { return None; }
      if !enabled { return Some(TickDisabled); }
      if running { return Some(TickBusy(lastObservedAtMs)); }
      running := true;
      result := TickBody(input);
      running := false;
    }
  }
}
