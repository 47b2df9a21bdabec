/**
 * The self-evolution scheduler: what one tick does to its fields, for every
 * answer of the workers, the idle probe and the clock. `trace` records what
 * happened since the scheduler was created.
 */
module EvolutionModel {
  import opened Common

  // ------------------------------------------------------------ configuration

  datatype Config = Config(interval: nat, idleRequired: nat, base: nat, max: nat)

  /** What the constructor demands. */
  predicate ValidConfig(cfg: Config)
  {
    0 < cfg.base <= cfg.max <= cfg.interval
  }

  function Pow2(n: nat): (p: nat)
    ensures p > 0
  {
    if n == 0 then 1 else 2 * Pow2(n - 1)
  }

  /** How long the lane waits after its `k`-th failure in a row. */
  function Delay(cfg: Config, k: nat): nat
    requires k > 0
  {
    Min(cfg.max, cfg.base * Pow2(Min(k - 1, 52)))
  }

  // -------------------------------------------------------------------- state

  datatype Lane = Distiller | Curator

  datatype Backoff = Backoff(failures: nat, retryNotBefore: Option<nat>)

  const HEALTHY := Backoff(0, None)

  datatype Saved = Saved(idleSince: Option<nat>, lastObserved: Option<nat>, lastSuccess: Option<nat>,
                         distiller: Backoff, curator: Backoff)

  datatype Event =
    | Began(from: Saved)                 // the scheduler was created, with these fields
    | Reading(t: nat)                    // a clock boundary
    | Probed(idle: bool, at: nat)        // the idle probe answered
    | ProbeFailed
    | SwitchedOff
    | Attempt(lane: Lane, start: nat)    // a worker, or the schedule enqueuer, is called
    | Ensure(t: nat, key: Option<nat>)   // ensureScheduledRun, with the eligibility time in its key
    | Failure(lane: Lane, t: nat, k: nat)
    | Recovered(lane: Lane)
    | Success(u: nat)                    // a persistent Curator run
    | CuratorTried                       // a Curator attempt completed or failed
    | WorkerTold(lane: Lane, reply: WorkerReply, at: nat)   // what a worker answered, and the time it ended
    | ScheduleTold(answer: EnsureReply, at: nat)            // what the schedule enqueuer answered
    | Reported(record: Manual)                              // the host told of a manual run

  datatype State = State(enabled: bool, running: bool, idleSince: Option<nat>, lastObserved: Option<nat>,
                         lastSuccess: Option<nat>, distiller: Backoff, curator: Backoff,
                         trace: seq<Event>, openedAt: nat)

  function Log(s: State, e: Event): State
  {
    s.(trace := s.trace + [e])
  }

  function BackoffOf(s: State, lane: Lane): Backoff
  {
    if lane == Distiller then s.distiller else s.curator
  }

  function WithBackoff(s: State, lane: Lane, b: Backoff): State
  {
    if lane == Distiller then s.(distiller := b) else s.(curator := b)
  }

  // ------------------------------------------------------------ private methods

  predicate RollsBack(s: State, now: nat)
  {
    s.lastObserved.Some? && now < s.lastObserved.value
  }

  /** `#observeTime`. */
  function ObserveTime(s: State, now: nat): State
  {
    Log(s, Reading(now)).(lastObserved := Some(now), idleSince := if RollsBack(s, now) then None else s.idleSince)
  }

  /** `#observeIdle`. */
  function ObserveIdle(s: State, now: nat, idle: bool, clockRollback: bool): State
  {
    var s1 := Log(s, Probed(idle, now));
    if !idle then s1.(idleSince := None)
    else if clockRollback || s.idleSince.None? || now < s.idleSince.value
    then s1.(idleSince := Some(now), openedAt := |s.trace|)
    else s1
  }

  function EligibleAt(cfg: Config, s: State): Option<nat>
  {
    if s.lastSuccess.None? then None else Some(s.lastSuccess.value + cfg.interval)
  }

  datatype SkipReason = Off | Busy | BackingOff | NotIdle | IdleWindow | NotEligible

  /** `#curatorSkipReason`. */
  function CuratorSkipReason(cfg: Config, s: State, now: nat, idle: bool): Option<SkipReason>
  {
    if !idle then Some(NotIdle)
    else if s.idleSince.None? || now - s.idleSince.value < cfg.idleRequired then Some(IdleWindow)
    else if EligibleAt(cfg, s).Some? && now < EligibleAt(cfg, s).value then Some(NotEligible)
    else if s.curator.retryNotBefore.Some? && now < s.curator.retryNotBefore.value then Some(BackingOff)
    else None
  }

  /** `#recordFailure`. */
  function RecordFailure(cfg: Config, s: State, lane: Lane, now: nat): State
  {
    var k := BackoffOf(s, lane).failures + 1;
    WithBackoff(Log(s, Failure(lane, now, k)), lane, Backoff(k, Some(now + Delay(cfg, k))))
  }

  /** `resetBackoff`. */
  function ResetBackoff(s: State, lane: Lane): State
  {
    WithBackoff(Log(s, Recovered(lane)), lane, HEALTHY)
  }

  /** `#recordCuratorSuccess`. */
  function RecordCuratorSuccess(s: State, at: nat): State
  {
    ResetBackoff(Log(s, Success(at)).(lastSuccess := Some(if s.lastSuccess.Some? then Max(s.lastSuccess.value, at) else at)),
                 Curator)
  }

  // ------------------------------------------------------------- public methods

  /** A manual Curator run reported by the host; `reading` is the clock at that moment. */
  datatype Manual = Manual(dryRun: bool, completed: bool, completedAt: Option<nat>, reading: nat)

  /** `recordManualCuratorRun`. */
  function RecordManual(s: State, m: Manual): State
  {
    var s1 := Log(s, Reported(m));
    if m.dryRun || !m.completed then s1
    else RecordCuratorSuccess(s1, if m.completedAt.Some? then m.completedAt.value else m.reading)
  }

  /** Manual runs reported while an await is pending. */
  function RecordManuals(s: State, manuals: seq<Manual>): State
    decreases |manuals|
  {
    if manuals == [] then s else RecordManuals(RecordManual(s, manuals[0]), manuals[1..])
  }

  /** `setEnabled`, between ticks. */
  function SetEnabled(s: State, enabled: bool): State
  {
    if enabled then s.(enabled := true) else Log(s, SwitchedOff).(enabled := false, idleSince := None)
  }

  /** The nested Core result of a completed worker run. */
  datatype Nested = Absent | NotAnObject | WithState(state: string)

  /** `isPersistentCuratorCompletion`. */
  predicate Persistent(nested: Nested)
  {
    nested.Absent? || nested == WithState("completed")
  }

  datatype WorkerReply = WorkerIdle | WorkerCompleted(nested: Nested) | WorkerFailed | WorkerInvalid | WorkerRejected | WorkerAborted

  datatype ProbeReply = Answered(idle: bool) | NotBoolean | ProbeRejected

  datatype EnsureReply =
    | Ready(bucket: string) | AlreadyCompleted(bucket: string) | NoWork(bucket: string)
    | EnsureInvalid | EnsureRejected | EnsureAborted

  /** What an await brings: manual runs in the meantime, the reply, and the clock at the boundary after it. */
  datatype Await<T> = Await(manuals: seq<Manual>, reply: T, reading: nat)

  datatype LaneResult = Skipped(reason: SkipReason) | LaneIdle | LaneCompleted | LaneFailed

  datatype Attempted = Attempted(lane: LaneResult, terminalAt: nat, persistent: bool, bucket: Option<string>)

  /** State and clock-rollback flag after a step of a tick, and what it gave; `None` when it threw. */
  datatype Step<T> = Step(s: State, clockRollback: bool, result: Option<T>)

  /** `observeBoundary`, the closure of `tick`. */
  function Boundary(s: State, clockRollback: bool, now: nat): (State, bool)
  {
    (ObserveTime(s, now), clockRollback || RollsBack(s, now))
  }

  /** `#runLane`. */
  function RunLane(cfg: Config, s: State, rolled: bool, lane: Lane, start: nat, a: Await<WorkerReply>): Step<Attempted>
  {
    var b := BackoffOf(s, lane);
    if b.retryNotBefore.Some? && start < b.retryNotBefore.value then
      Step(s, rolled, Some(Attempted(Skipped(BackingOff), start, false, None)))
    else
      var s1 := RecordManuals(Log(s, Attempt(lane, start)), a.manuals);
      if a.reply.WorkerAborted? then Step(s1, rolled, None)
      else
        var (s2, rolled') := Boundary(s1, rolled, a.reading);
        var terminalAt := Max(start, a.reading);
        var s3 := Log(s2, WorkerTold(lane, a.reply, terminalAt));
        if a.reply.WorkerIdle? then
          Step(ResetBackoff(s3, lane), rolled', Some(Attempted(LaneIdle, terminalAt, false, None)))
        else if a.reply.WorkerCompleted? then
          Step(ResetBackoff(s3, lane), rolled',
               Some(Attempted(LaneCompleted, terminalAt, Persistent(a.reply.nested), None)))
        else
          Step(RecordFailure(cfg, s3, lane, terminalAt), rolled', Some(Attempted(LaneFailed, terminalAt, false, None)))
  }

  /** `#ensureAndRunCurator`. */
  function EnsureAndRunCurator(cfg: Config, s: State, rolled: bool, start: nat, e: Await<EnsureReply>,
                               a: Await<WorkerReply>): Step<Attempted>
  {
    var called := Log(Log(s, Attempt(Curator, start)), Ensure(start, EligibleAt(cfg, s)));
    var s1 := RecordManuals(called, e.manuals);
    if e.reply.EnsureAborted? then Step(s1, rolled, None)
    else
      var (s2, rolled') := Boundary(s1, rolled, e.reading);
      var ensuredAt := Max(start, e.reading);
      var s3 := Log(s2, ScheduleTold(e.reply, ensuredAt));
      if e.reply.Ready? then
        var r := RunLane(cfg, s3, rolled', Curator, ensuredAt, a);
        if r.result.None? then r else r.(result := Some(r.result.value.(bucket := Some(e.reply.bucket))))
      else if e.reply.AlreadyCompleted? then
        Step(ResetBackoff(s3, Curator), rolled', Some(Attempted(LaneIdle, ensuredAt, false, Some(e.reply.bucket))))
      else if e.reply.NoWork? then
        Step(ResetBackoff(s3, Curator), rolled', Some(Attempted(LaneIdle, ensuredAt, false, None)))
      else
        Step(RecordFailure(cfg, s3, Curator, ensuredAt), rolled', Some(Attempted(LaneFailed, ensuredAt, false, None)))
  }

  /** What `tick` does with the result of a Curator attempt. */
  function AfterCurator(s: State, r: Attempted): State
  {
    var s1 := if r.lane.LaneCompleted? && r.persistent then RecordCuratorSuccess(s, r.terminalAt) else s;
    if r.lane.LaneCompleted? || r.lane.LaneFailed? then Log(s1, CuratorTried).(idleSince := None) else s1
  }

  datatype TickInput = TickInput(aborted: bool, first: nat, distiller: Await<WorkerReply>, probe: Await<ProbeReply>,
                                 ensure: Await<EnsureReply>, curator: Await<WorkerReply>)

  datatype TickResult =
    | TickDisabled
    | TickBusy(at: Option<nat>)
    | Ticked(atMs: nat, clockRollback: bool, bucket: Option<string>, distiller: LaneResult, curator: LaneResult)

  /** From the idle probe on. */
  function TickCurator(cfg: Config, s: State, rolled: bool, distiller: LaneResult, input: TickInput): (State, Option<TickResult>)
  {
    var s1 := RecordManuals(s, input.probe.manuals);
    if !input.probe.reply.Answered? then (Log(s1, ProbeFailed).(idleSince := None), None)
    else
      var idle := input.probe.reply.idle;
      var (s2, rolled2) := Boundary(s1, rolled, input.probe.reading);
      var s3 := ObserveIdle(s2, input.probe.reading, idle, rolled2);
      var skip := CuratorSkipReason(cfg, s3, input.probe.reading, idle);
      if skip.Some? then
        (s3, Some(Ticked(input.probe.reading, rolled2, None, distiller, Skipped(skip.value))))
      else
        var r := EnsureAndRunCurator(cfg, s3, rolled2, input.probe.reading, input.ensure, input.curator);
        if r.result.None? then (r.s, None)
        else
          var s4 := AfterCurator(r.s, r.result.value);
          var at := if s4.lastObserved.Some? then s4.lastObserved.value else input.probe.reading;
          (s4, Some(Ticked(at, r.clockRollback, r.result.value.bucket, distiller, r.result.value.lane)))
  }

  /** The body of `tick`, once it has marked itself as running. */
  function TickBody(cfg: Config, s: State, input: TickInput): (State, Option<TickResult>)
  {
    var (s1, rolled) := Boundary(s, false, input.first);
    var d := RunLane(cfg, s1, rolled, Distiller, input.first, input.distiller);
    if d.result.None? then (d.s, None)
    else TickCurator(cfg, d.s, d.clockRollback, d.result.value.lane, input)
  }

  /** `tick`; `None` when it throws. However it ends, it is no longer running. */
  function Tick(cfg: Config, s: State, input: TickInput): (State, Option<TickResult>)
  {
    if input.aborted then (s, None)
    else if !s.enabled then (s, Some(TickDisabled))
    else if s.running then (s, Some(TickBusy(s.lastObserved)))
    else
      var (s1, result) := TickBody(cfg, s.(running := true), input);
      (s1.(running := false), result)
  }

  // ----------------------------------------------------------- save and restore

  /** The fields of `snapshot` that a host saves. */
  function Snapshot(s: State): Saved
  {
    Saved(s.idleSince, s.lastObserved, s.lastSuccess, s.distiller, s.curator)
  }

  predicate ConsistentBackoff(b: Backoff)
  {
    b.failures == 0 <==> b.retryNotBefore.None?
  }

  /** `validateRestoreState`. */
  predicate ValidSaved(saved: Saved)
  {
    && (saved.idleSince.Some? ==> saved.lastObserved.Some? && saved.idleSince.value <= saved.lastObserved.value)
    && ConsistentBackoff(saved.distiller) && ConsistentBackoff(saved.curator)
  }

  /** A scheduler constructed from saved fields. */
  function Restored(saved: Saved, enabled: bool): State
  {
    State(enabled, false, saved.idleSince, saved.lastObserved, saved.lastSuccess, saved.distiller, saved.curator,
          [Began(saved)], 0)
  }

  /** The saved fields are taken up by a new process; the history goes on. */
  function TakenUp(s: State, enabled: bool): State
  {
    Restored(Snapshot(s), enabled).(trace := s.trace + [Began(Snapshot(s))], openedAt := s.openedAt)
  }

  // --------------------------------------------------------------------- runs

  /** What a host may do between ticks. */
  datatype Action =
    | DoTick(input: TickInput)
    | DoManual(manual: Manual)
    | DoSetEnabled(enabled: bool)
    | SaveAndRestore(enabled: bool)   // a new process takes up the saved fields

  function Act(cfg: Config, s: State, a: Action): State
  {
    match a
    case DoTick(input) => Tick(cfg, s, input).0
    case DoManual(m) => RecordManual(s, m)
    case DoSetEnabled(enabled) => SetEnabled(s, enabled)
    case SaveAndRestore(enabled) => TakenUp(s, enabled)
  }

  function Run(cfg: Config, s: State, actions: seq<Action>): State
    decreases |actions|
  {
    if actions == [] then s else Run(cfg, Act(cfg, s, actions[0]), actions[1..])
  }
}
