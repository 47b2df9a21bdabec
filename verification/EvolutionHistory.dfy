/** What the scheduler keeps over whole histories of ticks, with a clock that may go backwards. */
module EvolutionHistory {
  import opened Common
  import opened EvolutionModel

  // ------------------------------------------------------------- the claims

  /** This event ends a stretch of idleness. */
  predicate Breaks(e: Event)
  {
    e.ProbeFailed? || e.SwitchedOff? || e.CuratorTried? || (e.Probed? && !e.idle)
  }

  /** The time the scheduler observed with this event. */
  function TimeOf(e: Event): Option<nat>
  {
    match e
    case Reading(t) => Some(t)
    case Probed(_, t) => Some(t)
    case Began(from) => from.lastObserved
    case _ => None
  }

  predicate Ordered(e: Event, f: Event)
  {
    TimeOf(e).Some? && TimeOf(f).Some? ==> TimeOf(e).value <= TimeOf(f).value
  }

  /** The idle window that began at time `s` with event `k`: the probe answered idle, or saved fields say so. */
  predicate Opens(e: Event, s: nat)
  {
    e == Probed(true, s) || (e.Began? && e.from.idleSince == Some(s))
  }

  /** Up to event `i` nothing has ended the window opened at `k`, and the clock has not gone backwards in it. */
  predicate Unbroken(trace: seq<Event>, k: nat, i: nat)
    requires k < i <= |trace|
  {
    && (forall j :: k < j < i ==> !Breaks(trace[j]))
    && (forall a, b :: k <= a < b < i ==> Ordered(trace[a], trace[b]))
  }

  /** Every persistent success before event `i`, and every saved one, lies an interval back. */
  predicate SuccessesOld(cfg: Config, trace: seq<Event>, i: nat, t: nat)
    requires i <= |trace|
  {
    forall j :: 0 <= j < i ==>
      && (trace[j].Success? ==> trace[j].u + cfg.interval <= t)
      && (trace[j].Began? && trace[j].from.lastSuccess.Some? ==> trace[j].from.lastSuccess.value + cfg.interval <= t)
  }

  /** The Curator's schedule is only ensured after a full idle window and a full interval. */
  ghost predicate EnsureOk(cfg: Config, trace: seq<Event>, i: nat)
    requires i < |trace|
  {
    trace[i].Ensure? ==>
      && SuccessesOld(cfg, trace, i, trace[i].t)
      && exists k, s: nat :: 0 <= k < i && Opens(trace[k], s) && s + cfg.idleRequired <= trace[i].t && Unbroken(trace, k, i)
  }

  /** Between events `a` and `b` the lane has not recovered. */
  predicate NoRecovery(trace: seq<Event>, lane: Lane, a: nat, b: nat)
    requires a < b <= |trace|
  {
    forall j :: a < j < b ==> trace[j] != Recovered(lane)
  }

  /** The delays after failures number `k` to `n - 1` of a series. */
  function Delays(cfg: Config, k: nat, n: nat): nat
    requires 0 < k <= n
    decreases n - k
  {
    if k == n then 0 else Delay(cfg, k) + Delays(cfg, k + 1, n)
  }

  lemma {:induction false} DelaysMore(cfg: Config, k: nat, n: nat)
    requires 0 < k <= n
    ensures Delays(cfg, k, n + 1) == Delays(cfg, k, n) + Delay(cfg, n)
    decreases n - k
  {
    if k < n {
      DelaysMore(cfg, k + 1, n);
    } else {
      assert Delays(cfg, n + 1, n + 1) == 0;
    }
  }

  function SavedBackoff(from: Saved, lane: Lane): Backoff
  {
    if lane == Distiller then from.distiller else from.curator
  }

  /** How many failures in a row the lane has had by event `n`, counting those saved fields tell of. */
  function SeriesLength(trace: seq<Event>, lane: Lane, n: nat): nat
    requires n <= |trace|
  {
    if n == 0 || trace[n - 1] == Recovered(lane) then 0
    else if trace[n - 1].Began? then SavedBackoff(trace[n - 1].from, lane).failures
    else if trace[n - 1].Failure? && trace[n - 1].lane == lane then SeriesLength(trace, lane, n - 1) + 1
    else SeriesLength(trace, lane, n - 1)
  }

  lemma {:induction false} SeriesPrefix(trace: seq<Event>, lane: Lane, e: Event, n: nat)
    requires n <= |trace|
    ensures SeriesLength(trace + [e], lane, n) == SeriesLength(trace, lane, n)
  {
    if n > 0 {
      SeriesPrefix(trace, lane, e, n - 1);
    }
  }

  /** An attempt waits out the delay of every failure of its series. */
  predicate AttemptOk(cfg: Config, trace: seq<Event>, i: nat)
    requires i < |trace|
  {
    trace[i].Attempt? ==>
      var lane, start := trace[i].lane, trace[i].start;
      forall j :: 0 <= j < i && NoRecovery(trace, lane, j, i) ==>
        && (trace[j].Failure? && trace[j].lane == lane ==>
              trace[j].k > 0 && trace[j].t + Delay(cfg, trace[j].k) <= start)
        && (trace[j].Began? && SavedBackoff(trace[j].from, lane).retryNotBefore.Some? ==>
              SavedBackoff(trace[j].from, lane).retryNotBefore.value <= start)
  }

  /** The failures of a series are numbered on, and lie at least the delays in between apart. */
  predicate FailureOk(cfg: Config, trace: seq<Event>, i: nat)
    requires i < |trace|
  {
    trace[i].Failure? ==>
      var lane, t, k := trace[i].lane, trace[i].t, trace[i].k;
      k == SeriesLength(trace, lane, i + 1)
      && forall j :: 0 <= j < i && NoRecovery(trace, lane, j, i) && trace[j].Failure? && trace[j].lane == lane ==>
        0 < trace[j].k < k && trace[j].t + Delays(cfg, trace[j].k, k) <= t
  }

  ghost predicate EventOk(cfg: Config, trace: seq<Event>, i: nat)
    requires i < |trace|
  {
    EnsureOk(cfg, trace, i) && AttemptOk(cfg, trace, i) && FailureOk(cfg, trace, i)
  }

  ghost predicate HistoryOk(cfg: Config, trace: seq<Event>)
  {
    forall i :: 0 <= i < |trace| ==> EventOk(cfg, trace, i)
  }

  // ------------------------------------------------------------- invariant

  /** The window the `idleSince` field stands for. */
  ghost predicate WindowOk(trace: seq<Event>, idleSince: Option<nat>, lastObserved: Option<nat>, k: nat)
  {
    idleSince.Some? ==>
      && lastObserved.Some? && idleSince.value <= lastObserved.value
      && k < |trace| && Opens(trace[k], idleSince.value) && Unbroken(trace, k, |trace|)
      && forall j :: k <= j < |trace| && TimeOf(trace[j]).Some? ==> TimeOf(trace[j]).value <= lastObserved.value
  }

  ghost predicate SuccessOk(trace: seq<Event>, lastSuccess: Option<nat>)
  {
    forall j :: 0 <= j < |trace| ==>
      && (trace[j].Success? ==> lastSuccess.Some? && trace[j].u <= lastSuccess.value)
      && (trace[j].Began? && trace[j].from.lastSuccess.Some? ==>
            lastSuccess.Some? && trace[j].from.lastSuccess.value <= lastSuccess.value)
  }

  /** The back-off a lane's fields stand for: every failure of the current series is waited out. */
  ghost predicate LaneOk(cfg: Config, trace: seq<Event>, lane: Lane, b: Backoff)
  {
    && ConsistentBackoff(b) && b.failures == SeriesLength(trace, lane, |trace|)
    && forall j :: 0 <= j < |trace| && NoRecovery(trace, lane, j, |trace|) ==>
         && (trace[j].Failure? && trace[j].lane == lane ==>
               && 0 < trace[j].k <= b.failures && b.retryNotBefore.Some?
               && trace[j].t + Delays(cfg, trace[j].k, b.failures + 1) <= b.retryNotBefore.value)
         && (trace[j].Began? && SavedBackoff(trace[j].from, lane).retryNotBefore.Some? ==>
               b.retryNotBefore.Some?
               && SavedBackoff(trace[j].from, lane).retryNotBefore.value <= b.retryNotBefore.value)
  }

  ghost predicate Inv(cfg: Config, s: State)
  {
    && HistoryOk(cfg, s.trace)
    && WindowOk(s.trace, s.idleSince, s.lastObserved, s.openedAt)
    && SuccessOk(s.trace, s.lastSuccess)
    && LaneOk(cfg, s.trace, Distiller, s.distiller)
    && LaneOk(cfg, s.trace, Curator, s.curator)
  }

  // ------------------------------------------------- adding one event to a trace

  /** Claims about earlier events do not depend on what follows. */
  lemma EventStays(cfg: Config, trace: seq<Event>, e: Event, i: nat)
    requires i < |trace| && EventOk(cfg, trace, i)
    ensures EventOk(cfg, trace + [e], i)
  {
    var more := trace + [e];
    assert forall j :: 0 <= j < |trace| ==> more[j] == trace[j];
    if trace[i].Failure? { SeriesPrefix(trace, trace[i].lane, e, i + 1); }
    if trace[i].Ensure? {
      var k, s: nat :| 0 <= k < i && Opens(trace[k], s) && s + cfg.idleRequired <= trace[i].t && Unbroken(trace, k, i);
      assert Opens(more[k], s) && Unbroken(more, k, i);
      assert SuccessesOld(cfg, more, i, trace[i].t);
    }
    forall lane, j | 0 <= j < i ensures NoRecovery(more, lane, j, i) <==> NoRecovery(trace, lane, j, i) {
    }
  }

  lemma HistoryAppend(cfg: Config, trace: seq<Event>, e: Event)
    requires HistoryOk(cfg, trace) && EventOk(cfg, trace + [e], |trace|)
    ensures HistoryOk(cfg, trace + [e])
  {
    hide EventOk;
    forall i | 0 <= i < |trace| + 1 ensures EventOk(cfg, trace + [e], i) {
      if i < |trace| { EventStays(cfg, trace, e, i); }
    }
  }

  /** An event that claims nothing itself. */
  lemma HistoryPlain(cfg: Config, trace: seq<Event>, e: Event)
    requires HistoryOk(cfg, trace) && !e.Ensure? && !e.Attempt? && !e.Failure?
    ensures HistoryOk(cfg, trace + [e])
  {
    HistoryAppend(cfg, trace, e);
  }

  lemma WindowAppend(trace: seq<Event>, idleSince: Option<nat>, lastObserved: Option<nat>, k: nat, e: Event, now: Option<nat>)
    requires WindowOk(trace, idleSince, lastObserved, k) && !Breaks(e)
    requires lastObserved.Some? ==> now.Some? && lastObserved.value <= now.value
    requires TimeOf(e).Some? ==> TimeOf(e) == now
    ensures WindowOk(trace + [e], idleSince, now, k)
  {
    var more := trace + [e];
    assert forall j :: 0 <= j < |trace| ==> more[j] == trace[j];
    if idleSince.Some? {
      assert Unbroken(more, k, |more|);
    }
  }

  lemma SuccessAppend(trace: seq<Event>, lastSuccess: Option<nat>, e: Event)
    requires SuccessOk(trace, lastSuccess) && !e.Success? && !e.Began?
    ensures SuccessOk(trace + [e], lastSuccess)
  {
  }

  /** An event that is no failure of this lane leaves its back-off as it stands. */
  lemma LaneAppend(cfg: Config, trace: seq<Event>, lane: Lane, b: Backoff, e: Event)
    requires LaneOk(cfg, trace, lane, b) && !e.Began? && !(e.Failure? && e.lane == lane) && e != Recovered(lane)
    ensures LaneOk(cfg, trace + [e], lane, b)
  {
    SeriesPrefix(trace, lane, e, |trace|);
    var more := trace + [e];
    assert forall j :: 0 <= j < |trace| ==> more[j] == trace[j];
    forall j | 0 <= j < |trace| && NoRecovery(more, lane, j, |more|)
      ensures NoRecovery(trace, lane, j, |trace|)
    {
    }
  }

  lemma LaneRecovered(cfg: Config, trace: seq<Event>, lane: Lane)
    ensures LaneOk(cfg, trace + [Recovered(lane)], lane, HEALTHY)
  {
    assert SeriesLength(trace + [Recovered(lane)], lane, |trace| + 1) == 0;
    var more := trace + [Recovered(lane)];
    assert more[|trace|] == Recovered(lane);
    assert forall j :: 0 <= j < |trace| ==> !NoRecovery(more, lane, j, |more|);
  }

  // ------------------------------------------------------- the private methods

  lemma ObserveTimeKeeps(cfg: Config, s: State, now: nat)
    requires Inv(cfg, s)
    ensures Inv(cfg, ObserveTime(s, now)) && ObserveTime(s, now).lastObserved == Some(now)
  {
    var e := Reading(now);
    HistoryPlain(cfg, s.trace, e);
    SuccessAppend(s.trace, s.lastSuccess, e);
    LaneAppend(cfg, s.trace, Distiller, s.distiller, e);
    LaneAppend(cfg, s.trace, Curator, s.curator, e);
    if !RollsBack(s, now) { WindowAppend(s.trace, s.idleSince, s.lastObserved, s.openedAt, e, Some(now)); }
    hide HistoryOk, SuccessOk, LaneOk;
  }

  lemma WindowOpens(trace: seq<Event>, now: nat)
    ensures WindowOk(trace + [Probed(true, now)], Some(now), Some(now), |trace|)
  {
  }

  lemma ObserveIdleKeeps(cfg: Config, s: State, now: nat, idle: bool, rolled: bool)
    requires Inv(cfg, s) && s.lastObserved == Some(now)
    ensures Inv(cfg, ObserveIdle(s, now, idle, rolled))
  {
    var e := Probed(idle, now);
    HistoryPlain(cfg, s.trace, e);
    SuccessAppend(s.trace, s.lastSuccess, e);
    LaneAppend(cfg, s.trace, Distiller, s.distiller, e);
    LaneAppend(cfg, s.trace, Curator, s.curator, e);
    WindowOpens(s.trace, now);
    if idle { WindowAppend(s.trace, s.idleSince, s.lastObserved, s.openedAt, e, Some(now)); }
    hide HistoryOk, SuccessOk, LaneOk;
    assert !idle ==> WindowOk(s.trace + [e], None, s.lastObserved, s.openedAt);
  }

  /** An event that only ends the idle window. */
  lemma BreakKeeps(cfg: Config, s: State, e: Event)
    requires Inv(cfg, s) && (e.ProbeFailed? || e.SwitchedOff? || e.CuratorTried?)
    ensures Inv(cfg, Log(s, e).(idleSince := None))
  {
    HistoryPlain(cfg, s.trace, e);
    SuccessAppend(s.trace, s.lastSuccess, e);
    LaneAppend(cfg, s.trace, Distiller, s.distiller, e);
    LaneAppend(cfg, s.trace, Curator, s.curator, e);
    hide HistoryOk, SuccessOk, LaneOk;
  }

  /** What is only taken down changes nothing. */
  lemma NoteKeeps(cfg: Config, s: State, e: Event)
    requires Inv(cfg, s) && (e.WorkerTold? || e.ScheduleTold? || e.Reported?)
    ensures Inv(cfg, Log(s, e))
  {
    HistoryPlain(cfg, s.trace, e);
    SuccessAppend(s.trace, s.lastSuccess, e);
    WindowAppend(s.trace, s.idleSince, s.lastObserved, s.openedAt, e, s.lastObserved);
    LaneAppend(cfg, s.trace, Distiller, s.distiller, e);
    LaneAppend(cfg, s.trace, Curator, s.curator, e);
    hide HistoryOk, SuccessOk, LaneOk, WindowOk;
  }

  lemma ResetKeeps(cfg: Config, s: State, lane: Lane)
    requires Inv(cfg, s)
    ensures Inv(cfg, ResetBackoff(s, lane))
  {
    var e := Recovered(lane);
    HistoryPlain(cfg, s.trace, e);
    SuccessAppend(s.trace, s.lastSuccess, e);
    WindowAppend(s.trace, s.idleSince, s.lastObserved, s.openedAt, e, s.lastObserved);
    if lane == Curator {
      LaneAppend(cfg, s.trace, Distiller, s.distiller, e);
    } else {
      LaneAppend(cfg, s.trace, Curator, s.curator, e);
    }
    LaneRecovered(cfg, s.trace, lane);
    hide HistoryOk, SuccessOk, LaneOk, WindowOk;
  }

  lemma SuccessKeeps(cfg: Config, s: State, at: nat)
    requires Inv(cfg, s)
    ensures Inv(cfg, RecordCuratorSuccess(s, at))
  {
    var e := Success(at);
    var last := Some(if s.lastSuccess.Some? then Max(s.lastSuccess.value, at) else at);
    HistoryPlain(cfg, s.trace, e);
    assert SuccessOk(s.trace + [e], last);
    WindowAppend(s.trace, s.idleSince, s.lastObserved, s.openedAt, e, s.lastObserved);
    LaneAppend(cfg, s.trace, Distiller, s.distiller, e);
    LaneAppend(cfg, s.trace, Curator, s.curator, e);
    hide HistoryOk, SuccessOk, LaneOk, WindowOk;
    ResetKeeps(cfg, Log(s, e).(lastSuccess := last), Curator);
  }

  /** The lane is not backing off at this time. */
  predicate Rested(b: Backoff, now: nat)
  {
    b.retryNotBefore.Some? ==> b.retryNotBefore.value <= now
  }

  lemma {:induction false} ManualsKeep(cfg: Config, s: State, manuals: seq<Manual>, start: nat)
    requires Inv(cfg, s)
    ensures
      var r := RecordManuals(s, manuals);
      && Inv(cfg, r) && r.distiller == s.distiller && r.lastObserved == s.lastObserved
      && (Rested(s.curator, start) ==> Rested(r.curator, start))
    decreases |manuals|
  {
    hide Inv;
    if manuals != [] {
      var m := manuals[0];
      NoteKeeps(cfg, s, Reported(m));
      if !m.dryRun && m.completed {
        SuccessKeeps(cfg, Log(s, Reported(m)), if m.completedAt.Some? then m.completedAt.value else m.reading);
      }
      ManualsKeep(cfg, RecordManual(s, m), manuals[1..], start);
    }
  }

  // ----------------------------------------------------- attempts and failures

  lemma AttemptClaim(cfg: Config, trace: seq<Event>, lane: Lane, b: Backoff, start: nat)
    requires LaneOk(cfg, trace, lane, b) && Rested(b, start)
    ensures EventOk(cfg, trace + [Attempt(lane, start)], |trace|)
  {
    var more := trace + [Attempt(lane, start)];
    assert forall j :: 0 <= j < |trace| ==> more[j] == trace[j];
    forall j | 0 <= j < |trace| && NoRecovery(more, lane, j, |trace|) ensures NoRecovery(trace, lane, j, |trace|) {
    }
    forall k: nat, n: nat | 0 < k < n ensures Delay(cfg, k) <= Delays(cfg, k, n) {
    }
  }

  lemma AttemptKeeps(cfg: Config, s: State, lane: Lane, start: nat)
    requires Inv(cfg, s) && Rested(BackoffOf(s, lane), start)
    ensures Inv(cfg, Log(s, Attempt(lane, start)))
  {
    var e := Attempt(lane, start);
    AttemptClaim(cfg, s.trace, lane, BackoffOf(s, lane), start);
    HistoryAppend(cfg, s.trace, e);
    SuccessAppend(s.trace, s.lastSuccess, e);
    WindowAppend(s.trace, s.idleSince, s.lastObserved, s.openedAt, e, s.lastObserved);
    LaneAppend(cfg, s.trace, Distiller, s.distiller, e);
    LaneAppend(cfg, s.trace, Curator, s.curator, e);
    hide HistoryOk, SuccessOk, LaneOk, WindowOk;
  }

  lemma FailureClaim(cfg: Config, trace: seq<Event>, lane: Lane, b: Backoff, now: nat)
    requires LaneOk(cfg, trace, lane, b) && Rested(b, now)
    ensures EventOk(cfg, trace + [Failure(lane, now, b.failures + 1)], |trace|)
  {
    SeriesPrefix(trace, lane, Failure(lane, now, b.failures + 1), |trace|);
    var more := trace + [Failure(lane, now, b.failures + 1)];
    assert forall j :: 0 <= j < |trace| ==> more[j] == trace[j];
    forall j | 0 <= j < |trace| && NoRecovery(more, lane, j, |trace|) ensures NoRecovery(trace, lane, j, |trace|) {
    }
  }

  lemma FailureLane(cfg: Config, trace: seq<Event>, lane: Lane, b: Backoff, now: nat)
    requires LaneOk(cfg, trace, lane, b) && Rested(b, now)
    ensures
      var k := b.failures + 1;
      LaneOk(cfg, trace + [Failure(lane, now, k)], lane, Backoff(k, Some(now + Delay(cfg, k))))
  {
    var k := b.failures + 1;
    SeriesPrefix(trace, lane, Failure(lane, now, k), |trace|);
    var more := trace + [Failure(lane, now, k)];
    assert forall j :: 0 <= j < |trace| ==> more[j] == trace[j];
    forall j | 0 <= j < |trace| && NoRecovery(more, lane, j, |more|) ensures NoRecovery(trace, lane, j, |trace|) {
    }
    forall j | 0 <= j < |trace| && more[j].Failure? && 0 < more[j].k <= k
      ensures Delays(cfg, more[j].k, k + 1) == Delays(cfg, more[j].k, k) + Delay(cfg, k)
    {
      DelaysMore(cfg, more[j].k, k);
    }
    DelaysMore(cfg, k, k);
  }

  lemma FailureKeeps(cfg: Config, s: State, lane: Lane, now: nat)
    requires Inv(cfg, s) && Rested(BackoffOf(s, lane), now)
    ensures Inv(cfg, RecordFailure(cfg, s, lane, now))
  {
    hide HistoryOk, EventOk, SuccessOk, LaneOk, WindowOk, Rested, Delay;
    var b := BackoffOf(s, lane);
    var e := Failure(lane, now, b.failures + 1);
    FailureClaim(cfg, s.trace, lane, b, now);
    FailureLane(cfg, s.trace, lane, b, now);
    HistoryAppend(cfg, s.trace, e);
    SuccessAppend(s.trace, s.lastSuccess, e);
    WindowAppend(s.trace, s.idleSince, s.lastObserved, s.openedAt, e, s.lastObserved);
    if lane == Curator {
      LaneAppend(cfg, s.trace, Distiller, s.distiller, e);
    } else {
      LaneAppend(cfg, s.trace, Curator, s.curator, e);
    }
  }

  lemma EnsureClaim(cfg: Config, s: State, now: nat, key: Option<nat>)
    requires WindowOk(s.trace, s.idleSince, s.lastObserved, s.openedAt) && SuccessOk(s.trace, s.lastSuccess)
    requires CuratorSkipReason(cfg, s, now, true) == None
    ensures EventOk(cfg, s.trace + [Ensure(now, key)], |s.trace|)
  {
    var more := s.trace + [Ensure(now, key)];
    assert forall j :: 0 <= j < |s.trace| ==> more[j] == s.trace[j];
    assert Opens(more[s.openedAt], s.idleSince.value) && Unbroken(more, s.openedAt, |s.trace|);
    assert SuccessesOld(cfg, more, |s.trace|, now);
  }

  lemma EnsureKeeps(cfg: Config, s: State, now: nat, key: Option<nat>)
    requires Inv(cfg, s) && CuratorSkipReason(cfg, s, now, true) == None
    ensures Inv(cfg, Log(s, Ensure(now, key)))
  {
    var e := Ensure(now, key);
    EnsureClaim(cfg, s, now, key);
    HistoryAppend(cfg, s.trace, e);
    SuccessAppend(s.trace, s.lastSuccess, e);
    WindowAppend(s.trace, s.idleSince, s.lastObserved, s.openedAt, e, s.lastObserved);
    LaneAppend(cfg, s.trace, Distiller, s.distiller, e);
    LaneAppend(cfg, s.trace, Curator, s.curator, e);
    hide HistoryOk, SuccessOk, LaneOk, WindowOk;
  }

  // ------------------------------------------------------------------ one tick

  lemma RunLaneKeeps(cfg: Config, s: State, rolled: bool, lane: Lane, start: nat, a: Await<WorkerReply>)
    requires Inv(cfg, s)
    ensures Inv(cfg, RunLane(cfg, s, rolled, lane, start, a).s)
  {
    hide Inv, RecordFailure, ResetBackoff;
    var b := BackoffOf(s, lane);
    if Rested(b, start) {
      AttemptKeeps(cfg, s, lane, start);
      var s0 := Log(s, Attempt(lane, start));
      ManualsKeep(cfg, s0, a.manuals, start);
      var s1 := RecordManuals(s0, a.manuals);
      ObserveTimeKeeps(cfg, s1, a.reading);
      var s2 := ObserveTime(s1, a.reading);
      var told := WorkerTold(lane, a.reply, Max(start, a.reading));
      NoteKeeps(cfg, s2, told);
      var s3 := Log(s2, told);
      assert Rested(BackoffOf(s3, lane), Max(start, a.reading));
      ResetKeeps(cfg, s3, lane);
      FailureKeeps(cfg, s3, lane, Max(start, a.reading));
    }
  }

  lemma EnsureAndRunKeeps(cfg: Config, s: State, rolled: bool, start: nat, e: Await<EnsureReply>, a: Await<WorkerReply>)
    requires Inv(cfg, s) && CuratorSkipReason(cfg, s, start, true) == None
    ensures Inv(cfg, EnsureAndRunCurator(cfg, s, rolled, start, e, a).s)
  {
    hide Inv, RecordFailure, ResetBackoff, RunLane;
    AttemptKeeps(cfg, s, Curator, start);
    var s0 := Log(s, Attempt(Curator, start));
    EnsureKeeps(cfg, s0, start, EligibleAt(cfg, s));
    var called := Log(s0, Ensure(start, EligibleAt(cfg, s)));
    ManualsKeep(cfg, called, e.manuals, start);
    var s1 := RecordManuals(called, e.manuals);
    ObserveTimeKeeps(cfg, s1, e.reading);
    var s2 := ObserveTime(s1, e.reading);
    var ensuredAt := Max(start, e.reading);
    NoteKeeps(cfg, s2, ScheduleTold(e.reply, ensuredAt));
    var s3 := Log(s2, ScheduleTold(e.reply, ensuredAt));
    ResetKeeps(cfg, s3, Curator);
    FailureKeeps(cfg, s3, Curator, ensuredAt);
    RunLaneKeeps(cfg, s3, rolled || RollsBack(s1, e.reading), Curator, ensuredAt, a);
  }

  lemma AfterCuratorKeeps(cfg: Config, s: State, r: Attempted)
    requires Inv(cfg, s)
    ensures Inv(cfg, AfterCurator(s, r))
  {
    hide Inv, RecordCuratorSuccess;
    SuccessKeeps(cfg, s, r.terminalAt);
    var s1 := if r.lane.LaneCompleted? && r.persistent then RecordCuratorSuccess(s, r.terminalAt) else s;
    BreakKeeps(cfg, s1, CuratorTried);
  }

  lemma TickCuratorKeeps(cfg: Config, s: State, rolled: bool, distiller: LaneResult, input: TickInput)
    requires Inv(cfg, s)
    ensures Inv(cfg, TickCurator(cfg, s, rolled, distiller, input).0)
  {
    hide Inv, EnsureAndRunCurator, AfterCurator, ObserveIdle, CuratorSkipReason;
    ManualsKeep(cfg, s, input.probe.manuals, 0);
    var s1 := RecordManuals(s, input.probe.manuals);
    if !input.probe.reply.Answered? {
      BreakKeeps(cfg, s1, ProbeFailed);
    } else {
      var idle, now := input.probe.reply.idle, input.probe.reading;
      ObserveTimeKeeps(cfg, s1, now);
      var rolled2 := rolled || RollsBack(s1, now);
      ObserveIdleKeeps(cfg, ObserveTime(s1, now), now, idle, rolled2);
      var s3 := ObserveIdle(ObserveTime(s1, now), now, idle, rolled2);
      if CuratorSkipReason(cfg, s3, now, idle).None? {
        OnlyWhenIdle(cfg, s3, now, idle);
        EnsureAndRunKeeps(cfg, s3, rolled2, now, input.ensure, input.curator);
        var r := EnsureAndRunCurator(cfg, s3, rolled2, now, input.ensure, input.curator);
        if r.result.Some? { AfterCuratorKeeps(cfg, r.s, r.result.value); }
      }
    }
  }

  lemma OnlyWhenIdle(cfg: Config, s: State, now: nat, idle: bool)
    requires CuratorSkipReason(cfg, s, now, idle).None?
    ensures CuratorSkipReason(cfg, s, now, true) == None
  {
  }

  lemma TickBodyKeeps(cfg: Config, s: State, input: TickInput)
    requires Inv(cfg, s)
    ensures Inv(cfg, TickBody(cfg, s, input).0)
  {
    hide Inv, TickCurator, RunLane;
    ObserveTimeKeeps(cfg, s, input.first);
    var s1 := ObserveTime(s, input.first);
    var rolled := RollsBack(s, input.first);
    RunLaneKeeps(cfg, s1, rolled, Distiller, input.first, input.distiller);
    var d := RunLane(cfg, s1, rolled, Distiller, input.first, input.distiller);
    if d.result.Some? { TickCuratorKeeps(cfg, d.s, d.clockRollback, d.result.value.lane, input); }
  }

  lemma FlagsKeep(cfg: Config, s: State, enabled: bool, running: bool)
    requires Inv(cfg, s)
    ensures Inv(cfg, s.(enabled := enabled, running := running))
  {
  }

  lemma TickKeeps(cfg: Config, s: State, input: TickInput)
    requires Inv(cfg, s)
    ensures Inv(cfg, Tick(cfg, s, input).0)
  {
    hide Inv, TickBody;
    var s1 := s.(running := true);
    FlagsKeep(cfg, s, s.enabled, true);
    TickBodyKeeps(cfg, s1, input);
    var s2 := TickBody(cfg, s1, input).0;
    FlagsKeep(cfg, s2, s2.enabled, false);
  }
}
