/** The two repair loops of the simulate stage: what was simulated, and what is left in the context. */
module RepairLoop {
  import opened Common

  datatype Rtl = Rtl(topModule: string, sources: seq<string>)

  datatype Testbench = Testbench(testbenchModule: string, file: string)

  datatype SimStatus = Passed | Failed | NotRetryable

  /** One simulation, as it was submitted, and how it ended. */
  datatype Simulation = Simulation(sources: seq<string>, testbench: string, top: string, testbenchModule: string, status: SimStatus)

  datatype Repair = Repair(sources: seq<string>, testbench: Option<string>)

  /** The answers of one round; `None` is an await that throws. */
  datatype Round = Round(simulated: Option<SimStatus>, repaired: Option<Repair>, registered: bool, validated: bool)

  datatype Outcome = Returned | Threw

  /** How many rounds a loop that starts at 0 and runs up to `n` makes at most. */
  function Rounds(n: int): nat
  {
    if n < 0 then 0 else n + 1
  }

  // ------------------------------------------------------- what the rounds come to

  /** Round `i` fails in a way that is repaired, and all of the repair goes through. */
  predicate GoesOn(world: seq<Round>, max: int, i: nat)
  {
    && i < |world| && i < max && world[i].simulated == Some(Failed)
    && world[i].repaired.Some? && world[i].registered && world[i].validated
  }

  /** The loop ends in round `last`: all rounds before it go on, and it does not. */
  predicate EndsIn(world: seq<Round>, max: int, last: nat)
  {
    last < |world| && last <= max && (forall i :: 0 <= i < last ==> GoesOn(world, max, i)) && !GoesOn(world, max, last)
  }

  /** There is one such round. */
  lemma EndsOnce(world: seq<Round>, max: int, a: nat, b: nat)
    requires EndsIn(world, max, a) && EndsIn(world, max, b)
    ensures a == b
  {
    assert a < b ==> GoesOn(world, max, a);
    assert b < a ==> GoesOn(world, max, b);
  }

  /** The sources simulated in round `i`: those of the repair before it. */
  function SourcesAt(world: seq<Round>, first: seq<string>, i: nat): seq<string>
    requires i <= |world|
  {
    if i > 0 && world[i - 1].repaired.Some? then world[i - 1].repaired.value.sources else first
  }

  /** The testbench simulated in round `i`: the last one a repair has proposed. */
  function TestbenchAt(world: seq<Round>, first: string, i: nat): string
    requires i <= |world|
  {
    if i == 0 then first
    else if world[i - 1].repaired.Some? && world[i - 1].repaired.value.testbench.Some?
    then world[i - 1].repaired.value.testbench.value
    else TestbenchAt(world, first, i - 1)
  }

  /** A proposal for the testbench that is never made leaves the first one in place. */
  lemma {:induction false} TestbenchKept(world: seq<Round>, first: string, i: nat)
    requires i <= |world|
    requires forall j :: 0 <= j < i && world[j].repaired.Some? ==> world[j].repaired.value.testbench.None?
    ensures TestbenchAt(world, first, i) == first
  {
    if i > 0 {
      TestbenchKept(world, first, i - 1);
    }
  }

  /** The testbench of round `i`, which repairs may change unless it is the evaluator's. */
  function UsedAt(world: seq<Round>, first: string, immutable: bool, i: nat): string
    requires i <= |world|
  {
    if immutable then first else TestbenchAt(world, first, i)
  }

  predicate Ended(world: seq<Round>, n: nat)
  {
    n <= |world| && forall i :: 0 <= i < n ==> world[i].simulated.Some?
  }

  /** The simulations of the first `n` rounds. */
  function Story(world: seq<Round>, rtl: Rtl, tb: Testbench, immutable: bool, n: nat): seq<Simulation>
    requires Ended(world, n)
  {
    if n == 0 then []
    else
      Story(world, rtl, tb, immutable, n - 1)
      + [Simulation(SourcesAt(world, rtl.sources, n - 1), UsedAt(world, tb.file, immutable, n - 1),
                    rtl.topModule, tb.testbenchModule, world[n - 1].simulated.value)]
  }

  /** How many simulations have an ending by the end of round `last`. */
  function Simulated(world: seq<Round>, last: nat): nat
    requires last < |world|
  {
    last + if world[last].simulated.Some? then 1 else 0
  }

  /** How many repairs the model has been asked for and has given. */
  function Repaired(world: seq<Round>, max: int, last: nat): nat
    requires last < |world|
  {
    last + if world[last].simulated == Some(Failed) && last < max && world[last].repaired.Some? then 1 else 0
  }

  lemma {:induction false} StoryLength(world: seq<Round>, rtl: Rtl, tb: Testbench, immutable: bool, n: nat)
    requires Ended(world, n)
    ensures |Story(world, rtl, tb, immutable, n)| == n
  {
    if n > 0 {
      StoryLength(world, rtl, tb, immutable, n - 1);
    }
  }

  class SimulateStage {
    const maxRepairRounds: int
    var rtl: Rtl
    var tb: Testbench
    ghost var simulations: seq<Simulation>
    ghost var repairs: nat

    constructor (rounds: int, generated: Rtl, testbench: Testbench)
      ensures rtl == generated && tb == testbench && simulations == [] && repairs == 0 && maxRepairRounds == rounds
    {
      maxRepairRounds, rtl, tb, simulations, repairs := rounds, generated, testbench, [], 0;
    }

    /** The last simulation was of this RTL with this testbench, and it passed. */
    ghost predicate LastPassed(sources: seq<string>, testbench: Testbench)
      reads this
    {
      && simulations != []
      && simulations[|simulations| - 1]
           == Simulation(sources, testbench.file, rtl.topModule, testbench.testbenchModule, Passed)
    }

    /**
     * `runSimulateLoop`. Every round simulates what the repair before it has
     * made; when the loop returns, the RTL and the testbench left in the context
     * are the pair that has just passed. With a negative number of rounds
     * nothing is simulated and nothing changes.
     */
    method RunSimulateLoop(world: seq<Round>) returns (outcome: Outcome, ghost last: nat)
      requires |world| >= Rounds(maxRepairRounds)
      modifies this
      ensures rtl.topModule == old(rtl).topModule && tb.testbenchModule == old(tb).testbenchModule
      ensures maxRepairRounds < 0 ==>
        outcome == Returned && simulations == old(simulations) && rtl == old(rtl) && tb == old(tb) && repairs == old(repairs)
      ensures maxRepairRounds >= 0 ==>
        && EndsIn(world, maxRepairRounds, last)
        && (outcome == Returned <==> world[last].simulated == Some(Passed))
        && Ended(world, Simulated(world, last))
        && simulations == old(simulations) + Story(world, old(rtl), old(tb), false, Simulated(world, last))
        && repairs == old(repairs) + Repaired(world, maxRepairRounds, last)
      ensures outcome == Returned && maxRepairRounds >= 0 ==> LastPassed(rtl.sources, tb)
    {
      var top, testbenchModule := rtl.topModule, tb.testbenchModule;
      var simSources, simTb := rtl.sources, tb.file;
      var round := 0;
      last := 0;
      while round <= maxRepairRounds
        invariant 0 <= round <= Rounds(maxRepairRounds) && (maxRepairRounds >= 0 ==> round <= maxRepairRounds)
        invariant forall i :: 0 <= i < round ==> GoesOn(world, maxRepairRounds, i)
        invariant simSources == rtl.sources == SourcesAt(world, old(rtl).sources, round)
        invariant simTb == tb.file == TestbenchAt(world, old(tb).file, round)
        invariant rtl.topModule == top && tb.testbenchModule == testbenchModule
        invariant Ended(world, round) && simulations == old(simulations) + Story(world, old(rtl), old(tb), false, round)
        invariant repairs == old(repairs) + round
        invariant round == 0 ==> rtl == old(rtl) && tb == old(tb)
      {
        var now := world[round];
        last := round;
        if now.simulated.None? { return Threw, last; }
        simulations := simulations + [Simulation(simSources, simTb, top, testbenchModule, now.simulated.value)];
        if now.simulated.value == Passed { return Returned, last; }
        if now.simulated.value == NotRetryable || round == maxRepairRounds { return Threw, last; }
        if now.repaired.None? { return Threw, last; }
        repairs := repairs + 1;
        simSources := now.repaired.value.sources;
        rtl := rtl.(sources := simSources);
        if !now.registered { return Threw, last; }
        if now.repaired.value.testbench.Some? {
          simTb := now.repaired.value.testbench.value;
          tb := tb.(file := simTb);
        }
        if !now.validated { return Threw, last; }
        round := round + 1;
      }
      outcome := Returned;
    }

    /**
     * `runExternalAcceptanceLoop`. Every simulation of it uses the evaluator's
     * testbench as it was given; what a repair proposes in its place is dropped,
     * and the RTL left in the context is the one that passed it.
     */
    method RunExternalAcceptanceLoop(acceptance: Testbench, world: seq<Round>) returns (outcome: Outcome, ghost last: nat)
      requires |world| >= Rounds(maxRepairRounds)
      modifies this
      ensures tb == old(tb) && rtl.topModule == old(rtl).topModule
      ensures maxRepairRounds < 0 ==>
        outcome == Returned && simulations == old(simulations) && rtl == old(rtl) && repairs == old(repairs)
      ensures maxRepairRounds >= 0 ==>
        && EndsIn(world, maxRepairRounds, last)
        && (outcome == Returned <==> world[last].simulated == Some(Passed))
        && Ended(world, Simulated(world, last))
        && simulations == old(simulations) + Story(world, old(rtl), acceptance, true, Simulated(world, last))
        && repairs == old(repairs) + Repaired(world, maxRepairRounds, last)
      ensures outcome == Returned && maxRepairRounds >= 0 ==> LastPassed(rtl.sources, acceptance)
    {
      var simSources := rtl.sources;
      var round := 0;
      last := 0;
      while round <= maxRepairRounds
        invariant 0 <= round <= Rounds(maxRepairRounds) && (maxRepairRounds >= 0 ==> round <= maxRepairRounds)
        invariant forall i :: 0 <= i < round ==> GoesOn(world, maxRepairRounds, i)
        invariant simSources == rtl.sources == SourcesAt(world, old(rtl).sources, round)
        invariant tb == old(tb) && rtl.topModule == old(rtl).topModule
        invariant Ended(world, round) && simulations == old(simulations) + Story(world, old(rtl), acceptance, true, round)
        invariant repairs == old(repairs) + round
        invariant round == 0 ==> rtl == old(rtl)
      {
        var now := world[round];
        last := round;
        if now.simulated.None? { return Threw, last; }
        simulations := simulations
          + [Simulation(simSources, acceptance.file, rtl.topModule, acceptance.testbenchModule, now.simulated.value)];
        if now.simulated.value == Passed { return Returned, last; }
        if now.simulated.value == NotRetryable || round == maxRepairRounds { return Threw, last; }
        if now.repaired.None? { return Threw, last; }
        repairs := repairs + 1;
        simSources := now.repaired.value.sources;
        rtl := rtl.(sources := simSources);
        if !now.registered || !now.validated { return Threw, last; }
        round := round + 1;
      }
      outcome := Returned;
    }

    /** The simulate stage: the pair that passed first, then the RTL that also passed the evaluator's testbench. */
    method Run(acceptance: Option<Testbench>, first: seq<Round>, second: seq<Round>) returns (outcome: Outcome)
      requires |first| >= Rounds(maxRepairRounds) && |second| >= Rounds(maxRepairRounds)
      modifies this
      ensures outcome == Returned && maxRepairRounds >= 0 ==>
        if acceptance.Some? then LastPassed(rtl.sources, acceptance.value) else LastPassed(rtl.sources, tb)
      ensures |simulations| <= |old(simulations)| + 2 * Rounds(maxRepairRounds) && old(simulations) <= simulations
      ensures repairs <= old(repairs) + 2 * Max(0, maxRepairRounds)
    {
      ghost var last;
      outcome, last := RunSimulateLoop(first);
      if maxRepairRounds >= 0 { StoryLength(first, old(rtl), old(tb), false, Simulated(first, last)); }
      ghost var rtl1 := rtl;
      if outcome == Threw || acceptance.None? { return; }
      outcome, last := RunExternalAcceptanceLoop(acceptance.value, second);
      if maxRepairRounds >= 0 { StoryLength(second, rtl1, acceptance.value, true, Simulated(second, last)); }
    }
  }

  /** Every simulation of a story is of the sources and the testbench of its own round; an evaluator's testbench never changes. */
  lemma {:induction false} StoryAt(world: seq<Round>, rtl: Rtl, tb: Testbench, immutable: bool, n: nat, i: nat)
    requires Ended(world, n) && i < n
    ensures |Story(world, rtl, tb, immutable, n)| == n
    ensures Story(world, rtl, tb, immutable, n)[i]
         == Simulation(SourcesAt(world, rtl.sources, i), UsedAt(world, tb.file, immutable, i),
                       rtl.topModule, tb.testbenchModule, world[i].simulated.value)
    ensures immutable ==> Story(world, rtl, tb, immutable, n)[i].testbench == tb.file
  {
    if n > 1 {
      StoryAt(world, rtl, tb, immutable, n - 1, if i < n - 1 then i else 0);
    }
  }

  /** At most `n` repairs and `n + 1` simulations, whatever the answers are. */
  lemma RoundsBounded(world: seq<Round>, max: int, last: nat)
    requires EndsIn(world, max, last)
    ensures Simulated(world, last) <= Rounds(max) && Repaired(world, max, last) <= Max(0, max)
  {
  }
}
