/**
 * The loop of a conversational session: one prompt from the user's message to
 * the model's reply, with steering and aborts arriving at any await.
 */
module AgentLoop {
  import opened Common
  import opened Conversation
  import opened ConversationRecovery

  const MAX_CLAIM_RETRIES: nat := 2
  const MAX_EMPTY_REPLY_RETRIES: nat := 1

  /** The texts and the pattern tests the loop depends on; `maxRounds` 0 is no limit. */
  datatype Config = Config(maxRounds: nat, hasPolicy: bool,
                           claims: string -> bool,      // the text claims a passed simulation
                           simulated: string -> bool,   // the tool result reports one
                           blank: string -> bool,
                           nudge: string, feedback: string, fallback: string)

  /** What arrives while an await is pending. */
  datatype Interrupt = Interrupt(steers: seq<string>, abort: bool)

  datatype Preparation = Proceed | OverBudget | PrecheckStop(reason: string)

  datatype ModelReply =
    | TextTurn(content: string)
    | CallsTurn(narration: Option<string>, calls: seq<Call>)
    | ModelFails(oversize: bool)

  datatype ToolOutcome = ToolResult(result: string, isError: bool) | ToolThrows

  /** Everything the world answers; where it ends, the process dies. */
  datatype Script = Script(interrupts: seq<Interrupt>, preparations: seq<Preparation>,
                           replies: seq<ModelReply>, tools: seq<ToolOutcome>)

  datatype Outcome = Replied(text: string) | Prechecked(reason: string) | FellBack | Aborted | Threw | TooManyRounds
    | AlreadyRunning | Died

  datatype Disposition = InterceptedRetry | InterceptedFallback | Passed

  datatype ClaimCheck = ClaimCheck(disposition: Disposition, attempt: nat)

  /** Every batch of calls the model makes is non-empty and names its calls apart. */
  predicate WellFormed(script: Script)
  {
    forall i :: 0 <= i < |script.replies| && script.replies[i].CallsTurn? ==>
      script.replies[i].calls != [] && DistinctIds(script.replies[i].calls)
  }

  /** `hasSucceededSimulateRecord`. */
  predicate SimulateRecord(cfg: Config, messages: seq<Message>)
  {
    exists i :: 0 <= i < |messages| && IsRecord(cfg, messages[i])
  }

  predicate IsRecord(cfg: Config, m: Message)
  {
    m.Tool? && m.name == "vivado_run" && !m.isError && cfg.simulated(m.result)
  }

  function ClaimCall(attempt: nat): Call
  {
    Call(if attempt == 1 then "claim_check_1" else "claim_check_2", "claim_check")
  }

  /** A text reply that claims a passed simulation has one on record before it. */
  predicate Supported(cfg: Config, messages: seq<Message>, j: nat)
    requires j < |messages|
  {
    messages[j].Assistant? && messages[j].calls == [] && messages[j].content.Some? && cfg.claims(messages[j].content.value)
    ==> SimulateRecord(cfg, messages[..j])
  }

  /** Text replies added since `from` are supported. */
  predicate Guarded(cfg: Config, messages: seq<Message>, from: nat)
  {
    forall j :: from <= j < |messages| ==> Supported(cfg, messages, j)
  }

  function Retries(checks: seq<ClaimCheck>): nat
  {
    if checks == [] then 0
    else Retries(checks[..|checks| - 1]) + if checks[|checks| - 1].disposition == InterceptedRetry then 1 else 0
  }

  lemma RetriesAppend(checks: seq<ClaimCheck>, check: ClaimCheck)
    ensures Retries(checks + [check]) == Retries(checks) + if check.disposition == InterceptedRetry then 1 else 0
  {
    assert (checks + [check])[..|checks + [check]| - 1] == checks;
  }

  lemma GuardedAppend(cfg: Config, messages: seq<Message>, m: Message, from: nat)
    requires Guarded(cfg, messages, from)
    requires m.Assistant? && m.calls == [] && m.content.Some? && cfg.claims(m.content.value) ==> SimulateRecord(cfg, messages)
    ensures Guarded(cfg, messages + [m], from)
  {
    var more := messages + [m];
    forall j | from <= j < |more| ensures Supported(cfg, more, j) {
      if j < |messages| {
        assert Supported(cfg, messages, j) && more[..j] == messages[..j];
      } else {
        assert more[..j] == messages;
      }
    }
  }

  /** `join("\n")`. */
  function Join(texts: seq<string>): string
  {
    if texts == [] then "" else if |texts| == 1 then texts[0] else texts[0] + "\n" + Join(texts[1..])
  }

  /** Pending steering, as the one user message it becomes. */
  function Steering(steers: seq<string>): seq<Message>
  {
    if steers == [] then [] else [User("[接管/纠偏] " + Join(steers))]
  }

  /** Where the `i`-th of some texts begins, when each is followed by one character. */
  function Offset(texts: seq<string>, i: nat): nat
    requires i <= |texts|
  {
    if i == 0 then 0 else Offset(texts, i - 1) + |texts[i - 1]| + 1
  }

  /** The text is the steering mark and then these corrections, whole and in order, one to a line. */
  predicate Carries(text: string, steers: seq<string>)
  {
    && "[接管/纠偏] " <= text
    && var joined := text[|"[接管/纠偏] "|..];
       && |joined| + 1 == Offset(steers, |steers|)
       && forall i :: 0 <= i < |steers| ==> StandsAt(joined, Offset(steers, i), steers[i])
  }

  /** The text stands at this place, and behind it a new line or the end. */
  predicate StandsAt(joined: string, o: nat, t: string)
  {
    o + |t| <= |joined| && joined[o..o + |t|] == t && (o + |t| < |joined| ==> joined[o + |t|] == '\n')
  }

  lemma {:induction false} OffsetTail(texts: seq<string>, i: nat)
    requires 0 < i <= |texts|
    ensures Offset(texts, i) == |texts[0]| + 1 + Offset(texts[1..], i - 1)
    decreases i
  {
    if i == 1 {
      assert Offset(texts, 0) == 0;
    } else {
      OffsetTail(texts, i - 1);
      assert texts[1..][i - 2] == texts[i - 1];
    }
  }

  lemma {:induction false} JoinStands(texts: seq<string>)
    requires texts != []
    ensures |Join(texts)| + 1 == Offset(texts, |texts|)
    ensures forall i :: 0 <= i < |texts| ==> StandsAt(Join(texts), Offset(texts, i), texts[i])
    decreases |texts|
  {
    hide Join, Offset, StandsAt;
    OffsetTail(texts, |texts|);
    if |texts| == 1 {
      JoinOne(texts);
    } else {
      var rest := texts[1..];
      JoinStands(rest);
      JoinTail(texts);
      forall i | 0 <= i < |texts| ensures StandsAt(Join(texts), Offset(texts, i), texts[i]) {
        if i > 0 {
          OffsetTail(texts, i);
          assert StandsAt(Join(rest), Offset(rest, i - 1), rest[i - 1]);
          StandsLater(texts[0] + "\n", Join(rest), Offset(rest, i - 1), texts[i]);
        }
      }
    }
  }

  lemma JoinOne(texts: seq<string>)
    requires |texts| == 1
    ensures |Join(texts)| + 1 == Offset(texts, 1) && Offset(texts, 0) == 0 && StandsAt(Join(texts), 0, texts[0])
  {
    assert Join(texts)[0..|texts[0]|] == texts[0];
    assert Offset(texts, 1) == Offset(texts, 0) + |texts[0]| + 1;
  }

  lemma JoinTail(texts: seq<string>)
    requires |texts| > 1
    ensures Join(texts) == (texts[0] + "\n") + Join(texts[1..])
    ensures Offset(texts, 0) == 0 && StandsAt(Join(texts), 0, texts[0])
  {
  }

  lemma StandsLater(first: string, joined: string, o: nat, t: string)
    requires StandsAt(joined, o, t)
    ensures StandsAt(first + joined, |first| + o, t)
  {
    assert (first + joined)[|first| + o..|first| + o + |t|] == joined[o..o + |t|];
  }

  /** The message that pending corrections become carries all of them. */
  lemma SteeringCarries(steers: seq<string>)
    requires steers != []
    ensures |Steering(steers)| == 1 && Steering(steers)[0].User? && Carries(Steering(steers)[0].text, steers)
  {
    JoinStands(steers);
    hide Join, Offset, StandsAt;
    var mark := "[接管/纠偏] ";
    assert (mark + Join(steers))[|mark|..] == Join(steers);
    assert (mark + Join(steers))[..|mark|] == mark;
  }

  // ------------------------------------------------------- what a text turn does

  datatype TextCase = Nudged | SteeredFirst | Intercepted | FallenBack | Accepted

  predicate Unsupported(cfg: Config, messages: seq<Message>, content: string)
  {
    cfg.claims(content) && !SimulateRecord(cfg, messages)
  }

  function CaseOf(cfg: Config, messages: seq<Message>, steers: seq<string>, content: string, claims: nat, empties: nat): TextCase
  {
    if cfg.blank(content) && empties < MAX_EMPTY_REPLY_RETRIES then Nudged
    else if steers != [] then SteeredFirst
    else if !Unsupported(cfg, messages, content) then Accepted
    else if claims < MAX_CLAIM_RETRIES then Intercepted
    else FallenBack
  }

  /** What is recorded; the text itself only when it is accepted. */
  function Recorded(cfg: Config, c: TextCase, steers: seq<string>, content: string, claims: nat): seq<Message>
  {
    match c
    case Nudged => [User(cfg.nudge)]
    case SteeredFirst => Steering(steers)
    case Intercepted => InterceptionOf(cfg, claims + 1)
    case FallenBack => [System(cfg.fallback)]
    case Accepted => [Assistant(Some(content), [])]
  }

  /** The claim check stands in the conversation as a tool call and its failed result. */
  function InterceptionOf(cfg: Config, attempt: nat): seq<Message>
  {
    var call := ClaimCall(attempt);
    [Assistant(None, [call])] + [Tool(call.id, call.name, cfg.feedback, true)]
  }

  /** What a text turn leaves, case by case; `waiting` says that corrections have come in meanwhile. */
  ghost predicate TextTaken(cfg: Config, before: seq<Message>, steers: seq<string>, content: string, claims: nat, empties: nat,
                            after: seq<Message>, waiting: bool, end: Option<Outcome>)
  {
    if cfg.blank(content) && empties == 0 then after == before + [User(cfg.nudge)] && end == None
    else if steers != [] then
      && |after| == |before| + 1 && before <= after && after[|before|].User?
      && Carries(after[|before|].text, steers) && end == None
    else if cfg.claims(content) && !(exists i :: 0 <= i < |before| && IsRecord(cfg, before[i])) then
      if claims >= 2 then after == before + [System(cfg.fallback)] && end == Some(FellBack)
      else
        var call := if claims == 0 then Call("claim_check_1", "claim_check") else Call("claim_check_2", "claim_check");
        after == before + [Assistant(None, [call]), Tool(call.id, "claim_check", cfg.feedback, true)] && end == None
    else after == before + [Assistant(Some(content), [])] && end == if waiting then None else Some(Replied(content))
  }

  lemma CasesAre(cfg: Config, before: seq<Message>, steers: seq<string>, content: string, claims: nat, empties: nat,
                 waiting: bool)
    ensures
      var c := CaseOf(cfg, before, steers, content, claims, empties);
      TextTaken(cfg, before, steers, content, claims, empties, before + Recorded(cfg, c, steers, content, claims), waiting,
                match c
                case FallenBack => Some(FellBack)
                case Accepted => if waiting then None else Some(Replied(content))
                case _ => None)
  {
    if steers != [] { SteeringCarries(steers); }
    hide Steering, Carries, IsRecord;
    assert SimulateRecord(cfg, before) <==> exists i :: 0 <= i < |before| && IsRecord(cfg, before[i]);
  }

  /** No model text that claims without support is ever recorded, whatever the case. */
  lemma UnsupportedNeverRecorded(cfg: Config, messages: seq<Message>, steers: seq<string>, content: string,
                                 claims: nat, empties: nat)
    requires Unsupported(cfg, messages, content)
    ensures Assistant(Some(content), [])
      !in Recorded(cfg, CaseOf(cfg, messages, steers, content, claims, empties), steers, content, claims)
  {
  }

  // ------------------------------------------------------ what a batch of calls does

  /** The first `n` calls of a batch have been given results by the world. */
  predicate Given(script: Script, from: nat, n: nat)
  {
    from + n <= |script.tools| && forall j :: from <= j < from + n ==> script.tools[j].ToolResult?
  }

  function ResultsFrom(script: Script, calls: seq<Call>, from: nat, n: nat): (results: seq<Message>)
    requires n <= |calls| && Given(script, from, n)
    ensures |results| == n && ResultsOf(results, calls)
  {
    seq(n, j requires 0 <= j < n =>
      Tool(calls[j].id, calls[j].name, script.tools[from + j].result, script.tools[from + j].isError))
  }

  lemma ResultsFromMore(script: Script, calls: seq<Call>, from: nat, n: nat)
    requires n < |calls| && Given(script, from, n + 1)
    ensures ResultsFrom(script, calls, from, n + 1)
         == ResultsFrom(script, calls, from, n)
            + [Tool(calls[n].id, calls[n].name, script.tools[from + n].result, script.tools[from + n].isError)]
  {
  }

  /** Every saved conversation can be restored, and is a beginning of the present one. */
  ghost predicate SavesOk(saved: seq<seq<Message>>, messages: seq<Message>)
  {
    forall k :: 0 <= k < |saved| ==> Recoverable(saved[k]) && saved[k] != [] && saved[k] <= messages
  }

  lemma SavesGrow(saved: seq<seq<Message>>, messages: seq<Message>, more: seq<Message>)
    requires SavesOk(saved, messages) && messages <= more
    ensures SavesOk(saved, more)
  {
  }

  class Session {
    const cfg: Config
    var messages: seq<Message>
    var pendingSteer: seq<string>
    var running: bool
    var abortFlag: bool
    var forcedCompactionRetried: bool
    var claimChecks: seq<ClaimCheck>

    var script: Script
    var nextInterrupt: nat
    var nextPreparation: nat
    var nextReply: nat
    var nextTool: nat

    /** The copies written to disk. */
    var saved: seq<seq<Message>>
    ghost var modelCalls: nat

    /** The conversation, and every copy of it on disk, can be restored. */
    ghost predicate Valid()
      reads this
    {
      && WellFormed(script) && nextReply <= |script.replies| && nextTool <= |script.tools|
      && nextPreparation <= |script.preparations|
      && messages != [] && messages[0].System? && Recoverable(messages) && SavesOk(saved, messages)
    }

    /** A new session, or one that takes up a restored conversation with its steering and claim checks. */
    constructor (config: Config, prompt: string, conversation: seq<Message>, steers: seq<string>, checks: seq<ClaimCheck>,
                 world: Script)
      requires Recoverable(conversation) && WellFormed(world)
      ensures Valid() && messages == [System(prompt)] + conversation && !running && saved == []
      ensures cfg == config && script == world && pendingSteer == steers && claimChecks == checks
    {
      cfg, messages, pendingSteer, running, abortFlag := config, [System(prompt)] + conversation, steers, false, false;
      forcedCompactionRetried, claimChecks, script := false, checks, world;
      nextInterrupt, nextPreparation, nextReply, nextTool, saved, modelCalls := 0, 0, 0, 0, [], 0;
      PromptFirst(prompt, conversation);
    }

    /** What the next await brings. */
    function Incoming(): Interrupt
      reads this
    {
      if nextInterrupt < |script.interrupts| then script.interrupts[nextInterrupt] else Interrupt([], false)
    }

    /** An await: steering that arrives is saved at once, with the conversation as it is. */
    method Await()
      requires Valid()
      modifies this`pendingSteer, this`abortFlag, this`nextInterrupt, this`saved
      ensures Valid() && old(saved) <= saved
      ensures pendingSteer == old(pendingSteer) + old(Incoming()).steers
      ensures abortFlag == (old(abortFlag) || old(Incoming()).abort)
      ensures |saved| == |old(saved)| + |old(Incoming()).steers|
    {
      hide Recoverable, WellFormed;
      if nextInterrupt >= |script.interrupts| { return; }
      var now := script.interrupts[nextInterrupt];
      nextInterrupt := nextInterrupt + 1;
      for i := 0 to |now.steers|
        invariant Valid() && old(saved) <= saved && |saved| == |old(saved)| + i
        invariant pendingSteer == old(pendingSteer) + now.steers[..i] && abortFlag == old(abortFlag)
      {
        pendingSteer := pendingSteer + [now.steers[i]];
        saved := saved + [messages];
      }
      assert now.steers[..|now.steers|] == now.steers;
      if now.abort { abortFlag := true; }
    }

    /** `persist`. */
    method Persist()
      requires Valid()
      modifies this`pendingSteer, this`abortFlag, this`nextInterrupt, this`saved
      ensures Valid() && old(saved) + [messages] <= saved && messages in saved
      ensures pendingSteer == old(pendingSteer) + old(Incoming()).steers
      ensures abortFlag == (old(abortFlag) || old(Incoming()).abort)
    {
      hide Recoverable, WellFormed;
      saved := saved + [messages];
      Await();
      assert saved[|old(saved)|] == messages;
    }

    /** Append a message that is not a tool result. */
    method Say(m: Message, ghost from: nat)
      requires Valid() && !m.Tool? && Guarded(cfg, messages, from)
      requires m.Assistant? && m.calls == [] && m.content.Some? && cfg.claims(m.content.value) ==> SimulateRecord(cfg, messages)
      modifies this`messages
      ensures Valid() && messages == old(messages) + [m] && Guarded(cfg, messages, from)
    {
      RecoverableAppend(messages, m);
      GuardedAppend(cfg, messages, m, from);
      SavesGrow(saved, messages, messages + [m]);
      hide Recoverable, WellFormed, Guarded, SavesOk;
      messages := messages + [m];
    }

    /** `consumeSteer`. */
    method ConsumeSteer(ghost from: nat) returns (consumed: bool)
      requires Valid() && Guarded(cfg, messages, from)
      modifies this`messages, this`pendingSteer
      ensures Valid() && Guarded(cfg, messages, from)
      ensures consumed == (old(pendingSteer) != []) && pendingSteer == []
      ensures messages == old(messages) + Steering(old(pendingSteer))
      ensures !consumed ==> messages == old(messages)
      ensures consumed ==>
        && |messages| == |old(messages)| + 1 && messages[|old(messages)|].User?
        && Carries(messages[|old(messages)|].text, old(pendingSteer))
    {
      if pendingSteer != [] { SteeringCarries(pendingSteer); }
      hide Carries;
      hide Recoverable, WellFormed, Guarded, SavesOk;
      if |pendingSteer| == 0 { return false; }
      Say(User("[接管/纠偏] " + Join(pendingSteer)), from);
      pendingSteer := [];
      consumed := true;
    }

    /** `prepareRequest(await messagesForModel())` and the data-domain pre-check. */
    method Prepare() returns (p: Preparation)
      requires Valid()
      modifies this`pendingSteer, this`abortFlag, this`nextInterrupt, this`saved, this`nextPreparation
      ensures Valid() && old(saved) <= saved && (old(abortFlag) ==> abortFlag)
      ensures p == if old(nextPreparation) < |script.preparations| then script.preparations[old(nextPreparation)] else Proceed
      ensures nextPreparation == Min(old(nextPreparation) + 1, |script.preparations|)
    {
      hide Recoverable, WellFormed, SavesOk;
      Await();
      if nextPreparation >= |script.preparations| { return Proceed; }
      p := script.preparations[nextPreparation];
      nextPreparation := nextPreparation + 1;
    }

    /** One request to the model; `None` when the world has ended. */
    method CallModel() returns (reply: Option<ModelReply>)
      requires Valid()
      modifies this`pendingSteer, this`abortFlag, this`nextInterrupt, this`saved, this`nextReply, this`modelCalls
      ensures Valid() && old(saved) <= saved && modelCalls == old(modelCalls) + 1 && (old(abortFlag) ==> abortFlag)
      ensures reply == if old(nextReply) < |script.replies| then Some(script.replies[old(nextReply)]) else None
      ensures nextReply == Min(old(nextReply) + 1, |script.replies|)
    {
      hide Recoverable, SavesOk;
      modelCalls := modelCalls + 1;
      Await();
      if nextReply >= |script.replies| { return None; }
      reply := Some(script.replies[nextReply]);
      nextReply := nextReply + 1;
    }

    /** Something the loop asked for has failed. */
    predicate HasThrown()
      reads this`script, this`nextReply, this`nextTool, this`nextPreparation
    {
      || (0 < nextReply <= |script.replies| && script.replies[nextReply - 1].ModelFails?)
      || (0 < nextPreparation <= |script.preparations| && script.preparations[nextPreparation - 1] == OverBudget)
      || (0 < nextTool <= |script.tools| && script.tools[nextTool - 1].ToolThrows?)
    }

    /** The world has nothing more to answer. */
    predicate HasEnded()
      reads this`script, this`nextReply, this`nextTool
    {
      nextReply >= |script.replies| || nextTool >= |script.tools|
    }

    /** A request, repeated once per prompt when it was too large and can be compacted. */
    method Request() returns (turn: Option<ModelReply>, end: Outcome)
      requires Valid()
      modifies this`pendingSteer, this`abortFlag, this`nextInterrupt, this`saved, this`nextReply, this`modelCalls,
               this`nextPreparation, this`forcedCompactionRetried
      ensures Valid() && old(saved) <= saved && (old(abortFlag) ==> abortFlag)
      ensures modelCalls + (if old(forcedCompactionRetried) then 1 else 0)
           <= old(modelCalls) + 1 + if forcedCompactionRetried then 1 else 0
      ensures old(forcedCompactionRetried) ==> forcedCompactionRetried
      ensures turn.Some? ==> nextReply > old(nextReply) && turn.value == script.replies[nextReply - 1] && !turn.value.ModelFails?
      ensures turn.None? ==> (end == Threw && HasThrown()) || (end == Died && HasEnded())
      ensures old(nextReply) < |script.replies| && !script.replies[old(nextReply)].ModelFails? ==>
        turn == Some(script.replies[old(nextReply)])
    {
      hide Recoverable, WellFormed, SavesOk;
      end := Died;
      turn := CallModel();
      if turn.None? || !turn.value.ModelFails? { return; }
      if !turn.value.oversize || !cfg.hasPolicy || forcedCompactionRetried { return None, Threw; }
      forcedCompactionRetried := true;
      var p := Prepare();
      if p == OverBudget { return None, Threw; }
      turn := CallModel();
      if turn.Some? && turn.value.ModelFails? { return None, Threw; }
    }

    /** Record the result of a call that waits for one. */
    method Record(m: Message, ghost from: nat)
      requires Valid() && m.Tool? && Guarded(cfg, messages, from)
      requires Holds(PendingAt(messages, |messages|), m.callId)
      modifies this`messages
      ensures Valid() && messages == old(messages) + [m] && Guarded(cfg, messages, from)
    {
      RecoverableAppend(messages, m);
      GuardedAppend(cfg, messages, m, from);
      SavesGrow(saved, messages, messages + [m]);
      hide Recoverable, WellFormed, Guarded, SavesOk, PendingAt, Holds;
      messages := messages + [m];
    }

    /** One tool call, from its start event to its result. */
    method ExecuteTool() returns (outcome: Option<ToolOutcome>)
      requires Valid()
      modifies this`pendingSteer, this`abortFlag, this`nextInterrupt, this`saved, this`nextTool
      ensures Valid() && old(saved) <= saved && (old(abortFlag) ==> abortFlag)
      ensures outcome == if old(nextTool) < |script.tools| then Some(script.tools[old(nextTool)]) else None
      ensures nextTool == Min(old(nextTool) + 1, |script.tools|)
    {
      hide Recoverable, WellFormed, SavesOk;
      Await();
      if nextTool >= |script.tools| { return None; }
      outcome := Some(script.tools[nextTool]);
      nextTool := nextTool + 1;
    }

    /** The body of the loop over the calls of a turn. */
    method RunCall(ghost before: seq<Message>, narration: Option<string>, calls: seq<Call>, ghost first: nat, i: nat,
                   ghost from: nat) returns (end: Option<Outcome>)
      requires Valid() && DistinctIds(calls) && Guarded(cfg, messages, from) && Recoverable(before)
      requires i < |calls| && nextTool == first + i && Given(script, first, i)
      requires messages == Batch(before, narration, calls, ResultsFrom(script, calls, first, i))
      modifies this`messages, this`pendingSteer, this`abortFlag, this`nextInterrupt, this`saved, this`nextTool
      ensures Valid() && Guarded(cfg, messages, from) && old(saved) <= saved && (old(abortFlag) ==> abortFlag)
      ensures end.None? ==>
        && nextTool == first + i + 1 && Given(script, first, i + 1) && messages in saved
        && messages == Batch(before, narration, calls, ResultsFrom(script, calls, first, i + 1))
      ensures end.Some? ==> messages == old(messages)
      ensures end.Some? ==>
        (end.value == Aborted && abortFlag) || (end.value == Threw && HasThrown()) || (end.value == Died && HasEnded())
    {
      hide WellFormed, Guarded, SavesOk, Answers, PendingAt, Holds, Supported, ResultsFrom, Recoverable, Batch, DistinctIds;
      if abortFlag { return Some(Aborted); }
      var outcome := ExecuteTool();
      if outcome.None? { return Some(Died); }
      if outcome.value.ToolThrows? { return Some(Threw); }
      var m := Tool(calls[i].id, calls[i].name, outcome.value.result, outcome.value.isError);
      ghost var results := ResultsFrom(script, calls, first, i);
      BatchWaits(before, narration, calls, results);
      Record(m, from);
      BatchMore(before, narration, calls, results, m);
      ResultsFromMore(script, calls, first, i);
      Persist();
      end := None;
    }

    /**
     * A turn with tool calls: recorded first, then executed in order, each
     * result recorded and saved. An abort between two calls, or a tool that
     * throws, leaves the rest of the batch without results.
     */
    method RunTools(narration: Option<string>, calls: seq<Call>, ghost from: nat)
      returns (end: Option<Outcome>, ghost answered: nat)
      requires Valid() && calls != [] && DistinctIds(calls) && Guarded(cfg, messages, from)
      modifies this`messages, this`pendingSteer, this`abortFlag, this`nextInterrupt, this`saved, this`nextTool
      ensures Valid() && Guarded(cfg, messages, from) && old(saved) <= saved && (old(abortFlag) ==> abortFlag)
      ensures answered <= |calls| && Given(script, old(nextTool), answered)
      ensures messages == Batch(old(messages), narration, calls, ResultsFrom(script, calls, old(nextTool), answered))
      ensures messages in saved
      ensures end.None? <==> answered == |calls|
      ensures end.Some? ==>
        (end.value == Aborted && abortFlag) || (end.value == Threw && HasThrown()) || (end.value == Died && HasEnded())
    {
      hide WellFormed, Guarded, SavesOk, Answers, PendingAt, Holds, Supported, ResultsFrom, HasThrown, HasEnded;
      answered := 0;
      Say(Assistant(narration, calls), from);
      BatchEmpty(old(messages), narration, calls);
      Persist();
      hide Recoverable;
      assert ResultsFrom(script, calls, old(nextTool), 0) == [];
      for i := 0 to |calls|
        invariant Valid() && Guarded(cfg, messages, from) && old(saved) <= saved && (old(abortFlag) ==> abortFlag)
        invariant answered == i && nextTool == old(nextTool) + i && Given(script, old(nextTool), i)
        invariant messages == Batch(old(messages), narration, calls, ResultsFrom(script, calls, old(nextTool), i))
        invariant messages in saved
      {
        end := RunCall(old(messages), narration, calls, old(nextTool), i, from);
        if end.Some? { return; }
        answered := i + 1;
      }
      end := None;
    }

    /** The claim check: the model's text is not shown, its claim is answered as if it had called a tool. */
    method InterceptClaim(attempt: nat, ghost from: nat)
      requires Valid() && Guarded(cfg, messages, from)
      modifies this`messages, this`pendingSteer, this`abortFlag, this`nextInterrupt, this`saved, this`claimChecks
      ensures Valid() && Guarded(cfg, messages, from) && (old(abortFlag) ==> abortFlag)
      ensures messages == old(messages) + InterceptionOf(cfg, attempt) && old(saved) + [messages] <= saved
      ensures claimChecks == old(claimChecks) + [ClaimCheck(InterceptedRetry, attempt)]
    {
      hide WellFormed, Guarded, SavesOk, Answers, PendingAt, Holds, Supported, Recoverable;
      claimChecks := claimChecks + [ClaimCheck(InterceptedRetry, attempt)];
      ghost var before := messages;
      var call := ClaimCall(attempt);
      Say(Assistant(None, [call]), from);
      BatchEmpty(before, None, [call]);
      BatchWaits(before, None, [call], []);
      Record(Tool(call.id, call.name, cfg.feedback, true), from);
      AppendAssoc(before, [Assistant(None, [call])], [Tool(call.id, call.name, cfg.feedback, true)]);
      Persist();
    }

    /** An unsupported claim: intercepted, or after too many of them answered with the fixed fallback. */
    method AnswerClaim(claimRetries: nat, ghost from: nat) returns (end: Option<Outcome>, retried: bool)
      requires Valid() && Guarded(cfg, messages, from)
      modifies this`messages, this`pendingSteer, this`abortFlag, this`nextInterrupt, this`saved, this`claimChecks
      ensures Valid() && Guarded(cfg, messages, from) && old(saved) + [messages] <= saved && (old(abortFlag) ==> abortFlag)
      ensures messages == old(messages)
        + if claimRetries < MAX_CLAIM_RETRIES then InterceptionOf(cfg, claimRetries + 1) else [System(cfg.fallback)]
      ensures retried == (claimRetries < MAX_CLAIM_RETRIES) && end == if retried then None else Some(FellBack)
      ensures Retries(claimChecks) == Retries(old(claimChecks)) + if retried then 1 else 0
    {
      hide WellFormed, Guarded, SavesOk, Recoverable, InterceptionOf, Retries, SimulateRecord;
      if claimRetries < MAX_CLAIM_RETRIES {
        RetriesAppend(claimChecks, ClaimCheck(InterceptedRetry, claimRetries + 1));
        InterceptClaim(claimRetries + 1, from);
        return None, true;
      }
      RetriesAppend(claimChecks, ClaimCheck(InterceptedFallback, claimRetries + 1));
      claimChecks := claimChecks + [ClaimCheck(InterceptedFallback, claimRetries + 1)];
      Say(System(cfg.fallback), from);
      Persist();
      end, retried := Some(FellBack), false;
    }

    /** A text turn that is not blank: `None` when the loop goes on. */
    method AcceptText(content: string, claimRetries: nat, ghost empties: nat, ghost from: nat)
      returns (end: Option<Outcome>, retried: bool)
      requires Valid() && Guarded(cfg, messages, from) && claimRetries <= MAX_CLAIM_RETRIES
      requires !(cfg.blank(content) && empties < MAX_EMPTY_REPLY_RETRIES)
      modifies this`messages, this`pendingSteer, this`abortFlag, this`nextInterrupt, this`saved, this`claimChecks
      ensures Valid() && Guarded(cfg, messages, from) && old(saved) + [messages] <= saved && (old(abortFlag) ==> abortFlag)
      ensures
        var c := CaseOf(cfg, old(messages), old(pendingSteer), content, claimRetries, empties);
        && messages == old(messages) + Recorded(cfg, c, old(pendingSteer), content, claimRetries)
        && retried == c.Intercepted?
        && end == match c
                  case FallenBack => Some(FellBack)
                  case Accepted => if pendingSteer == [] then Some(Replied(content)) else None
                  case _ => None
      ensures Retries(claimChecks) == Retries(old(claimChecks)) + if retried then 1 else 0
    {
      hide WellFormed, Guarded, SavesOk, Recoverable, SimulateRecord, InterceptionOf, Carries, Retries;
      retried := false;
      var consumed := ConsumeSteer(from);
      if consumed {
        Persist();
        return None, false;
      }
      assert old(messages) + [] == old(messages);
      var claim := cfg.claims(content);
      if claim && !SimulateRecord(cfg, messages) {
        end, retried := AnswerClaim(claimRetries, from);
        return;
      }
      if claim {
        RetriesAppend(claimChecks, ClaimCheck(Passed, claimRetries + 1));
        claimChecks := claimChecks + [ClaimCheck(Passed, claimRetries + 1)];
      }
      Say(Assistant(Some(content), []), from);
      Persist();
      if |pendingSteer| > 0 { return None, false; }
      end := Some(Replied(content));
    }

    /** One turn of the model; `None` when the loop goes on. */
    method TakeTurn(turn: ModelReply, claimRetries: nat, emptyReplyRetries: nat, ghost from: nat)
      returns (end: Option<Outcome>, retried: bool, nudged: bool, ghost answered: nat)
      requires Valid() && Guarded(cfg, messages, from) && claimRetries <= MAX_CLAIM_RETRIES && !turn.ModelFails?
      requires turn.CallsTurn? ==> turn.calls != [] && DistinctIds(turn.calls)
      modifies this`messages, this`pendingSteer, this`abortFlag, this`nextInterrupt, this`saved, this`claimChecks, this`nextTool
      ensures Valid() && Guarded(cfg, messages, from) && old(saved) <= saved && (old(abortFlag) ==> abortFlag)
      ensures turn.TextTurn? ==>
        var c := CaseOf(cfg, old(messages), old(pendingSteer), turn.content, claimRetries, emptyReplyRetries);
        && messages == old(messages) + Recorded(cfg, c, old(pendingSteer), turn.content, claimRetries)
        && retried == c.Intercepted? && nudged == c.Nudged?
        && end == match c
                  case FallenBack => Some(FellBack)
                  case Accepted => if pendingSteer == [] then Some(Replied(turn.content)) else None
                  case _ => None
      ensures turn.TextTurn? ==>
        TextTaken(cfg, old(messages), old(pendingSteer), turn.content, claimRetries, emptyReplyRetries,
                  messages, pendingSteer != [], end)
      ensures turn.CallsTurn? ==>
        && !retried && !nudged && answered <= |turn.calls| && Given(script, old(nextTool), answered)
        && messages == Batch(old(messages), turn.narration, turn.calls,
                             ResultsFrom(script, turn.calls, old(nextTool), answered))
        && (end.None? <==> answered == |turn.calls|)
        && (end.Some? ==>
              (end.value == Aborted && abortFlag) || (end.value == Threw && HasThrown()) || (end.value == Died && HasEnded()))
      ensures Retries(claimChecks) == Retries(old(claimChecks)) + if retried then 1 else 0
    {
      hide WellFormed, Guarded, SavesOk, Recoverable, SimulateRecord, Retries, ResultsFrom, InterceptionOf, TextTaken;
      retried, nudged, answered := false, false, 0;
      match turn {
        case TextTurn(content) =>
          if cfg.blank(content) && emptyReplyRetries < MAX_EMPTY_REPLY_RETRIES {
            Say(User(cfg.nudge), from);
            CasesAre(cfg, old(messages), old(pendingSteer), content, claimRetries, emptyReplyRetries, pendingSteer != []);
            return None, false, true, 0;
          }
          end, retried := AcceptText(content, claimRetries, emptyReplyRetries, from);
          CasesAre(cfg, old(messages), old(pendingSteer), content, claimRetries, emptyReplyRetries, pendingSteer != []);
        case CallsTurn(narration, calls) =>
          end, answered := RunTools(narration, calls, from);
      }
    }

    /** Each way the loop can end, and what must have happened for it. */
    ghost predicate Justified(outcome: Outcome)
      reads this`messages, this`script, this`nextReply, this`nextTool, this`nextPreparation, this`abortFlag
    {
      match outcome
      case Replied(text) =>
        && 0 < nextReply <= |script.replies| && script.replies[nextReply - 1] == TextTurn(text)
        && messages != [] && messages[|messages| - 1] == Assistant(Some(text), [])
        && (cfg.claims(text) ==> SimulateRecord(cfg, messages[..|messages| - 1]))
      case FellBack =>
        && 0 < nextReply <= |script.replies| && script.replies[nextReply - 1].TextTurn?
        && messages != [] && messages[|messages| - 1] == System(cfg.fallback)
        && Unsupported(cfg, messages[..|messages| - 1], script.replies[nextReply - 1].content)
      case Prechecked(reason) =>
        0 < nextPreparation <= |script.preparations| && script.preparations[nextPreparation - 1] == PrecheckStop(reason)
      case Aborted => abortFlag
      case Threw => HasThrown()
      case Died => HasEnded()
      case TooManyRounds => cfg.maxRounds > 0
      case AlreadyRunning => false
    }

    /** The start of a round, up to the request to the model. */
    method BeforeRequest(ghost from: nat) returns (stop: Option<Outcome>)
      requires Valid() && Guarded(cfg, messages, from)
      modifies this`messages, this`pendingSteer, this`abortFlag, this`nextInterrupt, this`saved, this`nextPreparation
      ensures Valid() && Guarded(cfg, messages, from) && old(saved) <= saved && (old(abortFlag) ==> abortFlag)
      ensures old(abortFlag) ==> stop == Some(Aborted) && messages == old(messages)
      ensures !old(abortFlag) ==>
        && messages == old(messages) + Steering(old(pendingSteer))
        && (old(pendingSteer) != [] ==>
              && messages in saved && |messages| == |old(messages)| + 1 && messages[|old(messages)|].User?
              && Carries(messages[|old(messages)|].text, old(pendingSteer)))
        && var p := if old(nextPreparation) < |script.preparations| then script.preparations[old(nextPreparation)] else Proceed;
           stop == match p
                   case Proceed => None
                   case OverBudget => Some(Threw)
                   case PrecheckStop(reason) => Some(Prechecked(reason))
      ensures stop.Some? ==> Justified(stop.value)
    {
      hide WellFormed, Guarded, SavesOk, Recoverable, Steering, Carries;
      if abortFlag { return Some(Aborted); }
      var consumed := ConsumeSteer(from);
      if consumed { Persist(); }
      var preparation := Prepare();
      if preparation == OverBudget { return Some(Threw); }
      stop := if preparation.PrecheckStop? then Some(Prechecked(preparation.reason)) else None;
    }

    /** The user's message, recorded and saved before anything is done about it. */
    method Hear(text: string)
      requires Valid()
      modifies this`messages, this`pendingSteer, this`abortFlag, this`nextInterrupt, this`saved
      ensures Valid() && Guarded(cfg, messages, |old(messages)|)
      ensures messages == old(messages) + [User(text)] && old(saved) <= saved && messages in saved
    {
      assert Guarded(cfg, messages, |messages|);
      hide WellFormed, Guarded, SavesOk, Recoverable;
      Say(User(text), |old(messages)|);
      Persist();
    }

    /** The reply or the fallback is the last message, and what was before it decided which. */
    lemma TurnJustified(turn: ModelReply, before: seq<Message>, steers: seq<string>, claims: nat, empties: nat)
      requires turn.TextTurn? && 0 < nextReply <= |script.replies| && script.replies[nextReply - 1] == turn
      ensures
        var c := CaseOf(cfg, before, steers, turn.content, claims, empties);
        messages == before + Recorded(cfg, c, steers, turn.content, claims) ==>
          && (c.FallenBack? ==> Justified(FellBack) && claims >= MAX_CLAIM_RETRIES)
          && (c.Accepted? ==> Justified(Replied(turn.content)))
    {
      hide SimulateRecord;
      if messages != [] { assert |messages| == |before| + 1 ==> messages[..|messages| - 1] == messages[..|before|]; }
    }

    /** A batch that is cut short gives the loop its reason to end. */
    lemma StopJustified(end: Outcome)
      requires (end == Aborted && abortFlag) || (end == Threw && HasThrown()) || (end == Died && HasEnded())
      ensures Justified(end)
    {
    }

    /** A turn of the model, taken: what the loop needs to know of it. */
    method Turn(turn: ModelReply, claimRetries: nat, emptyReplyRetries: nat, ghost from: nat)
      returns (end: Option<Outcome>, retried: bool, nudged: bool)
      requires Valid() && Guarded(cfg, messages, from) && claimRetries <= MAX_CLAIM_RETRIES && !turn.ModelFails?
      requires 0 < nextReply && script.replies[nextReply - 1] == turn
      modifies this`messages, this`pendingSteer, this`abortFlag, this`nextInterrupt, this`saved, this`claimChecks, this`nextTool
      ensures Valid() && Guarded(cfg, messages, from) && old(messages) <= messages && old(saved) <= saved
      ensures end.Some? ==> Justified(end.value) && end.value != TooManyRounds
      ensures retried ==> end.None? && claimRetries < MAX_CLAIM_RETRIES
      ensures end == Some(FellBack) ==> claimRetries == MAX_CLAIM_RETRIES
      ensures Retries(claimChecks) == Retries(old(claimChecks)) + if retried then 1 else 0
    {
      assert turn.CallsTurn? ==> turn.calls != [] && DistinctIds(turn.calls);
      hide WellFormed, Guarded, SavesOk, Recoverable, SimulateRecord, Retries, ResultsFrom, Justified, Recorded, DistinctIds;
      ghost var answered;
      end, retried, nudged, answered := TakeTurn(turn, claimRetries, emptyReplyRetries, from);
      if turn.TextTurn? {
        TurnJustified(turn, old(messages), old(pendingSteer), claimRetries, emptyReplyRetries);
      } else if end.Some? {
        StopJustified(end.value);
      }
    }

    /** `runLoop`. */
    method RunLoop(ghost from: nat) returns (outcome: Outcome)
      requires Valid() && Guarded(cfg, messages, from) && !forcedCompactionRetried
      modifies this`messages, this`pendingSteer, this`abortFlag, this`forcedCompactionRetried, this`claimChecks,
               this`nextInterrupt, this`nextPreparation, this`nextReply, this`nextTool, this`saved, this`modelCalls
      ensures Valid() && Guarded(cfg, messages, from) && old(messages) <= messages && old(saved) <= saved
      ensures Justified(outcome)
      ensures outcome == TooManyRounds ==> nextReply >= old(nextReply) + cfg.maxRounds
      ensures cfg.maxRounds > 0 ==> modelCalls <= old(modelCalls) + cfg.maxRounds + 1
      ensures Retries(claimChecks) <= Retries(old(claimChecks)) + MAX_CLAIM_RETRIES
      ensures outcome == FellBack ==> Retries(claimChecks) == Retries(old(claimChecks)) + MAX_CLAIM_RETRIES
    {
      hide WellFormed, Guarded, SavesOk, Recoverable, SimulateRecord, Retries, Steering, Carries;
      var claimRetries, emptyReplyRetries := 0, 0;
      var round := 0;
      while cfg.maxRounds == 0 || round < cfg.maxRounds
        invariant Valid() && Guarded(cfg, messages, from) && old(messages) <= messages && old(saved) <= saved
        invariant claimRetries <= MAX_CLAIM_RETRIES
        invariant Retries(claimChecks) == Retries(old(claimChecks)) + claimRetries
        invariant modelCalls <= old(modelCalls) + round + if forcedCompactionRetried then 1 else 0
        invariant nextReply >= old(nextReply) + round && (cfg.maxRounds > 0 ==> round <= cfg.maxRounds)
        decreases |script.replies| - nextReply
      {
        var stop := BeforeRequest(from);
        if stop.Some? { return stop.value; }
        var turn, end := Request();
        round := round + 1;
        if turn.None? { return end; }
        if abortFlag { return Aborted; }
        var done, retried, nudged := Turn(turn.value, claimRetries, emptyReplyRetries, from);
        if done.Some? { return done.value; }
        claimRetries := claimRetries + if retried then 1 else 0;
        emptyReplyRetries := emptyReplyRetries + if nudged then 1 else 0;
      }
      outcome := TooManyRounds;
    }

    /** `prompt`; a session that is running refuses. */
    method Prompt(text: string) returns (outcome: Outcome)
      requires Valid()
      modifies this
      ensures outcome == AlreadyRunning <==> old(running)
      ensures old(running) ==> messages == old(messages) && saved == old(saved) && running
      ensures Valid() && (!old(running) ==> !running) && old(saved) <= saved && script == old(script)
      ensures !old(running) ==>
        && old(messages) + [User(text)] <= messages && old(messages) + [User(text)] in saved
        && (outcome != Died ==> messages in saved)
        && Justified(outcome)
      ensures Guarded(cfg, messages, |old(messages)|)
      ensures outcome == TooManyRounds ==> nextReply >= old(nextReply) + cfg.maxRounds
      ensures cfg.maxRounds > 0 ==> modelCalls <= old(modelCalls) + cfg.maxRounds + 1
      ensures Retries(claimChecks) <= Retries(old(claimChecks)) + MAX_CLAIM_RETRIES
      ensures outcome == FellBack ==> Retries(claimChecks) == Retries(old(claimChecks)) + MAX_CLAIM_RETRIES
    {
      if running { return AlreadyRunning; }
      abortFlag, forcedCompactionRetried, running := false, false, true;
      hide WellFormed, Guarded, SavesOk, Recoverable, SimulateRecord, Retries, Justified;
      outcome := Converse(text);
    }

    /** A prompt that has been let in. */
    method Converse(text: string) returns (outcome: Outcome)
      requires Valid() && !forcedCompactionRetried
      modifies this
      ensures Valid() && !running && old(saved) <= saved && script == old(script)
      ensures old(messages) + [User(text)] <= messages && old(messages) + [User(text)] in saved
      ensures Justified(outcome) && (outcome != Died ==> messages in saved)
      ensures Guarded(cfg, messages, |old(messages)|)
      ensures outcome == TooManyRounds ==> nextReply >= old(nextReply) + cfg.maxRounds
      ensures cfg.maxRounds > 0 ==> modelCalls <= old(modelCalls) + cfg.maxRounds + 1
      ensures Retries(claimChecks) <= Retries(old(claimChecks)) + MAX_CLAIM_RETRIES
      ensures outcome == FellBack ==> Retries(claimChecks) == Retries(old(claimChecks)) + MAX_CLAIM_RETRIES
    {
      hide WellFormed, Guarded, SavesOk, Recoverable, SimulateRecord, Retries, Justified;
      Hear(text);
      ghost var heard := messages;
      ghost var k :| 0 <= k < |saved| && saved[k] == heard;
      outcome := RunLoop(|old(messages)|);
      assert saved[k] == heard;
      running := false;
      if outcome != Died { Conclude(outcome); }
      assert saved[k] == heard;
    }

    /** The last save of a prompt. */
    method Conclude(ghost outcome: Outcome)
      requires Valid() && Justified(outcome)
      modifies this`pendingSteer, this`abortFlag, this`nextInterrupt, this`saved
      ensures Valid() && old(saved) <= saved && messages in saved && Justified(outcome)
    {
      hide WellFormed, SavesOk, Recoverable, SimulateRecord;
      Persist();
    }

    /** `steer`, outside a prompt. */
    method Steer(text: string)
      requires Valid()
      modifies this`pendingSteer, this`saved
      ensures Valid() && pendingSteer == old(pendingSteer) + [text] && saved == old(saved) + [messages]
    {
      hide Recoverable, WellFormed;
      pendingSteer := pendingSteer + [text];
      saved := saved + [messages];
    }
  }

  lemma BatchWaits(before: seq<Message>, narration: Option<string>, calls: seq<Call>, results: seq<Message>)
    requires Recoverable(before) && DistinctIds(calls) && ResultsOf(results, calls) && |results| < |calls|
    ensures
      var now := Batch(before, narration, calls, results);
      Holds(PendingAt(now, |now|), calls[|results|].id)
  {
    hide Recoverable, PendingAt, Holds, Remove;
    BatchPending(before, narration, calls, results);
    FirstRemoved(calls, |results|);
    hide Batch;
  }

  lemma BatchMore(before: seq<Message>, narration: Option<string>, calls: seq<Call>, results: seq<Message>, m: Message)
    requires ResultsOf(results, calls) && |results| < |calls| && m.Tool? && m.callId == calls[|results|].id
    ensures ResultsOf(results + [m], calls)
    ensures Batch(before, narration, calls, results + [m]) == Batch(before, narration, calls, results) + [m]
  {
    BatchSnoc(before, narration, calls, results + [m]);
    assert (results + [m])[..|results|] == results;
  }

  lemma {:induction false} PendingShift(prompt: string, conversation: seq<Message>, k: nat)
    requires k <= |conversation|
    ensures PendingAt([System(prompt)] + conversation, k + 1) == PendingAt(conversation, k)
  {
    if k > 0 {
      hide Holds, Remove, Opened;
      PendingShift(prompt, conversation, k - 1);
      assert ([System(prompt)] + conversation)[k] == conversation[k - 1];
    }
  }

  /** The system prompt in front changes nothing. */
  lemma PromptFirst(prompt: string, conversation: seq<Message>)
    ensures Recoverable([System(prompt)] + conversation) <==> Recoverable(conversation)
    ensures History([System(prompt)] + conversation) == conversation
  {
    var all := [System(prompt)] + conversation;
    assert all[1..] == conversation;
    hide Answers, PendingAt;
    forall j | 0 <= j < |conversation| && conversation[j].Tool?
      ensures all[j + 1] == conversation[j] && (Answers(all, j + 1) <==> Answers(conversation, j))
    {
      PendingShift(prompt, conversation, j);
      AnswersIsPending(conversation, j);
      AnswersIsPending(all, j + 1);
    }
    assert forall j :: 1 <= j < |all| ==> all[j] == conversation[j - 1];
  }

  /**
   * A process that dies at any await, and the one that takes up what it had
   * saved: the copy is accepted, every call in the restored conversation has its
   * one result, and the new session may start from it.
   */
  lemma CrashAndResume(saved: seq<seq<Message>>, messages: seq<Message>, k: nat)
    requires messages != [] && messages[0].System? && SavesOk(saved, messages) && k < |saved|
    ensures Restore(saved[k]).Some?
    ensures Complete(Restore(saved[k]).value) && Recoverable(Restore(saved[k]).value)
    ensures Subsequence(saved[k][1..], Restore(saved[k]).value)
  {
    var copy := saved[k];
    assert copy == [System(copy[0].text)] + copy[1..];
    PromptFirst(copy[0].text, copy[1..]);
    AcceptedExactly(copy);
    RestoredConversation(copy);
  }
}
