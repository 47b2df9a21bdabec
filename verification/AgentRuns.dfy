/** A session over any number of processes: each may die at any await, and the next takes up a copy it had saved. */
module AgentRuns {
  import opened Common
  import opened Conversation
  import opened ConversationRecovery
  import opened AgentLoop

  /** What a process is asked, between its start and its end. */
  datatype Request = Ask(text: string) | Correct(text: string)

  /** A process: the steering and claim checks it restores, its requests, its world, and the copy the next one finds. */
  datatype Process = Process(steers: seq<string>, checks: seq<ClaimCheck>, requests: seq<Request>, world: Script, found: nat)

  // --------------------------------------------------- claims across a restart

  lemma RecordsGrow(cfg: Config, a: seq<Message>, b: seq<Message>)
    requires a <= b
    ensures SimulateRecord(cfg, a) ==> SimulateRecord(cfg, b)
  {
    if SimulateRecord(cfg, a) {
      var i :| 0 <= i < |a| && IsRecord(cfg, a[i]);
      assert b[i] == a[i];
    }
  }

  lemma RecordAppended(cfg: Config, a: seq<Message>, m: Message)
    ensures SimulateRecord(cfg, a + [m]) <==> SimulateRecord(cfg, a) || IsRecord(cfg, m)
  {
    assert (a + [m])[|a|] == m;
    RecordsGrow(cfg, a, a + [m]);
  }

  lemma GuardedPrefix(cfg: Config, a: seq<Message>, b: seq<Message>)
    requires a <= b && Guarded(cfg, b, 0)
    ensures Guarded(cfg, a, 0)
  {
    forall j | 0 <= j < |a| ensures Supported(cfg, a, j) {
      assert Supported(cfg, b, j) && a[..j] == b[..j];
    }
  }

  /** What was guarded stays guarded under more that is. */
  lemma GuardedJoin(cfg: Config, a: seq<Message>, b: seq<Message>)
    requires a <= b && Guarded(cfg, a, 0) && Guarded(cfg, b, |a|)
    ensures Guarded(cfg, b, 0)
  {
    forall j | 0 <= j < |b| ensures Supported(cfg, b, j) {
      if j < |a| { assert Supported(cfg, a, j) && a[..j] == b[..j]; }
    }
  }

  /** The system prompt in front supports nothing and claims nothing. */
  lemma GuardedBehindPrompt(cfg: Config, prompt: string, conversation: seq<Message>)
    requires Guarded(cfg, conversation, 0)
    ensures Guarded(cfg, [System(prompt)] + conversation, 0)
  {
    var all := [System(prompt)] + conversation;
    forall j | 0 <= j < |all| ensures Supported(cfg, all, j) {
      if j > 0 {
        assert Supported(cfg, conversation, j - 1) && all[..j] == [System(prompt)] + conversation[..j - 1];
        if SimulateRecord(cfg, conversation[..j - 1]) {
          var i :| 0 <= i < j - 1 && IsRecord(cfg, conversation[..j - 1][i]);
          assert IsRecord(cfg, all[..j][i + 1]);
        }
      }
    }
  }

  lemma {:induction false} GuardedClosings(cfg: Config, prefix: seq<Message>, pending: seq<Call>)
    requires Guarded(cfg, prefix, 0)
    ensures Guarded(cfg, prefix + Closings(pending), 0)
    decreases |pending|
  {
    if pending == [] {
      assert prefix + Closings(pending) == prefix;
    } else {
      GuardedAppend(cfg, prefix, Closing(pending[0]), 0);
      GuardedClosings(cfg, prefix + [Closing(pending[0])], pending[1..]);
      assert Closings(pending) == [Closing(pending[0])] + Closings(pending[1..]);
      AppendAssoc(prefix, [Closing(pending[0])], Closings(pending[1..]));
    }
  }

  /** The results a restart adds come behind the turns they close: a claim keeps the record before it. */
  lemma {:induction false} RestoredGuarded(cfg: Config, all: seq<Message>, k: nat, prefix: seq<Message>, pending: seq<Call>)
    requires k <= |all| && Guarded(cfg, all, 0) && Guarded(cfg, prefix, 0)
    requires SimulateRecord(cfg, all[..k]) ==> SimulateRecord(cfg, prefix)
    requires RestoreFrom(all[k..], pending).Some?
    ensures Guarded(cfg, prefix + RestoreFrom(all[k..], pending).value, 0)
    decreases |all| - k
  {
    hide Guarded, SimulateRecord, Remove, Holds, Opened, IsRecord;
    if k == |all| {
      GuardedClosings(cfg, prefix, pending);
    } else {
      var m := all[k];
      assert all[k..][0] == m && all[k..][1..] == all[k + 1..] && all[..k + 1] == all[..k] + [m];
      RecordAppended(cfg, all[..k], m);
      var closed := if m.Tool? then prefix else prefix + Closings(pending);
      var waiting := if m.Tool? then Remove(pending, m.callId) else Opened(m);
      if !m.Tool? { GuardedClosings(cfg, prefix, pending); }
      RecordsGrow(cfg, prefix, closed);
      RecordAppended(cfg, closed, m);
      ClaimSupported(cfg, all, k);
      GuardedAppend(cfg, closed, m, 0);
      RestoredGuarded(cfg, all, k + 1, closed + [m], waiting);
      var later := RestoreFrom(all[k + 1..], waiting).value;
      AppendAssoc(closed, [m], later);
      if !m.Tool? { AppendAssoc(prefix, Closings(pending), [m] + later); }
    }
  }

  lemma ClaimSupported(cfg: Config, all: seq<Message>, k: nat)
    requires Guarded(cfg, all, 0) && k < |all|
    ensures all[k].Assistant? && all[k].calls == [] && all[k].content.Some? && cfg.claims(all[k].content.value) ==>
      SimulateRecord(cfg, all[..k])
  {
    assert Supported(cfg, all, k);
  }

  lemma CopyGuarded(cfg: Config, copy: seq<Message>)
    requires copy != [] && copy[0].System? && Guarded(cfg, copy, 0) && Restore(copy).Some?
    ensures Guarded(cfg, Restore(copy).value, 0)
  {
    assert copy[..1] == [copy[0]];
    RestoredGuarded(cfg, copy, 1, [], []);
    assert [] + Restore(copy).value == Restore(copy).value;
  }

  // ------------------------------------------------------------- the processes

  /** Everything on disk can be restored, and every claim in it is supported. */
  ghost predicate Sound(cfg: Config, copies: seq<seq<Message>>)
  {
    forall k :: 0 <= k < |copies| ==>
      copies[k] != [] && copies[k][0].System? && Recoverable(copies[k]) && Guarded(cfg, copies[k], 0)
  }

  lemma SavesSound(cfg: Config, copies: seq<seq<Message>>, messages: seq<Message>)
    requires SavesOk(copies, messages) && Guarded(cfg, messages, 0) && messages != [] && messages[0].System?
    ensures Sound(cfg, copies)
  {
    hide Recoverable, Guarded;
    forall k | 0 <= k < |copies| ensures copies[k] != [] && copies[k][0].System? && Guarded(cfg, copies[k], 0) {
      GuardedPrefix(cfg, copies[k], messages);
    }
  }

  /** One process, however far it comes; what it leaves is what it has saved. */
  method Live(cfg: Config, prompt: string, conversation: seq<Message>, p: Process) returns (copies: seq<seq<Message>>)
    requires Recoverable(conversation) && Guarded(cfg, conversation, 0) && WellFormed(p.world)
    ensures Sound(cfg, copies)
  {
    hide Recoverable, WellFormed, Guarded, SavesOk, SimulateRecord;
    var session := new Session(cfg, prompt, conversation, p.steers, p.checks, p.world);
    GuardedBehindPrompt(cfg, prompt, conversation);
    for i := 0 to |p.requests|
      invariant session.Valid() && session.cfg == cfg && Guarded(cfg, session.messages, 0) && fresh(session)
    {
      if p.requests[i].Correct? {
        session.Steer(p.requests[i].text);
      } else {
        ghost var before := session.messages;
        var outcome := session.Prompt(p.requests[i].text);
        assert before <= session.messages;
        GuardedJoin(cfg, before, session.messages);
        if outcome == Died { break; }
      }
    }
    copies := session.saved;
    SavesSound(cfg, copies, session.messages);
  }

  /**
   * Any number of processes, each taking up a copy that one before it had saved:
   * no copy is ever refused, in the conversation taken up every call has its one
   * result, and no reply that claims a passed simulation stands in it without
   * the result of one before it.
   */
  method LiveAll(cfg: Config, prompt: string, processes: seq<Process>) returns (conversation: seq<Message>, refused: bool)
    requires forall i :: 0 <= i < |processes| ==> WellFormed(processes[i].world)
    ensures !refused && Complete(conversation) && Guarded(cfg, conversation, 0)
  {
    hide Recoverable, WellFormed, Guarded, Complete, Restore;
    conversation := [];
    NothingSaid(cfg);
    for i := 0 to |processes|
      invariant Complete(conversation) && Guarded(cfg, conversation, 0)
    {
      var p := processes[i];
      CompleteMeans(conversation);
      var copies := Live(cfg, prompt, conversation, p);
      if p.found < |copies| {
        var copy := copies[p.found];
        TakenUp(cfg, copies, p.found);
        var restored := RestoreConversation(copy);
        if restored.None? { return conversation, true; }
        conversation := restored.value;
      }
    }
    refused := false;
  }

  lemma NothingSaid(cfg: Config)
    ensures Complete([]) && Guarded(cfg, [], 0)
  {
  }

  lemma CompleteMeans(conversation: seq<Message>)
    requires Complete(conversation)
    ensures Recoverable(conversation)
  {
  }

  lemma TakenUp(cfg: Config, copies: seq<seq<Message>>, k: nat)
    requires Sound(cfg, copies) && k < |copies|
    ensures Restore(copies[k]).Some?
    ensures Complete(Restore(copies[k]).value) && Guarded(cfg, Restore(copies[k]).value, 0)
  {
    hide Recoverable, Guarded, Complete, Restore;
    CrashAndResume([copies[k]], copies[k], 0);
    CopyGuarded(cfg, copies[k]);
  }
}
