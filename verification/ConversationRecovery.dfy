/** Which conversations can be restored, and what the restored conversation is. */
module ConversationRecovery {
  import opened Common
  import opened Conversation

  // ------------------------------------------------------------ the pending map

  lemma RemoveHolds(pending: seq<Call>, id: string, other: string)
    requires DistinctIds(pending) && Holds(pending, id)
    ensures DistinctIds(Remove(pending, id))
    ensures Holds(Remove(pending, id), other) <==> Holds(pending, other) && other != id
  {
    var i := PositionOf(pending, id);
    var rest := Remove(pending, id);
    assert forall j :: 0 <= j < i ==> rest[j] == pending[j];
    assert forall j :: i <= j < |rest| ==> rest[j] == pending[j + 1];
    if Holds(pending, other) && other != id {
      var j :| 0 <= j < |pending| && pending[j].id == other;
      assert rest[if j < i then j else j - 1].id == other;
    }
  }

  lemma PutHolds(pending: seq<Call>, call: Call, id: string)
    requires DistinctIds(pending)
    ensures DistinctIds(Put(pending, call))
    ensures Holds(Put(pending, call), id) <==> Holds(pending, id) || id == call.id
  {
    var i := PositionOf(pending, call.id);
    var r := Put(pending, call);
    assert r[i] == call;
    if Holds(pending, id) && id != call.id {
      var j :| 0 <= j < |pending| && pending[j].id == id;
      assert r[j].id == id;
    }
  }

  lemma {:induction false} PutAllHolds(pending: seq<Call>, calls: seq<Call>, id: string)
    requires DistinctIds(pending)
    ensures DistinctIds(PutAll(pending, calls))
    ensures Holds(PutAll(pending, calls), id) <==> Holds(pending, id) || Holds(calls, id)
    decreases |calls|
  {
    if calls != [] {
      PutHolds(pending, calls[0], id);
      PutAllHolds(Put(pending, calls[0]), calls[1..], id);
      HoldsCons(calls, id);
    }
  }

  lemma HoldsCons(calls: seq<Call>, id: string)
    requires calls != []
    ensures Holds(calls, id) <==> calls[0].id == id || Holds(calls[1..], id)
  {
    if Holds(calls, id) && calls[0].id != id {
      var i :| 0 <= i < |calls| && calls[i].id == id;
      assert calls[1..][i - 1].id == id;
    }
    if Holds(calls[1..], id) {
      var i :| 0 <= i < |calls[1..]| && calls[1..][i].id == id;
      assert calls[i + 1].id == id;
    }
  }

  lemma OpenedHolds(m: Message, id: string)
    ensures DistinctIds(Opened(m))
    ensures Holds(Opened(m), id) <==> m.Assistant? && Holds(m.calls, id)
  {
    if m.Assistant? { PutAllHolds([], m.calls, id); }
  }

  /** The calls waiting for a result once the first `k` messages have been read. */
  function PendingAt(history: seq<Message>, k: nat): seq<Call>
    requires k <= |history|
  {
    if k == 0 then []
    else
      var m, before := history[k - 1], PendingAt(history, k - 1);
      if !m.Tool? then Opened(m) else if Holds(before, m.callId) then Remove(before, m.callId) else before
  }

  lemma {:induction false} PendingDistinct(history: seq<Message>, k: nat)
    requires k <= |history|
    ensures DistinctIds(PendingAt(history, k))
  {
    if k > 0 {
      PendingDistinct(history, k - 1);
      OpenedHolds(history[k - 1], "");
      if history[k - 1].Tool? && Holds(PendingAt(history, k - 1), history[k - 1].callId) {
        RemoveHolds(PendingAt(history, k - 1), history[k - 1].callId, "");
      }
    }
  }

  /** A call waits exactly when the last turn made it and no result since then has its id. */
  lemma {:induction false} PendingMeans(history: seq<Message>, k: nat, id: string)
    requires k <= |history|
    ensures
      var i := LastTurn(history, k);
      Holds(PendingAt(history, k), id) <==>
        && i >= 0 && history[i].Assistant? && Holds(history[i].calls, id)
        && forall j :: i < j < k && history[j].Tool? ==> history[j].callId != id
  {
    hide Holds, Remove, Opened, DistinctIds;
    if k == 0 {
      NothingHeld(id);
    } else {
      var m, before := history[k - 1], PendingAt(history, k - 1);
      if !m.Tool? {
        OpenedHolds(m, id);
      } else {
        PendingMeans(history, k - 1, id);
        PendingDistinct(history, k - 1);
        if Holds(before, m.callId) { RemoveHolds(before, m.callId, id); }
      }
    }
  }

  lemma NothingHeld(id: string)
    ensures !Holds([], id)
  {
  }

  lemma AnswersIsPending(history: seq<Message>, j: nat)
    requires j < |history| && history[j].Tool?
    ensures Answers(history, j) <==> Holds(PendingAt(history, j), history[j].callId)
  {
    PendingMeans(history, j, history[j].callId);
  }

  // ------------------------------------------------------------ what is accepted

  predicate AnsweredFrom(history: seq<Message>, k: nat)
  {
    forall j :: k <= j < |history| && history[j].Tool? ==> Answers(history, j)
  }

  lemma {:induction false} AcceptedFrom(history: seq<Message>, k: nat)
    requires k <= |history|
    ensures RestoreFrom(history[k..], PendingAt(history, k)).Some? <==> AnsweredFrom(history, k)
    decreases |history| - k
  {
    hide Answers;
    if k < |history| {
      assert history[k..][0] == history[k] && history[k..][1..] == history[k + 1..];
      AcceptedFrom(history, k + 1);
      if history[k].Tool? { AnswersIsPending(history, k); }
    }
  }

  /** A conversation is accepted exactly when every result in it answers a call of the turn it follows. */
  lemma AcceptedExactly(messages: seq<Message>)
    ensures Restore(messages).Some? <==> Recoverable(History(messages))
  {
    AcceptedFrom(History(messages), 0);
    assert History(messages)[0..] == History(messages);
  }

  // --------------------------------------------------------- what comes back

  /** Nothing waits when a turn begins, and nothing waits at the end. */
  predicate Settled(history: seq<Message>)
  {
    && Recoverable(history)
    && forall k :: 0 <= k <= |history| && (k < |history| ==> !history[k].Tool?) ==> PendingAt(history, k) == []
  }

  /** A restored beginning: everything before is settled, and these calls wait. */
  predicate Good(prefix: seq<Message>, pending: seq<Call>)
  {
    && Recoverable(prefix) && PendingAt(prefix, |prefix|) == pending
    && forall k :: 0 <= k < |prefix| && !prefix[k].Tool? ==> PendingAt(prefix, k) == []
  }

  lemma {:induction false} PendingPrefix(history: seq<Message>, more: seq<Message>, k: nat)
    requires k <= |history|
    ensures PendingAt(history + more, k) == PendingAt(history, k)
  {
    if k > 0 {
      PendingPrefix(history, more, k - 1);
    }
  }

  lemma PendingAppend(history: seq<Message>, m: Message)
    ensures PendingAt(history + [m], |history| + 1)
         == if !m.Tool? then Opened(m)
            else if Holds(PendingAt(history, |history|), m.callId) then Remove(PendingAt(history, |history|), m.callId)
            else PendingAt(history, |history|)
  {
    PendingPrefix(history, [m], |history|);
  }

  lemma AnswersPrefix(history: seq<Message>, m: Message, j: nat)
    requires j < |history| && history[j].Tool?
    ensures (history + [m])[j] == history[j] && (Answers(history + [m], j) <==> Answers(history, j))
  {
    hide Answers;
    PendingPrefix(history, [m], j);
    AnswersIsPending(history, j);
    AnswersIsPending(history + [m], j);
  }

  /** A longer conversation can be restored exactly when the shorter one can and the new result is waited for. */
  lemma RecoverableAppend(history: seq<Message>, m: Message)
    ensures Recoverable(history + [m])
      <==> Recoverable(history) && (m.Tool? ==> Holds(PendingAt(history, |history|), m.callId))
  {
    hide Answers, Holds, PendingAt;
    var more := history + [m];
    forall j | 0 <= j < |history| && history[j].Tool?
      ensures more[j] == history[j] && (Answers(more, j) <==> Answers(history, j))
    {
      AnswersPrefix(history, m, j);
    }
    if m.Tool? {
      AnswersIsPending(more, |history|);
      PendingPrefix(history, [m], |history|);
    }
    assert forall j :: 0 <= j < |history| ==> more[j] == history[j];
  }

  lemma GoodAppend(prefix: seq<Message>, pending: seq<Call>, m: Message)
    requires Good(prefix, pending) && (if m.Tool? then Holds(pending, m.callId) else pending == [])
    ensures Good(prefix + [m], if m.Tool? then Remove(pending, m.callId) else Opened(m))
  {
    PendingAppend(prefix, m);
    RecoverableAppend(prefix, m);
    hide Recoverable, Holds, Remove, Opened, PendingAt;
    forall k | 0 <= k < |prefix| + 1 && !(prefix + [m])[k].Tool? ensures PendingAt(prefix + [m], k) == [] {
      PendingPrefix(prefix, [m], k);
    }
  }

  lemma {:induction false} GoodClosings(prefix: seq<Message>, pending: seq<Call>)
    requires Good(prefix, pending)
    ensures Good(prefix + Closings(pending), [])
    decreases |pending|
  {
    hide Good, Remove, Holds;
    if pending == [] {
      assert prefix + Closings(pending) == prefix;
    } else {
      var m := Closing(pending[0]);
      HeadRemoved(pending);
      GoodAppend(prefix, pending, m);
      GoodClosings(prefix + [m], pending[1..]);
      assert Closings(pending) == [m] + Closings(pending[1..]);
      AppendAssoc(prefix, [m], Closings(pending[1..]));
    }
  }

  lemma HeadRemoved(pending: seq<Call>)
    requires pending != []
    ensures Holds(pending, pending[0].id) && Remove(pending, pending[0].id) == pending[1..]
  {
    assert PositionOf(pending, pending[0].id) == 0;
  }

  lemma GoodSettled(prefix: seq<Message>)
    requires Good(prefix, [])
    ensures Settled(prefix)
  {
  }

  lemma {:induction false} RestoredSettled(prefix: seq<Message>, pending: seq<Call>, history: seq<Message>)
    requires Good(prefix, pending) && RestoreFrom(history, pending).Some?
    ensures Settled(prefix + RestoreFrom(history, pending).value)
    decreases |history|
  {
    hide Good, Settled;
    if history == [] {
      GoodClosings(prefix, pending);
      GoodSettled(prefix + Closings(pending));
    } else {
      var m, rest := history[0], history[1..];
      if m.Tool? {
        GoodAppend(prefix, pending, m);
        RestoredSettled(prefix + [m], Remove(pending, m.callId), rest);
        AppendAssoc(prefix, [m], RestoreFrom(rest, Remove(pending, m.callId)).value);
      } else {
        var closed := prefix + Closings(pending);
        GoodClosings(prefix, pending);
        GoodAppend(closed, [], m);
        RestoredSettled(closed + [m], Opened(m), rest);
        var later := RestoreFrom(rest, Opened(m)).value;
        AppendAssoc(closed, [m], later);
        AppendAssoc(prefix, Closings(pending), [m] + later);
      }
    }
  }

  lemma {:induction false} SubsequenceSkip(a: seq<Message>, skipped: seq<Message>, b: seq<Message>)
    requires Subsequence(a, b)
    ensures Subsequence(a, skipped + b)
    decreases |skipped|
  {
    if skipped == [] {
      assert skipped + b == b;
    } else {
      assert (skipped + b)[1..] == skipped[1..] + b;
      SubsequenceSkip(a, skipped[1..], b);
    }
  }

  lemma SubsequenceTake(m: Message, a: seq<Message>, b: seq<Message>)
    requires Subsequence(a, b)
    ensures Subsequence([m] + a, [m] + b)
  {
    assert ([m] + a)[1..] == a && ([m] + b)[1..] == b;
  }

  lemma {:induction false} OriginalsKept(history: seq<Message>, pending: seq<Call>)
    requires RestoreFrom(history, pending).Some?
    ensures Subsequence(history, RestoreFrom(history, pending).value)
    decreases |history|
  {
    hide Subsequence;
    if history == [] {
      SubsequenceEmpty(Closings(pending));
    } else {
      var m, rest := history[0], history[1..];
      var next := if m.Tool? then Remove(pending, m.callId) else Opened(m);
      OriginalsKept(rest, next);
      SubsequenceTake(m, rest, RestoreFrom(rest, next).value);
      assert history == [m] + rest;
      if !m.Tool? { SubsequenceSkip(history, Closings(pending), [m] + RestoreFrom(rest, next).value); }
    }
  }

  function CallsOf(m: Message): seq<Call>
  {
    if m.Assistant? then m.calls else []
  }

  /** `restored` is `history` with nothing put in but interrupted results of calls of the turn they follow. */
  ghost predicate Mended(history: seq<Message>, restored: seq<Message>, calls: seq<Call>)
    decreases |restored|
  {
    if restored == [] then history == []
    else
      || (history != [] && restored[0] == history[0]
          && Mended(history[1..], restored[1..], if history[0].Tool? then calls else CallsOf(history[0])))
      || (PutIn(restored[0], calls) && Mended(history, restored[1..], calls))
  }

  predicate PutIn(m: Message, calls: seq<Call>)
  {
    exists c :: 0 <= c < |calls| && m == Tool(calls[c].id, calls[c].name, INTERRUPTED, true)
  }

  /** What waits is among these calls, with its id and name. */
  predicate Among(pending: seq<Call>, calls: seq<Call>)
  {
    forall i :: 0 <= i < |pending| ==> pending[i] in calls
  }

  lemma {:induction false} PutAllAmong(pending: seq<Call>, calls: seq<Call>, all: seq<Call>)
    requires Among(pending, all) && Among(calls, all)
    ensures Among(PutAll(pending, calls), all)
    decreases |calls|
  {
    if calls != [] {
      assert calls[0] in all;
      PutAllAmong(Put(pending, calls[0]), calls[1..], all);
    }
  }

  lemma OpenedAmong(m: Message)
    ensures Among(Opened(m), CallsOf(m))
  {
    if m.Assistant? { PutAllAmong([], m.calls, m.calls); }
  }

  lemma {:induction false} ClosingsMend(history: seq<Message>, rest: seq<Message>, pending: seq<Call>, calls: seq<Call>)
    requires Among(pending, calls) && Mended(history, rest, calls)
    ensures Mended(history, Closings(pending) + rest, calls)
    decreases |pending|
  {
    if pending == [] {
      assert Closings(pending) + rest == rest;
    } else {
      var m := Closing(pending[0]);
      ClosingsMend(history, rest, pending[1..], calls);
      assert pending[0] in calls;
      assert PutIn(m, calls);
      assert Closings(pending) == [m] + Closings(pending[1..]);
      AppendAssoc([m], Closings(pending[1..]), rest);
      PutOneIn(history, m, Closings(pending[1..]) + rest, calls);
    }
  }

  lemma PutOneIn(history: seq<Message>, m: Message, rest: seq<Message>, calls: seq<Call>)
    requires PutIn(m, calls) && Mended(history, rest, calls)
    ensures Mended(history, [m] + rest, calls)
  {
    assert ([m] + rest)[1..] == rest;
  }

  lemma KeepOne(m: Message, history: seq<Message>, rest: seq<Message>, calls: seq<Call>)
    requires Mended(history, rest, if m.Tool? then calls else CallsOf(m))
    ensures Mended([m] + history, [m] + rest, calls)
  {
    assert ([m] + rest)[1..] == rest && ([m] + history)[1..] == history;
  }

  lemma {:induction false} RestoredMends(history: seq<Message>, pending: seq<Call>, calls: seq<Call>)
    requires Among(pending, calls) && RestoreFrom(history, pending).Some?
    ensures Mended(history, RestoreFrom(history, pending).value, calls)
    decreases |history|
  {
    hide Mended, Closings;
    if history == [] {
      NothingMended(calls);
      ClosingsMend([], [], pending, calls);
      assert Closings(pending) + [] == Closings(pending);
    } else {
      var m, rest := history[0], history[1..];
      assert history == [m] + rest;
      if m.Tool? {
        RestoredMends(rest, Remove(pending, m.callId), calls);
        KeepOne(m, rest, RestoreFrom(rest, Remove(pending, m.callId)).value, calls);
      } else {
        OpenedAmong(m);
        RestoredMends(rest, Opened(m), CallsOf(m));
        var later := RestoreFrom(rest, Opened(m)).value;
        KeepOne(m, rest, later, calls);
        ClosingsMend(history, [m] + later, pending, calls);
      }
    }
  }

  lemma NothingMended(calls: seq<Call>)
    ensures Mended([], [], calls)
  {
  }

  lemma SubsequenceEmpty(b: seq<Message>)
    ensures Subsequence([], b)
  {
  }

  /** The turn after `i`, or the end. */
  function NextTurn(history: seq<Message>, i: nat): (k: nat)
    requires i < |history|
    ensures i < k <= |history| && (k < |history| ==> !history[k].Tool?)
    ensures forall j :: i < j < k ==> history[j].Tool?
    decreases |history| - i
  {
    if i + 1 == |history| || !history[i + 1].Tool? then i + 1 else NextTurn(history, i + 1)
  }

  lemma {:induction false} LastTurnIs(history: seq<Message>, i: nat, j: nat)
    requires i < j <= |history| && !history[i].Tool? && forall k :: i < k < j ==> history[k].Tool?
    ensures LastTurn(history, j) == i
    decreases j
  {
    if i + 1 < j {
      LastTurnIs(history, i, j - 1);
    }
  }

  /** In a settled conversation every call has been answered before the next turn. */
  lemma SettledComplete(history: seq<Message>)
    requires Settled(history)
    ensures Complete(history)
  {
    forall i, c | 0 <= i < |history| && history[i].Assistant? && 0 <= c < |history[i].calls|
      ensures Answered(history, i, history[i].calls[c].id)
    {
      var k, id := NextTurn(history, i), history[i].calls[c].id;
      LastTurnIs(history, i, k);
      PendingMeans(history, k, id);
      assert Holds(history[i].calls, id) && PendingAt(history, k) == [];
      var j :| i < j < k && history[j].Tool? && history[j].callId == id;
      LastTurnIs(history, i, j);
    }
  }

  /**
   * What is restored: the messages that were there, in order, with nothing but
   * closing results added, so that every call has exactly one result before the
   * next turn.
   */
  lemma RestoredConversation(messages: seq<Message>)
    requires Restore(messages).Some?
    ensures Complete(Restore(messages).value)
    ensures Subsequence(History(messages), Restore(messages).value)
    ensures Mended(History(messages), Restore(messages).value, [])
  {
    hide Mended;
    var history := History(messages);
    RestoredMends(history, [], []);
    RestoredSettled([], [], history);
    assert [] + Restore(messages).value == Restore(messages).value;
    SettledComplete(Restore(messages).value);
    OriginalsKept(history, []);
  }

  lemma {:induction false} SettledStable(history: seq<Message>, k: nat)
    requires Settled(history) && k <= |history|
    ensures RestoreFrom(history[k..], PendingAt(history, k)) == Some(history[k..])
    decreases |history| - k
  {
    hide Settled, PendingAt, Holds, Remove, Opened, RestoreFrom;
    SettledAt(history, k);
    RestoreStep(history[k..], PendingAt(history, k));
    if k < |history| {
      assert history[k..][0] == history[k] && history[k..][1..] == history[k + 1..];
      assert history[k..] == [history[k]] + history[k + 1..];
      SettledStable(history, k + 1);
    }
  }

  /** In a settled conversation a result is waited for, and nothing else is when a turn begins. */
  lemma SettledAt(history: seq<Message>, k: nat)
    requires Settled(history) && k <= |history|
    ensures k == |history| || !history[k].Tool? ==> PendingAt(history, k) == []
    ensures k < |history| && history[k].Tool? ==> Holds(PendingAt(history, k), history[k].callId)
    ensures k < |history| ==>
      PendingAt(history, k + 1) ==
        if history[k].Tool? then Remove(PendingAt(history, k), history[k].callId) else Opened(history[k])
  {
    hide Answers, Opened, Holds, Remove;
    if k < |history| && history[k].Tool? {
      assert Answers(history, k);
      AnswersIsPending(history, k);
    }
  }

  /** One message restored, when its result is waited for or nothing is. */
  lemma RestoreStep(history: seq<Message>, pending: seq<Call>)
    ensures history == [] && pending == [] ==> RestoreFrom(history, pending) == Some([])
    ensures history != [] && (if history[0].Tool? then Holds(pending, history[0].callId) else pending == []) ==>
      var r := RestoreFrom(history[1..], if history[0].Tool? then Remove(pending, history[0].callId) else Opened(history[0]));
      RestoreFrom(history, pending) == if r.None? then None else Some([history[0]] + r.value)
  {
    assert Closings([]) == [];
    if history != [] {
      var m := history[0];
      var r := RestoreFrom(history[1..], if m.Tool? && Holds(pending, m.callId) then Remove(pending, m.callId) else Opened(m));
      if r.Some? { assert [] + ([m] + r.value) == [m] + r.value; }
    }
  }

  /** Restoring once more, behind the new system prompt, changes nothing. */
  lemma RestoreIdempotent(messages: seq<Message>, prompt: string)
    requires Restore(messages).Some?
    ensures Restore([System(prompt)] + Restore(messages).value) == Restore(messages)
  {
    var restored := Restore(messages).value;
    RestoredSettled([], [], History(messages));
    assert [] + restored == restored;
    assert ([System(prompt)] + restored)[1..] == restored;
    SettledStable(restored, 0);
    assert restored[0..] == restored;
  }

  /** Elements put in move the others to the right only. */
  lemma {:induction false} SubsequenceDrop(a: seq<Message>, b: seq<Message>, k: nat)
    requires Subsequence(a, b) && k <= |a|
    ensures k <= |b| && Subsequence(a[k..], b[k..])
    decreases |b|
  {
    if k == 0 {
      assert a[0..] == a && b[0..] == b;
    } else if a[0] == b[0] && Subsequence(a[1..], b[1..]) {
      SubsequenceDrop(a[1..], b[1..], k - 1);
      assert a[1..][k - 1..] == a[k..] && b[1..][k - 1..] == b[k..];
    } else {
      SubsequenceDrop(a, b[1..], k);
      assert b[k..] == [b[k]] + b[1..][k..];
      SubsequenceSkip(a[k..], [b[k]], b[1..][k..]);
    }
  }

  /** A summary of the first `covered` messages, taken up after a restart, covers no message it did not cover. */
  lemma UncoveredStays(messages: seq<Message>, prompt: string, covered: nat)
    requires messages != [] && messages[0].System? && 1 <= covered <= |messages| && Restore(messages).Some?
    ensures
      var restored := [System(prompt)] + Restore(messages).value;
      covered <= |restored| && Subsequence(messages[covered..], restored[covered..])
  {
    RestoredConversation(messages);
    hide Restore, Complete, Subsequence;
    var history, restored := History(messages), Restore(messages).value;
    SubsequenceDrop(history, restored, covered - 1);
    assert history[covered - 1..] == messages[covered..];
    assert ([System(prompt)] + restored)[covered..] == restored[covered - 1..];
  }

  // --------------------------------------------------------------- tool batches

  lemma {:induction false} PutDistinct(pending: seq<Call>, calls: seq<Call>)
    requires DistinctIds(pending + calls)
    ensures PutAll(pending, calls) == pending + calls
    decreases |calls|
  {
    if calls == [] {
      assert pending + calls == pending;
    } else {
      assert forall j :: 0 <= j < |pending| ==> (pending + calls)[j] == pending[j];
      assert (pending + calls)[|pending|] == calls[0];
      assert PositionOf(pending, calls[0].id) == |pending|;
      assert pending + calls == (pending + [calls[0]]) + calls[1..];
      PutDistinct(pending + [calls[0]], calls[1..]);
    }
  }

  /** The results of the first `n` calls of a batch, in order. */
  predicate ResultsOf(results: seq<Message>, calls: seq<Call>)
  {
    && |results| <= |calls|
    && forall j :: 0 <= j < |results| ==> results[j].Tool? && results[j].callId == calls[j].id
  }

  /** A conversation, a turn with a batch of calls, and some results. */
  function Batch(history: seq<Message>, content: Option<string>, calls: seq<Call>, results: seq<Message>): seq<Message>
  {
    history + [Assistant(content, calls)] + results
  }

  lemma BatchSnoc(history: seq<Message>, content: Option<string>, calls: seq<Call>, results: seq<Message>)
    requires results != []
    ensures Batch(history, content, calls, results)
         == Batch(history, content, calls, results[..|results| - 1]) + [results[|results| - 1]]
    ensures |Batch(history, content, calls, results[..|results| - 1])| == |history| + |results|
  {
  }

  lemma BatchEmpty(history: seq<Message>, content: Option<string>, calls: seq<Call>)
    ensures Batch(history, content, calls, []) == history + [Assistant(content, calls)]
  {
  }

  lemma FirstRemoved(calls: seq<Call>, n: nat)
    requires n < |calls|
    ensures Holds(calls[n..], calls[n].id) && Remove(calls[n..], calls[n].id) == calls[n + 1..]
  {
    assert calls[n..][0] == calls[n];
  }

  /** A batch with distinct ids, answered in order, leaves the calls not yet answered waiting. */
  lemma {:induction false} BatchPending(history: seq<Message>, content: Option<string>, calls: seq<Call>, results: seq<Message>)
    requires Recoverable(history) && DistinctIds(calls) && ResultsOf(results, calls)
    ensures Recoverable(Batch(history, content, calls, results))
    ensures PendingAt(Batch(history, content, calls, results), |history| + 1 + |results|) == calls[|results|..]
    decreases |results|
  {
    hide Recoverable, PendingAt, Holds, Remove, Batch;
    if results == [] {
      BatchEmpty(history, content, calls);
      PendingAppend(history, Assistant(content, calls));
      RecoverableAppend(history, Assistant(content, calls));
      assert [] + calls == calls;
      PutDistinct([], calls);
    } else {
      var n := |results| - 1;
      BatchPending(history, content, calls, results[..n]);
      BatchSnoc(history, content, calls, results);
      FirstRemoved(calls, n);
      PendingAppend(Batch(history, content, calls, results[..n]), results[n]);
      RecoverableAppend(Batch(history, content, calls, results[..n]), results[n]);
    }
  }

  /** After some results a call of the batch waits when none of them has its id. */
  lemma BatchHolds(history: seq<Message>, content: Option<string>, calls: seq<Call>, results: seq<Message>, id: string)
    requires ResultsOf(results, calls)
    ensures
      var now := Batch(history, content, calls, results);
      Holds(PendingAt(now, |now|), id) <==> Holds(calls, id) && forall j :: 0 <= j < |results| ==> calls[j].id != id
  {
    var now := Batch(history, content, calls, results);
    assert now[|history|] == Assistant(content, calls);
    assert forall j :: |history| < j < |now| ==> now[j] == results[j - |history| - 1];
    LastTurnIs(now, |history|, |now|);
    PendingMeans(now, |now|, id);
    assert forall j :: 0 <= j < |results| ==> now[|history| + 1 + j] == results[j];
  }

  lemma DistinctMore(calls: seq<Call>, n: nat)
    requires n < |calls|
    ensures DistinctIds(calls[..n + 1])
      <==> DistinctIds(calls[..n]) && forall j :: 0 <= j < n ==> calls[j].id != calls[n].id
  {
    assert forall j :: 0 <= j <= n ==> calls[..n + 1][j] == calls[j];
    assert forall j :: 0 <= j < n ==> calls[..n][j] == calls[j];
  }

  /**
   * Whatever the ids: the results given so far can be restored exactly when the
   * calls they answer have distinct ids.
   */
  lemma {:induction false} BatchAccepted(history: seq<Message>, content: Option<string>, calls: seq<Call>, results: seq<Message>)
    requires Recoverable(history) && ResultsOf(results, calls)
    ensures Recoverable(Batch(history, content, calls, results)) <==> DistinctIds(calls[..|results|])
    decreases |results|
  {
    hide Recoverable, PendingAt, Batch, DistinctIds;
    if results == [] {
      BatchEmpty(history, content, calls);
      RecoverableAppend(history, Assistant(content, calls));
      NoneDistinct(calls);
    } else {
      var n := |results| - 1;
      BatchAccepted(history, content, calls, results[..n]);
      BatchSnoc(history, content, calls, results);
      RecoverableAppend(Batch(history, content, calls, results[..n]), results[n]);
      BatchHolds(history, content, calls, results[..n], calls[n].id);
      assert Holds(calls, calls[n].id);
      DistinctMore(calls, n);
    }
  }

  lemma NoneDistinct(calls: seq<Call>)
    ensures DistinctIds(calls[..0])
  {
  }
}
