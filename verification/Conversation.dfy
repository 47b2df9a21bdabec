/** Conversations with tool calls, and what a restarted runtime makes of one that was cut off. */
module Conversation {
  import opened Common

  datatype Call = Call(id: string, name: string)

  datatype Message =
    | System(text: string)
    | User(text: string)
    | Assistant(content: Option<string>, calls: seq<Call>)
    | Tool(callId: string, name: string, result: string, isError: bool)

  const INTERRUPTED := "Execution interrupted before a result was recorded; effects are unknown. Inspect current state before retrying."

  function Closing(call: Call): Message
  {
    Tool(call.id, call.name, INTERRUPTED, true)
  }

  function Closings(pending: seq<Call>): (closings: seq<Message>)
    ensures |closings| == |pending|
    ensures forall i :: 0 <= i < |pending| ==> closings[i] == Closing(pending[i])
  {
    seq(|pending|, i requires 0 <= i < |pending| => Closing(pending[i]))
  }

  // ------------------------------------------- the pending map, in insertion order

  predicate Holds(pending: seq<Call>, id: string)
  {
    exists i :: 0 <= i < |pending| && pending[i].id == id
  }

  predicate DistinctIds(calls: seq<Call>)
  {
    forall i, j :: 0 <= i < j < |calls| ==> calls[i].id != calls[j].id
  }

  function PositionOf(pending: seq<Call>, id: string): (i: nat)
    ensures i <= |pending|
    ensures i < |pending| ==> pending[i].id == id
    ensures forall j :: 0 <= j < i ==> pending[j].id != id
  {
    if pending == [] || pending[0].id == id then 0
    else
      var i := PositionOf(pending[1..], id);
      assert forall j :: 1 <= j < i + 1 ==> pending[j] == pending[1..][j - 1];
      i + 1
  }

  /** `pending.set`: a known id keeps its place. */
  function Put(pending: seq<Call>, call: Call): seq<Call>
  {
    var i := PositionOf(pending, call.id);
    if i < |pending| then pending[i := call] else pending + [call]
  }

  /** `pending.delete` of an id that is there. */
  function Remove(pending: seq<Call>, id: string): (rest: seq<Call>)
    requires Holds(pending, id)
    ensures |rest| == |pending| - 1
  {
    var i := PositionOf(pending, id);
    pending[..i] + pending[i + 1..]
  }

  function PutAll(pending: seq<Call>, calls: seq<Call>): seq<Call>
    decreases |calls|
  {
    if calls == [] then pending else PutAll(Put(pending, calls[0]), calls[1..])
  }

  function Opened(message: Message): seq<Call>
  {
    if message.Assistant? then PutAll([], message.calls) else []
  }

  // ---------------------------------------------------------------- restoring

  /** The rest of a history, with the calls that still wait for a result; `None` is a result nobody waits for. */
  function RestoreFrom(history: seq<Message>, pending: seq<Call>): Option<seq<Message>>
    decreases |history|
  {
    if history == [] then Some(Closings(pending))
    else
      var m, rest := history[0], history[1..];
      if m.Tool? then
        if !Holds(pending, m.callId) then None
        else
          var r := RestoreFrom(rest, Remove(pending, m.callId));
          if r.None? then None else Some([m] + r.value)
      else
        var r := RestoreFrom(rest, Opened(m));
        if r.None? then None else Some(Closings(pending) + ([m] + r.value))
  }

  /** The conversation without its leading system prompt, which is made anew. */
  function History(messages: seq<Message>): seq<Message>
  {
    if messages != [] && messages[0].System? then messages[1..] else messages
  }

  function Restore(messages: seq<Message>): Option<seq<Message>>
  {
    RestoreFrom(History(messages), [])
  }

  /** `restoreConversationMessages`; `None` is the error thrown for an unmatched result. */
  method RestoreConversation(messages: seq<Message>) returns (r: Option<seq<Message>>)
    ensures r == Restore(messages)
  {
    var history := if |messages| > 0 && messages[0].System? then messages[1..] else messages;
    var restored: seq<Message> := [];
    var pending: seq<Call> := [];
    assert history[0..] == history;
    assert forall rest: seq<Message> :: restored + rest == rest;
    for k := 0 to |history|
      invariant Restore(messages)
        == (var rest := RestoreFrom(history[k..], pending); if rest.None? then None else Some(restored + rest.value))
    {
      var message := history[k];
      var rest := history[k..];
      assert rest[0] == message && rest[1..] == history[k + 1..];
      if message.Tool? {
        if !Holds(pending, message.callId) { return None; }
        pending := Remove(pending, message.callId);
        ghost var later := RestoreFrom(history[k + 1..], pending);
        if later.Some? { AppendAssoc(restored, [message], later.value); }
        restored := restored + [message];
      } else {
        ghost var later := RestoreFrom(history[k + 1..], Opened(message));
        if later.Some? {
          AppendAssoc(restored, Closings(pending), [message] + later.value);
          AppendAssoc(restored + Closings(pending), [message], later.value);
        }
        restored := restored + Closings(pending) + [message];
        pending := Opened(message);
      }
    }
    assert history[|history|..] == [];
    r := Some(restored + Closings(pending));
  }

  // -------------------------------------------------- what can be restored

  /** The message before index `j` that is not a tool result, or -1. */
  function LastTurn(history: seq<Message>, j: nat): (i: int)
    requires j <= |history|
    ensures -1 <= i < j
    ensures i >= 0 ==> !history[i].Tool?
    ensures forall k :: i < k < j ==> history[k].Tool?
  {
    if j == 0 then -1 else if !history[j - 1].Tool? then j - 1 else LastTurn(history, j - 1)
  }

  /** The result at `j` answers a call of the turn it follows, and is the first to answer it. */
  predicate Answers(history: seq<Message>, j: nat)
    requires j < |history| && history[j].Tool?
  {
    var i := LastTurn(history, j);
    && i >= 0 && history[i].Assistant? && Holds(history[i].calls, history[j].callId)
    && forall k :: i < k < j && history[k].Tool? ==> history[k].callId != history[j].callId
  }

  /** Every result answers a call. */
  predicate Recoverable(history: seq<Message>)
  {
    forall j :: 0 <= j < |history| && history[j].Tool? ==> Answers(history, j)
  }

  /** Every result answers a call, and every call has its result before the conversation goes on. */
  predicate Complete(history: seq<Message>)
  {
    && Recoverable(history)
    && forall i, c :: 0 <= i < |history| && history[i].Assistant? && 0 <= c < |history[i].calls| ==>
         Answered(history, i, history[i].calls[c].id)
  }

  predicate Answered(history: seq<Message>, i: nat, id: string)
    requires i < |history|
  {
    exists j :: i < j < |history| && LastTurn(history, j) == i && history[j].Tool? && history[j].callId == id
  }

  /** `a` is `b` with some elements left out. */
  predicate Subsequence(a: seq<Message>, b: seq<Message>)
    decreases |b|
  {
    a == [] || (b != [] && (if a[0] == b[0] && Subsequence(a[1..], b[1..]) then true else Subsequence(a, b[1..])))
  }
}
