/** What the model is shown of a long conversation: a summary of the old part and shortened results. */
module ContextView {
  import opened Common
  import opened TextSearch
  import opened Conversation

  // --------------------------------------------------------------- the tail kept

  function TailSize(size: Message -> nat, messages: seq<Message>, i: nat): nat
    requires i <= |messages|
    decreases |messages| - i
  {
    if i == |messages| then 0 else size(messages[i]) + TailSize(size, messages, i + 1)
  }

  lemma {:induction false} TailShrinks(size: Message -> nat, messages: seq<Message>, i: nat, j: nat)
    requires i <= j <= |messages|
    ensures TailSize(size, messages, j) <= TailSize(size, messages, i)
    decreases j - i
  {
    if i < j {
      TailShrinks(size, messages, i + 1, j);
    }
  }

  /** `tailSplitIndex`: the longest tail within the budget, never reaching the first message. */
  method TailSplitIndex(size: Message -> nat, messages: seq<Message>, keepTokens: nat) returns (split: nat)
    ensures 1 <= split <= Max(1, |messages|)
    ensures forall j :: 1 <= j <= |messages| ==> (TailSize(size, messages, j) <= keepTokens <==> split <= j)
  {
    var total := 0;
    split := |messages|;
    var i := |messages|;
    while i > 1
      invariant i == split <= |messages| && (|messages| > 0 ==> i > 0)
      invariant total == TailSize(size, messages, split) <= keepTokens
      decreases i
    {
      i := i - 1;
      if total + size(messages[i]) > keepTokens {
        forall j | 1 <= j < split ensures TailSize(size, messages, j) > keepTokens {
          TailShrinks(size, messages, j, i);
        }
        break;
      }
      total := total + size(messages[i]);
      split := i;
    }
    forall j | split <= j <= |messages| ensures TailSize(size, messages, j) <= keepTokens {
      TailShrinks(size, messages, split, j);
    }
    if split == 0 { split := 1; }
  }

  // ------------------------------------------------------------ shortened results

  datatype Policy = Policy(window: int, ratio: real, budget: nat, keep: int)

  const MARKER := "[context-compacted:"

  predicate Includes(s: string, p: string)
  {
    exists k :: 0 <= k <= |s| && OccursAt(s, p, k)
  }

  function Digits(n: nat): string
  {
    if n < 10 then [('0' as int + n) as char] else Digits(n / 10) + [('0' as int + n % 10) as char]
  }

  function Shortened(content: string, budget: nat, kind: string): (s: string)
    requires |content| > budget
  {
    content[..budget] + "\n…" + (MARKER + (" " + Digits(|content| - budget) + " chars omitted from this older " + kind
                                            + "; full text remains in the session record]"))
  }

  lemma ShortenedIsMarked(content: string, budget: nat, kind: string)
    requires |content| > budget
    ensures Includes(Shortened(content, budget, kind), MARKER)
  {
    var rest := " " + Digits(|content| - budget) + " chars omitted from this older " + kind
                + "; full text remains in the session record]";
    var head := content[..budget] + "\n…";
    assert Shortened(content, budget, kind) == head + (MARKER + rest);
    OccursAfter(head, MARKER, rest);
  }

  lemma OccursAfter(head: string, p: string, rest: string)
    ensures OccursAt(head + (p + rest), p, |head|)
  {
    assert (head + (p + rest))[|head|..] == p + rest;
    forall j | 0 <= j < |p| ensures (head + (p + rest))[|head| + j] == p[j] {
    }
  }

  /** `toolSeen` when message `i` is reached from the end. */
  function ToolsFrom(messages: seq<Message>, i: nat): nat
    requires i <= |messages|
    decreases |messages| - i
  {
    if i == |messages| then 0 else ToolsFrom(messages, i + 1) + if messages[i].Tool? then 1 else 0
  }

  /** What becomes of a message with so many tool results from it on. */
  function Compacted(p: Policy, overWindow: bool, m: Message, toolSeen: nat): Message
  {
    match m
    case Assistant(Some(content), calls) =>
      if overWindow && |content| > p.budget * 2 && !Includes(content, MARKER)
      then Assistant(Some(Shortened(content, p.budget * 2, "narration")), calls)
      else m
    case Tool(id, name, result, isError) =>
      if (toolSeen <= p.keep && !overWindow) || |result| <= p.budget || Includes(result, MARKER) then m
      else Tool(id, name, Shortened(result, p.budget, "tool result"), isError)
    case _ => m
  }

  predicate Triggered(p: Policy, tokens: Option<int>)
  {
    tokens.Some? && p.window > 0 && p.ratio > 0.0 && tokens.value as real >= p.window as real * p.ratio
  }

  function Compact(p: Policy, tokens: Option<int>, messages: seq<Message>): (view: seq<Message>)
    ensures |view| == |messages|
  {
    if !Triggered(p, tokens) then messages
    else seq(|messages|, i requires 0 <= i < |messages| =>
           Compacted(p, tokens.value > p.window, messages[i], ToolsFrom(messages, i)))
  }

  /** The view from message `i` on. */
  function CompactFrom(p: Policy, overWindow: bool, messages: seq<Message>, i: nat): seq<Message>
    requires i <= |messages|
    decreases |messages| - i
  {
    if i == |messages| then []
    else [Compacted(p, overWindow, messages[i], ToolsFrom(messages, i))] + CompactFrom(p, overWindow, messages, i + 1)
  }

  lemma LastTools(p: Policy, overWindow: bool, messages: seq<Message>)
    ensures ToolsFrom(messages, |messages|) == 0 && CompactFrom(p, overWindow, messages, |messages|) == []
  {
  }

  lemma CompactFromNext(p: Policy, overWindow: bool, messages: seq<Message>, i: nat)
    requires i < |messages|
    ensures ToolsFrom(messages, i) == ToolsFrom(messages, i + 1) + if messages[i].Tool? then 1 else 0
    ensures CompactFrom(p, overWindow, messages, i)
         == [Compacted(p, overWindow, messages[i], ToolsFrom(messages, i))] + CompactFrom(p, overWindow, messages, i + 1)
  {
  }

  lemma {:induction false} CompactFromIndex(p: Policy, overWindow: bool, messages: seq<Message>, i: nat)
    requires i <= |messages|
    ensures |CompactFrom(p, overWindow, messages, i)| == |messages| - i
    ensures forall j :: i <= j < |messages| ==>
      CompactFrom(p, overWindow, messages, i)[j - i] == Compacted(p, overWindow, messages[j], ToolsFrom(messages, j))
    decreases |messages| - i
  {
    hide Compacted, ToolsFrom;
    if i < |messages| {
      CompactFromIndex(p, overWindow, messages, i + 1);
    }
  }

  lemma CompactIsFrom(p: Policy, tokens: Option<int>, messages: seq<Message>)
    requires Triggered(p, tokens)
    ensures Compact(p, tokens, messages) == CompactFrom(p, tokens.value > p.window, messages, 0)
  {
    hide Compacted, ToolsFrom;
    CompactFromIndex(p, tokens.value > p.window, messages, 0);
  }

  /** What is shown of one message. */
  method CompactOne(p: Policy, overWindow: bool, message: Message, toolSeen: nat) returns (m: Message)
    ensures m == Compacted(p, overWindow, message, toolSeen)
  {
    hide Includes, Shortened;
    m := message;
    if m.Tool? {
      if (toolSeen <= p.keep && !overWindow) || |m.result| <= p.budget || Includes(m.result, MARKER) { return; }
      m := m.(result := Shortened(m.result, p.budget, "tool result"));
    } else if overWindow && m.Assistant? && m.content.Some? {
      var narration := m.content.value;
      if |narration| <= p.budget * 2 || Includes(narration, MARKER) { return; }
      m := m.(content := Some(Shortened(narration, p.budget * 2, "narration")));
    }
  }

  /** `compactForContextWindow`. */
  method CompactForContextWindow(p: Policy, tokens: Option<int>, messages: seq<Message>) returns (view: seq<Message>)
    ensures view == Compact(p, tokens, messages)
  {
    if tokens.None? || !Triggered(p, tokens) { return messages; }
    hide Compacted, Compact, Triggered, CompactFrom, ToolsFrom;
    LastTools(p, tokens.value > p.window, messages);
    CompactIsFrom(p, tokens, messages);
    var overWindow := tokens.value > p.window;
    var toolSeen := 0;
    view := [];
    var i := |messages|;
    while i > 0
      invariant 0 <= i <= |messages| && toolSeen == ToolsFrom(messages, i)
      invariant view == CompactFrom(p, overWindow, messages, i)
    {
      i := i - 1;
      CompactFromNext(p, overWindow, messages, i);
      if messages[i].Tool? { toolSeen := toolSeen + 1; }
      var m := CompactOne(p, overWindow, messages[i], toolSeen);
      view := [m] + view;
    }
  }

  /** The same message but for how much of its text is shown. */
  predicate SameShape(a: Message, b: Message)
  {
    match a
    case Assistant(content, calls) => b.Assistant? && b.calls == calls && (content.Some? <==> b.content.Some?)
    case Tool(id, name, _, isError) => b.Tool? && b.callId == id && b.name == name && b.isError == isError
    case _ => a == b
  }

  lemma ShapeKept(p: Policy, tokens: Option<int>, messages: seq<Message>, i: nat)
    requires i < |messages|
    ensures SameShape(messages[i], Compact(p, tokens, messages)[i])
  {
    hide Shortened, Includes;
  }

  /** As long as the window itself is not exceeded, the newest results and everything else are shown in full. */
  lemma RecentKept(p: Policy, tokens: Option<int>, messages: seq<Message>, i: nat)
    requires i < |messages| && (tokens.Some? ==> tokens.value <= p.window)
    requires messages[i].Tool? ==> ToolsFrom(messages, i) <= p.keep
    ensures Compact(p, tokens, messages)[i] == messages[i]
  {
  }

  /** The number that decimal digits stand for. */
  function NumberOf(s: string): int
  {
    if s == "" then 0 else NumberOf(s[..|s| - 1]) * 10 + (s[|s| - 1] as int - '0' as int)
  }

  lemma {:induction false} DigitsReadBack(n: nat)
    ensures NumberOf(Digits(n)) == n && forall i :: 0 <= i < |Digits(n)| ==> '0' <= Digits(n)[i] <= '9'
  {
    if n >= 10 {
      DigitsReadBack(n / 10);
      assert Digits(n)[..|Digits(n)| - 1] == Digits(n / 10);
    }
  }

  /** The places of the tool results from `i` on. */
  function ToolsAt(messages: seq<Message>, i: nat): set<nat>
  {
    set j: nat | i <= j < |messages| && messages[j].Tool?
  }

  lemma {:induction false} ToolsCounted(messages: seq<Message>, i: nat)
    requires i <= |messages|
    ensures ToolsFrom(messages, i) == |ToolsAt(messages, i)|
    decreases |messages| - i
  {
    if i == |messages| {
      assert ToolsAt(messages, i) == {};
    } else {
      ToolsCounted(messages, i + 1);
      if messages[i].Tool? {
        assert ToolsAt(messages, i) == ToolsAt(messages, i + 1) + {i};
      } else {
        assert ToolsAt(messages, i) == ToolsAt(messages, i + 1);
      }
    }
  }

  /** A text is cut to its first `n` characters, with a mark that says how many are missing. */
  predicate CutTo(text: string, n: nat, shown: string)
  {
    n < |text| && text[..n] + ("\n…[context-compacted: " + (Digits(|text| - n) + " chars omitted")) <= shown
  }

  lemma ShortenedIsCut(content: string, budget: nat, kind: string)
    requires |content| > budget
    ensures CutTo(content, budget, Shortened(content, budget, kind))
  {
    OmittedSplit();
    MarkJoined();
    ShortenedAs(content, budget, kind, "\n…", " chars omitted", " from this older ", "; full text remains in the session record]",
                "\n…[context-compacted: ");
  }

  lemma OmittedSplit()
    ensures " chars omitted from this older " == " chars omitted" + " from this older "
  {
  }

  lemma MarkJoined()
    ensures "\n…" + MARKER + " " == "\n…[context-compacted: "
  {
  }

  lemma ShortenedAs(content: string, budget: nat, kind: string, b: string, e: string, f: string, z: string, mark: string)
    requires |content| > budget && mark == b + MARKER + " "
    requires Shortened(content, budget, kind)
      == content[..budget] + b + (MARKER + (" " + Digits(|content| - budget) + (e + f) + kind + z))
    ensures content[..budget] + (mark + (Digits(|content| - budget) + e)) <= Shortened(content, budget, kind)
  {
    hide Shortened, MARKER, Digits;
    Regrouped(content[..budget], b, MARKER, Digits(|content| - budget), e, f, kind, z);
  }

  lemma Regrouped(a: string, b: string, m: string, d: string, e: string, f: string, k: string, z: string)
    ensures a + (b + m + " " + (d + e)) <= a + b + (m + (" " + d + (e + f) + k + z))
  {
    var tail := f + k + z;
    assert a + b + (m + (" " + d + (e + f) + k + z)) == (a + (b + m + " " + (d + e))) + tail;
  }

  /** How one message is shown, with so many results from it on. */
  predicate ShownAs(p: Policy, overWindow: bool, m: Message, results: nat, shown: Message)
  {
    if m.Tool? && (results > p.keep || overWindow) && |m.result| > p.budget && !Includes(m.result, "[context-compacted:") then
      shown.Tool? && shown == m.(result := shown.result) && CutTo(m.result, p.budget, shown.result)
    else if m.Assistant? && m.content.Some? && overWindow && |m.content.value| > p.budget * 2
            && !Includes(m.content.value, "[context-compacted:") then
      && shown.Assistant? && shown.content.Some? && shown == m.(content := shown.content)
      && CutTo(m.content.value, p.budget * 2, shown.content.value)
    else shown == m
  }

  /**
   * What is shown of each message: once the share of the window is reached, a
   * result is cut to the budget if there are more results than are to be kept from
   * it on, or the window itself is exceeded; a narration is cut to twice the budget
   * if it is. Nothing that is short enough or has been cut before is touched.
   */
  lemma ShownExactly(p: Policy, tokens: Option<int>, messages: seq<Message>, i: nat)
    requires i < |messages|
    ensures
      var m, shown := messages[i], Compact(p, tokens, messages)[i];
      if tokens.Some? && p.window > 0 && p.ratio > 0.0 && tokens.value as real >= p.window as real * p.ratio
      then ShownAs(p, tokens.value > p.window, m, |ToolsAt(messages, i)|, shown)
      else shown == m
  {
    ShownIfTriggered(p, tokens, messages, i);
    hide Compact, ShownAs, ToolsAt;
  }

  lemma ShownIfTriggered(p: Policy, tokens: Option<int>, messages: seq<Message>, i: nat)
    requires i < |messages|
    ensures
      var m, shown := messages[i], Compact(p, tokens, messages)[i];
      if Triggered(p, tokens) then ShownAs(p, tokens.value > p.window, m, |ToolsAt(messages, i)|, shown) else shown == m
  {
    ToolsCounted(messages, i);
    if Triggered(p, tokens) {
      ShownOfOne(p, tokens.value > p.window, messages[i], ToolsFrom(messages, i));
    }
    hide Compacted, CutTo, ToolsFrom, ToolsAt, Includes, ShownAs, Triggered;
  }

  lemma ShownOfOne(p: Policy, overWindow: bool, m: Message, toolSeen: nat)
    ensures ShownAs(p, overWindow, m, toolSeen, Compacted(p, overWindow, m, toolSeen))
  {
    if m.Tool? && |m.result| > p.budget { ShortenedIsCut(m.result, p.budget, "tool result"); }
    if m.Assistant? && m.content.Some? && |m.content.value| > p.budget * 2 {
      ShortenedIsCut(m.content.value, p.budget * 2, "narration");
    }
    hide Shortened, Includes, CutTo;
  }

  lemma {:induction false} SameTools(a: seq<Message>, b: seq<Message>, i: nat)
    requires |a| == |b| && i <= |a| && forall j :: 0 <= j < |a| ==> a[j].Tool? == b[j].Tool?
    ensures ToolsFrom(a, i) == ToolsFrom(b, i)
    decreases |a| - i
  {
    if i < |a| {
      SameTools(a, b, i + 1);
    }
  }

  lemma CompactedTwice(p: Policy, overWindow: bool, m: Message, toolSeen: nat)
    ensures Compacted(p, overWindow, Compacted(p, overWindow, m, toolSeen), toolSeen) == Compacted(p, overWindow, m, toolSeen)
  {
    if m.Assistant? && m.content.Some? && |m.content.value| > p.budget * 2 {
      ShortenedIsMarked(m.content.value, p.budget * 2, "narration");
    }
    if m.Tool? && |m.result| > p.budget { ShortenedIsMarked(m.result, p.budget, "tool result"); }
    hide Shortened, Includes;
  }

  /** Compacting what has been compacted changes nothing. */
  lemma CompactIdempotent(p: Policy, tokens: Option<int>, messages: seq<Message>)
    ensures Compact(p, tokens, Compact(p, tokens, messages)) == Compact(p, tokens, messages)
  {
    if Triggered(p, tokens) {
      var once := Compact(p, tokens, messages);
      var over := tokens.value > p.window;
      forall i | 0 <= i < |messages| ensures messages[i].Tool? == once[i].Tool? {
        ShapeKept(p, tokens, messages, i);
      }
      hide Shortened, Includes;
      forall i | 0 <= i < |messages| ensures Compact(p, tokens, once)[i] == once[i] {
        SameTools(messages, once, i);
        hide Compacted;
        CompactedTwice(p, over, messages[i], ToolsFrom(messages, i));
      }
    }
  }

  // ------------------------------------------------------------------ summaries

  datatype Summary = Summary(text: string, coveredUpTo: nat)

  const SUMMARY_PREFIX := "[Synthia context summary — the earlier conversation was compacted into this summary. "
    + "Treat it as reliable context; on conflict, recent messages below win.]\n\n"
  const REFERENCE_MARKER := "SYNTHIA_UNTRUSTED_REFERENCE_DATA_V1"

  /** The part of the conversation the summary does not cover. */
  function Later(messages: seq<Message>, summary: Summary): seq<Message>
  {
    messages[Min(summary.coveredUpTo, |messages|)..]
  }

  predicate Summarised(messages: seq<Message>, summary: Option<Summary>)
  {
    summary.Some? && messages != [] && messages[0].System?
  }

  /** `messagesForModel`, without the reference data. */
  function View(p: Policy, tokens: Option<int>, messages: seq<Message>, summary: Option<Summary>): seq<Message>
  {
    if Summarised(messages, summary) then
      [messages[0], User(SUMMARY_PREFIX + summary.value.text)] + Compact(p, tokens, Later(messages, summary.value))
    else Compact(p, tokens, messages)
  }

  /** Reference data, trimmed and not empty, goes right behind the system prompt. */
  function WithReference(view: seq<Message>, reference: Option<string>): seq<Message>
  {
    if reference.None? || view == [] || !view[0].System? then view
    else
      var framed := if REFERENCE_MARKER <= reference.value then reference.value
                    else REFERENCE_MARKER + "\n" + reference.value;
      [view[0], User(framed + "\n")] + view[1..]
  }

  /** The first message not covered by a summary. */
  function CoveredUpTo(summary: Option<Summary>): nat
  {
    if summary.Some? then summary.value.coveredUpTo else 1
  }

  lemma LaterInView(p: Policy, tokens: Option<int>, messages: seq<Message>, summary: Option<Summary>, j: nat)
    requires messages != [] && messages[0].System?
    requires 1 <= CoveredUpTo(summary) <= j < |messages|
    ensures
      var view := View(p, tokens, messages, summary);
      var first := 1 + if summary.Some? then 1 else 0;
      && |view| == first + (|messages| - CoveredUpTo(summary))
      && view[0] == messages[0] && SameShape(messages[j], view[first + (j - CoveredUpTo(summary))])
  {
    hide Compacted, ToolsFrom, SameShape, Triggered, Compact;
    if summary.Some? {
      ShapeKept(p, tokens, Later(messages, summary.value), j - summary.value.coveredUpTo);
    } else {
      ShapeKept(p, tokens, messages, j);
      ShapeKept(p, tokens, messages, 0);
      SystemSame(messages[0], Compact(p, tokens, messages)[0]);
    }
  }

  /** Reference data only moves what follows it. */
  lemma ReferenceMoves(view: seq<Message>, reference: Option<string>, k: nat)
    requires view != [] && view[0].System? && 1 <= k < |view|
    ensures
      var more := if reference.Some? then 1 else 0;
      && |WithReference(view, reference)| == |view| + more
      && WithReference(view, reference)[0] == view[0] && WithReference(view, reference)[k + more] == view[k]
  {
  }

  /** Every message after the summarised part is shown once, in its place, with its role and call ids. */
  lemma LaterShown(p: Policy, tokens: Option<int>, messages: seq<Message>, summary: Option<Summary>,
                   reference: Option<string>, j: nat)
    requires messages != [] && messages[0].System?
    requires 1 <= CoveredUpTo(summary) <= j < |messages|
    ensures
      var view := WithReference(View(p, tokens, messages, summary), reference);
      var first := 1 + (if summary.Some? then 1 else 0) + if reference.Some? then 1 else 0;
      && |view| == first + (|messages| - CoveredUpTo(summary))
      && view[0] == messages[0] && SameShape(messages[j], view[first + (j - CoveredUpTo(summary))])
  {
    hide View, WithReference, SameShape;
    LaterInView(p, tokens, messages, summary, j);
    ReferenceMoves(View(p, tokens, messages, summary), reference,
                   1 + (if summary.Some? then 1 else 0) + (j - CoveredUpTo(summary)));
  }

  lemma SystemSame(a: Message, b: Message)
    requires SameShape(a, b) && a.System?
    ensures b == a
  {
  }

  // -------------------------------------------------------- what has been covered

  datatype Region = Region(lo: nat, hi: nat)

  /** The regions lie end to end from `from` to `to`. */
  predicate Tiles(regions: seq<Region>, from: nat, to: nat)
    decreases |regions|
  {
    if regions == [] then from == to
    else (regions[|regions| - 1].lo < regions[|regions| - 1].hi == to
          && Tiles(regions[..|regions| - 1], from, regions[|regions| - 1].lo))
  }

  /** The circumstances of one call of `maybeCompactBySummary`. */
  datatype Attempt = Attempt(messages: seq<Message>, enabled: bool, watermark: Option<int>, keepTokens: nat,
                             blankRegion: bool, tooLarge: bool, answer: Option<string>)

  class ContextManager {
    const policy: Policy
    const size: Message -> nat
    var compactionSummary: Option<Summary>
    ghost var regions: seq<Region>
    ghost const start: nat

    ghost predicate Valid()
      reads this
    {
      Tiles(regions, start, CoveredUpTo(compactionSummary)) && CoveredUpTo(compactionSummary) >= 1
    }

    /** With no summary, or the one saved before a restart. */
    constructor (p: Policy, sizeOf: Message -> nat, restored: Option<Summary>)
      requires CoveredUpTo(restored) >= 1
      ensures Valid() && compactionSummary == restored && regions == [] && start == CoveredUpTo(restored)
    {
      policy, size, compactionSummary, regions := p, sizeOf, restored, [];
      start := CoveredUpTo(restored);
    }

    /**
     * `maybeCompactBySummary`: the region summarised starts where the last one
     * ended, and what stays is the longest tail within the budget.
     */
    method MaybeCompactBySummary(a: Attempt) returns (done: bool)
      requires Valid()
      modifies this`compactionSummary, this`regions
      ensures Valid()
      ensures done <==>
        && a.enabled && a.watermark.Some? && a.watermark.value as real >= policy.window as real * policy.ratio
        && CoveredUpTo(old(compactionSummary)) <= |a.messages|
        && TailSize(size, a.messages, CoveredUpTo(old(compactionSummary))) > a.keepTokens
        && !a.blankRegion && !a.tooLarge && a.answer.Some? && a.answer.value != ""
      ensures !done ==> compactionSummary == old(compactionSummary) && regions == old(regions)
      ensures done ==>
        && compactionSummary.Some? && a.answer.Some? && compactionSummary.value.text == a.answer.value != ""
        && regions == old(regions) + [Region(CoveredUpTo(old(compactionSummary)), compactionSummary.value.coveredUpTo)]
        && 1 <= compactionSummary.value.coveredUpTo <= Max(1, |a.messages|)
        && (forall j :: 1 <= j <= |a.messages| ==>
              (TailSize(size, a.messages, j) <= a.keepTokens <==> compactionSummary.value.coveredUpTo <= j))
    {
      if !a.enabled { return false; }
      if a.watermark.None? || (a.watermark.value as real) < policy.window as real * policy.ratio { return false; }
      var split := TailSplitIndex(size, a.messages, a.keepTokens);
      var covered := if compactionSummary.Some? then compactionSummary.value.coveredUpTo else 1;
      if split <= covered { return false; }
      if a.blankRegion || a.tooLarge { return false; }
      if a.answer.None? || a.answer.value == "" { return false; }
      compactionSummary := Some(Summary(a.answer.value, split));
      regions := regions + [Region(covered, split)];
      assert regions[..|regions| - 1] == old(regions);
      done := true;
    }

    /** Any number of attempts, whatever happens in between: the regions summarised never overlap or leave a gap. */
    method CompactAll(attempts: seq<Attempt>)
      requires Valid()
      modifies this`compactionSummary, this`regions
      ensures Valid() && old(regions) <= regions
    {
      for i := 0 to |attempts|
        invariant Valid() && old(regions) <= regions
      {
        var done := MaybeCompactBySummary(attempts[i]);
      }
    }
  }

  lemma {:induction false} TilesOrdered(regions: seq<Region>, from: nat, to: nat)
    requires Tiles(regions, from, to)
    ensures if regions == [] then from == to else from < to
    decreases |regions|
  {
    if regions != [] {
      TilesOrdered(regions[..|regions| - 1], from, regions[|regions| - 1].lo);
    }
  }

  /** Regions that lie end to end cover every index between once. */
  lemma {:induction false} TilesCoverOnce(regions: seq<Region>, from: nat, to: nat, k: nat)
    requires Tiles(regions, from, to) && from <= k < to
    ensures exists i :: 0 <= i < |regions| && regions[i].lo <= k < regions[i].hi
    ensures forall i, j :: 0 <= i < j < |regions| ==> regions[i].hi <= regions[j].lo
    ensures forall i :: 0 <= i < |regions| ==> from <= regions[i].lo < regions[i].hi <= to
    decreases |regions|
  {
    if regions != [] {
      var last := regions[|regions| - 1];
      var before := regions[..|regions| - 1];
      TilesOrdered(before, from, last.lo);
      if before != [] {
        TilesCoverOnce(before, from, last.lo, if k < last.lo then k else from);
      }
      assert forall i :: 0 <= i < |before| ==> regions[i] == before[i];
      if k < last.lo {
        var i :| 0 <= i < |before| && before[i].lo <= k < before[i].hi;
        assert regions[i] == before[i];
      } else {
        assert regions[|regions| - 1].lo <= k;
      }
    }
  }
}
