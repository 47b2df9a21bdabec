/** The pattern scan for `<w:p>` and `<w:t>` elements, and writing their contents back. */
module XmlElements {
  import opened Common
  import opened TextSearch

  /** One match of `<w:NAME(?=[\s>])[^>]*>([\s\S]*?)</w:NAME>`: where it starts, its body, where it ends. */
  datatype Element = Element(start: nat, open: nat, close: nat, end: nat)

  /** `\s` of a JavaScript pattern. */
  predicate IsSpace(c: char)
  {
    c == ' ' || ('\t' <= c <= '\r') || c == '\U{00A0}' || c == '\U{1680}' || ('\U{2000}' <= c <= '\U{200A}')
    || c == '\U{2028}' || c == '\U{2029}' || c == '\U{202F}' || c == '\U{205F}' || c == '\U{3000}' || c == '\U{FEFF}'
  }

  /** The name `p` or `t` of the elements searched for. */
  type Name = c: char | c == 'p' || c == 't' witness 'p'

  function CloseTag(name: Name): (s: string)
    ensures |s| == 6 && s[0] == '<' && s[1] == '/' && s[2] == 'w' && s[3] == ':' && s[4] == name && s[5] == '>'
  {
    ['<', '/', 'w', ':', name, '>']
  }

  /** An opening tag of this name begins at `i`. */
  predicate OpensAt(s: string, name: Name, i: nat)
  {
    i + 4 < |s| && s[i] == '<' && s[i + 1] == 'w' && s[i + 2] == ':' && s[i + 3] == name
    && (IsSpace(s[i + 4]) || s[i + 4] == '>')
  }

  /** The match of the pattern that starts exactly at `i`. */
  ghost function MatchAt(s: string, name: Name, i: nat): (m: Option<Element>)
    ensures m.Some? ==> m.value.start == i && i + 4 < m.value.open <= m.value.close
    ensures m.Some? ==> m.value.end == m.value.close + 6 <= |s|
  {
    if !OpensAt(s, name, i) then None
    else
      var gt := IndexOf(s, ">", i + 4);
      if gt < 0 then None
      else
        var close := IndexOf(s, CloseTag(name), gt + 1);
        if close < 0 then None else Some(Element(i, gt + 1, close, close + 6))
  }

  /** `matchAll`: the leftmost match at or after `from`, then on from its end. */
  ghost function Elements(s: string, name: Name, from: nat): (es: seq<Element>)
    decreases |s| - from
  {
    if from >= |s| then []
    else
      var m := MatchAt(s, name, from);
      if m.Some? then [m.value] + Elements(s, name, m.value.end) else Elements(s, name, from + 1)
  }

  /** The elements follow one another inside `[from, n)`. */
  predicate InOrder(es: seq<Element>, from: nat, n: nat)
  {
    es == [] || (from <= es[0].start && es[0].start + 4 < es[0].open <= es[0].close
                 && es[0].end == es[0].close + 6 <= n && InOrder(es[1..], es[0].end, n))
  }

  lemma {:induction false} ElementsInOrder(s: string, name: Name, from: nat)
    ensures InOrder(Elements(s, name, from), from, |s|)
    decreases |s| - from
  {
    if from < |s| {
      var m := MatchAt(s, name, from);
      if m.Some? {
        ElementsInOrder(s, name, m.value.end);
        assert ([m.value] + Elements(s, name, m.value.end))[1..] == Elements(s, name, m.value.end);
      } else {
        ElementsInOrder(s, name, from + 1);
        InOrderWeaken(Elements(s, name, from + 1), from + 1, from, |s|);
      }
    }
  }

  lemma InOrderWeaken(es: seq<Element>, from: nat, from': nat, n: nat)
    requires InOrder(es, from, n) && from' <= from
    ensures InOrder(es, from', n)
  {
  }

  /** The bodies of the elements, read by walking the text itself. */
  ghost function Bodies(s: string, name: Name): seq<string>
  {
    if s == "" then []
    else
      var m := MatchAt(s, name, 0);
      if m.Some? then [s[m.value.open..m.value.close]] + Bodies(s[m.value.end..], name)
      else Bodies(s[1..], name)
  }

  function BodyAt(s: string, e: Element): string
    requires e.open <= e.close <= |s|
  {
    s[e.open..e.close]
  }

  function BodiesAt(s: string, es: seq<Element>, from: nat): (bodies: seq<string>)
    requires InOrder(es, from, |s|)
    ensures |bodies| == |es|
  {
    if es == [] then [] else [BodyAt(s, es[0])] + BodiesAt(s, es[1..], es[0].end)
  }

  // ---------------------------------------------------- both walks agree

  lemma IndexOfSuffix(s: string, i: nat, p: string, k: nat)
    requires i <= |s|
    ensures IndexOf(s[i..], p, k) == (if IndexOf(s, p, i + k) < 0 then -1 else IndexOf(s, p, i + k) - i)
  {
    var t := s[i..];
    assert forall j :: 0 <= j ==> (OccursAt(t, p, j) <==> OccursAt(s, p, i + j));
    IndexOfFirst(s, p, i + k);
    IndexOfFirst(t, p, k);
    var r := IndexOf(s, p, i + k);
    if r >= 0 {
      assert OccursAt(t, p, r - i);
      forall j | k <= j < r - i ensures !OccursAt(t, p, j) {
        assert OccursAt(t, p, j) <==> OccursAt(s, p, j + i);
      }
      IndexOfUnique(t, p, k, r - i);
    }
  }

  /** The same match, seen from `i` characters further on. */
  function Shift(m: Option<Element>, i: nat): (r: Option<Element>)
    requires m.Some? ==> i <= m.value.start && i <= m.value.open && i <= m.value.close && i <= m.value.end
  {
    if m.None? then None
    else Some(Element(m.value.start - i, m.value.open - i, m.value.close - i, m.value.end - i))
  }

  lemma MatchAtSuffix(s: string, t: string, name: Name, i: nat)
    requires i <= |s| && t == s[i..]
    ensures MatchAt(t, name, 0) == Shift(MatchAt(s, name, i), i)
  {
    OpensSuffix(s, name, i);
    IndexOfSuffix(s, i, ">", 4);
    var gt, gt' := IndexOf(s, ">", i + 4), IndexOf(t, ">", 4);
    if OpensAt(s, name, i) && gt >= 0 {
      assert gt' == gt - i;
      IndexOfSuffix(s, i, CloseTag(name), gt' + 1);
      var close, close' := IndexOf(s, CloseTag(name), gt + 1), IndexOf(t, CloseTag(name), gt' + 1);
      assert close' == if close < 0 then -1 else close - i;
      assert MatchAt(s, name, i) == if close < 0 then None else Some(Element(i, gt + 1, close, close + 6));
      assert MatchAt(t, name, 0) == if close' < 0 then None else Some(Element(0, gt' + 1, close', close' + 6));
    } else {
      assert MatchAt(s, name, i) == None;
      assert MatchAt(t, name, 0) == None;
    }
  }

  lemma OpensSuffix(s: string, name: Name, i: nat)
    requires i <= |s|
    ensures OpensAt(s[i..], name, 0) <==> OpensAt(s, name, i)
  {
  }

  /** The offsets the code works with delimit exactly the bodies. */
  lemma {:induction false} ElementBodies(s: string, name: Name, from: nat)
    requires from <= |s|
    ensures InOrder(Elements(s, name, from), from, |s|)
    ensures Bodies(s[from..], name) == BodiesAt(s, Elements(s, name, from), from)
    decreases |s| - from
  {
    hide MatchAt, OpensAt;
    ElementsInOrder(s, name, from);
    if from < |s| {
      var t := s[from..];
      MatchAtSuffix(s, t, name, from);
      var m := MatchAt(s, name, from);
      if m.Some? {
        var e, d := m.value, MatchAt(t, name, 0).value;
        ElementBodies(s, name, e.end);
        assert d == Element(0, e.open - from, e.close - from, e.end - from);
        SliceOfSlice(s, from, e.end - from, |s| - from);
        SliceOfSlice(s, from, e.open - from, e.close - from);
        assert ([e] + Elements(s, name, e.end))[1..] == Elements(s, name, e.end);
      } else {
        ElementBodies(s, name, from + 1);
        assert t[1..] == s[from + 1..];
      }
    }
  }

  lemma SliceOfSlice(s: string, i: nat, lo: nat, hi: nat)
    requires i <= |s| && lo <= hi <= |s| - i
    ensures s[i..][lo..hi] == s[i + lo..i + hi]
  {
  }

  // ---------------------------------------------------------- writing back

  /** The text from `from` on, with each element's body replaced. */
  function Rebuild(s: string, es: seq<Element>, bodies: seq<string>, from: nat): string
    requires |es| == |bodies| && InOrder(es, from, |s|) && from <= |s|
  {
    if es == [] then s[from..]
    else s[from..es[0].open] + (bodies[0] + (s[es[0].close..es[0].end] + Rebuild(s, es[1..], bodies[1..], es[0].end)))
  }

  /** A text that starts like `s` starts an opening tag where `s` does. */
  lemma OpensSame(s: string, t: string, name: Name, i: nat)
    requires i + 4 < |s| && i + 4 < |t| && forall k :: i <= k < i + 5 ==> s[k] == t[k]
    ensures OpensAt(s, name, i) <==> OpensAt(t, name, i)
  {
  }

  /** Nothing opens before the first element: everything needed to close it would be there. */
  lemma NothingOpensBefore(s: string, name: Name, from: nat)
    requires from < |s| && MatchAt(s, name, from).None? && Elements(s, name, from + 1) != []
    ensures !OpensAt(s, name, from)
  {
    var e := FirstElement(s, name, from + 1);
    if OpensAt(s, name, from) {
      ClosableMatches(s, name, from, e.open - 1, e.close);
    }
  }

  /** The elements are real matches, and nothing opens before the first. */
  lemma {:induction false} ElementsStep(s: string, name: Name, from: nat)
    requires from <= |s| && Elements(s, name, from) != []
    ensures
      var es := Elements(s, name, from);
      && from <= es[0].start <= es[0].end <= |s|
      && MatchAt(s, name, es[0].start) == Some(es[0]) && es[1..] == Elements(s, name, es[0].end)
      && forall k :: from <= k < es[0].start ==> !OpensAt(s, name, k)
    decreases |s| - from
  {
    var m := MatchAt(s, name, from);
    if m.Some? {
      assert ([m.value] + Elements(s, name, m.value.end))[1..] == Elements(s, name, m.value.end);
    } else {
      ElementsStep(s, name, from + 1);
      NothingOpensBefore(s, name, from);
    }
  }

  /** Nothing opens across the place where a new tag begins. */
  lemma GapOpensNothing(gap: string, rest: string, name: Name)
    requires rest != "" && rest[0] == '<' && forall k :: 0 <= k < |gap| ==> !OpensAt(gap, name, k)
    ensures forall k :: 0 <= k < |gap| ==> !OpensAt(gap + rest, name, k)
  {
    var s := gap + rest;
    forall k | 0 <= k < |gap| ensures !OpensAt(s, name, k) {
      assert s[|gap|] == '<';
      if k + 4 < |gap| {
        assert !OpensAt(gap, name, k);
        OpensSame(s, gap, name, k);
      }
    }
  }

  lemma ClosableMatches(s: string, name: Name, i: nat, gt: nat, close: nat)
    requires OpensAt(s, name, i) && i + 4 <= gt < close
    requires OccursAt(s, ">", gt) && OccursAt(s, CloseTag(name), close)
    ensures MatchAt(s, name, i).Some?
  {
    IndexOfFirst(s, ">", i + 4);
    IndexOfFirst(s, CloseTag(name), IndexOf(s, ">", i + 4) + 1);
  }

  lemma OccursFirst(s: string, p: string, k: int)
    requires p != ""
    ensures OccursAt(s, p, k) ==> s[k] == p[0]
  {
    if OccursAt(s, p, k) {
      assert s[k + 0] == p[0];
    }
  }

  lemma OccursOne(s: string, c: char, k: nat)
    ensures OccursAt(s, [c], k) <==> k < |s| && s[k] == c
  {
    if k < |s| && s[k] == c {
      assert s[k + 0] == c;
    }
    if OccursAt(s, [c], k) {
      assert s[k + 0] == [c][0];
    }
  }

  lemma {:induction false} FirstElement(s: string, name: Name, from: nat) returns (e: Element)
    requires Elements(s, name, from) != []
    ensures e == Elements(s, name, from)[0] && MatchAt(s, name, e.start) == Some(e) && from <= e.start
    ensures OccursAt(s, ">", e.open - 1) && OccursAt(s, CloseTag(name), e.close)
    decreases |s| - from
  {
    var m := MatchAt(s, name, from);
    if m.Some? {
      e := m.value;
      IndexOfFirst(s, ">", from + 4);
      IndexOfFirst(s, CloseTag(name), e.open);
    } else {
      e := FirstElement(s, name, from + 1);
    }
  }

  /** An element whose body holds no `<` is matched with exactly that body. */
  lemma MatchRebuilt(open: string, body: string, rest: string, name: Name)
    requires |open| > 4 && open[|open| - 1] == '>'
    requires forall k :: 4 <= k < |open| - 1 ==> open[k] != '>'
    requires OpensAt(open, name, 0)
    requires '<' !in body
    ensures
      var s := open + (body + (CloseTag(name) + rest));
      MatchAt(s, name, 0) == Some(Element(0, |open|, |open| + |body|, |open| + |body| + 6))
  {
    var s := open + (body + (CloseTag(name) + rest));
    OpensSame(open, s, name, 0);
    GtFound(open, body + (CloseTag(name) + rest));
    CloseFound(open, body, name, rest);
  }

  lemma GtFound(open: string, tail: string)
    requires |open| > 4 && open[|open| - 1] == '>'
    requires forall k :: 4 <= k < |open| - 1 ==> open[k] != '>'
    ensures IndexOf(open + tail, ">", 4) == |open| - 1
  {
    var s := open + tail;
    forall k { OccursOne(s, '>', k); }
    IndexOfUnique(s, ">", 4, |open| - 1);
  }

  lemma CloseFound(open: string, body: string, name: Name, rest: string)
    requires '<' !in body
    ensures IndexOf(open + (body + (CloseTag(name) + rest)), CloseTag(name), |open|) == |open| + |body|
  {
    var tag := CloseTag(name);
    var s, close := open + (body + (tag + rest)), |open| + |body|;
    forall j | 0 <= j < |tag| ensures s[close + j] == tag[j] {
      assert s[close + j] == (body + (tag + rest))[|body| + j] == (tag + rest)[j];
    }
    forall k | |open| <= k < close ensures !OccursAt(s, tag, k) {
      assert s[k] == (body + (tag + rest))[k - |open|] == body[k - |open|];
      OccursFirst(s, tag, k);
    }
    IndexOfUnique(s, tag, |open|, close);
  }

  /** The opening tag of a matched element holds one `>`, its last character. */
  lemma OpeningTag(s: string, name: Name, i: nat)
    requires MatchAt(s, name, i).Some?
    ensures
      var e := MatchAt(s, name, i).value;
      var open := s[i..e.open];
      && |open| > 4 && open[|open| - 1] == '>'
      && (forall k :: 4 <= k < |open| - 1 ==> open[k] != '>')
      && OpensAt(open, name, 0)
      && s[e.close..e.end] == CloseTag(name)
  {
    var e := MatchAt(s, name, i).value;
    var open := s[i..e.open];
    IndexOfFirst(s, ">", i + 4);
    IndexOfFirst(s, CloseTag(name), e.open);
    OccursOne(s, '>', e.open - 1);
    forall k | 4 <= k < |open| - 1 ensures open[k] != '>' {
      OccursOne(s, '>', i + k);
    }
  }

  /**
   * Reading the rebuilt text finds the elements again, now with the new bodies,
   * as long as no new body holds a `<`.
   */
  lemma {:induction false} RebuildReread(s: string, name: Name, bodies: seq<string>, from: nat)
    requires from <= |s| && |bodies| == |Elements(s, name, from)|
    requires forall i :: 0 <= i < |bodies| ==> '<' !in bodies[i]
    ensures InOrder(Elements(s, name, from), from, |s|)
    ensures Bodies(Rebuild(s, Elements(s, name, from), bodies, from), name) == bodies
    decreases |s| - from
  {
    ElementsInOrder(s, name, from);
    var es := Elements(s, name, from);
    if from == |s| {
    } else if MatchAt(s, name, from).Some? {
      var e := MatchAt(s, name, from).value;
      RebuildReread(s, name, bodies[1..], e.end);
      RereadFirst(s, name, es, bodies, from);
    } else {
      RebuildReread(s, name, bodies, from + 1);
      ElementsInOrder(s, name, from + 1);
      SkipOne(s, name, es, bodies, from);
    }
  }

  lemma RereadFirst(s: string, name: Name, es: seq<Element>, bodies: seq<string>, from: nat)
    requires from < |s| && MatchAt(s, name, from).Some? && es == Elements(s, name, from)
    requires |bodies| == |es| && '<' !in bodies[0] && InOrder(es, from, |s|)
    requires
      var e := MatchAt(s, name, from).value;
      InOrder(es[1..], e.end, |s|) && Bodies(Rebuild(s, es[1..], bodies[1..], e.end), name) == bodies[1..]
    ensures Bodies(Rebuild(s, es, bodies, from), name) == bodies
  {
    var e := MatchAt(s, name, from).value;
    OpeningTag(s, name, from);
    RereadElement(s[from..e.open], bodies[0], Rebuild(s, es[1..], bodies[1..], e.end), name);
    assert [bodies[0]] + bodies[1..] == bodies;
  }

  lemma RereadElement(open: string, body: string, tail: string, name: Name)
    requires |open| > 4 && open[|open| - 1] == '>' && OpensAt(open, name, 0)
    requires forall k :: 4 <= k < |open| - 1 ==> open[k] != '>'
    requires '<' !in body
    ensures Bodies(open + (body + (CloseTag(name) + tail)), name) == [body] + Bodies(tail, name)
  {
    MatchRebuilt(open, body, tail, name);
    BodiesFirst(open, body, tail, name, open + (body + (CloseTag(name) + tail)));
  }

  lemma BodiesFirst(open: string, body: string, tail: string, name: Name, out: string)
    requires out == open + (body + (CloseTag(name) + tail))
    requires MatchAt(out, name, 0) == Some(Element(0, |open|, |open| + |body|, |open| + |body| + 6))
    ensures Bodies(out, name) == [body] + Bodies(tail, name)
  {
    hide MatchAt, CloseTag;
    RebuiltParts(open, body, CloseTag(name), tail);
  }

  lemma RebuiltParts(open: string, body: string, close: string, tail: string)
    ensures
      var s := open + (body + (close + tail));
      && s[|open|..|open| + |body|] == body
      && s[|open| + |body| + |close|..] == tail
  {
    var s := open + (body + (close + tail));
    assert s[|open|..] == body + (close + tail);
    assert s[|open|..][|body|..] == close + tail;
    assert s[|open| + |body| + |close|..] == s[|open|..][|body|..][|close|..];
  }

  lemma SkipOne(s: string, name: Name, es: seq<Element>, bodies: seq<string>, from: nat)
    requires from < |s| && MatchAt(s, name, from).None? && es == Elements(s, name, from + 1)
    requires |bodies| == |es| && InOrder(es, from + 1, |s|) && InOrder(es, from, |s|)
    ensures Bodies(Rebuild(s, es, bodies, from), name) == Bodies(Rebuild(s, es, bodies, from + 1), name)
  {
    var out := Rebuild(s, es, bodies, from);
    RebuildFromNext(s, es, bodies, from);
    if es == [] {
      MatchAtSuffix(s, s[from..], name, from);
    } else {
      NothingOpensBefore(s, name, from);
      var open := es[0].open;
      assert forall k :: 0 <= k < open - from ==> out[k] == s[from..open][k] == s[from + k];
      assert !OpensAt(out, name, 0);
    }
  }

  lemma RebuildFromNext(s: string, es: seq<Element>, bodies: seq<string>, from: nat)
    requires from < |s| && |bodies| == |es| && InOrder(es, from + 1, |s|) && InOrder(es, from, |s|)
    ensures Rebuild(s, es, bodies, from) == [s[from]] + Rebuild(s, es, bodies, from + 1)
  {
    if es != [] {
      assert s[from..es[0].open] == [s[from]] + s[from + 1..es[0].open];
    }
  }
}
