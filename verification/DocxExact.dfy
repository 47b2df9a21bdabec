/** Exactly when an edited paragraph reads back as edited, and what happens to it when it does not. */
module DocxExact {
  import opened Common
  import opened TextSearch
  import opened XmlText
  import opened XmlElements
  import opened RunReplacement
  import opened DocxReplace

  // --------------------------------------------------------------- plain runs

  /** A well-formed opening tag: one `<` in front, one `>` at the end. */
  predicate WellFormedTag(open: string)
  {
    && |open| > 1 && open[0] == '<' && open[|open| - 1] == '>'
    && forall k :: 1 <= k < |open| - 1 ==> open[k] != '<' && open[k] != '>'
  }

  /** A text element as a word processor writes it: a well-formed tag, and text without markup. */
  predicate Plain(xml: string, e: Element)
    requires e.start <= e.open <= e.close <= e.end <= |xml|
  {
    WellFormedTag(xml[e.start..e.open]) && '<' !in BodyAt(xml, e) && '>' !in BodyAt(xml, e)
  }

  /** Its text is looked for and found in its place, or could otherwise only be found in the opening tag. */
  ghost predicate Tame(xml: string, e: Element)
    requires e.start <= e.open <= e.close <= e.end <= |xml|
  {
    Unambiguous(xml, e) || Plain(xml, e)
  }

  ghost predicate AllTame(xml: string, es: seq<Element>, from: nat)
    requires InOrder(es, from, |xml|)
  {
    es == [] || (Tame(xml, es[0]) && AllTame(xml, es[1..], es[0].end))
  }

  // ------------------------------------------------- reading what does not open

  /** Text in which nothing opens is passed over. */
  lemma {:induction false} NothingOpens(s: string, tail: string, name: Name)
    requires forall k :: 0 <= k < |s| ==> !OpensAt(s + tail, name, k)
    ensures Bodies(s + tail, name) == Bodies(tail, name)
  {
    if s == "" {
      assert s + tail == tail;
    } else {
      assert (s + tail)[1..] == s[1..] + tail;
      assert !OpensAt(s + tail, name, 0);
      forall k | 0 <= k < |s[1..]| ensures !OpensAt(s[1..] + tail, name, k) {
        assert !OpensAt(s + tail, name, k + 1);
      }
      NothingOpens(s[1..], tail, name);
    }
  }

  /** An element with a well-formed tag is read with its body, or, when its tag opens nothing, passed over. */
  lemma ElementRead(tag: string, body: string, tail: string)
    requires WellFormedTag(tag) && '<' !in body
    ensures Bodies(tag + (body + (CloseTag('t') + tail)), 't')
         == (if OpensAt(tag, 't', 0) then [body] else []) + Bodies(tail, 't')
  {
    var w := tag + (body + CloseTag('t'));
    var s := tag + (body + (CloseTag('t') + tail));
    AppendAssoc(body, CloseTag('t'), tail);
    AppendAssoc(tag, body + CloseTag('t'), tail);
    assert s == w + tail;
    if OpensAt(tag, 't', 0) {
      RereadElement(tag, body, tail, 't');
    } else {
      forall k | 0 <= k < |w| ensures !OpensAt(s, 't', k) {
        NothingInside(tag, body, tail, k);
      }
      NothingOpens(w, tail, 't');
    }
  }

  lemma NothingInside(tag: string, body: string, tail: string, k: nat)
    requires WellFormedTag(tag) && '<' !in body && !OpensAt(tag, 't', 0) && k < |tag| + |body| + 6
    ensures !OpensAt(tag + (body + (CloseTag('t') + tail)), 't', k)
  {
    var s := tag + (body + (CloseTag('t') + tail));
    var c := |tag| + |body|;
    if k == 0 {
      assert s[|tag| - 1] == '>';
      if |tag| > 4 { OpensSame(tag, s, 't', 0); }
    } else if k < |tag| {
      assert s[k] == tag[k];
    } else if k < c {
      assert s[k] == body[k - |tag|];
    } else {
      assert s[k] == CloseTag('t')[k - c];
      if k == c { assert s[k + 1] == CloseTag('t')[1]; }
    }
  }

  // ----------------------------------------------------------- what is written

  /** An element of the paragraph with its tag, its text and its closing tag apart. */
  lemma ElementParts(xml: string, e: Element)
    requires MatchAt(xml, 't', e.start) == Some(e)
    ensures e.start + 4 < e.open <= e.close <= e.end == e.close + 6 <= |xml|
    ensures xml[e.start..e.end] == xml[e.start..e.open] + (BodyAt(xml, e) + CloseTag('t'))
    ensures OpensAt(xml[e.start..e.open], 't', 0)
  {
    OpeningTag(xml, 't', e.start);
    assert xml[e.start..e.end] == xml[e.start..e.open] + (xml[e.open..e.close] + xml[e.close..e.end]);
  }

  lemma OccursIndex(s: string, p: string, o: nat, j: nat)
    requires OccursAt(s, p, o) && j < |p|
    ensures s[o + j] == p[j] && p[j] in p
  {
  }

  /** Where text without markup can occur before its place: strictly inside the opening tag. */
  lemma EarlyOccurrence(tag: string, raw: string, s: string, o: nat)
    requires WellFormedTag(tag) && raw != "" && '<' !in raw && '>' !in raw && tag <= s
    requires o < |tag| && OccursAt(s, raw, o)
    ensures 1 <= o && o + |raw| <= |tag| - 1 && tag[o..o + |raw|] == raw
  {
    if o == 0 {
      OccursIndex(s, raw, o, 0);
    } else if o + |raw| > |tag| - 1 {
      OccursIndex(s, raw, o, |tag| - 1 - o);
    }
  }

  /** Text that is found too early is found strictly inside the opening tag. */
  lemma FoundInTag(xml: string, e: Element)
    requires MatchAt(xml, 't', e.start) == Some(e) && Tame(xml, e) && !Unambiguous(xml, e)
    ensures
      var tag, raw, o := xml[e.start..e.open], BodyAt(xml, e), TextStart(xml, e) - e.start;
      raw != "" && 1 <= o && o + |raw| <= |tag| - 1 && tag[o..o + |raw|] == raw
  {
    var tag, raw, s := xml[e.start..e.open], BodyAt(xml, e), xml[e.start..e.end];
    ElementParts(xml, e);
    TextStartInside(xml, e);
    IndexOfFirst(s, raw, 0);
    hide MatchAt, WellFormedTag, OccursAt;
    EarlyOccurrence(tag, raw, s, TextStart(xml, e) - e.start);
  }

  /** The tag after the write: untouched, or with the new text written over a part of it. */
  ghost function TagAfter(xml: string, e: Element, value: string): string
    requires MatchAt(xml, 't', e.start) == Some(e) && Tame(xml, e)
  {
    var tag := xml[e.start..e.open];
    if Unambiguous(xml, e) then tag
    else
      FoundInTag(xml, e);
      var o: nat := TextStart(xml, e) - e.start;
      tag[..o] + EscapeXml(value) + tag[o + (e.close - e.open)..]
  }

  /** The text after the write: the new one, or still the old one. */
  ghost function BodyAfter(xml: string, e: Element, value: string): string
    requires MatchAt(xml, 't', e.start) == Some(e)
  {
    if Unambiguous(xml, e) then EscapeXml(value) else BodyAt(xml, e)
  }

  lemma TagStaysWellFormed(xml: string, e: Element, value: string)
    requires MatchAt(xml, 't', e.start) == Some(e) && Tame(xml, e)
    ensures '<' !in BodyAfter(xml, e, value)
    ensures !Unambiguous(xml, e) ==> WellFormedTag(TagAfter(xml, e, value))
  {
    EscapedHasNoMarkup(value);
    if !Unambiguous(xml, e) {
      FoundInTag(xml, e);
      var o := TextStart(xml, e) - e.start;
      TagKept(xml[e.start..e.open], o, o + (e.close - e.open), EscapeXml(value));
    }
  }

  /** Text put inside a well-formed tag keeps it well formed if it holds no markup itself. */
  lemma TagKept(open: string, o: nat, end: nat, text: string)
    requires WellFormedTag(open) && 1 <= o <= end < |open| && '<' !in text && '>' !in text
    ensures WellFormedTag(open[..o] + text + open[end..])
  {
    var tag := open[..o] + text + open[end..];
    forall k | 1 <= k < |tag| - 1 ensures tag[k] != '<' && tag[k] != '>' {
      if o <= k < o + |text| {
        assert tag[k] == text[k - o];
      } else if o + |text| <= k {
        assert tag[k] == open[k - o - |text| + end];
      }
    }
  }

  lemma PatchShift(s: string, regions: seq<Region>, texts: seq<string>, from: nat, at: nat)
    requires |regions| == |texts| && at <= from <= |s| && Sorted(regions, from, |s|)
    ensures Sorted(regions, at, |s|) && Patch(s, regions, texts, at) == s[at..from] + Patch(s, regions, texts, from)
  {
    SortedWeaken(regions, from, at, |s|);
    if regions == [] {
      assert s[at..] == s[at..from] + s[from..];
    } else {
      assert s[at..regions[0].lo] == s[at..from] + s[from..regions[0].lo];
    }
  }

  lemma FirstRegion(xml: string, es: seq<Element>, from: nat)
    requires InOrder(es, from, |xml|) && es != []
    ensures
      var e, regions := es[0], WriteRegions(xml, es, from);
      && regions[1..] == WriteRegions(xml, es[1..], e.end)
      && e.start <= regions[0].lo <= regions[0].hi <= e.close
      && regions[0] == Region(TextStart(xml, e), TextStart(xml, e) + (e.close - e.open))
      && (e.open == e.close ==> regions[0] == Region(e.start, e.start))
  {
    TextStartInside(xml, es[0]);
  }

  /** The write, seen from one element on. */
  lemma WrittenElement(xml: string, es: seq<Element>, values: seq<string>, from: nat)
    requires from <= |xml| && InOrder(es, from, |xml|) && es != [] && |values| == |es|
    requires MatchAt(xml, 't', es[0].start) == Some(es[0]) && Tame(xml, es[0])
    requires es[0].open == es[0].close ==> values[0] == ""
    ensures
      var e := es[0];
      var tail := Patch(xml, WriteRegions(xml, es[1..], e.end), EscapeAll(values[1..]), e.end);
      Patch(xml, WriteRegions(xml, es, from), EscapeAll(values), from)
        == xml[from..e.start] + (TagAfter(xml, e, values[0]) + (BodyAfter(xml, e, values[0]) + (CloseTag('t') + tail)))
  {
    var e := es[0];
    var regions, rest := WriteRegions(xml, es, from), WriteRegions(xml, es[1..], e.end);
    var r, texts := regions[0], EscapeAll(values);
    var tail := Patch(xml, rest, EscapeAll(values[1..]), e.end);
    FirstRegion(xml, es, from);
    assert texts[0] == EscapeXml(values[0]) && texts[1..] == EscapeAll(values[1..]);
    PatchUnfold(xml, regions, texts, from, e.end);
    hide Patch, EscapeAll, WriteRegions;
    PlacedOrMisplaced(xml, e, r, values[0], tail, from);
  }

  lemma PlacedOrMisplaced(xml: string, e: Element, r: Region, value: string, tail: string, from: nat)
    requires MatchAt(xml, 't', e.start) == Some(e) && Tame(xml, e) && from <= e.start <= r.lo <= r.hi <= e.close
    requires r.lo == TextStart(xml, e) && r.hi == r.lo + (e.close - e.open)
    requires e.open == e.close ==> value == "" && r == Region(e.start, e.start)
    ensures e.end <= |xml|
    ensures xml[from..r.lo] + (EscapeXml(value) + (xml[r.hi..e.end] + tail))
         == xml[from..e.start] + (TagAfter(xml, e, value) + (BodyAfter(xml, e, value) + (CloseTag('t') + tail)))
  {
    ElementParts(xml, e);
    OpeningTag(xml, 't', e.start);
    EscapedNothing();
    TagCases(xml, e, value);
    hide MatchAt, EscapeXml, Plain, TagAfter, BodyAfter, TextStart, CloseTag, OpensAt;
    if Unambiguous(xml, e) {
      TextPlaced(xml, e, r, EscapeXml(value), tail, from, TagAfter(xml, e, value));
    } else {
      TextMisplaced(xml, e, r, EscapeXml(value), tail, from, TagAfter(xml, e, value), BodyAfter(xml, e, value));
    }
  }

  lemma TagCases(xml: string, e: Element, value: string)
    requires MatchAt(xml, 't', e.start) == Some(e) && Tame(xml, e)
    ensures e.open == e.close ==> Unambiguous(xml, e)
    ensures Unambiguous(xml, e) ==>
      TagAfter(xml, e, value) == xml[e.start..e.open] && BodyAfter(xml, e, value) == EscapeXml(value)
    ensures Unambiguous(xml, e) && e.open != e.close ==> TextStart(xml, e) == e.open
    ensures !Unambiguous(xml, e) ==>
      var tag, o := xml[e.start..e.open], TextStart(xml, e) - e.start;
      && 1 <= o && o + (e.close - e.open) < |tag| && BodyAfter(xml, e, value) == xml[e.open..e.close]
      && TagAfter(xml, e, value) == tag[..o] + EscapeXml(value) + tag[o + (e.close - e.open)..]
  {
    hide EscapeXml, MatchAt;
    if !Unambiguous(xml, e) { FoundInTag(xml, e); }
  }

  lemma PatchUnfold(s: string, regions: seq<Region>, texts: seq<string>, from: nat, end: nat)
    requires |regions| == |texts| && regions != [] && from <= |s| && Sorted(regions, from, |s|)
    requires regions[0].hi <= end <= |s| && Sorted(regions[1..], end, |s|)
    ensures from <= regions[0].lo <= regions[0].hi
    ensures Patch(s, regions, texts, from)
         == s[from..regions[0].lo] + (texts[0] + (s[regions[0].hi..end] + Patch(s, regions[1..], texts[1..], end)))
  {
    PatchShift(s, regions[1..], texts[1..], end, regions[0].hi);
  }

  lemma TextPlaced(xml: string, e: Element, r: Region, esc: string, tail: string, from: nat, tag: string)
    requires from <= e.start <= e.open <= e.close <= e.end <= |xml| && xml[e.close..e.end] == CloseTag('t')
    requires (e.open == e.close && esc == "" && r == Region(e.start, e.start)) || r == Region(e.open, e.close)
    requires tag == xml[e.start..e.open]
    ensures xml[from..r.lo] + (esc + (xml[r.hi..e.end] + tail))
         == xml[from..e.start] + (tag + (esc + (CloseTag('t') + tail)))
  {
    hide CloseTag;
    if r == Region(e.open, e.close) {
      assert xml[from..e.open] == xml[from..e.start] + xml[e.start..e.open];
      AppendAssoc(xml[from..e.start], xml[e.start..e.open], esc + (CloseTag('t') + tail));
    } else {
      assert xml[e.start..e.end] == xml[e.start..e.open] + CloseTag('t');
      AppendAssoc(xml[e.start..e.open], CloseTag('t'), tail);
    }
  }

  lemma TextMisplaced(xml: string, e: Element, r: Region, esc: string, tail: string, from: nat, written: string, body: string)
    requires from <= e.start <= r.lo <= r.hi <= e.open <= e.close <= e.end <= |xml| && xml[e.close..e.end] == CloseTag('t')
    requires
      var tag := xml[e.start..e.open];
      written == tag[..r.lo - e.start] + esc + tag[r.hi - e.start..] && body == xml[e.open..e.close]
    ensures xml[from..r.lo] + (esc + (xml[r.hi..e.end] + tail))
         == xml[from..e.start] + (written + (body + (CloseTag('t') + tail)))
  {
    hide CloseTag;
    var tag, o := xml[e.start..e.open], r.lo - e.start;
    var tagEnd := tag[r.hi - e.start..];
    assert xml[from..r.lo] == xml[from..e.start] + tag[..o];
    assert xml[r.hi..e.end] == tagEnd + (body + CloseTag('t'));
    AppendAssoc(body, CloseTag('t'), tail);
    AppendAssoc(tagEnd, body + CloseTag('t'), tail);
    var end := body + (CloseTag('t') + tail);
    AppendAssoc(xml[from..e.start], tag[..o], esc + (tagEnd + end));
    AppendAssoc(tag[..o] + esc, tagEnd, end);
    AppendAssoc(tag[..o], esc, tagEnd + end);
  }

  // -------------------------------------------------------------- what is read

  /** The bodies found in the paragraph after the write. */
  ghost function BodiesAfter(xml: string, from: nat, values: seq<string>): (bodies: seq<string>)
    requires from <= |xml| && |values| == |Elements(xml, 't', from)| && InOrder(Elements(xml, 't', from), from, |xml|)
    requires AllTame(xml, Elements(xml, 't', from), from)
    ensures |bodies| <= |values|
    decreases |xml| - from
  {
    var es := Elements(xml, 't', from);
    if es == [] then []
    else
      ElementsStep(xml, 't', from);
      ElementsInOrder(xml, 't', es[0].end);
      (if OpensAt(TagAfter(xml, es[0], values[0]), 't', 0) then [BodyAfter(xml, es[0], values[0])] else [])
      + BodiesAfter(xml, es[0].end, values[1..])
  }

  lemma {:induction false} ReadAfter(xml: string, from: nat, values: seq<string>)
    requires from <= |xml| && |values| == |Elements(xml, 't', from)| && InOrder(Elements(xml, 't', from), from, |xml|)
    requires AllTame(xml, Elements(xml, 't', from), from)
    requires EmptyStaysEmpty(xml, Elements(xml, 't', from), values, from)
    ensures Bodies(Patch(xml, WriteRegions(xml, Elements(xml, 't', from), from), EscapeAll(values), from), 't')
         == BodiesAfter(xml, from, values)
    decreases |xml| - from
  {
    hide MatchAt, Patch, EscapeXml, OpensAt, Bodies, TagAfter, BodyAfter, Tame, CloseTag, Unambiguous;
    var es := Elements(xml, 't', from);
    if es == [] {
      ElementBodies(xml, 't', from);
      PatchNone(xml, from);
    } else {
      var e := es[0];
      ElementsStep(xml, 't', from);
      ElementsInOrder(xml, 't', e.end);
      ReadAfter(xml, e.end, values[1..]);
      WrittenElement(xml, es, values, from);
      var tail := Patch(xml, WriteRegions(xml, es[1..], e.end), EscapeAll(values[1..]), e.end);
      ReadFirst(xml, e, values[0], tail, from);
    }
  }

  lemma PatchNone(s: string, from: nat)
    requires from <= |s|
    ensures Patch(s, [], [], from) == s[from..]
  {
  }

  lemma ReadFirst(xml: string, e: Element, value: string, tail: string, from: nat)
    requires from <= e.start <= e.end <= |xml| && MatchAt(xml, 't', e.start) == Some(e) && Tame(xml, e)
    requires forall k :: from <= k < e.start ==> !OpensAt(xml, 't', k)
    ensures
      var tag, body := TagAfter(xml, e, value), BodyAfter(xml, e, value);
      Bodies(xml[from..e.start] + (tag + (body + (CloseTag('t') + tail))), 't')
        == (if OpensAt(tag, 't', 0) then [body] else []) + Bodies(tail, 't')
  {
    hide EscapeXml, TagAfter, BodyAfter, Bodies, MatchAt, Tame;
    var tag, body, gap := TagAfter(xml, e, value), BodyAfter(xml, e, value), xml[from..e.start];
    TagStaysWellFormed(xml, e, value);
    WrittenRead(xml, e, value, tail);
    forall k | 0 <= k < |gap| ensures !OpensAt(gap, 't', k) {
      assert !OpensAt(xml, 't', from + k);
    }
    GapOpensNothing(gap, tag + (body + (CloseTag('t') + tail)), 't');
    NothingOpens(gap, tag + (body + (CloseTag('t') + tail)), 't');
  }

  lemma WrittenRead(xml: string, e: Element, value: string, tail: string)
    requires MatchAt(xml, 't', e.start) == Some(e) && Tame(xml, e)
    ensures
      var tag, body := TagAfter(xml, e, value), BodyAfter(xml, e, value);
      && tag != "" && tag[0] == '<'
      && Bodies(tag + (body + (CloseTag('t') + tail)), 't') == (if OpensAt(tag, 't', 0) then [body] else []) + Bodies(tail, 't')
  {
    hide EscapeXml, Bodies, MatchAt;
    TagStaysWellFormed(xml, e, value);
    if Unambiguous(xml, e) {
      OpeningTag(xml, 't', e.start);
      RereadElement(TagAfter(xml, e, value), BodyAfter(xml, e, value), tail, 't');
    } else {
      ElementRead(TagAfter(xml, e, value), BodyAfter(xml, e, value), tail);
    }
  }

  // ------------------------------------------------ unchanged text does no harm

  /** Characters that neither escaping nor unescaping changes. */
  predicate Ordinary(s: string)
  {
    forall k :: 0 <= k < |s| ==> EscapeChar(s[k]) == [s[k]]
  }

  lemma {:induction false} OrdinaryKept(s: string)
    requires Ordinary(s)
    ensures EscapeXml(s) == s
  {
    hide EscapeXml, EscapeChar;
    EscapeIsPerCharacter(s);
    if s != "" {
      assert EscapeChar(s[0]) == [s[0]] && forall k :: 0 <= k < |s[1..]| ==> EscapeChar(s[1..][k]) == EscapeChar(s[k + 1]);
      OrdinaryKept(s[1..]);
      EscapeIsPerCharacter(s[1..]);
      assert [s[0]] + s[1..] == s;
    }
  }

  lemma {:induction false} OrdinaryPrefix(p: string, q: string)
    requires Ordinary(p) && UnescapeXml(p + q).Some?
    ensures UnescapeXml(q).Some? && UnescapeXml(p + q).value == p + UnescapeXml(q).value
    ensures EscapeXml(UnescapeXml(p + q).value) == p + EscapeXml(UnescapeXml(q).value)
  {
    if p == "" {
      assert p + q == q;
      assert p + UnescapeXml(q).value == UnescapeXml(q).value;
    } else {
      assert EscapeChar(p[0]) == [p[0]];
      NoEntityWithoutAmpersand(p + q);
      assert (p + q)[1..] == p[1..] + q;
      OrdinaryPrefix(p[1..], q);
      var was := UnescapeXml(p[1..] + q).value;
      EscapeIsPerCharacter([p[0]] + was);
      EscapeIsPerCharacter(was);
      assert ([p[0]] + was)[1..] == was;
      assert p == [p[0]] + p[1..];
      AppendAssoc([p[0]], p[1..], UnescapeXml(q).value);
      AppendAssoc([p[0]], p[1..], EscapeXml(UnescapeXml(q).value));
    }
  }

  /** Writing back the text that was there leaves the beginning of the tag as it is. */
  lemma UnchangedOpens(xml: string, e: Element)
    requires MatchAt(xml, 't', e.start) == Some(e) && Tame(xml, e) && UnescapeXml(BodyAt(xml, e)).Some?
    ensures OpensAt(TagAfter(xml, e, UnescapeXml(BodyAt(xml, e)).value), 't', 0)
  {
    hide UnescapeXml, EscapeXml, OpensAt;
    ElementParts(xml, e);
    if !Unambiguous(xml, e) {
      FoundInTag(xml, e);
      UnchangedTag(xml[e.start..e.open], BodyAt(xml, e), TextStart(xml, e) - e.start);
    }
  }

  lemma UnchangedTag(tag: string, raw: string, o: nat)
    requires OpensAt(tag, 't', 0) && 1 <= o && o + |raw| < |tag| && tag[o..o + |raw|] == raw
    requires '>' !in raw && UnescapeXml(raw).Some?
    ensures OpensAt(tag[..o] + EscapeXml(UnescapeXml(raw).value) + tag[o + |raw|..], 't', 0)
  {
    hide UnescapeXml, EscapeXml, OpensAt, Ordinary, SharesStart;
    var p, q := SharedStart(tag, raw, o);
    EscapedNothing();
    OrdinaryPrefix(p, q);
    StillOpens(tag, raw, o, p, q, EscapeXml(UnescapeXml(q).value));
  }

  /** The first part of the text is what the tag has there, as far as the name goes. */
  predicate SharesStart(tag: string, raw: string, o: nat, p: string, q: string)
  {
    && raw == p + q && (|p| >= 5 - o || q == "")
    && o + |raw| < |tag| && forall k :: 0 <= k < |p| ==> p[k] == tag[o + k]
  }

  /** What the text shares with the name in the tag it was found in is ordinary. */
  lemma SharedStart(tag: string, raw: string, o: nat) returns (p: string, q: string)
    requires OpensAt(tag, 't', 0) && 1 <= o && o + |raw| < |tag| && tag[o..o + |raw|] == raw && '>' !in raw
    ensures raw == p + q && Ordinary(p) && SharesStart(tag, raw, o, p, q)
  {
    var n := Min(|raw|, Max(0, 5 - o));
    p, q := raw[..n], raw[n..];
    forall k | 0 <= k < n ensures p[k] == raw[k] == tag[o + k] {
      assert tag[o + k] == tag[o..o + |raw|][k];
    }
    TagNameOrdinary(tag, o, p);
  }

  lemma TagNameOrdinary(tag: string, o: nat, p: string)
    requires OpensAt(tag, 't', 0) && 1 <= o && (p == "" || o + |p| <= 5) && '>' !in p
    requires forall k :: 0 <= k < |p| ==> o + k < |tag| && p[k] == tag[o + k]
    ensures Ordinary(p)
  {
  }

  lemma EscapedNothing()
    ensures UnescapeXml("") == Some("") && EscapeXml("") == ""
  {
  }

  lemma StillOpens(tag: string, raw: string, o: nat, p: string, q: string, more: string)
    requires 1 <= o && OpensAt(tag, 't', 0) && SharesStart(tag, raw, o, p, q) && (q == "" ==> more == "")
    ensures OpensAt(tag[..o] + (p + more) + tag[o + |raw|..], 't', 0)
  {
    var t := tag[..o] + (p + more) + tag[o + |raw|..];
    if |p| >= 5 - o {
      assert forall k :: 0 <= k < o ==> t[k] == tag[k];
      assert forall k :: o <= k < o + |p| ==> t[k] == (p + more)[k - o] == tag[k];
    } else {
      assert tag[..o] + p == tag[..o + |raw|];
      assert t == tag;
    }
  }

  // ------------------------------------------------------------------ exactly

  /** No run's text is written over its tag, unless it is written back unchanged. */
  ghost predicate Spliceable(xml: string, es: seq<Element>, runs: seq<string>, values: seq<string>, from: nat)
    requires InOrder(es, from, |xml|) && |es| == |runs| == |values|
  {
    es == [] || ((Unambiguous(xml, es[0]) || values[0] == runs[0])
                 && Spliceable(xml, es[1..], runs[1..], values[1..], es[0].end))
  }

  lemma UnescapeCons(raw: string, raws: seq<string>)
    ensures UnescapeAll([raw] + raws)
         == if UnescapeXml(raw).None? || UnescapeAll(raws).None? then None
            else Some([UnescapeXml(raw).value] + UnescapeAll(raws).value)
  {
    assert ([raw] + raws)[1..] == raws;
  }

  lemma ConsSame(a: string, b: string, as': seq<string>, bs: seq<string>)
    ensures [a] + as' == [b] + bs <==> a == b && as' == bs
  {
    if [a] + as' == [b] + bs {
      assert ([a] + as')[0] == a && ([b] + bs)[0] == b;
      assert ([a] + as')[1..] == as' && ([b] + bs)[1..] == bs;
    }
  }

  lemma {:induction false} ReadExactly(xml: string, from: nat, runs: seq<string>, values: seq<string>)
    requires from <= |xml| && |values| == |Elements(xml, 't', from)| && InOrder(Elements(xml, 't', from), from, |xml|)
    requires AllTame(xml, Elements(xml, 't', from), from)
    requires UnescapeAll(BodiesAt(xml, Elements(xml, 't', from), from)) == Some(runs)
    ensures UnescapeAll(BodiesAfter(xml, from, values)) == Some(values)
      <==> Spliceable(xml, Elements(xml, 't', from), runs, values, from)
    decreases |xml| - from
  {
    hide MatchAt, EscapeXml, UnescapeXml, OpensAt, TagAfter, BodyAfter, Tame, Unambiguous;
    var es := Elements(xml, 't', from);
    if es != [] {
      var e := es[0];
      ElementsStep(xml, 't', from);
      ElementsInOrder(xml, 't', e.end);
      var bodies := BodiesAt(xml, es, from);
      assert bodies == [BodyAt(xml, e)] + BodiesAt(xml, es[1..], e.end);
      UnescapeCons(BodyAt(xml, e), BodiesAt(xml, es[1..], e.end));
      var rest := UnescapeAll(BodiesAt(xml, es[1..], e.end)).value;
      assert runs[0] == UnescapeXml(BodyAt(xml, e)).value && runs[1..] == rest;
      ReadExactly(xml, e.end, runs[1..], values[1..]);
      FirstExactly(xml, e, runs[0], values[0]);
      assert values == [values[0]] + values[1..];
      if OpensAt(TagAfter(xml, e, values[0]), 't', 0) {
        UnescapeCons(BodyAfter(xml, e, values[0]), BodiesAfter(xml, e.end, values[1..]));
        var first, later := UnescapeXml(BodyAfter(xml, e, values[0])), UnescapeAll(BodiesAfter(xml, e.end, values[1..]));
        if first.Some? && later.Some? { ConsSame(first.value, values[0], later.value, values[1..]); }
      } else {
        assert [] + BodiesAfter(xml, e.end, values[1..]) == BodiesAfter(xml, e.end, values[1..]);
      }
    }
  }

  lemma FirstExactly(xml: string, e: Element, was: string, value: string)
    requires MatchAt(xml, 't', e.start) == Some(e) && Tame(xml, e) && UnescapeXml(BodyAt(xml, e)) == Some(was)
    ensures OpensAt(TagAfter(xml, e, value), 't', 0) && UnescapeXml(BodyAfter(xml, e, value)) == Some(value)
      <==> Unambiguous(xml, e) || value == was
    ensures UnescapeXml(BodyAfter(xml, e, value)).Some?
  {
    hide EscapeXml, UnescapeXml;
    ElementParts(xml, e);
    EscapeRoundTrip(value);
    UnchangedOpens(xml, e);
  }

  /**
   * A paragraph as a word processor writes it (or with every text found in its
   * place) reads back as the values written exactly when no run that changes
   * has its raw text earlier in its own element, that is, in its opening tag.
   */
  lemma WriteBackExactly(xml: string, runs: seq<string>, values: seq<string>)
    requires RunTexts(xml) == Some(runs) && |values| == |TextElements(xml)| == |runs|
    requires AllTame(xml, TextElements(xml), 0) && EmptyStaysEmpty(xml, TextElements(xml), values, 0)
    ensures RunTexts(WrittenBack(xml, values)) == Some(values)
      <==> Spliceable(xml, TextElements(xml), runs, values, 0)
  {
    RunsMatchElements(xml);
    ReadAfter(xml, 0, values);
    ReadExactly(xml, 0, runs, values);
  }

  /** The same for a whole edit: its result reads back as the edited runs exactly in that case. */
  lemma ParagraphExactly(xml: string, find: string, repl: string, all: bool)
    requires |find| > 0 && RunTexts(xml).Some? && AllTame(xml, TextElements(xml), 0)
    ensures |RunTexts(xml).value| == |TextElements(xml)|
    ensures
      var runs := RunTexts(xml).value;
      var edit := ParagraphEdited(xml, find, repl, all).value;
      (RunTexts(edit.xml) == Some(EditedRuns(runs, find, repl, all)))
        <==> (edit.replacements == 0 || Spliceable(xml, TextElements(xml), runs, EditedRuns(runs, find, repl, all), 0))
  {
    hide Count, Starts, EditedRun, AllTame, Spliceable;
    var runs := RunTexts(xml).value;
    var values := EditedRuns(runs, find, repl, all);
    RunsMatchElements(xml);
    RunsRefineReplace(runs, find, repl, all, values);
    if Count(Flatten(runs), find, all) == 0 {
      forall j | 0 <= j < |runs| ensures values[j] == runs[j] {
        UntouchedRunKept(runs, [], |find|, repl, j);
      }
      assert values == runs;
    } else {
      forall j | 0 <= j < |runs| && runs[j] == "" ensures values[j] == "" {
        EmptyEditedRun(runs, Starts(Flatten(runs), find, all), |find|, repl, j);
      }
      EmptyRunsStayEmpty(xml, TextElements(xml), 0, runs, values);
      WriteBackExactly(xml, runs, values);
    }
  }

  // ------------------------------------------------------ what else is touched

  /** The texts the elements have after the write, in place. */
  ghost function NewBodies(xml: string, from: nat, values: seq<string>): (bodies: seq<string>)
    requires from <= |xml| && |values| == |Elements(xml, 't', from)| && InOrder(Elements(xml, 't', from), from, |xml|)
    ensures |bodies| == |values|
    decreases |xml| - from
  {
    var es := Elements(xml, 't', from);
    if es == [] then []
    else
      ElementsStep(xml, 't', from);
      ElementsInOrder(xml, 't', es[0].end);
      [BodyAfter(xml, es[0], values[0])] + NewBodies(xml, es[0].end, values[1..])
  }

  /** What is written over a part of a tag is what was there. */
  ghost predicate TagsUnchanged(xml: string, es: seq<Element>, values: seq<string>, from: nat)
    requires InOrder(es, from, |xml|) && |es| == |values|
  {
    es == [] || ((Unambiguous(xml, es[0]) || EscapeXml(values[0]) == BodyAt(xml, es[0]))
                 && TagsUnchanged(xml, es[1..], values[1..], es[0].end))
  }

  lemma TagUnchanged(xml: string, e: Element, value: string)
    requires MatchAt(xml, 't', e.start) == Some(e) && Tame(xml, e)
    ensures TagAfter(xml, e, value) == xml[e.start..e.open] <==> Unambiguous(xml, e) || EscapeXml(value) == BodyAt(xml, e)
  {
    TagCases(xml, e, value);
    ElementParts(xml, e);
    hide EscapeXml, MatchAt, TagAfter, Unambiguous, Tame, CloseTag, OpensAt;
    if !Unambiguous(xml, e) {
      FoundInTag(xml, e);
      WrittenOver(xml[e.start..e.open], TextStart(xml, e) - e.start, BodyAt(xml, e), EscapeXml(value));
    }
  }

  lemma WrittenOver(tag: string, o: nat, was: string, text: string)
    requires o + |was| <= |tag| && tag[o..o + |was|] == was
    ensures tag[..o] + text + tag[o + |was|..] == tag <==> text == was
  {
    var t := tag[..o] + text + tag[o + |was|..];
    assert tag == tag[..o] + was + tag[o + |was|..];
    if t == tag {
      assert |text| == |was|;
      assert t[o..o + |text|] == text;
    }
  }

  /** Two texts that are equal begin with the same tag. */
  lemma SameTag(t: string, x: string, tag: string, y: string)
    requires WellFormedTag(t) && WellFormedTag(tag) && t + x == tag + y
    ensures t == tag && x == y
  {
    var s := t + x;
    assert forall k :: 0 <= k < |t| ==> s[k] == t[k];
    assert forall k :: 0 <= k < |tag| ==> (tag + y)[k] == tag[k] == s[k];
    assert s[|t| - 1] == '>' && s[|tag| - 1] == '>';
    assert |t| == |tag|;
    assert s[..|t|] == t && (tag + y)[..|tag|] == tag && s[|t|..] == x && (tag + y)[|tag|..] == y;
  }

  lemma SameRest(a: string, x: string, y: string)
    ensures a + x == a + y <==> x == y
  {
    assert (a + x)[|a|..] == x && (a + y)[|a|..] == y;
  }

  lemma FirstOutside(xml: string, e: Element, value: string, tail: string, rest: string, from: nat)
    requires from <= e.start <= e.end <= |xml| && MatchAt(xml, 't', e.start) == Some(e) && Tame(xml, e)
    ensures e.open <= e.close <= e.end
    ensures
      var body := BodyAfter(xml, e, value);
      (xml[from..e.start] + (TagAfter(xml, e, value) + (body + (CloseTag('t') + tail)))
         == xml[from..e.open] + (body + (xml[e.close..e.end] + rest)))
      <==> TagAfter(xml, e, value) == xml[e.start..e.open] && tail == rest
  {
    hide EscapeXml, MatchAt, TagAfter, BodyAfter, CloseTag, WellFormedTag;
    OpeningTag(xml, 't', e.start);
    ElementParts(xml, e);
    TagStaysWellFormed(xml, e, value);
    TagCases(xml, e, value);
    var gap, t, tag, body := xml[from..e.start], TagAfter(xml, e, value), xml[e.start..e.open], BodyAfter(xml, e, value);
    var x, y := body + (CloseTag('t') + tail), body + (CloseTag('t') + rest);
    assert xml[from..e.open] == gap + tag;
    AppendAssoc(gap, tag, y);
    SameRest(gap, t + x, tag + y);
    SameRest(body, CloseTag('t') + tail, CloseTag('t') + rest);
    SameRest(CloseTag('t'), tail, rest);
    if t == tag {
      SameRest(t, x, y);
    } else if t + x == tag + y {
      assert WellFormedTag(tag) by { PlainTag(xml, e); }
      SameTag(t, x, tag, y);
    }
  }

  lemma PlainTag(xml: string, e: Element)
    requires e.start <= e.open <= e.close <= e.end <= |xml| && Tame(xml, e) && !Unambiguous(xml, e)
    ensures WellFormedTag(xml[e.start..e.open])
  {
  }

  /**
   * Everything but the texts of the elements stays as it was exactly when no
   * tag is written over with anything but what was there. (A run `"` that does
   * not change is such a case: it is found in the attribute of its own tag and
   * `&quot;` is put in its place.)
   */
  lemma {:induction false} OutsideExactly(xml: string, from: nat, values: seq<string>)
    requires from <= |xml| && |values| == |Elements(xml, 't', from)| && InOrder(Elements(xml, 't', from), from, |xml|)
    requires AllTame(xml, Elements(xml, 't', from), from)
    requires EmptyStaysEmpty(xml, Elements(xml, 't', from), values, from)
    ensures
      var es := Elements(xml, 't', from);
      (Patch(xml, WriteRegions(xml, es, from), EscapeAll(values), from) == Rebuild(xml, es, NewBodies(xml, from, values), from))
      <==> TagsUnchanged(xml, es, values, from)
    decreases |xml| - from
  {
    hide MatchAt, Patch, EscapeXml, OpensAt, TagAfter, BodyAfter, Tame, CloseTag, Unambiguous;
    var es := Elements(xml, 't', from);
    if es == [] {
      PatchNone(xml, from);
    } else {
      var e := es[0];
      ElementsStep(xml, 't', from);
      ElementsInOrder(xml, 't', e.end);
      OutsideExactly(xml, e.end, values[1..]);
      WrittenElement(xml, es, values, from);
      TagUnchanged(xml, e, values[0]);
      var bodies := NewBodies(xml, from, values);
      assert bodies[0] == BodyAfter(xml, e, values[0]) && bodies[1..] == NewBodies(xml, e.end, values[1..]);
      var tail := Patch(xml, WriteRegions(xml, es[1..], e.end), EscapeAll(values[1..]), e.end);
      FirstOutside(xml, e, values[0], tail, Rebuild(xml, es[1..], bodies[1..], e.end), from);
    }
  }

  // -------------------------------------------------------- a run in its tag

  /** A paragraph of one text element. */
  function OneRun(raw: string): string
  {
    "<w:t>" + (raw + CloseTag('t'))
  }

  lemma OneRunRead(raw: string)
    requires '<' !in raw
    ensures
      var xml, e := OneRun(raw), Element(0, 5, 5 + |raw|, 11 + |raw|);
      && TextElements(xml) == Elements(xml, 't', 0) == [e] && MatchAt(xml, 't', 0) == Some(e)
      && |xml| == 11 + |raw| && BodyAt(xml, e) == raw && xml[0..5] == "<w:t>"
  {
    hide MatchAt, OpensAt;
    var xml, e := OneRun(raw), Element(0, 5, 5 + |raw|, 11 + |raw|);
    assert CloseTag('t') + "" == CloseTag('t');
    assert OpensAt("<w:t>", 't', 0) by { OneTag(); }
    MatchRebuilt("<w:t>", raw, "", 't');
    assert Elements(xml, 't', |xml|) == [];
    assert [e] + [] == [e];
  }

  lemma OneTag()
    ensures OpensAt("<w:t>", 't', 0)
  {
  }

  /** A beginning of `w:t` is found in the tag. */
  lemma FoundInName(raw: string)
    requires raw != "" && raw <= "w:t"
    ensures
      var xml, e := OneRun(raw), Element(0, 5, 5 + |raw|, 11 + |raw|);
      |xml| == 11 + |raw| && TextStart(xml, e) == 1 && !Unambiguous(xml, e) && Plain(xml, e)
  {
    hide MatchAt, Elements, OneRun;
    OneRunRead(raw);
    var xml, e := OneRun(raw), Element(0, 5, 5 + |raw|, 11 + |raw|);
    assert xml[0..|xml|] == xml;
    NameIndex(raw);
    NamePlain(raw);
    hide *;
    FoundEarly(xml, e, 1);
    NamedPlain(xml, e);
  }

  lemma NameIndex(raw: string)
    requires raw != "" && raw <= "w:t"
    ensures IndexOf(OneRun(raw), raw, 0) == 1
  {
    var xml := OneRun(raw);
    assert forall j :: 0 <= j < |raw| ==> xml[1 + j] == "<w:t>"[1 + j] == "w:t"[j] == raw[j];
    assert xml[0 + 0] == '<' != raw[0];
    hide OneRun;
    IndexOfUnique(xml, raw, 0, 1);
  }

  lemma NamePlain(raw: string)
    requires raw <= "w:t"
    ensures WellFormedTag("<w:t>") && '<' !in raw && '>' !in raw
  {
  }

  lemma FoundEarly(xml: string, e: Element, o: nat)
    requires e.start == 0 < e.open < e.close <= e.end == |xml| && xml[0..|xml|] == xml
    requires IndexOf(xml, BodyAt(xml, e), 0) == o != e.open
    ensures TextStart(xml, e) == o && !Unambiguous(xml, e)
  {
  }

  lemma NamedPlain(xml: string, e: Element)
    requires e.start <= e.open <= e.close <= e.end <= |xml|
    requires WellFormedTag(xml[e.start..e.open]) && '<' !in BodyAt(xml, e) && '>' !in BodyAt(xml, e)
    ensures Plain(xml, e)
  {
  }

  /** The run text `w` is found in the tag `<w:t>`: the edit renames the tag and the new text is lost. */
  lemma WriteBackAstray()
    ensures |TextElements(OneRun("w"))| == 1
    ensures RunTexts(OneRun("w")) == Some(["w"])
    ensures RunTexts(WrittenBack(OneRun("w"), ["x"])) != Some(["x"])
  {
    var raw := "w";
    var xml, e := OneRun(raw), Element(0, 5, 6, 12);
    OneRunRead(raw);
    FoundInName(raw);
    RunsMatchElements(xml);
    OneBody(xml, e);
    hide Unambiguous, Plain, OneRun, TextStart;
    NoEntityWithoutAmpersand(raw);
    assert UnescapeXml(raw[1..]) == Some("") && [raw[0]] + "" == raw;
    UnescapeOne(raw);
    assert raw[0] != "x"[0];
    OneSplice(xml, e, [raw], ["x"]);
    WriteBackExactly(xml, [raw], ["x"]);
  }

  lemma OneBody(xml: string, e: Element)
    requires InOrder([e], 0, |xml|)
    ensures BodiesAt(xml, [e], 0) == [BodyAt(xml, e)]
  {
    assert [e][1..] == [];
  }

  lemma OneSplice(xml: string, e: Element, runs: seq<string>, values: seq<string>)
    requires InOrder([e], 0, |xml|) && Plain(xml, e) && !Unambiguous(xml, e) && e.open < e.close
    requires |runs| == |values| == 1 && values[0] != runs[0]
    ensures !Spliceable(xml, [e], runs, values, 0) && AllTame(xml, [e], 0) && EmptyStaysEmpty(xml, [e], values, 0)
  {
    assert [e][1..] == [];
  }
}
