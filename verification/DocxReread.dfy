/** The edited document, read again: its paragraphs are the edited paragraphs, and their texts the replaced texts. */
module DocxReread {
  import opened Common
  import opened TextSearch
  import opened XmlText
  import opened XmlElements
  import opened RunReplacement
  import opened DocxReplace
  import opened DocxExact
  import opened DocxDocument

  // ----------------------------------------------- where a paragraph is closed

  /** The text ends with the closing tag of a paragraph, and holds no other. */
  predicate ClosesLast(s: string)
  {
    && |s| >= 6 && OccursAt(s, CloseTag('p'), |s| - 6)
    && forall k :: 0 <= k < |s| - 6 ==> !OccursAt(s, CloseTag('p'), k)
  }

  lemma OccursWithin(s: string, p: string, k: nat, part: string, at: nat)
    requires at <= k && k + |p| <= at + |part| <= |s| && s[at..at + |part|] == part
    ensures OccursAt(s, p, k) <==> OccursAt(part, p, k - at)
  {
    assert forall j :: 0 <= j < |part| ==> s[at + j] == part[j];
    if OccursAt(part, p, k - at) {
      forall j | 0 <= j < |p| ensures s[k + j] == p[j] {
        assert part[(k - at) + j] == p[j];
      }
    }
    if OccursAt(s, p, k) {
      forall j | 0 <= j < |p| ensures part[(k - at) + j] == p[j] {
        assert s[k + j] == p[j];
      }
    }
  }

  /** A character that differs rules an occurrence out. */
  lemma NotAt(s: string, p: string, k: nat, j: nat)
    requires j < |p| && k + j < |s| && s[k + j] != p[j]
    ensures !OccursAt(s, p, k)
  {
  }

  /** Text without `<` behind the end of a tag does not close a paragraph, nor does what it makes with its surroundings. */
  lemma ClosesBehindTag(seg: string, text: string, rest: string)
    requires seg == "" || seg[|seg| - 1] == '>'
    requires forall k :: 0 <= k < |seg| ==> !OccursAt(seg, CloseTag('p'), k)
    requires '<' !in text && ClosesLast(rest)
    ensures ClosesLast(seg + (text + rest))
  {
    hide OccursAt, CloseTag;
    var s, n := seg + (text + rest), |seg| + |text|;
    assert s[n..n + |rest|] == rest;
    OccursWithin(s, CloseTag('p'), |s| - 6, rest, n);
    forall k | 0 <= k < |s| - 6 ensures !OccursAt(s, CloseTag('p'), k) {
      if k >= n {
        OccursWithin(s, CloseTag('p'), k, rest, n);
      } else if k >= |seg| {
        assert s[k] == text[k - |seg|];
        NotAt(s, CloseTag('p'), k, 0);
      } else if k + 6 <= |seg| {
        assert s[0..|seg|] == seg;
        OccursWithin(s, CloseTag('p'), k, seg, 0);
      } else {
        assert s[|seg| - 1] == '>';
        NotAt(s, CloseTag('p'), k, |seg| - 1 - k);
      }
    }
  }

  lemma ClosesBehindText(rest: string)
    requires ClosesLast(rest)
    ensures ClosesLast(CloseTag('t') + rest)
  {
    hide OccursAt;
    var s := CloseTag('t') + rest;
    assert s[6..6 + |rest|] == rest;
    OccursWithin(s, CloseTag('p'), |s| - 6, rest, 6);
    forall k | 0 <= k < |s| - 6 ensures !OccursAt(s, CloseTag('p'), k) {
      if k >= 6 {
        OccursWithin(s, CloseTag('p'), k, rest, 6);
      } else {
        NotAt(s, CloseTag('p'), k, if k == 0 then 4 else 0);
      }
    }
  }

  /** The tail of a text that closes last closes last, as long as it holds the closing tag. */
  lemma ClosesFrom(s: string, i: nat)
    requires ClosesLast(s) && i + 6 <= |s|
    ensures ClosesLast(s[i..])
  {
    var t := s[i..];
    forall k | 0 <= k <= |t| - 6 ensures OccursAt(t, CloseTag('p'), k) <==> OccursAt(s, CloseTag('p'), i + k) {
      OccursWithin(s, CloseTag('p'), i + k, t, i);
    }
  }

  lemma ClosesBefore(s: string, i: nat)
    requires ClosesLast(s) && i <= |s| - 6
    ensures forall k :: 0 <= k < i ==> !OccursAt(s[..i], CloseTag('p'), k)
  {
    forall k | 0 <= k < i ensures !OccursAt(s[..i], CloseTag('p'), k) {
      if k + 6 <= i { OccursWithin(s, CloseTag('p'), k, s[..i], 0); }
    }
  }

  /** A text element lies before the tag that closes its paragraph. */
  lemma TextBeforeClose(piece: string, cut: nat, e: Element)
    requires cut <= e.open <= e.close <= e.end == e.close + 6 <= |piece| && piece[e.close..e.end] == CloseTag('t')
    requires cut <= |piece| && ClosesLast(piece[cut..])
    ensures e.end <= |piece| - 6
  {
    var last := |piece| - 6;
    var t := piece[cut..];
    assert forall j :: 0 <= j < 6 ==> t[|t| - 6 + j] == CloseTag('p')[j] && t[|t| - 6 + j] == piece[last + j];
    assert forall j :: 0 <= j < 6 ==> piece[e.close + j] == piece[e.close..e.end][j] == CloseTag('t')[j];
    assert piece[last + 0] == '<' && piece[last + 4] == 'p';
  }

  lemma SuffixCloses(piece: string, cut: nat, end: nat)
    requires cut <= end <= |piece| - 6 && ClosesLast(piece[cut..])
    ensures ClosesLast(piece[end..])
  {
    ClosesFrom(piece[cut..], end - cut);
    assert piece[cut..][end - cut..] == piece[end..];
  }

  /** No tag becomes the closing tag of a paragraph when it is written over. */
  ghost predicate NoTagCloses(xml: string, from: nat, values: seq<string>)
    requires from <= |xml| && |values| == |Elements(xml, 't', from)| && InOrder(Elements(xml, 't', from), from, |xml|)
    requires AllTame(xml, Elements(xml, 't', from), from)
    decreases |xml| - from
  {
    var es := Elements(xml, 't', from);
    es == [] ||
      (ElementsStep(xml, 't', from);
       ElementsInOrder(xml, 't', es[0].end);
       TagAfter(xml, es[0], values[0]) != CloseTag('p') && NoTagCloses(xml, es[0].end, values[1..]))
  }

  /** A tag that opens an element, in front or behind it nothing that closes a paragraph. */
  lemma SegmentCloses(gap: string, tag: string)
    requires WellFormedTag(tag) && tag != CloseTag('p')
    requires forall k :: 0 <= k < |gap| ==> !OccursAt(gap, CloseTag('p'), k)
    ensures forall k :: 0 <= k < |gap + tag| ==> !OccursAt(gap + tag, CloseTag('p'), k)
  {
    var s, n := gap + tag, |gap|;
    assert s[n] == '<';
    forall k | 0 <= k < |s| ensures !OccursAt(s, CloseTag('p'), k) {
      if k + 6 > |s| {
      } else if k + 6 <= n {
        assert s[0..n] == gap;
        OccursWithin(s, CloseTag('p'), k, gap, 0);
      } else if k < n {
        NotAt(s, CloseTag('p'), k, n - k);
      } else if k > n {
        assert s[k] == tag[k - n];
        NotAt(s, CloseTag('p'), k, 0);
      } else {
        if OccursAt(tag, CloseTag('p'), 0) { ClosingTag(tag); }
        assert s[n..n + |tag|] == tag;
        OccursWithin(s, CloseTag('p'), n, tag, n);
      }
    }
  }

  /** A tag that begins with the closing tag of a paragraph is that tag. */
  lemma ClosingTag(tag: string)
    requires WellFormedTag(tag) && OccursAt(tag, CloseTag('p'), 0)
    ensures tag == CloseTag('p')
  {
    assert forall j :: 0 <= j < 6 ==> tag[0 + j] == CloseTag('p')[j];
    assert tag[5] == '>' && |tag| == 6;
  }

  /** One element written: what comes before its body closes no paragraph, so the rest still closes last. */
  lemma WrittenFirst(piece: string, e: Element, value: string, later: string, cut: nat)
    requires MatchAt(piece, 't', e.start) == Some(e) && Tame(piece, e) && TagAfter(piece, e, value) != CloseTag('p')
    requires cut <= e.start && e.end <= |piece| - 6 && ClosesLast(piece[cut..]) && ClosesLast(later)
    ensures ClosesLast(piece[cut..e.start] + (TagAfter(piece, e, value) + (BodyAfter(piece, e, value) + (CloseTag('t') + later))))
  {
    hide ClosesLast, OccursAt, CloseTag, MatchAt, EscapeXml;
    var tag, body, gap := TagAfter(piece, e, value), BodyAfter(piece, e, value), piece[cut..e.start];
    TagStaysWellFormed(piece, e, value);
    OpeningTag(piece, 't', e.start);
    ClosesBehindText(later);
    if Unambiguous(piece, e) {
      ClosesBefore(piece[cut..], e.open - cut);
      assert piece[cut..][..e.open - cut] == gap + tag;
    } else {
      ClosesBefore(piece[cut..], e.start - cut);
      assert piece[cut..][..e.start - cut] == gap;
      SegmentCloses(gap, tag);
    }
    ClosesBehindTag(gap + tag, body, CloseTag('t') + later);
    AppendAssoc(gap, tag, body + (CloseTag('t') + later));
  }

  /** Writing texts into a paragraph leaves it closed at its end, unless one of its tags becomes its closing tag. */
  lemma {:induction false} WrittenCloses(piece: string, from: nat, values: seq<string>)
    requires from <= |piece| && |values| == |Elements(piece, 't', from)| && InOrder(Elements(piece, 't', from), from, |piece|)
    requires AllTame(piece, Elements(piece, 't', from), from) && EmptyStaysEmpty(piece, Elements(piece, 't', from), values, from)
    requires NoTagCloses(piece, from, values) && ClosesLast(piece[from..])
    ensures ClosesLast(Patch(piece, WriteRegions(piece, Elements(piece, 't', from), from), EscapeAll(values), from))
    decreases |piece| - from
  {
    hide ClosesLast, MatchAt, Patch, EscapeXml, TagAfter, BodyAfter, Tame, CloseTag;
    var es := Elements(piece, 't', from);
    if es == [] {
      PatchNone(piece, from);
    } else {
      var e := es[0];
      ElementsStep(piece, 't', from);
      ElementsInOrder(piece, 't', e.end);
      ElementParts(piece, e);
      ElementEndsBefore(piece, from, e);
      SuffixCloses(piece, from, e.end);
      WrittenCloses(piece, e.end, values[1..]);
      WrittenElement(piece, es, values, from);
      var tail := Patch(piece, WriteRegions(piece, es[1..], e.end), EscapeAll(values[1..]), e.end);
      WrittenFirst(piece, e, values[0], tail, from);
    }
  }

  lemma ElementEndsBefore(piece: string, cut: nat, e: Element)
    requires MatchAt(piece, 't', e.start) == Some(e) && cut <= e.open && cut <= |piece| && ClosesLast(piece[cut..])
    ensures e.end <= |piece| - 6
  {
    hide ClosesLast;
    OpeningTag(piece, 't', e.start);
    ElementParts(piece, e);
    TextBeforeClose(piece, cut, e);
  }

  // ------------------------------------------------------------ whole elements

  /** The elements in full, read by walking the text itself. */
  ghost function Wholes(s: string, name: Name): seq<string>
  {
    if s == "" then []
    else
      var m := MatchAt(s, name, 0);
      if m.Some? then [s[..m.value.end]] + Wholes(s[m.value.end..], name) else Wholes(s[1..], name)
  }

  lemma {:induction false} PiecesAreWholes(s: string, from: nat)
    requires from <= |s|
    ensures InOrder(Elements(s, 'p', from), from, |s|)
    ensures Wholes(s[from..], 'p') == Pieces(s, Elements(s, 'p', from), from)
    decreases |s| - from
  {
    hide MatchAt;
    ElementsInOrder(s, 'p', from);
    if from < |s| {
      var t := s[from..];
      MatchAtSuffix(s, t, 'p', from);
      var m := MatchAt(s, 'p', from);
      if m.Some? {
        var e := m.value;
        WholeStart(s, from);
        PiecesAreWholes(s, e.end);
        assert t[..e.end - from] == s[from..e.end] && t[e.end - from..] == s[e.end..];
        assert ([e] + Elements(s, 'p', e.end))[1..] == Elements(s, 'p', e.end);
      } else {
        PiecesAreWholes(s, from + 1);
        PiecesFromNext(s, Elements(s, 'p', from + 1), from);
        assert t[1..] == s[from + 1..];
      }
    }
  }

  lemma WholeStart(s: string, i: nat)
    ensures MatchAt(s, 'p', i).Some? ==> MatchAt(s, 'p', i).value.start == i && i < MatchAt(s, 'p', i).value.end <= |s|
  {
  }

  lemma PiecesFromNext(s: string, ps: seq<Element>, from: nat)
    requires InOrder(ps, from + 1, |s|)
    ensures InOrder(ps, from, |s|) && Pieces(s, ps, from) == Pieces(s, ps, from + 1)
  {
  }

  lemma {:induction false} NothingWhole(s: string, tail: string, name: Name)
    requires forall k :: 0 <= k < |s| ==> !OpensAt(s + tail, name, k)
    ensures Wholes(s + tail, name) == Wholes(tail, name)
  {
    if s == "" {
      assert s + tail == tail;
    } else {
      assert (s + tail)[1..] == s[1..] + tail;
      assert !OpensAt(s + tail, name, 0);
      forall k | 0 <= k < |s[1..]| ensures !OpensAt(s[1..] + tail, name, k) {
        assert !OpensAt(s + tail, name, k + 1);
      }
      NothingWhole(s[1..], tail, name);
    }
  }

  lemma GapPassed(gap: string, rest: string, name: Name)
    requires rest != "" && rest[0] == '<' && forall k :: 0 <= k < |gap| ==> !OpensAt(gap, name, k)
    ensures Wholes(gap + rest, name) == Wholes(rest, name)
  {
    GapOpensNothing(gap, rest, name);
    NothingWhole(gap, rest, name);
  }

  /** A paragraph with this tag that is closed at its end is matched as a whole, whatever follows. */
  lemma WholeMatched(tag: string, inner: string, tail: string)
    requires |tag| > 4 && tag[|tag| - 1] == '>' && OpensAt(tag, 'p', 0)
    requires forall k :: 4 <= k < |tag| - 1 ==> tag[k] != '>'
    requires ClosesLast(inner)
    ensures Wholes((tag + inner) + tail, 'p') == [tag + inner] + Wholes(tail, 'p')
  {
    var s := (tag + inner) + tail;
    assert s == tag + (inner + tail);
    OpensSame(tag, s, 'p', 0);
    GtFound(tag, inner + tail);
    assert s[|tag|..|tag| + |inner|] == inner;
    var close := |tag| + |inner| - 6;
    forall k | |tag| <= k <= close
      ensures OccursAt(s, CloseTag('p'), k) <==> OccursAt(inner, CloseTag('p'), k - |tag|)
    {
      OccursWithin(s, CloseTag('p'), k, inner, |tag|);
    }
    IndexOfUnique(s, CloseTag('p'), |tag|, close);
    assert MatchAt(s, 'p', 0) == Some(Element(0, |tag|, close, close + 6));
    assert s[..close + 6] == tag + inner && s[close + 6..] == tail;
  }

  // ------------------------------------------------------- an edited paragraph

  /** A paragraph of the document: its tag, and the rest, which closes it at its end. */
  lemma PieceParts(xml: string, p: Element)
    requires MatchAt(xml, 'p', p.start) == Some(p)
    ensures
      && p.start + 4 < p.open && p.open + 6 <= p.end <= |xml|
      && var tag, piece := xml[p.start..p.open], xml[p.start..p.end];
         && |tag| > 4 && tag[|tag| - 1] == '>' && OpensAt(tag, 'p', 0) && tag <= piece
         && (forall k :: 4 <= k < |tag| - 1 ==> tag[k] != '>')
         && ClosesLast(piece[|tag|..])
  {
    hide MatchAt, ClosesLast, OpensAt, CloseTag;
    OpeningTag(xml, 'p', p.start);
    InnerCloses(xml, p);
    assert xml[p.start..p.end][p.open - p.start..] == xml[p.open..p.end];
  }

  lemma InnerCloses(xml: string, p: Element)
    requires MatchAt(xml, 'p', p.start) == Some(p)
    ensures ClosesLast(xml[p.open..p.end])
  {
    IndexOfFirst(xml, CloseTag('p'), p.open);
    hide OccursAt, CloseTag;
    var inner := xml[p.open..p.end];
    assert inner[0..] == inner;
    hide OpensAt;
    forall k | 0 <= k <= |inner| - 6 ensures OccursAt(inner, CloseTag('p'), k) <==> OccursAt(xml, CloseTag('p'), p.open + k) {
      OccursWithin(xml, CloseTag('p'), p.open + k, inner, p.open);
    }
  }

  /** The tag of a paragraph is the first `n` characters. */
  predicate TagOf(text: string, n: nat)
  {
    4 < n <= |text| && text[n - 1] == '>' && OpensAt(text[..n], 'p', 0) && forall k :: 4 <= k < n - 1 ==> text[k] != '>'
  }

  /** The text is one paragraph: it begins with the tag of one, and is closed at its end and nowhere before. */
  ghost predicate Whole(text: string)
  {
    exists n: nat :: TagOf(text, n) && ClosesLast(text[n..])
  }

  lemma MatchedIsWhole(xml: string, p: Element)
    requires MatchAt(xml, 'p', p.start) == Some(p)
    ensures p.start + 4 < p.open && p.open + 6 <= p.end <= |xml| && Whole(xml[p.start..p.end])
    ensures TagOf(xml[p.start..p.end], p.open - p.start)
  {
    hide ClosesLast, MatchAt, OpensAt;
    PieceParts(xml, p);
    var piece, n := xml[p.start..p.end], p.open - p.start;
    assert piece[..n] == xml[p.start..p.open];
    assert TagOf(piece, n) && ClosesLast(piece[n..]);
  }

  /** A text element that begins inside the tag of the paragraph ends its own tag with it. */
  lemma TagInsideTag(piece: string, n: nat, e: Element)
    requires TagOf(piece, n) && MatchAt(piece, 't', e.start) == Some(e) && e.start < n
    ensures 5 <= e.start && e.open == n
  {
    OpeningTag(piece, 't', e.start);
    var tag := piece[e.start..e.open];
    assert forall k :: 0 <= k < |tag| ==> tag[k] == piece[e.start + k];
    assert forall k :: 0 <= k < 5 ==> piece[..n][k] == piece[k];
    assert piece[0] == '<' && piece[1] == 'w' && piece[2] == ':' && piece[3] == 'p' && piece[4] != '<';
    assert tag[0] == '<' && tag[3] == 't';
    assert e.start >= 5;
    assert piece[n - 1] == '>' && piece[e.open - 1] == '>';
    assert forall k :: e.start + 4 <= k < e.open - 1 ==> piece[k] == tag[k - e.start] && tag[k - e.start] != '>';
  }

  /** The paragraph's tag, when the first text element begins inside it: still one tag after the write. */
  lemma TagWrittenInside(piece: string, n: nat, e: Element, value: string, rest: string)
    requires TagOf(piece, n) && MatchAt(piece, 't', e.start) == Some(e) && e.start < n
    requires Tame(piece, e)
    ensures
      var tag := TagAfter(piece, e, value);
      TagOf(piece[..e.start] + (tag + rest), e.start + |tag|)
  {
    hide ClosesLast, MatchAt, EscapeXml, TagAfter, TagOf, Unambiguous, Tame, WellFormedTag;
    TagInsideTag(piece, n, e);
    TagStaysWellFormed(piece, e, value);
    if Unambiguous(piece, e) {
      TagCases(piece, e, value);
      TagAsItWas(piece, n, e.start, rest);
    } else {
      TagBegins(piece, n, e.start);
      TagJoined(piece[..e.start], TagAfter(piece, e, value), rest);
    }
  }

  lemma TagAsItWas(piece: string, n: nat, i: nat, rest: string)
    requires TagOf(piece, n) && i <= n
    ensures TagOf(piece[..i] + (piece[i..n] + rest), n)
  {
    var out := piece[..i] + (piece[i..n] + rest);
    assert piece[..n] == piece[..i] + piece[i..n];
    hide TagOf;
    AppendAssoc(piece[..i], piece[i..n], rest);
    assert out[..n] == piece[..n];
    TagKeptInFront(piece, out, n);
  }

  /** What a tag begins with, before another one begins inside it. */
  lemma TagBegins(piece: string, n: nat, i: nat)
    requires TagOf(piece, n) && 5 <= i < n
    ensures OpensAt(piece[..i], 'p', 0) && forall k :: 4 <= k < i ==> piece[..i][k] != '>'
  {
    OpensSame(piece[..n], piece[..i], 'p', 0);
  }

  lemma TagJoined(a: string, tag: string, rest: string)
    requires |a| >= 5 && OpensAt(a, 'p', 0) && (forall k :: 4 <= k < |a| ==> a[k] != '>') && WellFormedTag(tag)
    ensures TagOf(a + (tag + rest), |a| + |tag|)
  {
    var out, m := a + (tag + rest), |a| + |tag|;
    assert forall k :: 0 <= k < m ==> out[k] == if k < |a| then a[k] else tag[k - |a|];
    assert forall k :: 0 <= k < 5 ==> a[k] == out[..m][k];
    OpensSame(a, out[..m], 'p', 0);
  }

  /** The written paragraph is one paragraph again, unless one of its tags has become the tag that closes it. */
  lemma WrittenIsWhole(piece: string, n: nat, values: seq<string>)
    requires |values| == |TextElements(piece)| && AllTame(piece, TextElements(piece), 0)
    requires EmptyStaysEmpty(piece, TextElements(piece), values, 0) && NoTagCloses(piece, 0, values)
    requires TagOf(piece, n) && ClosesLast(piece[n..])
    ensures Whole(WrittenBack(piece, values))
  {
    hide ClosesLast, MatchAt, EscapeXml, TagAfter, BodyAfter, Tame, CloseTag, Patch, TagOf;
    var es := TextElements(piece);
    if es == [] {
      PatchNone(piece, 0);
      assert piece[0..] == piece;
    } else {
      var e := es[0];
      ElementsStep(piece, 't', 0);
      ElementsInOrder(piece, 't', e.end);
      ElementParts(piece, e);
      FirstBehindTag(piece, n, e);
      ElementEndsBefore(piece, n, e);
      SuffixCloses(piece, n, e.end);
      WrittenCloses(piece, e.end, values[1..]);
      WrittenElement(piece, es, values, 0);
      var tail := Patch(piece, WriteRegions(piece, es[1..], e.end), EscapeAll(values[1..]), e.end);
      assert piece[0..e.start] == piece[..e.start];
      FirstIsWhole(piece, n, e, values[0], tail);
    }
  }

  /** Texts are never found before the paragraph's own tag has ended. */
  lemma FirstBehindTag(piece: string, n: nat, e: Element)
    requires TagOf(piece, n) && MatchAt(piece, 't', e.start) == Some(e)
    ensures n <= e.open
  {
    hide MatchAt;
    if e.start < n { TagInsideTag(piece, n, e); } else { ElementParts(piece, e); }
  }

  lemma FirstIsWhole(piece: string, n: nat, e: Element, value: string, tail: string)
    requires MatchAt(piece, 't', e.start) == Some(e) && Tame(piece, e) && TagAfter(piece, e, value) != CloseTag('p')
    requires TagOf(piece, n) && n <= e.open && e.end <= |piece| - 6 && ClosesLast(piece[n..]) && ClosesLast(tail)
    ensures Whole(piece[..e.start] + (TagAfter(piece, e, value) + (BodyAfter(piece, e, value) + (CloseTag('t') + tail))))
  {
    hide ClosesLast, MatchAt, EscapeXml, TagAfter, BodyAfter, Tame, CloseTag, TagOf;
    var tag, body := TagAfter(piece, e, value), BodyAfter(piece, e, value);
    var rest := tag + (body + (CloseTag('t') + tail));
    var out := piece[..e.start] + rest;
    if e.start < n {
      TagWrittenInside(piece, n, e, value, body + (CloseTag('t') + tail));
      TagStaysWellFormed(piece, e, value);
      ClosesBehindText(tail);
      NoCloseInNothing();
      ClosesBehindTag("", body, CloseTag('t') + tail);
      assert "" + (body + (CloseTag('t') + tail)) == body + (CloseTag('t') + tail);
      assert out[e.start + |tag|..] == body + (CloseTag('t') + tail);
    } else {
      WrittenFirst(piece, e, value, tail, n);
      assert piece[..e.start] == piece[..n] + piece[n..e.start];
      AppendAssoc(piece[..n], piece[n..e.start], rest);
      assert out[n..] == piece[n..e.start] + rest;
      TagKeptInFront(piece, out, n);
    }
  }

  lemma NoCloseInNothing()
    ensures forall k :: 0 <= k < |""| ==> !OccursAt("", CloseTag('p'), k)
  {
  }

  lemma TagKeptInFront(piece: string, out: string, n: nat)
    requires TagOf(piece, n) && n <= |out| && out[..n] == piece[..n]
    ensures TagOf(out, n)
  {
    assert forall k :: 0 <= k < n ==> out[k] == out[..n][k] == piece[..n][k] == piece[k];
  }

  /** It may: the run `w:t` in `<w:t>` given the text `/w:p`. The paragraph then ends where the run began. */
  lemma TagCanClose()
    ensures
      var xml, e := OneRun("w:t"), Element(0, 5, 8, 14);
      && TextElements(xml) == [e] && MatchAt(xml, 't', 0) == Some(e) && Tame(xml, e)
      && TagAfter(xml, e, "/w:p") == CloseTag('p')
  {
    hide OneRun, Unambiguous, Plain, TextStart, MatchAt, EscapeXml, Elements, TagAfter, BodyAfter;
    OneRunRead("w:t");
    FoundInName("w:t");
    TagCases(OneRun("w:t"), Element(0, 5, 8, 14), "/w:p");
    SlashKept();
    NameOver();
  }

  lemma NameOver()
    ensures "<w:t>"[..1] + "/w:p" + "<w:t>"[4..] == CloseTag('p')
  {
  }

  lemma PlainChar(c: char)
    requires c != '&' && c != '<' && c != '>' && c != '"' && c != '\''
    ensures EscapeChar(c) == [c]
  {
  }

  lemma SlashKept()
    ensures EscapeXml("/w:p") == "/w:p"
  {
    hide EscapeXml, EscapeChar;
    var p := "/w:p";
    forall k | 0 <= k < |p| ensures EscapeChar(p[k]) == [p[k]] {
      PlainChar(p[k]);
    }
    OrdinaryKept(p);
  }

  /** If no run that changes is written over its tag, every tag still opens a text element. */
  lemma {:induction false} SplicedTags(piece: string, from: nat, runs: seq<string>, values: seq<string>)
    requires from <= |piece| && |values| == |Elements(piece, 't', from)| && InOrder(Elements(piece, 't', from), from, |piece|)
    requires AllTame(piece, Elements(piece, 't', from), from)
    requires UnescapeAll(BodiesAt(piece, Elements(piece, 't', from), from)) == Some(runs)
    requires Spliceable(piece, Elements(piece, 't', from), runs, values, from)
    ensures NoTagCloses(piece, from, values)
    decreases |piece| - from
  {
    hide MatchAt, EscapeXml, UnescapeXml, OpensAt, TagAfter, BodyAfter, Tame, Unambiguous, CloseTag;
    var es := Elements(piece, 't', from);
    if es != [] {
      var e := es[0];
      ElementsStep(piece, 't', from);
      ElementsInOrder(piece, 't', e.end);
      var bodies := BodiesAt(piece, es, from);
      assert bodies == [BodyAt(piece, e)] + BodiesAt(piece, es[1..], e.end);
      UnescapeCons(BodyAt(piece, e), BodiesAt(piece, es[1..], e.end));
      assert runs[0] == UnescapeXml(BodyAt(piece, e)).value;
      FirstExactly(piece, e, runs[0], values[0]);
      OpeningIsNotClosing(TagAfter(piece, e, values[0]));
      SplicedTags(piece, e.end, runs[1..], values[1..]);
    }
  }

  lemma OpeningIsNotClosing(tag: string)
    requires OpensAt(tag, 't', 0)
    ensures tag != CloseTag('p')
  {
  }

  /** An edit that is read back as edited leaves one paragraph. */
  lemma EditIsWhole(piece: string, find: string, repl: string, all: bool)
    requires |find| > 0 && RunTexts(piece).Some? && Whole(piece)
    requires EditTame(piece, ParagraphEdited(piece, find, repl, all).value)
    requires EditSplices(piece, ParagraphEdited(piece, find, repl, all).value, find, repl, all)
    ensures Whole(ParagraphEdited(piece, find, repl, all).value.xml)
  {
    hide ClosesLast, OpensAt, EditedRun, Count, Starts, AllTame, Spliceable;
    var runs := RunTexts(piece).value;
    if Count(Flatten(runs), find, all) > 0 {
      var values := EditedRuns(runs, find, repl, all);
      RunsMatchElements(piece);
      forall j | 0 <= j < |runs| && runs[j] == "" ensures values[j] == "" {
        EmptyEditedRun(runs, Starts(Flatten(runs), find, all), |find|, repl, j);
      }
      EmptyRunsStayEmpty(piece, TextElements(piece), 0, runs, values);
      SplicedTags(piece, 0, runs, values);
      var n: nat :| TagOf(piece, n) && ClosesLast(piece[n..]);
      WrittenIsWhole(piece, n, values);
    }
  }

  // -------------------------------------------------------------- the document

  ghost predicate AllWhole(texts: seq<string>)
  {
    forall i :: 0 <= i < |texts| ==> Whole(texts[i])
  }

  lemma {:induction false} DocumentReread(xml: string, from: nat, texts: seq<string>)
    requires from <= |xml| && |texts| == |Elements(xml, 'p', from)| && InOrder(Elements(xml, 'p', from), from, |xml|)
    requires AllWhole(texts)
    ensures Wholes(Patch(xml, Regions(Elements(xml, 'p', from), from, |xml|), texts, from), 'p') == texts
    decreases |xml| - from
  {
    hide MatchAt, Wholes, Whole;
    var ps := Elements(xml, 'p', from);
    if ps == [] {
      PiecesAreWholes(xml, from);
    } else {
      var p := ps[0];
      ElementsStep(xml, 'p', from);
      ElementsInOrder(xml, 'p', p.end);
      DocumentReread(xml, p.end, texts[1..]);
      var tail := Patch(xml, Regions(ps[1..], p.end, |xml|), texts[1..], p.end);
      assert Regions(ps, from, |xml|)[1..] == Regions(ps[1..], p.end, |xml|);
      ParagraphReread(xml, p.start, texts[0], tail, from);
      assert [texts[0]] + texts[1..] == texts;
    }
  }

  lemma ParagraphReread(xml: string, start: nat, text: string, tail: string, from: nat)
    requires from <= start <= |xml| && Whole(text) && forall k :: from <= k < start ==> !OpensAt(xml, 'p', k)
    ensures Wholes(xml[from..start] + (text + tail), 'p') == [text] + Wholes(tail, 'p')
  {
    hide MatchAt, Wholes, ClosesLast;
    var n: nat :| TagOf(text, n) && ClosesLast(text[n..]);
    var tag, gap := text[..n], xml[from..start];
    assert text == tag + text[n..];
    assert tag[|tag| - 1] == '>' && tag[0] == '<';
    WholeMatched(tag, text[n..], tail);
    forall k | 0 <= k < |gap| ensures !OpensAt(gap, 'p', k) {
      assert !OpensAt(xml, 'p', from + k);
    }
    assert (text + tail)[0] == '<';
    GapPassed(gap, text + tail, 'p');
  }

  /** Every paragraph of a document is one paragraph. */
  lemma {:induction false} PiecesWhole(xml: string, from: nat)
    requires from <= |xml| && InOrder(Elements(xml, 'p', from), from, |xml|)
    ensures AllWhole(Pieces(xml, Elements(xml, 'p', from), from))
    decreases |xml| - from
  {
    hide MatchAt, Whole;
    var ps := Elements(xml, 'p', from);
    if ps != [] {
      ElementsStep(xml, 'p', from);
      ElementsInOrder(xml, 'p', ps[0].end);
      MatchedIsWhole(xml, ps[0]);
      PiecesWhole(xml, ps[0].end);
      var pieces, rest := Pieces(xml, ps, from), Pieces(xml, ps[1..], ps[0].end);
      assert pieces == [xml[ps[0].start..ps[0].end]] + rest;
      assert forall i :: 0 < i < |pieces| ==> pieces[i] == rest[i - 1];
    }
  }

  lemma EditsWhole(pieces: seq<string>, find: string, repl: string, all: bool)
    requires |find| > 0 && Readable(pieces) && AllWhole(pieces)
    requires AllEditsTame(pieces, find, repl, all) && AllSplice(pieces, find, repl, all)
    ensures AllWhole(Xmls(Edits(pieces, find, repl, all)))
  {
    hide RunTexts, Edits, EditTame, EditSplices, Whole, ParagraphEdited;
    ReadableAll(pieces);
    var edits := Edits(pieces, find, repl, all);
    forall i | 0 <= i < |edits| ensures Whole(edits[i].xml) {
      EditAt(pieces, find, repl, all, i);
      if edits[i].replacements > 0 { EditIsWhole(pieces[i], find, repl, all); }
    }
  }

  /**
   * The whole of `replaceDocxText`, read back. The edited document is made of
   * the edited paragraphs, each with the runs the edit gives it, if and only if
   * in no edited paragraph a run that changes is written over its own tag. Its
   * texts are then the plain replacement of the texts there were, in all
   * paragraphs or in the first with a match. The count is exact in any case.
   * Of the paragraphs in which nothing is replaced nothing is asked.
   */
  lemma DocumentRefinesReplace(xml: string, find: string, repl: string, all: bool)
    requires DocumentEdited(xml, find, repl, all).Ok?
    ensures
      var before := Pieces(xml, Paragraphs(xml), 0);
      var edited := DocumentEdited(xml, find, repl, all).value;
      var after := Pieces(edited.xml, Paragraphs(edited.xml), 0);
      && Readable(before) && edited.replacements == CountInTexts(Texts(before), find, all) > 0
      && (AllEditsTame(before, find, repl, all) ==>
            ((after == Xmls(Edits(before, find, repl, all)) && ReadAsEdited(before, find, repl, all, after))
             <==> AllSplice(before, find, repl, all)))
      && (ReadAsEdited(before, find, repl, all, after) ==>
            Readable(after) && Texts(after) == ReplaceInTexts(Texts(before), find, repl, all))
  {
    hide Edits, Texts, ReplaceInTexts, CountInTexts, AllSplice, AllEditsTame, ReadAsEdited, Readable, AllWhole;
    var before := Pieces(xml, Paragraphs(xml), 0);
    EditsCount(before, find, repl, all);
    var out := DocumentEdited(xml, find, repl, all).value.xml;
    var after := Pieces(out, Paragraphs(out), 0);
    if AllEditsTame(before, find, repl, all) {
      EditsExactly(before, find, repl, all);
      if AllSplice(before, find, repl, all) {
        PiecesWhole(xml, 0);
        EditsWhole(before, find, repl, all);
        DocumentReread(xml, 0, Xmls(Edits(before, find, repl, all)));
        PiecesAreWholes(out, 0);
        assert out[0..] == out;
      }
    }
    if ReadAsEdited(before, find, repl, all, after) { EditsRefineReplace(before, find, repl, all, after); }
  }
}
