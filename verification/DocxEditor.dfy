/** The editing code of the Word support: the loops and assignments, proved against `DocxReplace`. */
module DocxEditor {
  import opened Common
  import opened TextSearch
  import opened XmlText
  import opened XmlElements
  import opened RunReplacement
  import opened DocxReplace

  // ----------------------------------------------------- reading elements

  method MatchHere(s: string, name: Name, i: nat) returns (m: Option<Element>)
    ensures m == MatchAt(s, name, i)
  {
    if !OpensAt(s, name, i) { return None; }
    var gt := FindIndex(s, ">", i + 4);
    if gt < 0 { return None; }
    var close := FindIndex(s, CloseTag(name), gt + 1);
    if close < 0 { return None; }
    m := Some(Element(i, gt + 1, close, close + 6));
  }

  /** `[...s.matchAll(pattern)]`. */
  method FindElements(s: string, name: Name) returns (es: seq<Element>)
    ensures es == Elements(s, name, 0)
  {
    es := [];
    var from := 0;
    ghost var rest := Elements(s, name, 0);
    while from < |s|
      invariant rest == Elements(s, name, from)
      invariant es + rest == Elements(s, name, 0)
      decreases |s| - from
    {
      var m := MatchHere(s, name, from);
      if m.Some? {
        rest := Elements(s, name, m.value.end);
        AppendAssoc(es, [m.value], rest);
        es := es + [m.value];
        from := m.value.end;
      } else {
        from := from + 1;
      }
    }
  }

  lemma {:induction false} InOrderAt(es: seq<Element>, from: nat, n: nat, i: nat)
    requires InOrder(es, from, n) && i < |es|
    ensures from <= es[i].start <= es[i].open <= es[i].close <= es[i].end <= n
  {
    if i > 0 {
      InOrderAt(es[1..], es[0].end, n, i - 1);
    }
  }

  lemma {:induction false} BodiesIndex(xml: string, es: seq<Element>, from: nat, i: nat)
    requires InOrder(es, from, |xml|) && i < |es|
    ensures from <= es[i].start <= es[i].open <= es[i].close <= es[i].end <= |xml|
    ensures BodiesAt(xml, es, from)[i] == BodyAt(xml, es[i])
    ensures WriteRegions(xml, es, from)[i] == WriteRegion(xml, es[i])
  {
    if i > 0 {
      BodiesIndex(xml, es[1..], es[0].end, i - 1);
    }
  }

  lemma {:induction false} UnescapeAllPrefix(raws: seq<string>, i: nat)
    requires i < |raws|
    ensures UnescapeAll(raws[..i + 1])
         == (if UnescapeAll(raws[..i]).None? || UnescapeXml(raws[i]).None? then None
             else Some(UnescapeAll(raws[..i]).value + [UnescapeXml(raws[i]).value]))
  {
    assert raws[..i + 1][0] == raws[0];
    if i == 0 {
      assert raws[..1] == [raws[0]] && raws[..0] == [];
      UnescapeOne(raws[0]);
      if UnescapeXml(raws[0]).Some? {
        assert [] + [UnescapeXml(raws[0]).value] == [UnescapeXml(raws[0]).value];
      }
    } else {
      assert raws[..i + 1][1..] == raws[1..][..i] && raws[..i][1..] == raws[1..][..i - 1];
      assert raws[1..][i - 1] == raws[i];
      UnescapeAllPrefix(raws[1..], i - 1);
      if UnescapeAll(raws[..i]).Some? && UnescapeXml(raws[i]).Some? {
        AppendAssoc([UnescapeXml(raws[0]).value], UnescapeAll(raws[1..][..i - 1]).value, [UnescapeXml(raws[i]).value]);
      }
    }
  }

  lemma {:induction false} UnescapeAllStops(raws: seq<string>, i: nat)
    requires i < |raws| && UnescapeXml(raws[i]).None?
    ensures UnescapeAll(raws).None?
  {
    if i > 0 {
      UnescapeAllStops(raws[1..], i - 1);
    }
  }

  /** `textNodes`; `None` is the RangeError of a numeric reference out of range. */
  method ReadTextNodes(xml: string) returns (nodes: Option<seq<TextNode>>)
    ensures nodes.Some? <==> RunTexts(xml).Some?
    ensures nodes.Some? ==> |nodes.value| == |RunTexts(xml).value| == |TextElements(xml)|
    ensures nodes.Some? ==> forall i :: 0 <= i < |nodes.value| ==>
      && nodes.value[i].text == RunTexts(xml).value[i]
      && Region(nodes.value[i].textStart, nodes.value[i].textEnd) == WriteRegions(xml, TextElements(xml), 0)[i]
  {
    var es := FindElements(xml, 't');
    RunsMatchElements(xml);
    ghost var raws := BodiesAt(xml, es, 0);
    var found: seq<TextNode> := [];
    assert raws[..0] == [];
    for i := 0 to |es|
      invariant |found| == i
      invariant UnescapeAll(raws[..i]).Some?
      invariant forall k :: 0 <= k < i ==>
        && found[k].text == UnescapeAll(raws[..i]).value[k]
        && Region(found[k].textStart, found[k].textEnd) == WriteRegions(xml, es, 0)[k]
    {
      BodiesIndex(xml, es, 0, i);
      TextStartInside(xml, es[i]);
      UnescapeAllPrefix(raws, i);
      var raw := xml[es[i].open..es[i].close];
      var rawOffset := FindIndex(xml[es[i].start..es[i].end], raw, 0);
      var text := UnescapeXml(raw);
      if text.None? {
        UnescapeAllStops(raws, i);
        return None;
      }
      found := found + [TextNode(es[i].start + rawOffset, es[i].start + rawOffset + |raw|, text.value)];
    }
    assert raws[..|es|] == raws;
    nodes := Some(found);
  }

  // --------------------------------------------------- writing runs back

  lemma {:induction false} EscapeAllIndex(values: seq<string>, i: nat)
    requires i < |values|
    ensures EscapeAll(values)[i] == EscapeXml(values[i])
  {
    if i > 0 {
      EscapeAllIndex(values[1..], i - 1);
    }
  }

  /** The text after the regions from `k` on have been written: everything before them is untouched. */
  ghost predicate WrittenFrom(s: string, regions: seq<Region>, texts: seq<string>, k: nat, now: string)
    requires |regions| == |texts| && k <= |regions| && Sorted(regions, 0, |s|)
  {
    var at := if k == 0 then 0 else regions[k - 1].hi;
    SortedDrop(regions, 0, |s|, k);
    now == s[..at] + Patch(s, regions[k..], texts[k..], at)
  }

  lemma WriteOne(s: string, regions: seq<Region>, texts: seq<string>, k: nat, now: string)
    requires |regions| == |texts| && 0 < k <= |regions| && Sorted(regions, 0, |s|)
    requires WrittenFrom(s, regions, texts, k, now)
    ensures regions[k - 1].lo <= regions[k - 1].hi <= |now|
    ensures WrittenFrom(s, regions, texts, k - 1,
                        now[..regions[k - 1].lo] + texts[k - 1] + now[regions[k - 1].hi..])
  {
    SortedDrop(regions, 0, |s|, k);
    SortedDrop(regions, 0, |s|, k - 1);
    var at := if k == 1 then 0 else regions[k - 2].hi;
    assert regions[k - 1..][0] == regions[k - 1] && regions[k - 1..][1..] == regions[k..];
    assert texts[k - 1..][0] == texts[k - 1] && texts[k - 1..][1..] == texts[k..];
    PatchStep(s, regions[k - 1..], texts[k - 1..], at, now);
  }

  lemma NothingWritten(s: string, regions: seq<Region>, texts: seq<string>)
    requires |regions| == |texts| && Sorted(regions, 0, |s|)
    ensures WrittenFrom(s, regions, texts, |regions|, s)
  {
    SortedDrop(regions, 0, |s|, |regions|);
    var at := if |regions| == 0 then 0 else regions[|regions| - 1].hi;
    assert s == s[..at] + s[at..];
  }

  lemma AllWrittenIsPatch(s: string, regions: seq<Region>, texts: seq<string>, now: string)
    requires |regions| == |texts| && Sorted(regions, 0, |s|)
    requires WrittenFrom(s, regions, texts, 0, now)
    ensures now == Patch(s, regions, texts, 0)
  {
    assert regions[0..] == regions && texts[0..] == texts && s[..0] == "";
  }

  /** `replaceInsideParagraph` on a paragraph that has not been skipped. */
  method ReplaceInsideParagraph(paragraph: string, find: string, repl: string, all: bool, alreadyReplaced: bool)
    returns (r: Option<ParagraphEdit>)
    requires |find| > 0
    ensures r == if alreadyReplaced && !all then Some(ParagraphEdit(paragraph, 0))
                 else ParagraphEdited(paragraph, find, repl, all)
  {
    hide RunTexts, EditedRun, Starts, Count, WriteRegions, TextElements;
    if alreadyReplaced && !all { return Some(ParagraphEdit(paragraph, 0)); }
    var read := ReadTextNodes(paragraph);
    RunsMatchElements(paragraph);
    if read.None? { return None; }
    var nodes := read.value;
    var runs := seq(|nodes|, i requires 0 <= i < |nodes| => nodes[i].text);
    assert runs == RunTexts(paragraph).value;
    var values, count := ReplaceRuns(runs, find, repl, all);
    if count == 0 { return Some(ParagraphEdit(paragraph, 0)); }
    assert values == EditedRuns(runs, find, repl, all);
    var xml := WriteBack(paragraph, nodes, values);
    r := Some(ParagraphEdit(xml, count));
  }

  /** The last loop of `replaceInsideParagraph`: the runs are written from the last to the first. */
  method WriteBack(paragraph: string, nodes: seq<TextNode>, values: seq<string>) returns (xml: string)
    requires |nodes| == |values| == |TextElements(paragraph)|
    requires forall i :: 0 <= i < |nodes| ==>
      Region(nodes[i].textStart, nodes[i].textEnd) == WriteRegions(paragraph, TextElements(paragraph), 0)[i]
    ensures xml == WrittenBack(paragraph, values)
  {
    hide WrittenFrom, EscapeAll, WriteRegions, Patch, EscapeXml;
    ghost var regions := WriteRegions(paragraph, TextElements(paragraph), 0);
    ghost var texts := EscapeAll(values);
    xml := paragraph;
    NothingWritten(paragraph, regions, texts);
    var index := |nodes|;
    while index > 0
      invariant 0 <= index <= |nodes| && WrittenFrom(paragraph, regions, texts, index, xml)
    {
      WriteOne(paragraph, regions, texts, index, xml);
      index := index - 1;
      EscapeAllIndex(values, index);
      assert Region(nodes[index].textStart, nodes[index].textEnd) == regions[index];
      xml := xml[..nodes[index].textStart] + EscapeXml(values[index]) + xml[nodes[index].textEnd..];
    }
    AllWrittenIsPatch(paragraph, regions, texts, xml);
  }
}
