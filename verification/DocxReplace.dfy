/** Find/replace in `word/document.xml`: the run texts of a paragraph, and the paragraphs of a document. */
module DocxReplace {
  import opened Common
  import opened TextSearch
  import opened XmlText
  import opened XmlElements
  import opened RunReplacement

  datatype Error = FindEmpty | TextNotFound | RangeError

  /** A text run with the offsets its text is read from and written back to. */
  datatype TextNode = TextNode(textStart: nat, textEnd: nat, text: string)

  // ---------------------------------------------------------------- patches

  datatype Region = Region(lo: nat, hi: nat)

  predicate Sorted(regions: seq<Region>, from: nat, n: nat)
  {
    regions == [] || (from <= regions[0].lo <= regions[0].hi <= n && Sorted(regions[1..], regions[0].hi, n))
  }

  /** `s` from `from` on, with each region replaced: the left-to-right reading. */
  function Patch(s: string, regions: seq<Region>, texts: seq<string>, from: nat): string
    requires |regions| == |texts| && from <= |s| && Sorted(regions, from, |s|)
  {
    if regions == [] then s[from..]
    else s[from..regions[0].lo] + (texts[0] + Patch(s, regions[1..], texts[1..], regions[0].hi))
  }

  lemma {:induction false} SortedDrop(regions: seq<Region>, from: nat, n: nat, k: nat)
    requires Sorted(regions, from, n) && k <= |regions| && from <= n
    ensures
      var at := if k == 0 then from else regions[k - 1].hi;
      from <= at <= n && Sorted(regions[k..], at, n)
  {
    if k > 0 {
      SortedDrop(regions[1..], regions[0].hi, n, k - 1);
      assert regions[1..][k - 1..] == regions[k..];
    }
  }

  /**
   * Writing the regions from right to left, as the code does, is the
   * left-to-right patch: the text before the last region written is untouched.
   */
  lemma PatchStep(s: string, regions: seq<Region>, texts: seq<string>, at: nat, now: string)
    requires regions != [] && |regions| == |texts| && at <= |s| && Sorted(regions, at, |s|)
    requires now == s[..regions[0].hi] + Patch(s, regions[1..], texts[1..], regions[0].hi)
    ensures regions[0].hi <= |now|
    ensures now[..regions[0].lo] + texts[0] + now[regions[0].hi..] == s[..at] + Patch(s, regions, texts, at)
  {
    PatchPieces(s, regions[0], texts[0], Patch(s, regions[1..], texts[1..], regions[0].hi), at, now);
  }

  lemma PatchPieces(s: string, r: Region, text: string, tail: string, at: nat, now: string)
    requires at <= r.lo <= r.hi <= |s| && now == s[..r.hi] + tail
    ensures now[..r.lo] + text + now[r.hi..] == s[..at] + (s[at..r.lo] + (text + tail))
  {
    assert now[r.hi..] == tail;
    assert now[..r.lo] == s[..at] + s[at..r.lo];
    AppendAssoc(s[..at] + s[at..r.lo], text, tail);
    AppendAssoc(s[..at], s[at..r.lo], text + tail);
  }

  // --------------------------------------------------------------- text runs

  /** The texts of the elements, or `None` when a reference is out of range. */
  function UnescapeAll(raws: seq<string>): (r: Option<seq<string>>)
    ensures r.Some? ==> |r.value| == |raws|
  {
    if raws == [] then Some([])
    else
      var first, rest := UnescapeXml(raws[0]), UnescapeAll(raws[1..]);
      if first.None? || rest.None? then None else Some([first.value] + rest.value)
  }

  /** The run texts of a paragraph. */
  ghost function RunTexts(xml: string): Option<seq<string>>
  {
    UnescapeAll(Bodies(xml, 't'))
  }

  ghost function TextElements(xml: string): (es: seq<Element>)
    ensures InOrder(es, 0, |xml|)
  {
    ElementsInOrder(xml, 't', 0);
    Elements(xml, 't', 0)
  }

  /** Where the code believes an element's text starts: the first place its raw body occurs in the element. */
  ghost function TextStart(xml: string, e: Element): int
    requires e.start <= e.open <= e.close <= e.end <= |xml|
  {
    e.start + IndexOf(xml[e.start..e.end], BodyAt(xml, e), 0)
  }

  /** The raw body does not occur earlier in its own element (an empty body is never rewritten). */
  ghost predicate Unambiguous(xml: string, e: Element)
    requires e.start <= e.open <= e.close <= e.end <= |xml|
  {
    e.open == e.close || TextStart(xml, e) == e.open
  }

  ghost predicate AllUnambiguous(xml: string, es: seq<Element>, from: nat)
    requires InOrder(es, from, |xml|)
  {
    es == [] || (Unambiguous(xml, es[0]) && AllUnambiguous(xml, es[1..], es[0].end))
  }

  /** The raw body does occur in its element, so the offset is inside it. */
  lemma TextStartInside(xml: string, e: Element)
    requires e.start <= e.open <= e.close <= e.end <= |xml|
    ensures e.start <= TextStart(xml, e) <= e.open
    ensures TextStart(xml, e) + (e.close - e.open) <= e.close
    ensures e.open == e.close ==> TextStart(xml, e) == e.start
  {
    var t, raw := xml[e.start..e.end], BodyAt(xml, e);
    assert OccursAt(t, raw, e.open - e.start);
    IndexOfFirst(t, raw, 0);
    if e.open == e.close {
      assert OccursAt(t, raw, 0);
    }
  }

  ghost function WriteRegion(xml: string, e: Element): Region
    requires e.start <= e.open <= e.close <= e.end <= |xml|
  {
    TextStartInside(xml, e);
    Region(TextStart(xml, e), TextStart(xml, e) + (e.close - e.open))
  }

  ghost function WriteRegions(xml: string, es: seq<Element>, from: nat): (regions: seq<Region>)
    requires InOrder(es, from, |xml|)
    ensures |regions| == |es| && Sorted(regions, from, |xml|)
  {
    if es == [] then []
    else
      var rest := WriteRegions(xml, es[1..], es[0].end);
      TextStartInside(xml, es[0]);
      SortedWeaken(rest, es[0].end, WriteRegion(xml, es[0]).hi, |xml|);
      assert ([WriteRegion(xml, es[0])] + rest)[1..] == rest;
      [WriteRegion(xml, es[0])] + rest
  }

  lemma SortedWeaken(regions: seq<Region>, from: nat, from': nat, n: nat)
    requires Sorted(regions, from, n) && from' <= from
    ensures Sorted(regions, from', n)
  {
  }

  function EscapeAll(values: seq<string>): (r: seq<string>)
    ensures |r| == |values|
  {
    if values == [] then [] else [EscapeXml(values[0])] + EscapeAll(values[1..])
  }

  /** The paragraph after its runs have been given new texts. */
  ghost function WrittenBack(xml: string, values: seq<string>): string
    requires |values| == |TextElements(xml)|
  {
    Patch(xml, WriteRegions(xml, TextElements(xml), 0), EscapeAll(values), 0)
  }

  // ------------------------------------------- the written text reads back

  /** An empty run keeps its empty text. */
  ghost predicate EmptyStaysEmpty(xml: string, es: seq<Element>, values: seq<string>, from: nat)
    requires InOrder(es, from, |xml|) && |values| == |es|
  {
    es == [] || ((es[0].open == es[0].close ==> values[0] == "")
                 && EmptyStaysEmpty(xml, es[1..], values[1..], es[0].end))
  }

  /** With unambiguous bodies the code writes exactly where the bodies are. */
  lemma {:induction false} PatchIsRebuild(xml: string, es: seq<Element>, values: seq<string>, from: nat, at: nat)
    requires InOrder(es, from, |xml|) && |values| == |es| && at <= from <= |xml|
    requires AllUnambiguous(xml, es, from) && EmptyStaysEmpty(xml, es, values, from)
    ensures Sorted(WriteRegions(xml, es, from), at, |xml|)
    ensures Patch(xml, WriteRegions(xml, es, from), EscapeAll(values), at)
         == xml[at..from] + Rebuild(xml, es, EscapeAll(values), from)
  {
    var regions := WriteRegions(xml, es, from);
    SortedWeaken(regions, from, at, |xml|);
    if es == [] {
      assert xml[at..] == xml[at..from] + xml[from..];
    } else {
      var e, r := es[0], regions[0];
      PatchIsRebuild(xml, es[1..], values[1..], e.end, r.hi);
      assert EscapeAll(values)[1..] == EscapeAll(values[1..]);
      assert regions[1..] == WriteRegions(xml, es[1..], e.end);
      var tail := Rebuild(xml, es[1..], EscapeAll(values[1..]), e.end);
      assert EscapeXml("") == "";
      TextStartInside(xml, e);
      PatchFirst(xml, e, r, EscapeXml(values[0]), tail, from, at);
    }
  }

  lemma PatchFirst(xml: string, e: Element, r: Region, text: string, tail: string, from: nat, at: nat)
    requires at <= from <= e.start <= e.open <= e.close <= e.end <= |xml|
    requires (e.open == e.close && text == "" && r == Region(e.start, e.start)) || r == Region(e.open, e.close)
    ensures xml[at..r.lo] + (text + (xml[r.hi..e.end] + tail))
         == xml[at..from] + (xml[from..e.open] + (text + (xml[e.close..e.end] + tail)))
  {
    assert xml[at..e.open] == xml[at..from] + xml[from..e.open];
    if r == Region(e.open, e.close) {
    } else {
      assert xml[at..e.end] == xml[at..e.start] + xml[e.start..e.end];
      assert xml[at..e.end] == xml[at..e.open] + xml[e.close..e.end];
    }
  }

  lemma {:induction false} UnescapeEscaped(values: seq<string>)
    ensures UnescapeAll(EscapeAll(values)) == Some(values)
  {
    if values != [] {
      EscapeRoundTrip(values[0]);
      UnescapeEscaped(values[1..]);
      assert EscapeAll(values)[1..] == EscapeAll(values[1..]);
      assert [values[0]] + values[1..] == values;
    }
  }

  lemma {:induction false} EscapedAllWithoutMarkup(values: seq<string>)
    ensures forall i :: 0 <= i < |values| ==> '<' !in EscapeAll(values)[i]
  {
    if values != [] {
      EscapedHasNoMarkup(values[0]);
      EscapedAllWithoutMarkup(values[1..]);
    }
  }

  /**
   * Reading the paragraph again after the write-back gives exactly the values
   * written, provided no run's raw text occurs earlier in its own element.
   */
  lemma WriteBackReread(xml: string, values: seq<string>)
    requires |values| == |TextElements(xml)|
    requires AllUnambiguous(xml, TextElements(xml), 0)
    requires EmptyStaysEmpty(xml, TextElements(xml), values, 0)
    ensures RunTexts(WrittenBack(xml, values)) == Some(values)
  {
    PatchIsRebuild(xml, TextElements(xml), values, 0, 0);
    var rebuilt := Rebuild(xml, TextElements(xml), EscapeAll(values), 0);
    assert xml[0..0] + rebuilt == rebuilt;
    EscapedAllWithoutMarkup(values);
    RebuildReread(xml, 't', EscapeAll(values), 0);
    UnescapeEscaped(values);
  }

  // ------------------------------------------------------- one paragraph

  datatype ParagraphEdit = ParagraphEdit(xml: string, replacements: nat)

  /** The values the runs end up with. */
  ghost function EditedRuns(runs: seq<string>, find: string, repl: string, all: bool): (values: seq<string>)
    requires |find| > 0
    ensures |values| == |runs|
  {
    seq(|runs|, j requires 0 <= j < |runs| =>
      EditedRun(runs, Starts(Flatten(runs), find, all), |find|, repl, j))
  }

  /** What `replaceInsideParagraph` returns; `None` is the RangeError of a reference out of range. */
  ghost function ParagraphEdited(xml: string, find: string, repl: string, all: bool): Option<ParagraphEdit>
    requires |find| > 0
  {
    var runs := RunTexts(xml);
    if runs.None? then None
    else
      RunsMatchElements(xml);
      var count := Count(Flatten(runs.value), find, all);
      Some(ParagraphEdit(if count == 0 then xml else WrittenBack(xml, EditedRuns(runs.value, find, repl, all)), count))
  }

  lemma RunsMatchElements(xml: string)
    ensures RunTexts(xml).Some? ==> |RunTexts(xml).value| == |TextElements(xml)|
    ensures Bodies(xml, 't') == BodiesAt(xml, TextElements(xml), 0)
  {
    ElementBodies(xml, 't', 0);
    assert xml[0..] == xml;
  }

  lemma {:induction false} EmptyRunsStayEmpty(xml: string, es: seq<Element>, from: nat, runs: seq<string>,
                                              values: seq<string>)
    requires InOrder(es, from, |xml|) && |values| == |runs| == |es|
    requires UnescapeAll(BodiesAt(xml, es, from)) == Some(runs)
    requires forall j :: 0 <= j < |runs| && runs[j] == "" ==> values[j] == ""
    ensures EmptyStaysEmpty(xml, es, values, from)
  {
    if es != [] {
      var bodies := BodiesAt(xml, es, from);
      assert bodies[1..] == BodiesAt(xml, es[1..], es[0].end);
      var first, rest := UnescapeXml(bodies[0]), UnescapeAll(bodies[1..]);
      assert runs == [first.value] + rest.value;
      forall j | 0 <= j < |runs[1..]| && runs[1..][j] == "" ensures values[1..][j] == "" {
        assert runs[j + 1] == "";
      }
      EmptyRunsStayEmpty(xml, es[1..], es[0].end, runs[1..], values[1..]);
    }
  }

  lemma EmptyEditedRun(runs: seq<string>, starts: seq<nat>, m: nat, repl: string, j: nat)
    requires j < |runs| && runs[j] == ""
    ensures EditedRun(runs, starts, m, repl, j) == ""
  {
    OffsetStep(runs, j);
    EditedNothing(Flatten(runs), starts, m, repl, Offset(runs, j));
  }

  /**
   * The whole of `replaceInsideParagraph`, read back: the runs of the edited
   * paragraph are the edited runs, so its text is the plain replacement of the
   * text it had, and the count is the number of matches in that text.
   */
  lemma ParagraphRefinesReplace(xml: string, find: string, repl: string, all: bool)
    requires |find| > 0 && RunTexts(xml).Some?
    requires AllUnambiguous(xml, TextElements(xml), 0)
    ensures
      var runs, edit := RunTexts(xml).value, ParagraphEdited(xml, find, repl, all).value;
      && RunTexts(edit.xml) == Some(EditedRuns(runs, find, repl, all))
      && Flatten(RunTexts(edit.xml).value) == Replace(Flatten(runs), find, repl, all)
      && edit.replacements == Count(Flatten(runs), find, all)
  {
    var runs := RunTexts(xml).value;
    var values := EditedRuns(runs, find, repl, all);
    RunsRefineReplace(runs, find, repl, all, values);
    RunsMatchElements(xml);
    if Count(Flatten(runs), find, all) == 0 {
      forall j | 0 <= j < |runs| ensures values[j] == runs[j] {
        UntouchedRunKept(runs, [], |find|, repl, j);
      }
      assert values == runs;
    } else {
      forall j | 0 <= j < |runs| && runs[j] == "" ensures values[j] == "" {
        EmptyEditedRun(runs, Starts(Flatten(runs), find, all), |find|, repl, j);
      }
      EmptyRunsStayEmpty(xml, TextElements(xml), 0, runs, values);
      WriteBackReread(xml, values);
    }
  }

  lemma UnescapeOne(raw: string)
    ensures UnescapeAll([raw]) == if UnescapeXml(raw).None? then None else Some([UnescapeXml(raw).value])
  {
    assert [raw][1..] == [];
    if UnescapeXml(raw).Some? {
      assert [UnescapeXml(raw).value] + [] == [UnescapeXml(raw).value];
    }
  }
}
