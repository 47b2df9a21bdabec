/** `replaceDocxText` on the decoded `word/document.xml`: every paragraph, or the first one with a match. */
module DocxDocument {
  import opened Common
  import opened TextSearch
  import opened XmlElements
  import opened RunReplacement
  import opened DocxReplace
  import opened DocxExact
  import opened DocxEditor

  // ------------------------------------------------------------- paragraphs

  ghost function Paragraphs(xml: string): (ps: seq<Element>)
    ensures InOrder(ps, 0, |xml|)
  {
    ElementsInOrder(xml, 'p', 0);
    Elements(xml, 'p', 0)
  }

  /** The source text of each paragraph, tags included. */
  function Pieces(xml: string, ps: seq<Element>, from: nat): (pieces: seq<string>)
    requires InOrder(ps, from, |xml|)
    ensures |pieces| == |ps|
  {
    if ps == [] then [] else [xml[ps[0].start..ps[0].end]] + Pieces(xml, ps[1..], ps[0].end)
  }

  /** Every numeric reference of every paragraph is in range. */
  ghost predicate Readable(pieces: seq<string>)
  {
    pieces == [] || (RunTexts(pieces[0]).Some? && Readable(pieces[1..]))
  }

  /** The text of each paragraph: what a reader of the document sees. */
  ghost function Texts(pieces: seq<string>): (texts: seq<string>)
    requires Readable(pieces)
    ensures |texts| == |pieces|
  {
    if pieces == [] then [] else [Flatten(RunTexts(pieces[0]).value)] + Texts(pieces[1..])
  }

  // ---------------------------------------------------------- what is edited

  function Untouched(pieces: seq<string>): (edits: seq<ParagraphEdit>)
    ensures |edits| == |pieces|
    ensures forall i :: 0 <= i < |pieces| ==> edits[i] == ParagraphEdit(pieces[i], 0)
  {
    seq(|pieces|, i requires 0 <= i < |pieces| => ParagraphEdit(pieces[i], 0))
  }

  /** The edit of each paragraph: all of them, or nothing after the first that had a match. */
  ghost function Edits(pieces: seq<string>, find: string, repl: string, all: bool): (edits: seq<ParagraphEdit>)
    requires |find| > 0 && Readable(pieces)
    ensures |edits| == |pieces|
  {
    if pieces == [] then []
    else
      var edit := ParagraphEdited(pieces[0], find, repl, all).value;
      [edit] + if all || edit.replacements == 0 then Edits(pieces[1..], find, repl, all) else Untouched(pieces[1..])
  }

  function Total(edits: seq<ParagraphEdit>): nat
  {
    if edits == [] then 0 else edits[0].replacements + Total(edits[1..])
  }

  function Xmls(edits: seq<ParagraphEdit>): (xmls: seq<string>)
    ensures |xmls| == |edits|
  {
    seq(|edits|, i requires 0 <= i < |edits| => edits[i].xml)
  }

  function Regions(ps: seq<Element>, from: nat, n: nat): (regions: seq<Region>)
    requires InOrder(ps, from, n)
    ensures |regions| == |ps| && Sorted(regions, from, n)
  {
    if ps == [] then []
    else
      var rest := Regions(ps[1..], ps[0].end, n);
      assert ([Region(ps[0].start, ps[0].end)] + rest)[1..] == rest;
      [Region(ps[0].start, ps[0].end)] + rest
  }

  /** What `replaceDocxText` makes of `word/document.xml`. */
  ghost function DocumentEdited(xml: string, find: string, repl: string, all: bool): Result<ParagraphEdit, Error>
  {
    var ps := Paragraphs(xml);
    var pieces := Pieces(xml, ps, 0);
    if find == "" then Err(FindEmpty)
    else if !Readable(pieces) then Err(RangeError)
    else
      var edits := Edits(pieces, find, repl, all);
      if Total(edits) == 0 then Err(TextNotFound)
      else Ok(ParagraphEdit(Patch(xml, Regions(ps, 0, |xml|), Xmls(edits), 0), Total(edits)))
  }

  // ------------------------------------------------ measured against the text

  /** Plain replacement over a list of paragraph texts. */
  ghost function ReplaceInTexts(texts: seq<string>, find: string, repl: string, all: bool): (out: seq<string>)
    requires |find| > 0
    ensures |out| == |texts|
  {
    if texts == [] then []
    else
      [Replace(texts[0], find, repl, all)]
      + if all || Count(texts[0], find, all) == 0 then ReplaceInTexts(texts[1..], find, repl, all) else texts[1..]
  }

  ghost function CountInTexts(texts: seq<string>, find: string, all: bool): nat
    requires |find| > 0
  {
    if texts == [] then 0
    else
      Count(texts[0], find, all)
      + if all || Count(texts[0], find, all) == 0 then CountInTexts(texts[1..], find, all) else 0
  }

  lemma {:induction false} UntouchedReads(pieces: seq<string>)
    requires Readable(pieces)
    ensures Xmls(Untouched(pieces)) == pieces && Total(Untouched(pieces)) == 0
  {
    if pieces != [] {
      UntouchedReads(pieces[1..]);
      assert Untouched(pieces)[1..] == Untouched(pieces[1..]);
    }
  }

  lemma ConsReads(edit: ParagraphEdit, edits: seq<ParagraphEdit>)
    ensures Xmls([edit] + edits) == [edit.xml] + Xmls(edits)
    ensures Total([edit] + edits) == edit.replacements + Total(edits)
    ensures RunTexts(edit.xml).Some? && Readable(Xmls(edits)) ==>
      Readable([edit.xml] + Xmls(edits))
      && Texts([edit.xml] + Xmls(edits)) == [Flatten(RunTexts(edit.xml).value)] + Texts(Xmls(edits))
  {
    assert ([edit] + edits)[1..] == edits;
    assert ([edit.xml] + Xmls(edits))[1..] == Xmls(edits);
  }

  /** A paragraph in which nothing is replaced is as it was; any other is edited by itself. */
  lemma {:induction false} EditAt(pieces: seq<string>, find: string, repl: string, all: bool, i: nat)
    requires |find| > 0 && Readable(pieces) && i < |pieces|
    ensures RunTexts(pieces[i]).Some?
    ensures
      var edit := Edits(pieces, find, repl, all)[i];
      if edit.replacements == 0 then edit.xml == pieces[i] else Some(edit) == ParagraphEdited(pieces[i], find, repl, all)
  {
    hide RunTexts, Count, EditedRuns, WrittenBack;
    if i > 0 {
      var edit := ParagraphEdited(pieces[0], find, repl, all).value;
      if all || edit.replacements == 0 { EditAt(pieces[1..], find, repl, all, i - 1); }
      ReadableAll(pieces);
    }
  }

  /** The runs a paragraph should have after the edit. */
  ghost function RunsAfter(piece: string, edit: ParagraphEdit, find: string, repl: string, all: bool): seq<string>
    requires |find| > 0 && RunTexts(piece).Some?
  {
    if edit.replacements == 0 then RunTexts(piece).value else EditedRuns(RunTexts(piece).value, find, repl, all)
  }

  /** If anything is replaced in the paragraph, its text elements are as a word processor writes them. */
  ghost predicate EditTame(piece: string, edit: ParagraphEdit)
  {
    edit.replacements == 0 || AllTame(piece, TextElements(piece), 0)
  }

  /** Nothing is replaced in the paragraph, or no run that changes is written over its own tag. */
  ghost predicate EditSplices(piece: string, edit: ParagraphEdit, find: string, repl: string, all: bool)
    requires |find| > 0 && RunTexts(piece).Some?
  {
    RunsMatchElements(piece);
    edit.replacements == 0
    || Spliceable(piece, TextElements(piece), RunTexts(piece).value, EditedRuns(RunTexts(piece).value, find, repl, all), 0)
  }

  ghost predicate AllEditsTame(pieces: seq<string>, find: string, repl: string, all: bool)
    requires |find| > 0 && Readable(pieces)
  {
    forall i :: 0 <= i < |pieces| ==> EditTame(pieces[i], Edits(pieces, find, repl, all)[i])
  }

  ghost predicate AllSplice(pieces: seq<string>, find: string, repl: string, all: bool)
    requires |find| > 0 && Readable(pieces)
  {
    ReadableAll(pieces);
    forall i :: 0 <= i < |pieces| ==> EditSplices(pieces[i], Edits(pieces, find, repl, all)[i], find, repl, all)
  }

  /** Every paragraph of the second list reads as the first list's paragraph after its edit. */
  ghost predicate ReadAsEdited(pieces: seq<string>, find: string, repl: string, all: bool, after: seq<string>)
    requires |find| > 0 && Readable(pieces)
  {
    ReadableAll(pieces);
    && |after| == |pieces|
    && forall i :: 0 <= i < |pieces| ==>
         RunTexts(after[i]) == Some(RunsAfter(pieces[i], Edits(pieces, find, repl, all)[i], find, repl, all))
  }

  lemma OneExactly(pieces: seq<string>, find: string, repl: string, all: bool, i: nat)
    requires |find| > 0 && Readable(pieces) && i < |pieces|
    requires EditTame(pieces[i], Edits(pieces, find, repl, all)[i])
    ensures RunTexts(pieces[i]).Some?
    ensures
      var edit := Edits(pieces, find, repl, all)[i];
      (RunTexts(edit.xml) == Some(RunsAfter(pieces[i], edit, find, repl, all))) <==> EditSplices(pieces[i], edit, find, repl, all)
  {
    hide RunTexts, Count, EditedRuns, WrittenBack, Edits, Spliceable, AllTame;
    EditAt(pieces, find, repl, all, i);
    if Edits(pieces, find, repl, all)[i].replacements > 0 { ParagraphExactly(pieces[i], find, repl, all); }
  }

  /**
   * The edited paragraphs read as edited exactly when no run that changes is
   * written over its own tag; a paragraph in which nothing is replaced never matters.
   */
  lemma EditsExactly(pieces: seq<string>, find: string, repl: string, all: bool)
    requires |find| > 0 && Readable(pieces) && AllEditsTame(pieces, find, repl, all)
    ensures ReadAsEdited(pieces, find, repl, all, Xmls(Edits(pieces, find, repl, all)))
      <==> AllSplice(pieces, find, repl, all)
  {
    hide RunTexts, Edits, EditTame, EditSplices, RunsAfter;
    ReadableAll(pieces);
    var after := Xmls(Edits(pieces, find, repl, all));
    forall i | 0 <= i < |pieces|
      ensures (RunTexts(after[i]) == Some(RunsAfter(pieces[i], Edits(pieces, find, repl, all)[i], find, repl, all)))
        <==> EditSplices(pieces[i], Edits(pieces, find, repl, all)[i], find, repl, all)
    {
      OneExactly(pieces, find, repl, all, i);
    }
  }

  /** What is read then is plain replacement: in all paragraphs, or in the first with a match and in no other. */
  lemma {:induction false} EditsRefineReplace(pieces: seq<string>, find: string, repl: string, all: bool, after: seq<string>)
    requires |find| > 0 && Readable(pieces) && ReadAsEdited(pieces, find, repl, all, after)
    ensures Readable(after) && Texts(after) == ReplaceInTexts(Texts(pieces), find, repl, all)
  {
    hide RunTexts, EditedRuns, Count, Replace, WrittenBack;
    ReadableAll(after);
    if pieces != [] {
      var edit := ParagraphEdited(pieces[0], find, repl, all).value;
      FirstReplaced(pieces[0], find, repl, all);
      assert Texts(pieces)[1..] == Texts(pieces[1..]);
      assert RunTexts(after[0]) == Some(RunsAfter(pieces[0], edit, find, repl, all));
      ReadableAll(pieces);
      if all || edit.replacements == 0 {
        assert ReadAsEdited(pieces[1..], find, repl, all, after[1..]) by { TailReads(pieces, find, repl, all, after); }
        EditsRefineReplace(pieces[1..], find, repl, all, after[1..]);
      } else {
        SameRunsSameTexts(pieces[1..], after[1..]);
      }
    }
  }

  lemma FirstReplaced(piece: string, find: string, repl: string, all: bool)
    requires |find| > 0 && RunTexts(piece).Some?
    ensures
      var runs, edit := RunTexts(piece).value, ParagraphEdited(piece, find, repl, all).value;
      && edit.replacements == Count(Flatten(runs), find, all)
      && Flatten(RunsAfter(piece, edit, find, repl, all)) == Replace(Flatten(runs), find, repl, all)
  {
    hide Starts, EditedRun;
    var runs := RunTexts(piece).value;
    var values := EditedRuns(runs, find, repl, all);
    RunsRefineReplace(runs, find, repl, all, values);
    if Count(Flatten(runs), find, all) == 0 { NothingReplaced(Flatten(runs), find, repl, all); }
  }

  lemma NothingReplaced(s: string, find: string, repl: string, all: bool)
    requires |find| > 0 && Count(s, find, all) == 0
    ensures Replace(s, find, repl, all) == s
  {
    assert s[0..] == s;
  }

  lemma TailReads(pieces: seq<string>, find: string, repl: string, all: bool, after: seq<string>)
    requires |find| > 0 && Readable(pieces) && pieces != [] && ReadAsEdited(pieces, find, repl, all, after)
    requires all || ParagraphEdited(pieces[0], find, repl, all).value.replacements == 0
    ensures ReadAsEdited(pieces[1..], find, repl, all, after[1..])
  {
    hide RunTexts, RunsAfter, ParagraphEdited;
    ReadableAll(pieces);
    ReadableAll(pieces[1..]);
    var edits, rest := Edits(pieces, find, repl, all), Edits(pieces[1..], find, repl, all);
    forall i | 0 <= i < |pieces[1..]|
      ensures RunTexts(after[1..][i]) == Some(RunsAfter(pieces[1..][i], rest[i], find, repl, all))
    {
      assert edits[i + 1] == rest[i] && after[1..][i] == after[i + 1] && pieces[1..][i] == pieces[i + 1];
    }
  }

  lemma {:induction false} SameRunsSameTexts(pieces: seq<string>, after: seq<string>)
    requires Readable(pieces) && |after| == |pieces|
    requires forall i :: 0 <= i < |pieces| ==> RunTexts(after[i]) == RunTexts(pieces[i])
    ensures Readable(after) && Texts(after) == Texts(pieces)
  {
    hide RunTexts;
    if pieces != [] {
      forall i | 0 <= i < |pieces[1..]| ensures RunTexts(after[1..][i]) == RunTexts(pieces[1..][i]) {
        assert after[1..][i] == after[i + 1] && pieces[1..][i] == pieces[i + 1];
      }
      SameRunsSameTexts(pieces[1..], after[1..]);
    }
  }

  /** The count is the number of occurrences replaced, whatever is read afterwards. */
  lemma {:induction false} EditsCount(pieces: seq<string>, find: string, repl: string, all: bool)
    requires |find| > 0 && Readable(pieces)
    ensures Total(Edits(pieces, find, repl, all)) == CountInTexts(Texts(pieces), find, all)
  {
    hide RunTexts, Count, EditedRuns, WrittenBack;
    if pieces != [] {
      var edit := ParagraphEdited(pieces[0], find, repl, all).value;
      assert Texts(pieces)[1..] == Texts(pieces[1..]);
      EditsCount(pieces[1..], find, repl, all);
      UntouchedReads(pieces[1..]);
      ConsReads(edit, Edits(pieces[1..], find, repl, all));
      ConsReads(edit, Untouched(pieces[1..]));
    }
  }

  ghost predicate Lacks(text: string, find: string)
  {
    forall k :: !OccursAt(text, find, k)
  }

  lemma CountZero(s: string, find: string, all: bool)
    requires |find| > 0
    ensures Count(s, find, all) == 0 <==> Lacks(s, find)
  {
    IndexOfFirst(s, find, 0);
  }

  /** No text of the list holds the text looked for. */
  ghost predicate Absent(texts: seq<string>, find: string)
  {
    texts == [] || (Lacks(texts[0], find) && Absent(texts[1..], find))
  }

  /** The editor reports "not found" exactly when no paragraph's text holds the text looked for. */
  lemma {:induction false} NotFoundExactly(pieces: seq<string>, find: string, repl: string, all: bool)
    requires |find| > 0 && Readable(pieces)
    ensures Total(Edits(pieces, find, repl, all)) == 0 <==> Absent(Texts(pieces), find)
  {
    if pieces != [] {
      var edit := ParagraphEdited(pieces[0], find, repl, all).value;
      var text := Flatten(RunTexts(pieces[0]).value);
      assert edit.replacements == Count(text, find, all);
      CountZero(text, find, all);
      NotFoundExactly(pieces[1..], find, repl, all);
      ConsReads(edit, Edits(pieces[1..], find, repl, all));
      ConsReads(edit, Untouched(pieces[1..]));
      AbsentCons(text, Texts(pieces[1..]), find);
    }
  }

  lemma AbsentCons(text: string, texts: seq<string>, find: string)
    ensures Absent([text] + texts, find) <==> Lacks(text, find) && Absent(texts, find)
  {
    assert ([text] + texts)[0] == text && ([text] + texts)[1..] == texts;
  }

  // --------------------------------------------------------- the editing loop

  lemma {:induction false} PieceAt(xml: string, ps: seq<Element>, from: nat, i: nat)
    requires InOrder(ps, from, |xml|) && i < |ps|
    ensures from <= ps[i].start <= ps[i].end <= |xml|
    ensures Pieces(xml, ps, from)[i] == xml[ps[i].start..ps[i].end]
    ensures Regions(ps, from, |xml|)[i] == Region(ps[i].start, ps[i].end)
  {
    if i > 0 {
      PieceAt(xml, ps[1..], ps[0].end, i - 1);
    }
  }

  lemma {:induction false} ReadableAll(pieces: seq<string>)
    ensures Readable(pieces) <==> forall i :: 0 <= i < |pieces| ==> RunTexts(pieces[i]).Some?
  {
    if pieces != [] {
      ReadableAll(pieces[1..]);
      assert forall i :: 1 <= i < |pieces| ==> pieces[i] == pieces[1..][i - 1];
    }
  }

  /** The edit of one paragraph when all are edited; an unreadable one is kept. */
  ghost function EditOrKeep(piece: string, find: string, repl: string): ParagraphEdit
    requires |find| > 0
  {
    var edit := ParagraphEdited(piece, find, repl, true);
    if edit.None? then ParagraphEdit(piece, 0) else edit.value
  }

  ghost function EditsOrKeeps(pieces: seq<string>, find: string, repl: string): (edits: seq<ParagraphEdit>)
    requires |find| > 0
    ensures |edits| == |pieces|
  {
    seq(|pieces|, i requires 0 <= i < |pieces| => EditOrKeep(pieces[i], find, repl))
  }

  lemma {:induction false} EditsEverywhere(pieces: seq<string>, find: string, repl: string)
    requires |find| > 0 && Readable(pieces)
    ensures Edits(pieces, find, repl, true) == EditsOrKeeps(pieces, find, repl)
  {
    if pieces != [] {
      EditsEverywhere(pieces[1..], find, repl);
      assert EditsOrKeeps(pieces, find, repl)
        == [EditOrKeep(pieces[0], find, repl)] + EditsOrKeeps(pieces[1..], find, repl);
    }
  }

  lemma TotalStep(edits: seq<ParagraphEdit>, i: nat)
    requires i < |edits|
    ensures Total(edits[i..]) == edits[i].replacements + Total(edits[i + 1..])
  {
    assert edits[i..][1..] == edits[i + 1..];
  }

  /** Passing over an unchanged region writes nothing. */
  lemma SkipUnchanged(s: string, regions: seq<Region>, texts: seq<string>, k: nat, now: string)
    requires |regions| == |texts| && 0 < k <= |regions| && Sorted(regions, 0, |s|)
    requires WrittenFrom(s, regions, texts, k, now)
    requires regions[k - 1].lo <= regions[k - 1].hi <= |s| && texts[k - 1] == s[regions[k - 1].lo..regions[k - 1].hi]
    ensures WrittenFrom(s, regions, texts, k - 1, now)
  {
    WriteOne(s, regions, texts, k, now);
    SortedDrop(regions, 0, |s|, k);
    WriteSame(s, regions[k - 1].lo, regions[k - 1].hi, Patch(s, regions[k..], texts[k..], regions[k - 1].hi), now);
  }

  lemma WriteSame(s: string, lo: nat, hi: nat, tail: string, now: string)
    requires lo <= hi <= |s| && now == s[..hi] + tail
    ensures now[..lo] + s[lo..hi] + now[hi..] == now
  {
    assert now[..lo] + s[lo..hi] == now[..hi];
  }

  /** Regions `k` to `m` are unchanged, so text written from `m` on is text written from `k` on. */
  lemma {:induction false} SkipMany(s: string, regions: seq<Region>, texts: seq<string>, k: nat, m: nat, now: string)
    requires |regions| == |texts| && k <= m <= |regions| && Sorted(regions, 0, |s|)
    requires WrittenFrom(s, regions, texts, m, now)
    requires forall i :: k <= i < m ==>
      regions[i].lo <= regions[i].hi <= |s| && texts[i] == s[regions[i].lo..regions[i].hi]
    ensures WrittenFrom(s, regions, texts, k, now)
  {
    if k < m {
      SkipUnchanged(s, regions, texts, m, now);
      SkipMany(s, regions, texts, k, m - 1, now);
    }
  }

  /** With a single replacement, everything but the first paragraph that matches stays as it is. */
  lemma {:induction false} EditsFirst(pieces: seq<string>, find: string, repl: string, k: nat)
    requires |find| > 0 && Readable(pieces) && k <= |pieces|
    requires forall j :: 0 <= j < k ==> !Matches(pieces[j], find)
    requires k < |pieces| ==> Matches(pieces[k], find)
    ensures forall i :: 0 <= i < |pieces| && i != k ==>
      Edits(pieces, find, repl, false)[i] == ParagraphEdit(pieces[i], 0)
    ensures
      if k == |pieces| then Total(Edits(pieces, find, repl, false)) == 0
      else
        && Some(Edits(pieces, find, repl, false)[k]) == ParagraphEdited(pieces[k], find, repl, false)
        && Total(Edits(pieces, find, repl, false)) == Edits(pieces, find, repl, false)[k].replacements > 0
  {
    if pieces != [] {
      var edit := ParagraphEdited(pieces[0], find, repl, false).value;
      CountZero(Flatten(RunTexts(pieces[0]).value), find, false);
      if k == 0 {
        UntouchedReads(pieces[1..]);
        ConsReads(edit, Untouched(pieces[1..]));
      } else {
        assert !Matches(pieces[0], find);
        EditsFirst(pieces[1..], find, repl, k - 1);
        ConsReads(edit, Edits(pieces[1..], find, repl, false));
      }
    }
  }

  /** `paragraphText(...).includes(find)`. */
  ghost predicate Matches(piece: string, find: string)
  {
    RunTexts(piece).Some? && !Lacks(Flatten(RunTexts(piece).value), find)
  }

  /** `paragraphText`. */
  method ReadText(piece: string) returns (text: Option<string>)
    ensures text == if RunTexts(piece).None? then None else Some(Flatten(RunTexts(piece).value))
  {
    var nodes := ReadTextNodes(piece);
    if nodes.None? { return None; }
    var runs := seq(|nodes.value|, i requires 0 <= i < |nodes.value| => nodes.value[i].text);
    assert runs == RunTexts(piece).value;
    text := Some(Flatten(runs));
  }

  /** The filter of the single replacement: the text of every paragraph is read, the first match is kept. */
  method FirstMatch(pieces: seq<string>, find: string) returns (r: Option<nat>)
    ensures r.Some? <==> Readable(pieces)
    ensures r.Some? ==> r.value <= |pieces|
    ensures r.Some? ==> forall j :: 0 <= j < r.value ==> !Matches(pieces[j], find)
    ensures r.Some? && r.value < |pieces| ==> Matches(pieces[r.value], find)
  {
    hide RunTexts;
    ReadableAll(pieces);
    var first: nat := |pieces|;
    for i := 0 to |pieces|
      invariant forall j :: 0 <= j < i ==> RunTexts(pieces[j]).Some?
      invariant first < i || first == |pieces|
      invariant forall j :: 0 <= j < i && j < first ==> !Matches(pieces[j], find)
      invariant first < |pieces| ==> Matches(pieces[first], find)
    {
      var text := ReadText(pieces[i]);
      if text.None? { return None; }
      var at := FindIndex(text.value, find, 0);
      IndexOfFirst(text.value, find, 0);
      if at >= 0 && first == |pieces| { first := i; }
    }
    r := Some(first);
  }

  /** One turn of the loop: paragraph `k - 1` is written, or left alone when nothing in it matched. */
  lemma {:induction false} WriteParagraph(s: string, ps: seq<Element>, edits: seq<ParagraphEdit>, k: nat, now: string)
    requires InOrder(ps, 0, |s|) && |edits| == |ps| && 0 < k <= |ps|
    requires WrittenFrom(s, Regions(ps, 0, |s|), Xmls(edits), k, now)
    ensures ps[k - 1].start <= ps[k - 1].end <= Min(|s|, |now|)
    ensures edits[k - 1].xml == s[ps[k - 1].start..ps[k - 1].end] ==>
      WrittenFrom(s, Regions(ps, 0, |s|), Xmls(edits), k - 1, now)
    ensures WrittenFrom(s, Regions(ps, 0, |s|), Xmls(edits), k - 1,
                        now[..ps[k - 1].start] + edits[k - 1].xml + now[ps[k - 1].end..])
  {
    PieceAt(s, ps, 0, k - 1);
    WriteOne(s, Regions(ps, 0, |s|), Xmls(edits), k, now);
    if edits[k - 1].xml == s[ps[k - 1].start..ps[k - 1].end] {
      SkipUnchanged(s, Regions(ps, 0, |s|), Xmls(edits), k, now);
    }
  }

  lemma UnchangedIsKept(piece: string, find: string, repl: string)
    requires |find| > 0
    ensures EditOrKeep(piece, find, repl).replacements == 0 ==> EditOrKeep(piece, find, repl).xml == piece
  {
  }

  /** Replacing everywhere: the paragraphs are rewritten from the last to the first. */
  method ReplaceEverywhere(original: string, ps: seq<Element>, find: string, repl: string)
    returns (r: Option<ParagraphEdit>)
    requires |find| > 0 && InOrder(ps, 0, |original|)
    ensures r.Some? <==> Readable(Pieces(original, ps, 0))
    ensures r.Some? ==>
      var edits := Edits(Pieces(original, ps, 0), find, repl, true);
      r.value == ParagraphEdit(Patch(original, Regions(ps, 0, |original|), Xmls(edits), 0), Total(edits))
  {
    hide WrittenFrom, Patch, Edits, Readable, RunTexts, Count, EditedRuns, WrittenBack, Regions, Xmls;
    var pieces := Pieces(original, ps, 0);
    ghost var edits := EditsOrKeeps(pieces, find, repl);
    ReadableAll(pieces);
    var xml, replacements := original, 0;
    var index := |ps|;
    NothingWritten(original, Regions(ps, 0, |original|), Xmls(edits));
    assert edits[|ps|..] == [];
    while index > 0
      invariant 0 <= index <= |ps|
      invariant forall j :: index <= j < |ps| ==> RunTexts(pieces[j]).Some?
      invariant WrittenFrom(original, Regions(ps, 0, |original|), Xmls(edits), index, xml)
      invariant replacements == Total(edits[index..])
    {
      WriteParagraph(original, ps, edits, index, xml);
      index := index - 1;
      PieceAt(original, ps, 0, index);
      UnchangedIsKept(pieces[index], find, repl);
      TotalStep(edits, index);
      var edited := ReplaceInsideParagraph(pieces[index], find, repl, true, false);
      if edited.None? { return None; }
      if edited.value.replacements > 0 {
        replacements := replacements + edited.value.replacements;
        xml := xml[..ps[index].start] + edited.value.xml + xml[ps[index].end..];
      }
    }
    assert edits[0..] == edits;
    EditsEverywhere(pieces, find, repl);
    AllWrittenIsPatch(original, Regions(ps, 0, |original|), Xmls(edits), xml);
    r := Some(ParagraphEdit(xml, replacements));
  }

  /** A document with only region `k` rewritten. */
  lemma {:induction false} OneWritten(s: string, ps: seq<Element>, texts: seq<string>, k: nat)
    requires InOrder(ps, 0, |s|) && k < |ps| == |texts|
    requires forall i :: 0 <= i < |ps| && i != k ==> texts[i] == Pieces(s, ps, 0)[i]
    ensures ps[k].start <= ps[k].end <= |s|
    ensures Patch(s, Regions(ps, 0, |s|), texts, 0) == s[..ps[k].start] + texts[k] + s[ps[k].end..]
  {
    var regions := Regions(ps, 0, |s|);
    forall i | 0 <= i < |ps|
      ensures regions[i].lo <= regions[i].hi <= |s| && regions[i] == Region(ps[i].start, ps[i].end)
      ensures i != k ==> texts[i] == s[regions[i].lo..regions[i].hi]
    {
      PieceAt(s, ps, 0, i);
    }
    NothingWritten(s, regions, texts);
    SkipMany(s, regions, texts, k + 1, |ps|, s);
    WriteOne(s, regions, texts, k + 1, s);
    var now := s[..ps[k].start] + texts[k] + s[ps[k].end..];
    SkipMany(s, regions, texts, 0, k, now);
    AllWrittenIsPatch(s, regions, texts, now);
  }

  /** Replacing once: only the first paragraph with a match is edited. */
  method ReplaceOnce(original: string, ps: seq<Element>, find: string, repl: string)
    returns (r: Option<ParagraphEdit>)
    requires |find| > 0 && InOrder(ps, 0, |original|)
    ensures r.Some? <==> Readable(Pieces(original, ps, 0))
    ensures r.Some? ==>
      var edits := Edits(Pieces(original, ps, 0), find, repl, false);
      && r.value.replacements == Total(edits)
      && (Total(edits) > 0 ==> r.value.xml == Patch(original, Regions(ps, 0, |original|), Xmls(edits), 0))
  {
    var pieces := Pieces(original, ps, 0);
    var found := FirstMatch(pieces, find);
    if found.None? { return None; }
    EditsFirst(pieces, find, repl, found.value);
    if found.value == |ps| { return Some(ParagraphEdit(original, 0)); }
    var p := ps[found.value];
    PieceAt(original, ps, 0, found.value);
    ReadableAll(pieces);
    var edited := ReplaceInsideParagraph(pieces[found.value], find, repl, false, false);
    ghost var edits := Edits(pieces, find, repl, false);
    assert edited == Some(edits[found.value]);
    OneWritten(original, ps, Xmls(edits), found.value);
    r := Some(ParagraphEdit(original[..p.start] + edited.value.xml + original[p.end..], edited.value.replacements));
  }

  /** `replaceDocxText` from the decoded document part to the edited one. */
  method ReplaceDocumentText(original: string, find: string, repl: string, all: bool)
    returns (r: Result<ParagraphEdit, Error>)
    ensures r == DocumentEdited(original, find, repl, all)
  {
    if |find| == 0 { return Err(FindEmpty); }
    var ps := FindElements(original, 'p');
    assert ps == Paragraphs(original);
    var edited;
    if all {
      edited := ReplaceEverywhere(original, ps, find, repl);
    } else {
      edited := ReplaceOnce(original, ps, find, repl);
    }
    if edited.None? { return Err(RangeError); }
    if edited.value.replacements == 0 { return Err(TextNotFound); }
    r := Ok(edited.value);
  }
}
