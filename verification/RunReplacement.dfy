/**
 * Find/replace over the text runs of one Word paragraph: the matches are found
 * in the joined text, then written back run by run from right to left.
 */
module RunReplacement {
  import opened Common
  import opened TextSearch

  // ---------------------------------------------------------------- reference

  /** Matches of length `m` at these offsets are in order and disjoint inside `[from, n)`. */
  predicate Spaced(starts: seq<nat>, m: nat, from: nat, n: nat)
  {
    starts == [] || (from <= starts[0] && starts[0] + m <= n && Spaced(starts[1..], m, starts[0] + m, n))
  }

  lemma {:induction false} SpacedDrop(starts: seq<nat>, m: nat, from: nat, n: nat, k: nat)
    requires Spaced(starts, m, from, n) && k < |starts|
    ensures starts[k] + m <= n && Spaced(starts[k + 1..], m, starts[k] + m, n)
  {
    if k > 0 {
      SpacedDrop(starts[1..], m, starts[0] + m, n, k - 1);
      assert starts[1..][k..] == starts[k + 1..];
    }
  }

  /** Start offsets of the successive non-overlapping matches from `cursor` on. */
  ghost function StartsFrom(s: string, find: string, cursor: nat): (starts: seq<nat>)
    requires |find| > 0
    decreases |s| - cursor
  {
    var k := IndexOf(s, find, cursor);
    if k < 0 then [] else [k] + StartsFrom(s, find, k + |find|)
  }

  ghost function Starts(s: string, find: string, all: bool): (starts: seq<nat>)
    requires |find| > 0
  {
    var starts := StartsFrom(s, find, 0);
    if all || starts == [] then starts else [starts[0]]
  }

  lemma {:induction false} StartsFromSpaced(s: string, find: string, cursor: nat)
    requires |find| > 0
    ensures Spaced(StartsFrom(s, find, cursor), |find|, cursor, |s|)
    decreases |s| - cursor
  {
    var k := IndexOf(s, find, cursor);
    if k >= 0 {
      var rest := StartsFrom(s, find, k + |find|);
      StartsFromSpaced(s, find, k + |find|);
      assert ([k] + rest)[1..] == rest;
    }
  }

  lemma StartsSpaced(s: string, find: string, all: bool)
    requires |find| > 0
    ensures Spaced(Starts(s, find, all), |find|, 0, |s|)
  {
    StartsFromSpaced(s, find, 0);
  }

  /** What is left of the stretch `[lo, hi)` of `s` once the matches are replaced. */
  function Edited(s: string, starts: seq<nat>, m: nat, repl: string, lo: nat, hi: nat): string
    requires lo <= hi <= |s|
  {
    if starts == [] || hi <= starts[0] then s[lo..hi]
    else if starts[0] + m <= lo then Edited(s, starts[1..], m, repl, lo, hi)
    else
      (if lo <= starts[0] then s[lo..starts[0]] + repl else "")
      + (if starts[0] + m < hi then Edited(s, starts[1..], m, repl, starts[0] + m, hi) else "")
  }

  /** A stretch that no match touches is left as it was. */
  lemma {:induction false} EditedPlain(s: string, starts: seq<nat>, m: nat, repl: string, lo: nat, hi: nat)
    requires lo <= hi <= |s|
    requires forall i :: 0 <= i < |starts| ==> starts[i] + m <= lo || hi <= starts[i]
    ensures Edited(s, starts, m, repl, lo, hi) == s[lo..hi]
  {
    if starts != [] && starts[0] < hi {
      EditedPlain(s, starts[1..], m, repl, lo, hi);
    }
  }

  /** A stretch of length nothing stays empty. */
  lemma {:induction false} EditedNothing(s: string, starts: seq<nat>, m: nat, repl: string, at: nat)
    requires at <= |s|
    ensures Edited(s, starts, m, repl, at, at) == ""
  {
    if starts != [] && starts[0] + m <= at {
      EditedNothing(s, starts[1..], m, repl, at);
    }
  }

  /** Matches that end before the stretch do not count. */
  lemma EditedSkip(s: string, starts: seq<nat>, m: nat, repl: string, lo: nat, hi: nat)
    requires lo <= hi <= |s| && m > 0 && starts != [] && starts[0] + m <= lo
    ensures Edited(s, starts, m, repl, lo, hi) == Edited(s, starts[1..], m, repl, lo, hi)
  {
  }

  /** What the first match leaves of its side of the stretch. */
  function Head(s: string, st: nat, repl: string, lo: nat): string
    requires st <= |s|
  {
    if lo <= st then s[lo..st] + repl else ""
  }

  lemma EditedCut(s: string, starts: seq<nat>, m: nat, repl: string, lo: nat, hi: nat)
    requires lo <= hi <= |s| && starts != [] && lo < starts[0] + m && starts[0] < hi
    ensures Edited(s, starts, m, repl, lo, hi)
         == Head(s, starts[0], repl, lo)
            + if starts[0] + m < hi then Edited(s, starts[1..], m, repl, starts[0] + m, hi) else ""
  {
  }

  /** Adjacent stretches join up. */
  lemma {:induction false} EditedSplit(s: string, starts: seq<nat>, m: nat, repl: string,
                                       lo: nat, mid: nat, hi: nat)
    requires m > 0 && lo <= mid <= hi <= |s|
    ensures Edited(s, starts, m, repl, lo, hi)
         == Edited(s, starts, m, repl, lo, mid) + Edited(s, starts, m, repl, mid, hi)
    decreases |starts|
  {
    hide Edited;
    if starts == [] || hi <= starts[0] {
      EditedSplitPlain(s, starts, m, repl, lo, mid, hi);
    } else if starts[0] + m <= lo {
      EditedSkip(s, starts, m, repl, lo, hi);
      EditedSkip(s, starts, m, repl, lo, mid);
      EditedSkip(s, starts, m, repl, mid, hi);
      EditedSplit(s, starts[1..], m, repl, lo, mid, hi);
    } else if starts[0] + m < mid {
      EditedSplit(s, starts[1..], m, repl, starts[0] + m, mid, hi);
      EditedSplitAfter(s, starts, m, repl, lo, mid, hi);
    } else if starts[0] < mid {
      EditedSplitInside(s, starts, m, repl, lo, mid, hi);
    } else {
      EditedSplitBefore(s, starts, m, repl, lo, mid, hi);
    }
  }

  /** The cut falls after the first match. */
  lemma EditedSplitAfter(s: string, starts: seq<nat>, m: nat, repl: string, lo: nat, mid: nat, hi: nat)
    requires starts != [] && m > 0 && lo < starts[0] + m < mid <= hi <= |s|
    requires Edited(s, starts[1..], m, repl, starts[0] + m, hi)
          == Edited(s, starts[1..], m, repl, starts[0] + m, mid) + Edited(s, starts[1..], m, repl, mid, hi)
    ensures Edited(s, starts, m, repl, lo, hi)
         == Edited(s, starts, m, repl, lo, mid) + Edited(s, starts, m, repl, mid, hi)
  {
    hide Edited, Head;
    var end, rest := starts[0] + m, starts[1..];
    EditedCut(s, starts, m, repl, lo, hi);
    EditedCut(s, starts, m, repl, lo, mid);
    EditedSkip(s, starts, m, repl, mid, hi);
    AppendAssoc(Head(s, starts[0], repl, lo), Edited(s, rest, m, repl, end, mid), Edited(s, rest, m, repl, mid, hi));
  }

  lemma EditedSplitPlain(s: string, starts: seq<nat>, m: nat, repl: string, lo: nat, mid: nat, hi: nat)
    requires lo <= mid <= hi <= |s| && (starts == [] || hi <= starts[0])
    ensures Edited(s, starts, m, repl, lo, hi) == s[lo..hi]
    ensures Edited(s, starts, m, repl, lo, hi)
         == Edited(s, starts, m, repl, lo, mid) + Edited(s, starts, m, repl, mid, hi)
  {
    assert s[lo..hi] == s[lo..mid] + s[mid..hi];
  }

  /** The cut falls inside the first match, or right at its end. */
  lemma EditedSplitInside(s: string, starts: seq<nat>, m: nat, repl: string, lo: nat, mid: nat, hi: nat)
    requires starts != [] && m > 0
    requires lo <= mid <= hi <= |s| && lo < starts[0] + m && starts[0] < mid <= starts[0] + m
    ensures Edited(s, starts, m, repl, lo, hi)
         == Edited(s, starts, m, repl, lo, mid) + Edited(s, starts, m, repl, mid, hi)
  {
    hide Edited, Head;
    EditedCut(s, starts, m, repl, lo, hi);
    EditedCut(s, starts, m, repl, lo, mid);
    HeadNothing(s, starts[0], repl, mid);
    if mid == starts[0] + m {
      EditedSkip(s, starts, m, repl, mid, hi);
      if mid == hi { EditedNothing(s, starts[1..], m, repl, hi); }
    } else {
      EditedCut(s, starts, m, repl, mid, hi);
    }
  }

  lemma HeadNothing(s: string, st: nat, repl: string, lo: nat)
    requires st < lo && st <= |s|
    ensures Head(s, st, repl, lo) == ""
  {
  }

  lemma EditedSplitBefore(s: string, starts: seq<nat>, m: nat, repl: string, lo: nat, mid: nat, hi: nat)
    requires starts != [] && m > 0
    requires lo <= mid <= starts[0] < hi <= |s|
    ensures Edited(s, starts, m, repl, lo, hi)
         == Edited(s, starts, m, repl, lo, mid) + Edited(s, starts, m, repl, mid, hi)
  {
    hide Edited, Head;
    var tail := if starts[0] + m < hi then Edited(s, starts[1..], m, repl, starts[0] + m, hi) else "";
    EditedSplitPlain(s, starts, m, repl, lo, lo, mid);
    EditedCut(s, starts, m, repl, lo, hi);
    EditedCut(s, starts, m, repl, mid, hi);
    HeadSplit(s, starts[0], repl, lo, mid);
    AppendAssoc(s[lo..mid], Head(s, starts[0], repl, mid), tail);
  }

  lemma HeadSplit(s: string, st: nat, repl: string, lo: nat, mid: nat)
    requires lo <= mid <= st <= |s|
    ensures Head(s, st, repl, lo) == s[lo..mid] + Head(s, st, repl, mid)
  {
    assert s[lo..st] == s[lo..mid] + s[mid..st];
    AppendAssoc(s[lo..mid], s[mid..st], repl);
  }

  lemma {:induction false} StartsCounted(s: string, find: string, from: nat)
    requires |find| > 0 && from <= |s|
    ensures |StartsFrom(s, find, from)| == CountFrom(s, find, from)
    decreases |s| - from
  {
    var k := IndexOf(s, find, from);
    if k >= 0 {
      StartsCounted(s, find, k + |find|);
    }
  }

  /** Editing by match offsets is plain left-to-right replacement of the text. */
  lemma {:induction false} EditedIsReplaceAll(s: string, find: string, repl: string, from: nat)
    requires |find| > 0 && from <= |s|
    ensures Edited(s, StartsFrom(s, find, from), |find|, repl, from, |s|) == ReplaceAllFrom(s, find, repl, from)
    decreases |s| - from
  {
    hide Edited, ReplaceAllFrom, StartsFrom;
    FromNext(s, find, repl, from);
    var k := IndexOf(s, find, from);
    if k < 0 {
      EditedPlain(s, [], |find|, repl, from, |s|);
    } else {
      var end := k + |find|;
      EditedIsReplaceAll(s, find, repl, end);
      StartsFromSpaced(s, find, end);
      EditedFirst(s, k, StartsFrom(s, find, end), |find|, repl, from);
    }
  }

  lemma FromNext(s: string, find: string, repl: string, from: nat)
    requires |find| > 0 && from <= |s|
    ensures
      var k := IndexOf(s, find, from);
      if k < 0 then StartsFrom(s, find, from) == [] && ReplaceAllFrom(s, find, repl, from) == s[from..|s|]
      else
        && StartsFrom(s, find, from) == [k] + StartsFrom(s, find, k + |find|)
        && ReplaceAllFrom(s, find, repl, from) == s[from..k] + repl + ReplaceAllFrom(s, find, repl, k + |find|)
  {
  }

  /** Up to and including the first match. */
  lemma EditedFirst(s: string, st: nat, rest: seq<nat>, m: nat, repl: string, lo: nat)
    requires m > 0 && lo <= st && st + m <= |s| && Spaced(rest, m, st + m, |s|)
    ensures Edited(s, [st] + rest, m, repl, lo, |s|) == s[lo..st] + repl + Edited(s, rest, m, repl, st + m, |s|)
  {
    assert ([st] + rest)[1..] == rest;
  }

  /** The edited text is the plain replacement, in both modes, and as many matches are counted. */
  lemma EditedIsReplace(s: string, find: string, repl: string, all: bool)
    requires |find| > 0
    ensures Edited(s, Starts(s, find, all), |find|, repl, 0, |s|) == Replace(s, find, repl, all)
    ensures |Starts(s, find, all)| == Count(s, find, all)
  {
    hide Edited, ReplaceAllFrom, StartsFrom, CountFrom;
    FromNext(s, find, repl, 0);
    StartsCounted(s, find, 0);
    if all {
      EditedIsReplaceAll(s, find, repl, 0);
    } else if IndexOf(s, find, 0) < 0 {
      EditedPlain(s, [], |find|, repl, 0, |s|);
      assert s[0..|s|] == s;
    } else {
      FirstReplaced(s, IndexOf(s, find, 0), |find|, repl);
    }
  }

  lemma FirstReplaced(s: string, st: nat, m: nat, repl: string)
    requires m > 0 && st + m <= |s|
    ensures Edited(s, [st], m, repl, 0, |s|) == s[..st] + repl + s[st + m..]
  {
    hide Edited;
    assert [st] + [] == [st];
    EditedFirst(s, st, [], m, repl, 0);
    EditedPlain(s, [], m, repl, st + m, |s|);
    assert s[0..st] == s[..st] && s[st + m..|s|] == s[st + m..];
  }

  // ------------------------------------------------------------ run by run

  /** What run `j` must contain after the edits: its own stretch of the joined text, edited. */
  ghost function EditedRun(runs: seq<string>, starts: seq<nat>, m: nat, repl: string, j: nat): string
    requires j < |runs|
  {
    OffsetStep(runs, j);
    Edited(Flatten(runs), starts, m, repl, Offset(runs, j), Offset(runs, j + 1))
  }

  lemma {:induction false} FlattenEditedRuns(runs: seq<string>, starts: seq<nat>, m: nat, repl: string,
                                             values: seq<string>, j: nat)
    requires Spaced(starts, m, 0, |Flatten(runs)|) && m > 0
    requires |values| == |runs| && j <= |runs|
    requires forall i :: 0 <= i < |runs| ==> values[i] == EditedRun(runs, starts, m, repl, i)
    ensures Offset(runs, j) <= |Flatten(runs)|
    ensures Flatten(values[..j]) == Edited(Flatten(runs), starts, m, repl, 0, Offset(runs, j))
    decreases j
  {
    OffsetMonotone(runs, 0, j);
    if j == 0 {
      assert runs[..0] == [];
    } else {
      FlattenEditedRuns(runs, starts, m, repl, values, j - 1);
      OffsetStep(runs, j - 1);
      assert values[..j] == values[..j - 1] + [values[j - 1]];
      FlattenAppend(values[..j - 1], [values[j - 1]]);
      assert Flatten([values[j - 1]]) == values[j - 1];
      EditedSplit(Flatten(runs), starts, m, repl, 0, Offset(runs, j - 1), Offset(runs, j));
    }
  }

  /** Runs edited on their own stretches join up to the replaced text. */
  lemma RunsRefineReplace(runs: seq<string>, find: string, repl: string, all: bool, values: seq<string>)
    requires |find| > 0 && |values| == |runs|
    requires forall i :: 0 <= i < |runs| ==>
      values[i] == EditedRun(runs, Starts(Flatten(runs), find, all), |find|, repl, i)
    ensures Flatten(values) == Replace(Flatten(runs), find, repl, all)
    ensures |Starts(Flatten(runs), find, all)| == Count(Flatten(runs), find, all)
  {
    StartsSpaced(Flatten(runs), find, all);
    FlattenEditedRuns(runs, Starts(Flatten(runs), find, all), |find|, repl, values, |runs|);
    assert values[..|runs|] == values && runs[..|runs|] == runs;
    EditedIsReplace(Flatten(runs), find, repl, all);
  }

  /** A run no match touches keeps its text. */
  lemma UntouchedRunKept(runs: seq<string>, starts: seq<nat>, m: nat, repl: string, j: nat)
    requires j < |runs|
    requires forall i :: 0 <= i < |starts| ==>
      starts[i] + m <= Offset(runs, j) || Offset(runs, j + 1) <= starts[i]
    ensures EditedRun(runs, starts, m, repl, j) == runs[j]
  {
    OffsetStep(runs, j);
    EditedPlain(Flatten(runs), starts, m, repl, Offset(runs, j), Offset(runs, j + 1));
  }

  // ------------------------------------------------ one right-to-left step

  /** While every edit lies at or after `frontier`, the text of a run before it is original. */
  lemma RunBeforeFrontier(runs: seq<string>, starts: seq<nat>, m: nat, repl: string, frontier: nat, j: nat)
    requires j < |runs| && m > 0 && Spaced(starts, m, frontier, |Flatten(runs)|)
    ensures Offset(runs, j + 1) == Offset(runs, j) + |runs[j]| <= |Flatten(runs)|
    ensures
      var s, lo, hi := Flatten(runs), Offset(runs, j), Offset(runs, j + 1);
      var now := EditedRun(runs, starts, m, repl, j);
      && (hi <= frontier ==> now == s[lo..hi])
      && (lo <= frontier <= hi ==> now == s[lo..frontier] + Edited(s, starts, m, repl, frontier, hi))
  {
    OffsetStep(runs, j);
    var s, lo, hi := Flatten(runs), Offset(runs, j), Offset(runs, j + 1);
    if lo <= frontier <= hi {
      EditedSplit(s, starts, m, repl, lo, frontier, hi);
    }
  }

  /** The run that holds position `q` before the frontier is the one `NodeAtOffset` finds. */
  lemma {:induction false} LookupFindsOwner(runs: seq<string>, starts: seq<nat>, m: nat, repl: string, frontier: nat,
                                            q: nat, j: nat) returns (owner: nat)
    requires m > 0 && j <= |runs| && Spaced(starts, m, frontier, |Flatten(runs)|)
    requires q < frontier && Offset(runs, j) <= q < |Flatten(runs)|
    ensures owner < |runs| && Offset(runs, owner) <= q < Offset(runs, owner) + |runs[owner]|
    ensures q < Offset(runs, owner) + |EditedRun(runs, starts, m, repl, owner)|
    ensures forall i :: j <= i < owner ==> Offset(runs, i) + |EditedRun(runs, starts, m, repl, i)| <= q
    decreases |runs| - j
  {
    assert runs[..|runs|] == runs;
    RunBeforeFrontier(runs, starts, m, repl, frontier, j);
    if q < Offset(runs, j + 1) {
      owner := j;
    } else {
      owner := LookupFindsOwner(runs, starts, m, repl, frontier, q, j + 1);
    }
  }

  // ------------------------------------------------------------- the code

  /** `r` is the first run whose text, placed at its offset, holds `offset`, or -1 when there is none. */
  ghost predicate Located(offsets: seq<nat>, values: seq<string>, offset: nat, r: int)
    requires |offsets| == |values|
  {
    && -1 <= r < |values|
    && (r >= 0 ==> offsets[r] <= offset < offsets[r] + |values[r]|)
    && (forall i :: 0 <= i < (if r < 0 then |values| else r) ==>
          !(offsets[i] <= offset < offsets[i] + |values[i]|))
  }

  /** `nodeAtOffset`: the first run whose current text, placed at its original offset, holds `offset`. */
  method NodeAtOffset(offsets: seq<nat>, values: seq<string>, offset: nat) returns (r: int)
    requires |offsets| == |values|
    ensures Located(offsets, values, offset, r)
  {
    for index := 0 to |values|
      invariant forall i :: 0 <= i < index ==> !(offsets[i] <= offset < offsets[i] + |values[i]|)
    {
      if offset >= offsets[index] && offset < offsets[index] + |values[index]| {
        return index;
      }
    }
    return -1;
  }

  /** The scan of the joined text for matches. */
  method CollectStarts(combined: string, find: string, all: bool) returns (starts: seq<nat>)
    requires |find| > 0
    ensures starts == Starts(combined, find, all)
  {
    starts := [];
    var cursor := 0;
    ghost var rest := StartsFrom(combined, find, 0);
    while cursor + |find| <= |combined|
      invariant cursor <= |combined| && rest == StartsFrom(combined, find, cursor)
      invariant starts + rest == StartsFrom(combined, find, 0)
      invariant !all ==> starts == []
      decreases |combined| - cursor
    {
      var index := FindIndex(combined, find, cursor);
      if index < 0 { return; }
      rest := StartsFrom(combined, find, index + |find|);
      AppendAssoc(starts, [index], rest);
      starts := starts + [index];
      if !all { return; }
      cursor := index + Max(|find|, 1);
    }
  }

  /** The running totals of the run lengths. */
  method CollectOffsets(runs: seq<string>) returns (offsets: seq<nat>)
    ensures |offsets| == |runs|
    ensures forall j :: 0 <= j < |runs| ==> offsets[j] == Offset(runs, j)
  {
    offsets := [];
    var total := 0;
    for j := 0 to |runs|
      invariant |offsets| == j && total == Offset(runs, j)
      invariant forall i :: 0 <= i < j ==> offsets[i] == Offset(runs, i)
    {
      OffsetStep(runs, j);
      offsets := offsets + [total];
      total := total + |runs[j]|;
    }
  }

  /** What the code writes into run `j` for the match `[start, end)` found in the runs `first` to `last`. */
  function Written(value: string, offset: nat, repl: string, start: nat, end: nat,
                   first: nat, last: nat, j: nat): string
    requires j == first ==> offset <= start <= offset + |value|
    requires j == last ==> offset <= end <= offset + |value|
  {
    if first <= j <= last then
      (if j == first then value[..start - offset] + repl else "")
      + (if j == last then value[end - offset..] else "")
    else value
  }

  /** Cutting the match out of a stretch it overlaps is one more edit of that stretch. */
  lemma CutIsEdit(s: string, rest: seq<nat>, m: nat, repl: string, start: nat, lo: nat, hi: nat)
    requires m > 0 && lo <= hi <= |s| && Spaced(rest, m, start + m, |s|)
    requires lo < start + m && start < hi
    ensures
      var value := Edited(s, rest, m, repl, lo, hi);
      && (lo <= start ==> start - lo <= |value|)
      && (start + m <= hi ==> start + m - lo <= |value|)
      && Edited(s, [start] + rest, m, repl, lo, hi)
           == (if lo <= start then value[..start - lo] + repl else "")
            + (if start + m <= hi then value[start + m - lo..] else "")
  {
    hide Edited;
    var end := start + m;
    var value := Edited(s, rest, m, repl, lo, hi);
    EditedOverlap(s, rest, m, repl, start, lo, hi);
    if end <= hi {
      UneditedHead(s, rest, m, repl, end, lo, end);
      EditedSplit(s, rest, m, repl, lo, end, hi);
      SliceHead(value, s, Edited(s, rest, m, repl, end, hi), lo, start, end);
    } else {
      UneditedHead(s, rest, m, repl, end, lo, hi);
      SliceHead(value, s, "", lo, start, hi);
    }
  }

  /** Before the first edit the text is the original. */
  lemma UneditedHead(s: string, rest: seq<nat>, m: nat, repl: string, end: nat, lo: nat, cut: nat)
    requires lo <= cut <= |s| && cut <= end && Spaced(rest, m, end, |s|)
    ensures Edited(s, rest, m, repl, lo, cut) == s[lo..cut]
  {
  }

  lemma EditedOverlap(s: string, rest: seq<nat>, m: nat, repl: string, start: nat, lo: nat, hi: nat)
    requires lo <= hi <= |s| && lo < start + m && start < hi
    ensures Edited(s, [start] + rest, m, repl, lo, hi)
         == (if lo <= start then s[lo..start] + repl else "")
          + (if start + m <= hi then Edited(s, rest, m, repl, start + m, hi) else "")
  {
    var starts := [start] + rest;
    assert starts[1..] == rest && starts[0] == start;
    EditedCut(s, starts, m, repl, lo, hi);
    hide Edited;
    if start + m == hi { EditedNothing(s, rest, m, repl, hi); }
  }

  lemma SliceHead(value: string, s: string, tail: string, lo: nat, start: nat, cut: nat)
    requires lo <= cut <= |s| && start <= cut && value == s[lo..cut] + tail
    ensures lo <= start ==> start - lo <= |value| && value[..start - lo] == s[lo..start]
    ensures cut - lo <= |value| && value[cut - lo..] == tail
  {
  }

  /** Writing the match into the runs it spans gives every run its stretch of the edited text. */
  lemma WrittenIsEditedRun(runs: seq<string>, start: nat, rest: seq<nat>, m: nat, repl: string,
                           first: nat, last: nat, j: nat)
    requires m > 0 && Spaced(rest, m, start + m, |Flatten(runs)|)
    requires first <= last < |runs| && j < |runs|
    requires Offset(runs, first) <= start < Offset(runs, first + 1)
    requires Offset(runs, last) < start + m <= Offset(runs, last + 1)
    ensures
      var value := EditedRun(runs, rest, m, repl, j);
      && (j == first ==> Offset(runs, j) <= start <= Offset(runs, j) + |value|)
      && (j == last ==> Offset(runs, j) <= start + m <= Offset(runs, j) + |value|)
      && Written(value, Offset(runs, j), repl, start, start + m, first, last, j)
           == EditedRun(runs, [start] + rest, m, repl, j)
  {
    hide Edited, Spaced;
    var s, lo, hi, end := Flatten(runs), Offset(runs, j), Offset(runs, j + 1), start + m;
    OffsetStep(runs, j);
    if j < first {
      OffsetMonotone(runs, j + 1, first);
      EditedAround(s, rest, m, repl, start, lo, hi);
    } else if last < j {
      OffsetMonotone(runs, last + 1, j);
      EditedAround(s, rest, m, repl, start, lo, hi);
    } else {
      InsideSpan(runs, start, end, first, last, j);
      if start < hi && lo < end {
        CutIsEdit(s, rest, m, repl, start, lo, hi);
      }
    }
  }

  /** Of the runs first to last only the first starts at or before the match, and only the last ends at or after it. */
  lemma InsideSpan(runs: seq<string>, start: nat, end: nat, first: nat, last: nat, j: nat)
    requires first <= j <= last < |runs| && start < end
    requires Offset(runs, first) <= start < Offset(runs, first + 1)
    requires Offset(runs, last) < end <= Offset(runs, last + 1)
    ensures Offset(runs, j) < end && start < Offset(runs, j + 1)
    ensures Offset(runs, j) <= start <==> j == first
    ensures end <= Offset(runs, j + 1) <==> j == last
  {
    OffsetMonotone(runs, first + 1, j + 1);
    OffsetMonotone(runs, j, last);
    if first < j { OffsetMonotone(runs, first + 1, j); }
    if j < last { OffsetMonotone(runs, j + 1, last); }
  }

  /** A match outside the stretch changes nothing in it. */
  lemma EditedAround(s: string, rest: seq<nat>, m: nat, repl: string, start: nat, lo: nat, hi: nat)
    requires lo <= hi <= |s| && m > 0 && (hi <= start || start + m <= lo) && Spaced(rest, m, start + m, |s|)
    ensures Edited(s, [start] + rest, m, repl, lo, hi) == Edited(s, rest, m, repl, lo, hi)
  {
    assert ([start] + rest)[1..] == rest;
  }

  /** Both ends of a match before the frontier are looked up in the runs that hold them. */
  lemma MatchLocated(offsets: seq<nat>, runs: seq<string>, rest: seq<nat>, m: nat, repl: string,
                     start: nat, before: seq<string>, first: int, last: int)
    requires m > 0 && |offsets| == |before| == |runs|
    requires start + m <= |Flatten(runs)| && Spaced(rest, m, start + m, |Flatten(runs)|)
    requires forall j :: 0 <= j < |runs| ==> offsets[j] == Offset(runs, j)
    requires forall j :: 0 <= j < |runs| ==> before[j] == EditedRun(runs, rest, m, repl, j)
    requires Located(offsets, before, start, first) && Located(offsets, before, start + m - 1, last)
    ensures 0 <= first <= last < |runs|
    ensures Offset(runs, first) <= start < Offset(runs, first + 1)
    ensures Offset(runs, last) < start + m <= Offset(runs, last + 1)
  {
    PositionLocated(offsets, runs, rest, m, repl, start + m, before, start, first);
    PositionLocated(offsets, runs, rest, m, repl, start + m, before, start + m - 1, last);
    OffsetOrder(runs, first, last + 1);
  }

  lemma PositionLocated(offsets: seq<nat>, runs: seq<string>, rest: seq<nat>, m: nat, repl: string,
                        frontier: nat, before: seq<string>, q: nat, r: int)
    requires m > 0 && |offsets| == |before| == |runs| && q < frontier
    requires frontier <= |Flatten(runs)| && Spaced(rest, m, frontier, |Flatten(runs)|)
    requires forall j :: 0 <= j < |runs| ==> offsets[j] == Offset(runs, j)
    requires forall j :: 0 <= j < |runs| ==> before[j] == EditedRun(runs, rest, m, repl, j)
    requires Located(offsets, before, q, r)
    ensures 0 <= r < |runs| && Offset(runs, r) <= q < Offset(runs, r + 1)
  {
    assert runs[..0] == [];
    var owner := LookupFindsOwner(runs, rest, m, repl, frontier, q, 0);
    assert offsets[owner] == Offset(runs, owner);
    assert r == owner;
    OffsetStep(runs, owner);
  }

  lemma AllWritten(offsets: seq<nat>, runs: seq<string>, rest: seq<nat>, m: nat, repl: string,
                   start: nat, before: seq<string>, first: nat, last: nat)
    requires m > 0 && |offsets| == |before| == |runs|
    requires Spaced(rest, m, start + m, |Flatten(runs)|)
    requires forall j :: 0 <= j < |runs| ==> offsets[j] == Offset(runs, j)
    requires forall j :: 0 <= j < |runs| ==> before[j] == EditedRun(runs, rest, m, repl, j)
    requires first <= last < |runs|
    requires Offset(runs, first) <= start < Offset(runs, first + 1)
    requires Offset(runs, last) < start + m <= Offset(runs, last + 1)
    ensures offsets[first] <= start <= offsets[first] + |before[first]|
    ensures offsets[last] <= start + m <= offsets[last] + |before[last]|
    ensures forall j :: 0 <= j < |runs| ==>
      EditedRun(runs, [start] + rest, m, repl, j)
        == Written(before[j], offsets[j], repl, start, start + m, first, last, j)
  {
    WrittenIsEditedRun(runs, start, rest, m, repl, first, last, first);
    WrittenIsEditedRun(runs, start, rest, m, repl, first, last, last);
    forall j | 0 <= j < |runs|
      ensures EditedRun(runs, [start] + rest, m, repl, j)
           == Written(before[j], offsets[j], repl, start, start + m, first, last, j)
    {
      WrittenIsEditedRun(runs, start, rest, m, repl, first, last, j);
    }
  }

  /** One iteration of the right-to-left loop: write the match at `start` into the runs it spans. */
  method ApplyMatch(offsets: seq<nat>, before: seq<string>, find: string, repl: string, start: nat,
                    ghost runs: seq<string>, ghost rest: seq<nat>) returns (values: seq<string>)
    requires |find| > 0 && |offsets| == |before| == |runs|
    requires start + |find| <= |Flatten(runs)| && Spaced(rest, |find|, start + |find|, |Flatten(runs)|)
    requires forall j :: 0 <= j < |runs| ==> offsets[j] == Offset(runs, j)
    requires forall j :: 0 <= j < |runs| ==> before[j] == EditedRun(runs, rest, |find|, repl, j)
    ensures |values| == |runs|
    ensures forall j :: 0 <= j < |runs| ==> values[j] == EditedRun(runs, [start] + rest, |find|, repl, j)
  {
    hide EditedRun, Spaced, Written, Flatten;
    var end := start + |find|;
    var first := NodeAtOffset(offsets, before, start);
    var last := NodeAtOffset(offsets, before, end - 1);
    MatchLocated(offsets, runs, rest, |find|, repl, start, before, first, last);
    if first < 0 || last < 0 { return before; }
    AllWritten(offsets, runs, rest, |find|, repl, start, before, first, last);
    values := WriteMatch(offsets, before, repl, start, end, first, last);
  }

  /** The assignments of the loop body. */
  method WriteMatch(offsets: seq<nat>, before: seq<string>, repl: string, start: nat, end: nat,
                    first: nat, last: nat) returns (values: seq<string>)
    requires first <= last < |before| == |offsets| && start <= end
    requires offsets[first] <= start <= offsets[first] + |before[first]|
    requires offsets[last] <= end <= offsets[last] + |before[last]|
    ensures |values| == |before|
    ensures forall j :: 0 <= j < |before| ==>
      values[j] == Written(before[j], offsets[j], repl, start, end, first, last, j)
  {
    values := before;
    var firstLocal := start - offsets[first];
    var lastLocalEnd := end - offsets[last];
    if first == last {
      values := values[first := values[first][..firstLocal] + repl + values[first][lastLocalEnd..]];
    } else {
      var suffix := values[last][lastLocalEnd..];
      values := values[first := values[first][..firstLocal] + repl];
      var index := first + 1;
      while index < last
        invariant first < index <= last && |values| == |before|
        invariant forall j :: 0 <= j < |before| ==>
          values[j] == if first < j < index then ""
                       else if j == first then before[first][..firstLocal] + repl
                       else before[j]
      {
        values := values[index := ""];
        index := index + 1;
      }
      values := values[last := suffix];
    }
  }

  /**
   * The value-editing part of `replaceInsideParagraph`: each run ends up with
   * exactly its own stretch of the edited text, so the runs join up to the
   * plain replacement and the count is the number of matches.
   */
  method ReplaceRuns(runs: seq<string>, find: string, repl: string, all: bool)
    returns (values: seq<string>, count: nat)
    requires |find| > 0
    ensures |values| == |runs|
    ensures forall j :: 0 <= j < |runs| ==>
      values[j] == EditedRun(runs, Starts(Flatten(runs), find, all), |find|, repl, j)
    ensures Flatten(values) == Replace(Flatten(runs), find, repl, all)
    ensures count == Count(Flatten(runs), find, all)
  {
    var starts := CollectStarts(Flatten(runs), find, all);
    var offsets := CollectOffsets(runs);
    values := runs;
    StartsSpaced(Flatten(runs), find, all);
    var k := |starts|;
    forall j | 0 <= j < |runs| ensures runs[j] == EditedRun(runs, starts[k..], |find|, repl, j) {
      UntouchedRunKept(runs, starts[k..], |find|, repl, j);
    }
    while k > 0
      invariant 0 <= k <= |starts| && |values| == |runs|
      invariant forall j :: 0 <= j < |runs| ==> values[j] == EditedRun(runs, starts[k..], |find|, repl, j)
    {
      k := k - 1;
      SpacedDrop(starts, |find|, 0, |Flatten(runs)|, k);
      assert starts[k..] == [starts[k]] + starts[k + 1..];
      values := ApplyMatch(offsets, values, find, repl, starts[k], runs, starts[k + 1..]);
    }
    assert starts[0..] == starts;
    RunsRefineReplace(runs, find, repl, all, values);
    count := |starts|;
  }
}
