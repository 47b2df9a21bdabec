/**
 * Plain string search and replacement: the reference the document editor is
 * measured against. Positions count characters; nothing here depends on how a
 * character is stored.
 */
module TextSearch {

  /** `p` occurs in `s` at position `k`. */
  predicate OccursAt(s: string, p: string, k: int)
  {
    0 <= k && k + |p| <= |s| && forall j :: 0 <= j < |p| ==> s[k + j] == p[j]
  }

  /** `k` is the first occurrence at or after `from`. */
  ghost predicate FirstAt(s: string, p: string, from: nat, k: int)
  {
    from <= k && OccursAt(s, p, k) && forall j :: from <= j < k ==> !OccursAt(s, p, j)
  }

  /** `String.prototype.indexOf(p, from)`: the first occurrence at or after `from`, or -1. */
  ghost function IndexOf(s: string, p: string, from: nat): (r: int)
    ensures r == -1 || from <= r <= |s| - |p|
  {
    if k: int :| FirstAt(s, p, from, k) then k else -1
  }

  lemma {:induction false} FirstExists(s: string, p: string, from: nat, k: nat)
    requires from <= k && OccursAt(s, p, k)
    ensures exists j :: FirstAt(s, p, from, j)
    decreases k
  {
    if j :| from <= j < k && OccursAt(s, p, j) {
      FirstExists(s, p, from, j);
    } else {
      assert FirstAt(s, p, from, k);
    }
  }

  lemma IndexOfFirst(s: string, p: string, from: nat)
    ensures IndexOf(s, p, from) >= 0 ==> OccursAt(s, p, IndexOf(s, p, from))
    ensures forall k :: from <= k && (IndexOf(s, p, from) < 0 || k < IndexOf(s, p, from)) ==> !OccursAt(s, p, k)
  {
    if k :| from <= k && OccursAt(s, p, k) {
      FirstExists(s, p, from, k);
    }
  }

  /** A first occurrence is what `IndexOf` returns. */
  lemma IndexOfUnique(s: string, p: string, from: nat, k: nat)
    requires FirstAt(s, p, from, k)
    ensures IndexOf(s, p, from) == k
  {
    IndexOfFirst(s, p, from);
  }

  /** The search itself. */
  method FindIndex(s: string, p: string, from: nat) returns (r: int)
    ensures r == IndexOf(s, p, from)
  {
    IndexOfFirst(s, p, from);
    r := from;
    while r + |p| <= |s|
      invariant from <= r && forall k :: from <= k < r ==> !OccursAt(s, p, k)
    {
      if OccursAt(s, p, r) { return; }
      r := r + 1;
    }
    r := -1;
  }

  /** Replace every occurrence at or after `from`, left to right and without overlap. */
  ghost function ReplaceAllFrom(s: string, find: string, repl: string, from: nat): string
    requires |find| > 0 && from <= |s|
    decreases |s| - from
  {
    var k := IndexOf(s, find, from);
    if k < 0 then s[from..] else s[from..k] + repl + ReplaceAllFrom(s, find, repl, k + |find|)
  }

  /** Replace the first occurrence only. */
  ghost function ReplaceFirst(s: string, find: string, repl: string): string
  {
    var k := IndexOf(s, find, 0);
    if k < 0 then s else s[..k] + repl + s[k + |find|..]
  }

  ghost function Replace(s: string, find: string, repl: string, all: bool): string
    requires |find| > 0
  {
    if all then ReplaceAllFrom(s, find, repl, 0) else ReplaceFirst(s, find, repl)
  }

  /** How many occurrences `Replace` rewrites. */
  ghost function CountFrom(s: string, find: string, from: nat): nat
    requires |find| > 0 && from <= |s|
    decreases |s| - from
  {
    var k := IndexOf(s, find, from);
    if k < 0 then 0 else 1 + CountFrom(s, find, k + |find|)
  }

  ghost function Count(s: string, find: string, all: bool): nat
    requires |find| > 0
  {
    if all then CountFrom(s, find, 0) else if IndexOf(s, find, 0) < 0 then 0 else 1
  }

  /** Concatenation of all the pieces. */
  function Flatten(parts: seq<string>): string
  {
    if parts == [] then "" else parts[0] + Flatten(parts[1..])
  }

  lemma {:induction false} FlattenAppend(a: seq<string>, b: seq<string>)
    ensures Flatten(a + b) == Flatten(a) + Flatten(b)
  {
    if a == [] {
      assert a + b == b;
    } else {
      assert (a + b)[1..] == a[1..] + b;
      FlattenAppend(a[1..], b);
    }
  }

  /** Where part `j` starts inside `Flatten(parts)`. */
  function Offset(parts: seq<string>, j: nat): nat
    requires j <= |parts|
  {
    |Flatten(parts[..j])|
  }

  lemma OffsetStep(parts: seq<string>, j: nat)
    requires j < |parts|
    ensures Offset(parts, j + 1) == Offset(parts, j) + |parts[j]|
    ensures Offset(parts, j + 1) <= |Flatten(parts)|
    ensures Flatten(parts)[Offset(parts, j)..Offset(parts, j + 1)] == parts[j]
  {
    assert parts[..j + 1] == parts[..j] + [parts[j]];
    FlattenAppend(parts[..j], [parts[j]]);
    assert Flatten([parts[j]]) == parts[j];
    assert parts == parts[..j + 1] + parts[j + 1..];
    FlattenAppend(parts[..j + 1], parts[j + 1..]);
  }

  lemma {:induction false} OffsetMonotone(parts: seq<string>, i: nat, j: nat)
    requires i <= j <= |parts|
    ensures Offset(parts, i) <= Offset(parts, j) <= |Flatten(parts)|
    decreases |parts| - i
  {
    assert parts == parts[..j] + parts[j..];
    FlattenAppend(parts[..j], parts[j..]);
    if i < j {
      OffsetStep(parts, i);
      OffsetMonotone(parts, i + 1, j);
    }
  }

  lemma OffsetOrder(parts: seq<string>, i: nat, j: nat)
    requires i <= |parts| && j <= |parts| && Offset(parts, i) < Offset(parts, j)
    ensures i < j
  {
    if j <= i {
      OffsetMonotone(parts, j, i);
    }
  }
}
