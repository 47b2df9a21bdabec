/**
 * The walk over a ZIP central directory before the package is unpacked
 * (PKWARE APPNOTE 6.3.10, sections 4.3.12 and 4.3.16).
 */
module ZipDirectory {
  import opened Common

  type Byte = b: int | 0 <= b < 256

  const MAX_ENTRIES: nat := 256
  const MAX_BYTES: nat := 8 * 1024 * 1024
  const END_SIGNATURE: nat := 0x06054b50
  const ENTRY_SIGNATURE: nat := 0x02014b50

  /** A little-endian 16-bit read. */
  function U16(bytes: seq<Byte>, o: nat): nat
    requires o + 2 <= |bytes|
  {
    var low: int, high: int := bytes[o], bytes[o + 1];
    low + 256 * high
  }

  /** A little-endian 32-bit read. */
  function U32(bytes: seq<Byte>, o: nat): nat
    requires o + 4 <= |bytes|
  {
    U16(bytes, o) + 65536 * U16(bytes, o + 2)
  }

  datatype Verdict = Acceptable | ZipInvalid | ZipLimit | PathInvalid

  // --------------------------------------------------------------- safe names

  /** `name.split("/")`, with what has been read of the current part. */
  function SplitFrom(s: string, part: string): seq<string>
    decreases |s|
  {
    if s == "" then [part]
    else if s[0] == '/' then [part] + SplitFrom(s[1..], "")
    else SplitFrom(s[1..], part + [s[0]])
  }

  /** The check of the code. */
  predicate Unsafe(name: string)
  {
    (name != "" && name[0] == '/') || '\\' in name || ".." in SplitFrom(name, "")
  }

  /** A step up: two dots that fill a whole part of the path, from position `i` on. */
  predicate StepsUp(s: string, i: nat)
  {
    && i + 2 <= |s| && s[i] == '.' && s[i + 1] == '.'
    && (i == 0 || s[i - 1] == '/') && (i + 2 == |s| || s[i + 2] == '/')
  }

  lemma {:induction false} SplitFindsSteps(s: string, part: string)
    requires '/' !in part
    ensures ".." in SplitFrom(s, part) <==> exists i :: 0 <= i <= |part| + |s| && StepsUp(part + s, i)
    decreases |s|
  {
    var all := part + s;
    if s == "" {
      assert all == part;
      assert forall k :: 0 <= k < |part| ==> part[k] != '/';
      if i :| 0 <= i <= |part| && StepsUp(part, i) {
        assert i == 0;
        assert part == "..";
      }
      if part == ".." { assert StepsUp(part, 0); }
    } else if s[0] == '/' {
      SplitFindsSteps(s[1..], "");
      assert "" + s[1..] == s[1..];
      SlashSplits(part, s);
    } else {
      assert (part + [s[0]]) + s[1..] == all;
      SplitFindsSteps(s[1..], part + [s[0]]);
    }
  }

  /** At a slash the steps up are the part before it, and those behind it. */
  lemma SlashSplits(part: string, s: string)
    requires '/' !in part && s != "" && s[0] == '/'
    ensures (exists i :: 0 <= i <= |part| + |s| && StepsUp(part + s, i))
      <==> part == ".." || exists i :: 0 <= i <= |s[1..]| && StepsUp(s[1..], i)
  {
    var all, rest, n := part + s, s[1..], |part| + 1;
    assert forall k :: 0 <= k < |part| ==> all[k] == part[k] != '/';
    assert all[|part|] == '/';
    assert forall k :: 0 <= k < |rest| ==> all[n + k] == rest[k];
    if i :| 0 <= i <= |all| && StepsUp(all, i) {
      if i < n {
        assert i == 0;
        assert |part| == 2 && part == "..";
      } else {
        assert StepsUp(rest, i - n);
      }
    }
    if part == ".." { assert StepsUp(all, 0); }
    if i :| 0 <= i <= |rest| && StepsUp(rest, i) { assert StepsUp(all, n + i); }
  }

  /** A name is safe when it is relative, has no backslash and never steps up. */
  predicate Safe(name: string)
  {
    (name == "" || name[0] != '/') && '\\' !in name && forall i :: 0 <= i <= |name| ==> !StepsUp(name, i)
  }

  lemma SafeExactly(name: string)
    ensures Safe(name) <==> !Unsafe(name)
  {
    SplitFindsSteps(name, "");
    assert "" + name == name;
  }

  // ------------------------------------------------------------------ the walk

  /** The header at `o` fits, and so does its name. */
  predicate HeaderFits(bytes: seq<Byte>, o: nat)
  {
    o + 46 <= |bytes| && U32(bytes, o) == ENTRY_SIGNATURE && o + 46 + U16(bytes, o + 28) <= |bytes|
  }

  function NameAt(bytes: seq<Byte>, o: nat): seq<Byte>
    requires HeaderFits(bytes, o)
  {
    bytes[o + 46..o + 46 + U16(bytes, o + 28)]
  }

  function SizeAt(bytes: seq<Byte>, o: nat): nat
    requires HeaderFits(bytes, o)
  {
    U32(bytes, o + 24)
  }

  function EndAt(bytes: seq<Byte>, o: nat): nat
    requires HeaderFits(bytes, o)
  {
    o + 46 + U16(bytes, o + 28) + U16(bytes, o + 30) + U16(bytes, o + 32)
  }

  predicate Encrypted(bytes: seq<Byte>, o: nat)
    requires HeaderFits(bytes, o)
  {
    U16(bytes, o + 8) % 2 == 1
  }

  /** The entries from `o` on: the verdict, and where the walk ended. */
  function Walk(bytes: seq<Byte>, decode: seq<Byte> -> string, o: nat, left: nat, total: nat): (Verdict, nat)
    decreases left
  {
    if left == 0 then (Acceptable, o)
    else if o + 46 > |bytes| || U32(bytes, o) != ENTRY_SIGNATURE then (ZipInvalid, o)
    else if U16(bytes, o + 8) % 2 == 1 || U32(bytes, o + 24) > MAX_BYTES then (ZipLimit, o)
    else if total + U32(bytes, o + 24) > MAX_BYTES then (ZipLimit, o)
    else if o + 46 + U16(bytes, o + 28) > |bytes| then (ZipInvalid, o)
    else if Unsafe(decode(NameAt(bytes, o))) then (PathInvalid, o)
    else Walk(bytes, decode, EndAt(bytes, o), left - 1, total + SizeAt(bytes, o))
  }

  /** `o` is where the end record is read: the last signature within the range searched. */
  predicate EndRecordAt(bytes: seq<Byte>, o: int)
  {
    && Max(0, |bytes| - 65557) <= o <= |bytes| - 22 && U32(bytes, o) == END_SIGNATURE
    && forall k :: o < k <= |bytes| - 22 ==> U32(bytes, k) != END_SIGNATURE
  }

  function InspectAt(bytes: seq<Byte>, decode: seq<Byte> -> string, eocd: nat): Verdict
    requires eocd + 22 <= |bytes|
  {
    var entries, size, start := U16(bytes, eocd + 10), U32(bytes, eocd + 12), U32(bytes, eocd + 16);
    if entries > MAX_ENTRIES || start + size > |bytes| then ZipLimit
    else
      var (verdict, end) := Walk(bytes, decode, start, entries, 0);
      if verdict != Acceptable then verdict else if end != start + size then ZipInvalid else Acceptable
  }

  /** `inspectZipDirectory`, with the error thrown as a verdict. */
  method InspectZipDirectory(bytes: seq<Byte>, decode: seq<Byte> -> string) returns (verdict: Verdict)
    ensures (exists o :: EndRecordAt(bytes, o)) ==>
      exists o: nat :: o + 22 <= |bytes| && EndRecordAt(bytes, o) && verdict == InspectAt(bytes, decode, o)
    ensures !(exists o :: EndRecordAt(bytes, o)) ==> verdict == ZipInvalid
  {
    hide U16, U32;
    var lowerBound := Max(0, |bytes| - 65557);
    var eocd := -1;
    var offset := |bytes| - 22;
    while offset >= lowerBound
      invariant eocd == -1 && offset <= |bytes| - 22
      invariant forall k :: lowerBound <= k <= |bytes| - 22 && offset < k ==> U32(bytes, k) != END_SIGNATURE
    {
      if U32(bytes, offset) == END_SIGNATURE {
        eocd := offset;
        break;
      }
      offset := offset - 1;
    }
    if eocd < 0 { return ZipInvalid; }
    assert EndRecordAt(bytes, eocd);
    verdict := InspectEntries(bytes, decode, eocd);
  }

  /** The entries the end record tells of. */
  method InspectEntries(bytes: seq<Byte>, decode: seq<Byte> -> string, eocd: nat) returns (verdict: Verdict)
    requires eocd + 22 <= |bytes|
    ensures verdict == InspectAt(bytes, decode, eocd)
  {
    hide U16, U32;
    var entries, centralSize, centralOffset := U16(bytes, eocd + 10), U32(bytes, eocd + 12), U32(bytes, eocd + 16);
    if entries > MAX_ENTRIES || centralOffset + centralSize > |bytes| { return ZipLimit; }
    var offset: nat, total: nat := centralOffset, 0;
    for index := 0 to entries
      invariant Walk(bytes, decode, centralOffset, entries, 0) == Walk(bytes, decode, offset, entries - index, total)
    {
      if offset + 46 > |bytes| || U32(bytes, offset) != ENTRY_SIGNATURE { return ZipInvalid; }
      var flags, uncompressed := U16(bytes, offset + 8), U32(bytes, offset + 24);
      var nameLength, extraLength, commentLength := U16(bytes, offset + 28), U16(bytes, offset + 30), U16(bytes, offset + 32);
      if flags % 2 != 0 || uncompressed > MAX_BYTES { return ZipLimit; }
      total := total + uncompressed;
      if total > MAX_BYTES { return ZipLimit; }
      var nameEnd := offset + 46 + nameLength;
      if nameEnd > |bytes| { return ZipInvalid; }
      if Unsafe(decode(bytes[offset + 46..nameEnd])) { return PathInvalid; }
      offset := nameEnd + extraLength + commentLength;
    }
    verdict := if offset != centralOffset + centralSize then ZipInvalid else Acceptable;
  }

  // ------------------------------------------------------ what acceptance means

  /** One entry fills `[lo, hi)`: a signed header with its name, extra field and comment, plain and safely named. */
  predicate EntryFills(bytes: seq<Byte>, decode: seq<Byte> -> string, lo: nat, hi: nat)
  {
    && HeaderFits(bytes, lo) && hi == EndAt(bytes, lo)
    && !Encrypted(bytes, lo) && Safe(decode(NameAt(bytes, lo)))
  }

  /** Sum of the declared sizes of the entries that start at the first `k` boundaries. */
  function Sizes(bytes: seq<Byte>, bounds: seq<nat>, k: nat): nat
    requires k <= |bounds| && forall i :: 0 <= i < k ==> HeaderFits(bytes, bounds[i])
  {
    if k == 0 then 0 else Sizes(bytes, bounds, k - 1) + SizeAt(bytes, bounds[k - 1])
  }

  /** Entries that lie end to end between consecutive boundaries, with a bounded total size. */
  predicate Tiled(bytes: seq<Byte>, decode: seq<Byte> -> string, bounds: seq<nat>, start: nat, end: nat, room: int)
  {
    && bounds != [] && bounds[0] == start && bounds[|bounds| - 1] == end
    && (forall i :: 0 <= i < |bounds| - 1 ==> HeaderFits(bytes, bounds[i]))
    && (forall i :: 0 <= i < |bounds| - 1 ==> EntryFills(bytes, decode, bounds[i], bounds[i + 1]))
    && Sizes(bytes, bounds, |bounds| - 1) <= room
  }

  /** The boundaries of an accepted walk. */
  function BoundsFrom(bytes: seq<Byte>, o: nat, left: nat): (bounds: seq<nat>)
    ensures |bounds| >= 1 && bounds[0] == o
    decreases left
  {
    if left == 0 || !HeaderFits(bytes, o) then [o] else [o] + BoundsFrom(bytes, EndAt(bytes, o), left - 1)
  }

  lemma {:induction false} SizesShift(bytes: seq<Byte>, bounds: seq<nat>, k: nat)
    requires bounds != [] && k < |bounds| && forall i :: 0 <= i <= k ==> HeaderFits(bytes, bounds[i])
    ensures forall i :: 0 <= i < k ==> HeaderFits(bytes, bounds[1..][i])
    ensures Sizes(bytes, bounds, k + 1) == SizeAt(bytes, bounds[0]) + Sizes(bytes, bounds[1..], k)
  {
    hide HeaderFits, SizeAt;
    assert forall i :: 0 <= i < k ==> bounds[1..][i] == bounds[i + 1];
    if k > 0 {
      SizesShift(bytes, bounds, k - 1);
    }
  }

  /** A walk that is accepted has passed entries that lie end to end. */
  lemma {:induction false} WalkTiles(bytes: seq<Byte>, decode: seq<Byte> -> string, o: nat, left: nat, total: nat)
    requires total <= MAX_BYTES && Walk(bytes, decode, o, left, total).0 == Acceptable
    ensures
      var bounds := BoundsFrom(bytes, o, left);
      && |bounds| == left + 1
      && Tiled(bytes, decode, bounds, o, Walk(bytes, decode, o, left, total).1, MAX_BYTES - total)
    decreases left
  {
    if left > 0 {
      SafeExactly(decode(NameAt(bytes, o)));
      WalkTiles(bytes, decode, EndAt(bytes, o), left - 1, total + SizeAt(bytes, o));
      var rest := BoundsFrom(bytes, EndAt(bytes, o), left - 1);
      ConsTiled(bytes, decode, o, rest, Walk(bytes, decode, o, left, total).1, MAX_BYTES - total - SizeAt(bytes, o));
    }
  }

  lemma ConsTiled(bytes: seq<Byte>, decode: seq<Byte> -> string, o: nat, rest: seq<nat>, end: nat, room: int)
    requires HeaderFits(bytes, o) && EntryFills(bytes, decode, o, EndAt(bytes, o))
    requires Tiled(bytes, decode, rest, EndAt(bytes, o), end, room)
    ensures Tiled(bytes, decode, [o] + rest, o, end, room + SizeAt(bytes, o))
  {
    hide EntryFills, HeaderFits, SizeAt, EndAt;
    var bounds := [o] + rest;
    assert bounds[1..] == rest && forall i :: 0 <= i < |rest| ==> bounds[i + 1] == rest[i];
    forall i | 0 <= i < |bounds| - 1 ensures EntryFills(bytes, decode, bounds[i], bounds[i + 1]) {
      if i > 0 { assert EntryFills(bytes, decode, rest[i - 1], rest[i]); }
    }
    forall i | 0 <= i < |bounds| - 1 ensures HeaderFits(bytes, bounds[i]) {
      FillsFits(bytes, decode, bounds[i], bounds[i + 1]);
    }
    SizesShift(bytes, bounds, |rest| - 1);
  }

  lemma FillsFits(bytes: seq<Byte>, decode: seq<Byte> -> string, lo: nat, hi: nat)
    requires EntryFills(bytes, decode, lo, hi)
    ensures HeaderFits(bytes, lo) && hi == EndAt(bytes, lo) && lo + 46 <= hi
  {
  }

  /** Entries that lie end to end are walked from the first boundary to the last. */
  lemma {:induction false} TiledWalks(bytes: seq<Byte>, decode: seq<Byte> -> string, bounds: seq<nat>, end: nat, total: nat)
    requires total <= MAX_BYTES && bounds != [] && Tiled(bytes, decode, bounds, bounds[0], end, MAX_BYTES - total)
    ensures Walk(bytes, decode, bounds[0], |bounds| - 1, total) == (Acceptable, end)
    decreases |bounds|
  {
    if |bounds| > 1 {
      var o, rest := bounds[0], bounds[1..];
      assert EntryFills(bytes, decode, bounds[0], bounds[1]);
      SafeExactly(decode(NameAt(bytes, o)));
      TailTiled(bytes, decode, bounds, end, MAX_BYTES - total);
      hide Tiled;
      TiledWalks(bytes, decode, rest, end, total + SizeAt(bytes, o));
    }
  }

  lemma TailTiled(bytes: seq<Byte>, decode: seq<Byte> -> string, bounds: seq<nat>, end: nat, room: int)
    requires |bounds| > 1 && Tiled(bytes, decode, bounds, bounds[0], end, room)
    ensures HeaderFits(bytes, bounds[0]) && SizeAt(bytes, bounds[0]) <= room
    ensures Tiled(bytes, decode, bounds[1..], bounds[1], end, room - SizeAt(bytes, bounds[0]))
  {
    hide EntryFills, HeaderFits, SizeAt, EndAt;
    var rest := bounds[1..];
    assert forall i :: 0 <= i < |rest| ==> rest[i] == bounds[i + 1];
    forall i | 0 <= i < |bounds| - 1 ensures HeaderFits(bytes, bounds[i]) {
      FillsFits(bytes, decode, bounds[i], bounds[i + 1]);
    }
    forall i | 0 <= i < |rest| - 1 ensures EntryFills(bytes, decode, rest[i], rest[i + 1]) {
      assert EntryFills(bytes, decode, bounds[i + 1], bounds[i + 2]);
    }
    SizesShift(bytes, bounds, |rest| - 1);
  }

  /**
   * A package is accepted exactly when its end record announces at most 256
   * entries that lie end to end over exactly the announced stretch of the file,
   * unencrypted, safely named, and at most 8 MiB together.
   */
  lemma AcceptedExactly(bytes: seq<Byte>, decode: seq<Byte> -> string, eocd: nat)
    requires eocd + 22 <= |bytes|
    ensures
      var entries, size, start := U16(bytes, eocd + 10), U32(bytes, eocd + 12), U32(bytes, eocd + 16);
      InspectAt(bytes, decode, eocd) == Acceptable <==>
        && entries <= MAX_ENTRIES && start + size <= |bytes|
        && exists bounds :: |bounds| == entries + 1 && Tiled(bytes, decode, bounds, start, start + size, MAX_BYTES)
  {
    hide Walk, Tiled, U16, U32;
    var entries, size, start := U16(bytes, eocd + 10), U32(bytes, eocd + 12), U32(bytes, eocd + 16);
    if InspectAt(bytes, decode, eocd) == Acceptable {
      WalkTiles(bytes, decode, start, entries, 0);
    }
    if bounds :| |bounds| == entries + 1 && Tiled(bytes, decode, bounds, start, start + size, MAX_BYTES) {
      TiledStart(bytes, decode, bounds, start, start + size, MAX_BYTES);
      TiledWalks(bytes, decode, bounds, start + size, 0);
    }
  }

  lemma TiledStart(bytes: seq<Byte>, decode: seq<Byte> -> string, bounds: seq<nat>, start: nat, end: nat, room: int)
    requires Tiled(bytes, decode, bounds, start, end, room)
    ensures bounds != [] && bounds[0] == start
  {
  }

  // --------------------------------------------------------- numbers and verdicts

  /** A number below 65536, written least significant byte first. */
  function Written16(v: nat): seq<Byte>
    requires v < 0x10000
  {
    [v % 0x100, v / 0x100]
  }

  /** A number below 2^32, written least significant byte first. */
  function Written32(v: nat): seq<Byte>
    requires v < 0x1_0000_0000
  {
    Written16(v % 0x1_0000) + Written16(v / 0x1_0000)
  }

  /** What is read at a place is what has been written there, and only that. */
  lemma ReadsBack16(bytes: seq<Byte>, o: nat, v: nat)
    requires o + 2 <= |bytes| && v < 0x10000
    ensures bytes[o..o + 2] == Written16(v) <==> U16(bytes, o) == v
  {
    var s := bytes[o..o + 2];
    assert s[0] == bytes[o] && s[1] == bytes[o + 1];
    assert s == [s[0], s[1]];
  }

  lemma ReadsBack32(bytes: seq<Byte>, o: nat, v: nat)
    requires o + 4 <= |bytes| && v < 0x1_0000_0000
    ensures bytes[o..o + 4] == Written32(v) <==> U32(bytes, o) == v
  {
    var low, high := v % 0x1_0000, v / 0x1_0000;
    ReadsBack16(bytes, o, low);
    ReadsBack16(bytes, o + 2, high);
    Halves(v);
    U16Bounded(bytes, o);
    U16Bounded(bytes, o + 2);
    assert U32(bytes, o) == v <==> U16(bytes, o) == low && U16(bytes, o + 2) == high;
    hide U16, U32;
    assert bytes[o..o + 4] == bytes[o..o + 2] + bytes[o + 2..o + 4];
    assert Written32(v)[..2] == Written16(low) && Written32(v)[2..] == Written16(high);
    assert bytes[o..o + 4][..2] == bytes[o..o + 2] && bytes[o..o + 4][2..] == bytes[o + 2..o + 4];
  }

  lemma Halves(v: nat)
    requires v < 0x1_0000_0000
    ensures v / 0x1_0000 < 0x1_0000 && v % 0x1_0000 + 0x1_0000 * (v / 0x1_0000) == v
  {
  }

  lemma U16Bounded(bytes: seq<Byte>, o: nat)
    requires o + 2 <= |bytes|
    ensures U16(bytes, o) < 0x1_0000
  {
  }

  /** The signatures are the four bytes `PK\5\6` and `PK\1\2`. */
  lemma Signatures()
    ensures Written32(END_SIGNATURE) == [0x50, 0x4b, 5, 6] && Written32(ENTRY_SIGNATURE) == [0x50, 0x4b, 1, 2]
  {
  }

  /** What is wrong with the entry at `o`, if that much may still be unpacked. */
  predicate Faulty(bytes: seq<Byte>, decode: seq<Byte> -> string, o: nat, room: int, verdict: Verdict)
  {
    var header := o + 46 <= |bytes| && bytes[o..o + 4] == [0x50, 0x4b, 1, 2];
    var plain := header && U16(bytes, o + 8) % 2 == 0 && U32(bytes, o + 24) <= room;
    match verdict
    case ZipInvalid => !header || (plain && !HeaderFits(bytes, o))
    case ZipLimit => header && !plain
    case PathInvalid => plain && HeaderFits(bytes, o) && !Safe(decode(NameAt(bytes, o)))
    case Acceptable => false
  }

  /** Sound entries up to one that is faulty. */
  ghost predicate FailsAt(bytes: seq<Byte>, decode: seq<Byte> -> string, bounds: seq<nat>, o: nat, left: nat, room: int,
                          verdict: Verdict)
  {
    && 1 <= |bounds| <= left && Tiled(bytes, decode, bounds, o, bounds[|bounds| - 1], room)
    && Faulty(bytes, decode, bounds[|bounds| - 1], room - Sizes(bytes, bounds, |bounds| - 1), verdict)
  }

  /** A walk fails with the fault of the first entry that has one. */
  lemma {:induction false} WalkFails(bytes: seq<Byte>, decode: seq<Byte> -> string, o: nat, left: nat, total: nat)
      returns (bounds: seq<nat>)
    requires total <= MAX_BYTES && Walk(bytes, decode, o, left, total).0 != Acceptable
    ensures FailsAt(bytes, decode, bounds, o, left, MAX_BYTES - total, Walk(bytes, decode, o, left, total).0)
    decreases left
  {
    FirstStep(bytes, decode, o, left, total);
    hide Walk, Tiled, Faulty, EntryFills, HeaderFits, SizeAt, EndAt, FailsAt;
    if HeaderFits(bytes, o) && EntryFills(bytes, decode, o, EndAt(bytes, o)) && total + SizeAt(bytes, o) <= MAX_BYTES {
      var rest := WalkFails(bytes, decode, EndAt(bytes, o), left - 1, total + SizeAt(bytes, o));
      bounds := [o] + rest;
      FailsLater(bytes, decode, rest, o, left - 1, MAX_BYTES - total - SizeAt(bytes, o),
                 Walk(bytes, decode, o, left, total).0);
    } else {
      bounds := [o];
      FailsHere(bytes, decode, o, left, MAX_BYTES - total, Walk(bytes, decode, o, left, total).0);
    }
  }

  lemma FailsHere(bytes: seq<Byte>, decode: seq<Byte> -> string, o: nat, left: nat, room: int, v: Verdict)
    requires left > 0 && room >= 0 && Faulty(bytes, decode, o, room, v)
    ensures FailsAt(bytes, decode, [o], o, left, room, v)
  {
    hide Faulty, EntryFills, HeaderFits;
    assert Sizes(bytes, [o], 0) == 0;
  }

  /** The first entry of a walk is passed, or its fault is the verdict. */
  lemma FirstStep(bytes: seq<Byte>, decode: seq<Byte> -> string, o: nat, left: nat, total: nat)
    requires total <= MAX_BYTES && left > 0
    ensures
      if HeaderFits(bytes, o) && EntryFills(bytes, decode, o, EndAt(bytes, o)) && total + SizeAt(bytes, o) <= MAX_BYTES
      then Walk(bytes, decode, o, left, total) == Walk(bytes, decode, EndAt(bytes, o), left - 1, total + SizeAt(bytes, o))
      else
        && Walk(bytes, decode, o, left, total).0 != Acceptable
        && Faulty(bytes, decode, o, MAX_BYTES - total, Walk(bytes, decode, o, left, total).0)
  {
    Signatures();
    if o + 46 <= |bytes| { ReadsBack32(bytes, o, ENTRY_SIGNATURE); }
    hide U16, U32, Safe, Unsafe, Written32;
    if HeaderFits(bytes, o) { SafeExactly(decode(NameAt(bytes, o))); }
  }

  lemma OneFault(bytes: seq<Byte>, decode: seq<Byte> -> string, o: nat, room: int, v: Verdict, w: Verdict)
    requires Faulty(bytes, decode, o, room, v) && Faulty(bytes, decode, o, room, w)
    ensures v == w
  {
    hide U16, U32, Safe;
  }

  lemma FailsLater(bytes: seq<Byte>, decode: seq<Byte> -> string, rest: seq<nat>, o: nat, left: nat, room: int, v: Verdict)
    requires HeaderFits(bytes, o) && EntryFills(bytes, decode, o, EndAt(bytes, o))
    requires FailsAt(bytes, decode, rest, EndAt(bytes, o), left, room, v)
    ensures FailsAt(bytes, decode, [o] + rest, o, left + 1, room + SizeAt(bytes, o), v)
  {
    ConsTiled(bytes, decode, o, rest, rest[|rest| - 1], room);
    var bounds := [o] + rest;
    assert bounds[1..] == rest;
    if |rest| > 1 {
      hide EntryFills, HeaderFits, SizeAt, EndAt, Faulty;
      SizesShift(bytes, bounds, |rest| - 1);
    } else {
      OneSize(bytes, o, rest);
    }
  }

  lemma OneSize(bytes: seq<Byte>, o: nat, rest: seq<nat>)
    requires HeaderFits(bytes, o) && |rest| == 1
    ensures Sizes(bytes, [o] + rest, 1) == SizeAt(bytes, o) && Sizes(bytes, rest, 0) == 0
  {
    hide HeaderFits, SizeAt;
    assert Sizes(bytes, [o] + rest, 0) == 0;
  }

  /** An entry that is faulty is not passed. */
  lemma FaultyStops(bytes: seq<Byte>, decode: seq<Byte> -> string, o: nat, room: int, v: Verdict)
    requires Faulty(bytes, decode, o, room, v)
    ensures !(HeaderFits(bytes, o) && EntryFills(bytes, decode, o, EndAt(bytes, o)) && SizeAt(bytes, o) <= room)
  {
    Signatures();
    if o + 46 <= |bytes| { ReadsBack32(bytes, o, ENTRY_SIGNATURE); }
    hide U16, U32, Safe, Written32;
  }

  /** Sound entries up to a faulty one make the walk fail with that fault. */
  lemma {:induction false} FailsWalk(bytes: seq<Byte>, decode: seq<Byte> -> string, bounds: seq<nat>, left: nat, total: nat,
                                     room: nat, v: Verdict)
    requires total + room == MAX_BYTES && bounds != [] && FailsAt(bytes, decode, bounds, bounds[0], left, room, v)
    ensures Walk(bytes, decode, bounds[0], left, total).0 == v != Acceptable
    decreases |bounds|
  {
    hide *;
    var o := bounds[0];
    FailsStart(bytes, decode, bounds, o, left, room, v);
    if |bounds| == 1 {
      StopsHere(bytes, decode, o, left, total, v);
    } else {
      FailsTail(bytes, decode, bounds, left, room, v);
      FirstStep(bytes, decode, o, left, total);
      var size := SizeAt(bytes, o);
      FailsWalk(bytes, decode, bounds[1..], left - 1, total + size, room - size, v);
    }
  }

  lemma StopsHere(bytes: seq<Byte>, decode: seq<Byte> -> string, o: nat, left: nat, total: nat, v: Verdict)
    requires total <= MAX_BYTES && left > 0 && Faulty(bytes, decode, o, MAX_BYTES - total, v)
    ensures Walk(bytes, decode, o, left, total).0 == v != Acceptable
  {
    hide *;
    FirstStep(bytes, decode, o, left, total);
    FaultyStops(bytes, decode, o, MAX_BYTES - total, v);
    OneFault(bytes, decode, o, MAX_BYTES - total, v, Walk(bytes, decode, o, left, total).0);
  }

  lemma FailsStart(bytes: seq<Byte>, decode: seq<Byte> -> string, bounds: seq<nat>, o: nat, left: nat, room: int, v: Verdict)
    requires FailsAt(bytes, decode, bounds, o, left, room, v)
    ensures 1 <= |bounds| <= left && bounds[0] == o && (|bounds| == 1 ==> Faulty(bytes, decode, o, room, v))
  {
    hide Faulty, EntryFills, HeaderFits, SizeAt;
  }

  lemma FailsTail(bytes: seq<Byte>, decode: seq<Byte> -> string, bounds: seq<nat>, left: nat, room: int, v: Verdict)
    requires |bounds| > 1 && FailsAt(bytes, decode, bounds, bounds[0], left, room, v)
    ensures HeaderFits(bytes, bounds[0]) && bounds[1] == EndAt(bytes, bounds[0])
    ensures EntryFills(bytes, decode, bounds[0], EndAt(bytes, bounds[0])) && SizeAt(bytes, bounds[0]) <= room
    ensures FailsAt(bytes, decode, bounds[1..], bounds[1], left - 1, room - SizeAt(bytes, bounds[0]), v)
  {
    TailTiled(bytes, decode, bounds, bounds[|bounds| - 1], room);
    FillsFirst(bytes, decode, bounds, room);
    hide Walk, Faulty, EntryFills, HeaderFits, SizeAt, EndAt, Tiled;
    SizesShift(bytes, bounds, |bounds| - 2);
  }

  lemma FillsFirst(bytes: seq<Byte>, decode: seq<Byte> -> string, bounds: seq<nat>, room: int)
    requires |bounds| > 1 && Tiled(bytes, decode, bounds, bounds[0], bounds[|bounds| - 1], room)
    ensures HeaderFits(bytes, bounds[0]) && bounds[1] == EndAt(bytes, bounds[0])
    ensures EntryFills(bytes, decode, bounds[0], EndAt(bytes, bounds[0]))
    ensures forall i :: 0 <= i < |bounds| - 1 ==> HeaderFits(bytes, bounds[i])
  {
    hide HeaderFits, EndAt;
    assert EntryFills(bytes, decode, bounds[0], bounds[1]);
    FillsFits(bytes, decode, bounds[0], bounds[1]);
  }

  /** Which verdict a package gets that is not accepted. */
  lemma VerdictExactly(bytes: seq<Byte>, decode: seq<Byte> -> string, eocd: nat, v: Verdict)
    requires eocd + 22 <= |bytes| && v != Acceptable
    ensures
      var entries, size, start := U16(bytes, eocd + 10), U32(bytes, eocd + 12), U32(bytes, eocd + 16);
      InspectAt(bytes, decode, eocd) == v <==>
        if entries > 256 || start + size > |bytes| then v == ZipLimit
        else
          || (exists bounds :: FailsAt(bytes, decode, bounds, start, entries, MAX_BYTES, v))
          || (v == ZipInvalid && exists bounds, end: nat ::
                |bounds| == entries + 1 && Tiled(bytes, decode, bounds, start, end, MAX_BYTES) && end != start + size)
  {
    hide Walk, Tiled, U16, U32, FailsAt;
    var entries, size, start := U16(bytes, eocd + 10), U32(bytes, eocd + 12), U32(bytes, eocd + 16);
    var (verdict, end) := Walk(bytes, decode, start, entries, 0);
    if verdict == Acceptable {
      WalkTiles(bytes, decode, start, entries, 0);
    } else {
      var bounds := WalkFails(bytes, decode, start, entries, 0);
    }
    if bounds :| FailsAt(bytes, decode, bounds, start, entries, MAX_BYTES, v) {
      FailsStart(bytes, decode, bounds, start, entries, MAX_BYTES, v);
      FailsWalk(bytes, decode, bounds, entries, 0, MAX_BYTES, v);
    }
    if bounds, at: nat :| |bounds| == entries + 1 && Tiled(bytes, decode, bounds, start, at, MAX_BYTES) && at != start + size {
      TiledStart(bytes, decode, bounds, start, at, MAX_BYTES);
      TiledWalks(bytes, decode, bounds, at, 0);
    }
  }

  // ------------------------------------------------------------ a written package

  /** An entry of the central directory; `made`, `stored` and `placed` are the fields that are not looked at. */
  datatype File = File(made: seq<Byte>, flags: nat, stored: seq<Byte>, size: nat, placed: seq<Byte>,
                       name: seq<Byte>, extra: seq<Byte>, comment: seq<Byte>)

  predicate ValidFile(f: File)
  {
    && |f.made| == 4 && |f.stored| == 14 && |f.placed| == 12 && f.flags < 0x1_0000 && f.size < 0x1_0000_0000
    && |f.name| < 0x1_0000 && |f.extra| < 0x1_0000 && |f.comment| < 0x1_0000
  }

  /** The header of a file with what follows it, as section 4.3.12 lays it out. */
  function HeaderOf(f: File): seq<Byte>
    requires ValidFile(f)
  {
    [0x50, 0x4b, 1, 2] + (f.made + (Written16(f.flags) + (f.stored + (Written32(f.size) + FromLengths(f)))))
  }

  /** The same from the lengths on. */
  function FromLengths(f: File): seq<Byte>
    requires ValidFile(f)
  {
    Written16(|f.name|) + (Written16(|f.extra|) + (Written16(|f.comment|)
    + (f.placed + (f.name + (f.extra + f.comment)))))
  }

  predicate AllValid(files: seq<File>)
  {
    forall i :: 0 <= i < |files| ==> ValidFile(files[i])
  }

  function DirectoryOf(files: seq<File>): seq<Byte>
    requires AllValid(files)
  {
    if files == [] then [] else HeaderOf(files[0]) + DirectoryOf(files[1..])
  }

  /** The end record, without a comment, as section 4.3.16 lays it out. */
  function EndOf(disks: seq<Byte>, count: nat, size: nat, start: nat): seq<Byte>
    requires |disks| == 6 && count < 0x1_0000 && size < 0x1_0000_0000 && start < 0x1_0000_0000
  {
    [0x50, 0x4b, 5, 6] + (disks + (Written16(count) + (Written32(size) + (Written32(start) + [0, 0]))))
  }

  function Total(files: seq<File>): nat
  {
    if files == [] then 0 else files[0].size + Total(files[1..])
  }

  /** What stands at `o`, read field by field. */
  lemma Field16(bytes: seq<Byte>, o: nat, v: nat, rest: seq<Byte>)
    requires v < 0x1_0000 && o <= |bytes| && Written16(v) + rest <= bytes[o..]
    ensures o + 2 <= |bytes| && U16(bytes, o) == v && rest <= bytes[o + 2..]
  {
    assert bytes[o..][..2] == (Written16(v) + rest)[..2] == Written16(v);
    ReadsBack16(bytes, o, v);
    Skip(bytes, o, Written16(v), rest);
  }

  lemma Field32(bytes: seq<Byte>, o: nat, v: nat, rest: seq<Byte>)
    requires v < 0x1_0000_0000 && o <= |bytes| && Written32(v) + rest <= bytes[o..]
    ensures o + 4 <= |bytes| && U32(bytes, o) == v && rest <= bytes[o + 4..]
  {
    hide U32, Written16;
    Written16Length(v % 0x1_0000);
    Written16Length(v / 0x1_0000);
    assert bytes[o..][..4] == (Written32(v) + rest)[..4] == Written32(v);
    ReadsBack32(bytes, o, v);
    Skip(bytes, o, Written32(v), rest);
  }

  lemma Written16Length(v: nat)
    requires v < 0x1_0000
    ensures |Written16(v)| == 2
  {
  }

  lemma Skip(bytes: seq<Byte>, o: nat, field: seq<Byte>, rest: seq<Byte>)
    requires o <= |bytes| && field + rest <= bytes[o..]
    ensures o + |field| <= |bytes| && rest <= bytes[o + |field|..] && bytes[o..o + |field|] == field
  {
    var n := |field|;
    assert bytes[o..][n..] == bytes[o + n..];
    assert bytes[o..][..n + |rest|] == field + rest;
    assert bytes[o + n..][..|rest|] == bytes[o..][n..n + |rest|] == (field + rest)[n..] == rest;
    assert bytes[o..][..n] == (field + rest)[..n] == field;
  }

  /** The header as it is read. */
  lemma HeaderReads(bytes: seq<Byte>, o: nat, f: File, rest: seq<Byte>)
    requires ValidFile(f) && o <= |bytes| && HeaderOf(f) + rest <= bytes[o..]
    ensures HeaderFits(bytes, o) && NameAt(bytes, o) == f.name && SizeAt(bytes, o) == f.size
    ensures Encrypted(bytes, o) <==> f.flags % 2 == 1
    ensures EndAt(bytes, o) == o + |HeaderOf(f)| && rest <= bytes[EndAt(bytes, o)..]
  {
    hide U16, U32, Written16, Written32, FromLengths, HeaderOf;
    WithoutRest(bytes, o, HeaderOf(f), rest);
    FieldsRead(bytes, o, f);
    LengthsRead(bytes, o + 28, f);
    HeaderLength(f);
  }

  lemma FieldsRead(bytes: seq<Byte>, o: nat, f: File)
    requires ValidFile(f) && o <= |bytes| && HeaderOf(f) <= bytes[o..]
    ensures o + 28 <= |bytes| && U32(bytes, o) == ENTRY_SIGNATURE && U16(bytes, o + 8) == f.flags
    ensures U32(bytes, o + 24) == f.size && FromLengths(f) <= bytes[o + 28..]
  {
    hide U16, U32, Written16, Written32, FromLengths;
    var s4 := f.stored + (Written32(f.size) + FromLengths(f));
    var s2 := f.made + (Written16(f.flags) + s4);
    Signatures();
    Field32(bytes, o, ENTRY_SIGNATURE, s2);
    Skip(bytes, o + 4, f.made, Written16(f.flags) + s4);
    Field16(bytes, o + 8, f.flags, s4);
    Skip(bytes, o + 10, f.stored, Written32(f.size) + FromLengths(f));
    Field32(bytes, o + 24, f.size, FromLengths(f));
  }

  lemma LengthsRead(bytes: seq<Byte>, o: nat, f: File)
    requires ValidFile(f) && o <= |bytes| && FromLengths(f) <= bytes[o..]
    ensures o + 18 + |f.name| <= |bytes| && bytes[o + 18..o + 18 + |f.name|] == f.name
    ensures U16(bytes, o) == |f.name| && U16(bytes, o + 2) == |f.extra| && U16(bytes, o + 4) == |f.comment|
  {
    hide U16, Written16;
    var s9 := f.placed + (f.name + (f.extra + f.comment));
    var s8 := Written16(|f.comment|) + s9;
    Field16(bytes, o, |f.name|, Written16(|f.extra|) + s8);
    Field16(bytes, o + 2, |f.extra|, s8);
    Field16(bytes, o + 4, |f.comment|, s9);
    Skip(bytes, o + 6, f.placed, f.name + (f.extra + f.comment));
    Skip(bytes, o + 18, f.name, f.extra + f.comment);
  }

  lemma HeaderLength(f: File)
    requires ValidFile(f)
    ensures |HeaderOf(f)| == 46 + |f.name| + |f.extra| + |f.comment|
  {
  }

  lemma WithoutRest(bytes: seq<Byte>, o: nat, first: seq<Byte>, rest: seq<Byte>)
    requires o <= |bytes| && first + rest <= bytes[o..]
    ensures first <= bytes[o..] && o + |first| <= |bytes| && rest <= bytes[o + |first|..]
  {
    Skip(bytes, o, first, rest);
    assert bytes[o..][..|first|] == first;
  }

  /** Every file of the list may be unpacked. */
  predicate AllSafe(decode: seq<Byte> -> string, files: seq<File>)
  {
    forall i :: 0 <= i < |files| ==> files[i].flags % 2 == 0 && Safe(decode(files[i].name))
  }

  /** None is encrypted or unsafely named, and there is room for all of them. */
  predicate MayUnpack(decode: seq<Byte> -> string, files: seq<File>, room: int)
  {
    AllSafe(decode, files) && Total(files) <= room
  }

  predicate WalkedAs(walked: (Verdict, nat), accepted: bool, end: nat)
  {
    if accepted then walked == (Acceptable, end) else walked.0 != Acceptable
  }

  /** A directory that was written is walked to its end exactly when all its files may be unpacked. */
  lemma {:induction false} WrittenWalks(bytes: seq<Byte>, decode: seq<Byte> -> string, files: seq<File>, o: nat, total: nat)
    requires AllValid(files) && total <= MAX_BYTES && o <= |bytes| && DirectoryOf(files) <= bytes[o..]
    ensures WalkedAs(Walk(bytes, decode, o, |files|, total), MayUnpack(decode, files, MAX_BYTES - total),
                     o + |DirectoryOf(files)|)
    decreases |files|
  {
    hide *;
    if files == [] {
      NothingToWalk(bytes, decode, o, total);
    } else {
      FirstFile(decode, files, MAX_BYTES - total);
      var f, rest := files[0], DirectoryOf(files[1..]);
      WrittenStep(bytes, decode, f, rest, o, |files|, total);
      if f.flags % 2 == 0 && Safe(decode(f.name)) && total + f.size <= MAX_BYTES {
        WrittenWalks(bytes, decode, files[1..], o + |HeaderOf(f)|, total + f.size);
      } else {
        Refused(Walk(bytes, decode, o, |files|, total), o + |DirectoryOf(files)|);
      }
    }
  }

  lemma NothingToWalk(bytes: seq<Byte>, decode: seq<Byte> -> string, o: nat, total: nat)
    requires total <= MAX_BYTES
    ensures AllValid([]) && MayUnpack(decode, [], MAX_BYTES - total)
    ensures WalkedAs(Walk(bytes, decode, o, 0, total), true, o + |DirectoryOf([])|)
  {
  }

  lemma Refused(walked: (Verdict, nat), end: nat)
    requires walked.0 != Acceptable
    ensures WalkedAs(walked, false, end)
  {
  }

  lemma FirstFile(decode: seq<Byte> -> string, files: seq<File>, room: int)
    requires files != [] && AllValid(files)
    ensures ValidFile(files[0]) && AllValid(files[1..])
    ensures DirectoryOf(files) == HeaderOf(files[0]) + DirectoryOf(files[1..])
    ensures MayUnpack(decode, files, room) <==>
      && files[0].flags % 2 == 0 && Safe(decode(files[0].name)) && files[0].size <= room
      && MayUnpack(decode, files[1..], room - files[0].size)
  {
    hide ValidFile, HeaderOf, Safe;
    assert forall i :: 0 <= i < |files[1..]| ==> files[1..][i] == files[i + 1];
  }

  lemma WrittenStep(bytes: seq<Byte>, decode: seq<Byte> -> string, f: File, rest: seq<Byte>, o: nat, left: nat, total: nat)
    requires ValidFile(f) && total <= MAX_BYTES && left > 0 && o <= |bytes| && HeaderOf(f) + rest <= bytes[o..]
    ensures o + |HeaderOf(f)| <= |bytes| && rest <= bytes[o + |HeaderOf(f)|..]
    ensures
      if f.flags % 2 == 0 && Safe(decode(f.name)) && total + f.size <= MAX_BYTES
      then Walk(bytes, decode, o, left, total) == Walk(bytes, decode, o + |HeaderOf(f)|, left - 1, total + f.size)
      else Walk(bytes, decode, o, left, total).0 != Acceptable
  {
    HeaderReads(bytes, o, f, rest);
    WithoutRest(bytes, o, HeaderOf(f), rest);
    FirstStep(bytes, decode, o, left, total);
    hide Walk, HeaderOf, HeaderFits, EndAt, SizeAt, NameAt, Safe, Faulty, Encrypted;
  }

  /**
   * A package that was written, with anything before its central directory, is
   * accepted exactly when it has at most 256 files, none encrypted or unsafely
   * named, of at most 8 MiB together.
   */
  lemma WrittenPackage(decode: seq<Byte> -> string, before: seq<Byte>, files: seq<File>, disks: seq<Byte>)
    requires AllValid(files)
    requires |disks| == 6 && |files| < 0x1_0000 && |before| + |DirectoryOf(files)| < 0x1_0000_0000
    ensures
      var directory := DirectoryOf(files);
      var bytes := before + (directory + EndOf(disks, |files|, |directory|, |before|));
      var eocd := |before| + |directory|;
      && EndRecordAt(bytes, eocd) && eocd + 22 <= |bytes|
      && (InspectAt(bytes, decode, eocd) == Acceptable
          <==> |files| <= 256 && MayUnpack(decode, files, 8 * 1024 * 1024))
  {
    var directory := DirectoryOf(files);
    var end := EndOf(disks, |files|, |directory|, |before|);
    var bytes := before + (directory + end);
    assert bytes[0..] == bytes;
    Skip(bytes, 0, before, directory + end);
    hide Walk, EndOf, U16, U32, DirectoryOf, EndRecordAt, MayUnpack, AllValid;
    EndReads(bytes, |before| + |directory|, disks, |files|, |directory|, |before|, directory);
    WithoutRest(bytes, |before|, directory, end);
    WrittenWalks(bytes, decode, files, |before|, 0);
  }

  lemma EndReads(bytes: seq<Byte>, eocd: nat, disks: seq<Byte>, count: nat, size: nat, start: nat, directory: seq<Byte>)
    requires |disks| == 6 && count < 0x1_0000 && size < 0x1_0000_0000 && start < 0x1_0000_0000
    requires |bytes| == eocd + |EndOf(disks, count, size, start)| && eocd == start + |directory|
    requires directory + EndOf(disks, count, size, start) <= bytes[start..]
    ensures |bytes| == eocd + 22 && EndRecordAt(bytes, eocd)
    ensures U16(bytes, eocd + 10) == count && U32(bytes, eocd + 12) == size && U32(bytes, eocd + 16) == start
  {
    hide U16, U32, Written16, Written32;
    var s4 := Written32(start) + [0, 0];
    var s3 := Written32(size) + s4;
    var s2 := Written16(count) + s3;
    assert EndOf(disks, count, size, start) == [0x50, 0x4b, 5, 6] + (disks + s2);
    Skip(bytes, start, directory, EndOf(disks, count, size, start));
    Signatures();
    Field32(bytes, eocd, END_SIGNATURE, disks + s2);
    Skip(bytes, eocd + 4, disks, s2);
    Field16(bytes, eocd + 10, count, s3);
    Field32(bytes, eocd + 12, size, s4);
    Field32(bytes, eocd + 16, start, [0, 0]);
    EndLength(disks, count, size, start);
  }

  lemma EndLength(disks: seq<Byte>, count: nat, size: nat, start: nat)
    requires |disks| == 6 && count < 0x1_0000 && size < 0x1_0000_0000 && start < 0x1_0000_0000
    ensures |EndOf(disks, count, size, start)| == 22
  {
  }
}
