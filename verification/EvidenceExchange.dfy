/** A result file on its way from the worker to the client that asked for it. */
module EvidenceExchange {
  import opened Common
  import opened Base64

  const MAX_ENTRY: nat := 64 * 1024 * 1024
  const MAX_ENTRIES: nat := 64
  const MAX_TOTAL: nat := 128 * 1024 * 1024
  const MAX_CONTENT: nat := 256 * 1024
  const WINDOW: nat := 128 * 1024
  const MAX_PREVIEW: nat := 257 * 1024

  datatype Entry = Entry(name: string, sha256: string, sizeBytes: int, mediaType: string)

  datatype Error = NotAvailable | LimitExceeded | Corrupt

  datatype Reply = Reply(name: string, sha256: string, sizeBytes: nat, mediaType: string,
                         base64: string, truncated: bool)

  datatype Content = Content(bytes: seq<Byte>, sha256: string, truncated: bool, mediaType: string)

  // ------------------------------------------------------------------- limits

  function Sum(entries: seq<Entry>): int
  {
    if entries == [] then 0 else Sum(entries[..|entries| - 1]) + entries[|entries| - 1].sizeBytes
  }

  predicate SizesOk(entries: seq<Entry>)
  {
    forall i :: 0 <= i < |entries| ==> 0 <= entries[i].sizeBytes <= MAX_ENTRY
  }

  /** What both sides demand of a manifest. */
  predicate WithinLimits(entries: seq<Entry>)
  {
    |entries| <= MAX_ENTRIES && SizesOk(entries) && Sum(entries) <= MAX_TOTAL
  }

  lemma {:induction false} SumGrows(entries: seq<Entry>, k: nat)
    requires SizesOk(entries) && k <= |entries|
    ensures 0 <= Sum(entries[..k]) <= Sum(entries)
    decreases |entries|
  {
    if k == |entries| {
      assert entries[..k] == entries;
      if entries != [] { SumGrows(entries[..k - 1], k - 1); }
    } else {
      var before := entries[..|entries| - 1];
      assert before[..k] == entries[..k];
      SumGrows(before, k);
    }
  }

  /** `assertEvidenceLimits` of the worker, which stops at the first entry over a limit. */
  method AssertEvidenceLimits(entries: seq<Entry>) returns (ok: bool)
    ensures ok == WithinLimits(entries)
  {
    if |entries| > MAX_ENTRIES { return false; }
    var total := 0;
    for i := 0 to |entries|
      invariant SizesOk(entries[..i]) && total == Sum(entries[..i]) <= MAX_TOTAL
    {
      if entries[i].sizeBytes < 0 || entries[i].sizeBytes > MAX_ENTRY { return false; }
      total := total + entries[i].sizeBytes;
      assert entries[..i + 1][..i] == entries[..i];
      if total > MAX_TOTAL {
        if SizesOk(entries) { SumGrows(entries, i + 1); }
        return false;
      }
    }
    assert entries[..|entries|] == entries;
    ok := true;
  }

  /** What the client asks of an entry besides its size; `isHash` is the pattern of a digest. */
  predicate Describes(isHash: string -> bool, entry: Entry)
  {
    isHash(entry.sha256) && entry.mediaType != ""
  }

  predicate Described(isHash: string -> bool, entries: seq<Entry>)
  {
    forall i :: 0 <= i < |entries| ==> Describes(isHash, entries[i])
  }

  /** `evidence` of the client on the manifest it received, which adds everything up last. */
  method ManifestAccepted(isHash: string -> bool, id: string, jobId: string, entries: seq<Entry>)
    returns (r: Result<seq<Entry>, Error>)
    ensures r == Ok(entries) <==> jobId == id && Described(isHash, entries) && WithinLimits(entries)
    ensures r == Err(LimitExceeded) <==>
      jobId == id && Described(isHash, entries) && |entries| <= MAX_ENTRIES && SizesOk(entries) && Sum(entries) > MAX_TOTAL
    ensures r.Ok? ==> r == Ok(entries)
    ensures r.Err? ==> r.error in {Corrupt, LimitExceeded}
  {
    if jobId != id || |entries| > MAX_ENTRIES { return Err(Corrupt); }
    for i := 0 to |entries|
      invariant SizesOk(entries[..i]) && Described(isHash, entries[..i])
    {
      var e := entries[i];
      if !isHash(e.sha256) || e.sizeBytes < 0 || e.sizeBytes > MAX_ENTRY || e.mediaType == "" { return Err(Corrupt); }
      assert entries[..i + 1] == entries[..i] + [e];
    }
    assert entries[..|entries|] == entries;
    var total := 0;
    for i := 0 to |entries|
      invariant total == Sum(entries[..i])
    {
      assert entries[..i + 1][..i] == entries[..i];
      total := total + entries[i].sizeBytes;
    }
    if total > MAX_TOTAL { return Err(LimitExceeded); }
    r := Ok(entries);
  }

  // ------------------------------------------------------------------- preview

  function Digits(n: nat): (s: seq<Byte>)
    ensures |s| >= 1
  {
    if n < 10 then [48 + n] else Digits(n / 10) + [48 + n % 10]
  }

  /** The number that decimal digits stand for. */
  function NumberOf(s: seq<Byte>): int
  {
    if s == [] then 0 else NumberOf(s[..|s| - 1]) * 10 + (s[|s| - 1] as int - 48)
  }

  /** The digits are decimal digits, and read back as the number. */
  lemma {:induction false} DigitsReadBack(n: nat)
    ensures NumberOf(Digits(n)) == n && forall i :: 0 <= i < |Digits(n)| ==> 48 <= Digits(n)[i] < 58
  {
    if n >= 10 {
      DigitsReadBack(n / 10);
      assert Digits(n)[..|Digits(n)| - 1] == Digits(n / 10);
    }
  }

  lemma {:induction false} DigitsShort(n: nat, k: nat, power: nat)
    requires k > 0 && power == Power10(k) && n < power
    ensures |Digits(n)| <= k
    decreases k
  {
    if n >= 10 {
      assert Power10(k) == 10 * Power10(k - 1);
      DigitsShort(n / 10, k - 1, Power10(k - 1));
    }
  }

  function Power10(k: nat): nat
  {
    if k == 0 then 1 else 10 * Power10(k - 1)
  }

  /** The bytes of the note between the two windows; the ellipsis is three bytes in UTF-8. */
  function Note(omitted: nat): (s: seq<Byte>)
    ensures |s| == 24 + |Digits(omitted)|
  {
    [10, 0xE2, 0x80, 0xA6, 91] + Digits(omitted)
    + [32, 98, 121, 116, 101, 115, 32, 111, 109, 105, 116, 116, 101, 100, 93]
    + [0xE2, 0x80, 0xA6, 10]
  }

  function Preview(file: seq<Byte>): seq<Byte>
    requires |file| > MAX_CONTENT
  {
    file[..WINDOW] + Note(|file| - 2 * WINDOW) + file[|file| - WINDOW..]
  }

  /** A preview is the beginning, the note and the end, and fits the client's bound. */
  lemma PreviewShape(file: seq<Byte>)
    requires MAX_CONTENT < |file| <= MAX_ENTRY
    ensures
      var p := Preview(file);
      && |p| <= MAX_PREVIEW && |p| == 2 * WINDOW + |Note(|file| - 2 * WINDOW)|
      && p[..WINDOW] == file[..WINDOW] && p[|p| - WINDOW..] == file[|file| - WINDOW..]
      && p[WINDOW..|p| - WINDOW] == Note(|file| - 2 * WINDOW)
      && WINDOW == 128 * 1024 && NumberOf(Digits(|file| - 2 * WINDOW)) == |file| - 256 * 1024
  {
    DigitsReadBack(|file| - 2 * WINDOW);
    assert Power10(8) == 100_000_000 by {
      assert Power10(4) == 10_000;
    }
    DigitsShort(|file| - 2 * WINDOW, 8, Power10(8));
    hide Note, Digits;
    ThreeParts(file[..WINDOW], Note(|file| - 2 * WINDOW), file[|file| - WINDOW..]);
  }

  lemma ThreeParts(a: seq<Byte>, b: seq<Byte>, c: seq<Byte>)
    ensures
      var p := a + b + c;
      p[..|a|] == a && p[|a|..|a| + |b|] == b && p[|a| + |b|..] == c
  {
  }

  // -------------------------------------------------------------------- worker

  /** The first entry of that name. */
  predicate FirstNamed(entries: seq<Entry>, name: string, k: nat)
  {
    k < |entries| && entries[k].name == name && forall j :: 0 <= j < k ==> entries[j].name != name
  }

  function Shown(file: seq<Byte>, complete: bool): seq<Byte>
  {
    if !complete && |file| > MAX_CONTENT then Preview(file) else file
  }

  /** `evidenceContent` of the worker; `sha` is the digest, `file` what is on disk. */
  method EvidenceContent(sha: seq<Byte> -> string, entries: seq<Entry>, name: string, complete: bool, file: seq<Byte>)
    returns (r: Result<Reply, Error>)
    ensures !WithinLimits(entries) ==> r == Err(LimitExceeded)
    ensures WithinLimits(entries) && (forall k :: 0 <= k < |entries| ==> entries[k].name != name) ==> r == Err(NotAvailable)
    ensures WithinLimits(entries) ==> forall k: nat :: FirstNamed(entries, name, k) ==>
      r == if |file| > MAX_ENTRY then Err(LimitExceeded)
           else if |file| != entries[k].sizeBytes || sha(file) != entries[k].sha256 then Err(Corrupt)
           else Ok(Reply(name, entries[k].sha256, |file|, entries[k].mediaType, Encode(Shown(file, complete)),
                         !complete && |file| > MAX_CONTENT))
  {
    hide Encode, Preview, WithinLimits;
    var ok := AssertEvidenceLimits(entries);
    if !ok { return Err(LimitExceeded); }
    var k := 0;
    while k < |entries| && entries[k].name != name
      invariant 0 <= k <= |entries| && forall j :: 0 <= j < k ==> entries[j].name != name
    {
      k := k + 1;
    }
    if k == |entries| { return Err(NotAvailable); }
    var entry := entries[k];
    assert forall j: nat :: FirstNamed(entries, name, j) ==> j == k;
    if |file| > MAX_ENTRY { return Err(LimitExceeded); }
    if |file| != entry.sizeBytes { return Err(Corrupt); }
    if sha(file) != entry.sha256 { return Err(Corrupt); }
    var contentBytes, truncated := file, false;
    if !complete && |file| > MAX_CONTENT {
      truncated := true;
      contentBytes := Preview(file);
    }
    r := Ok(Reply(entry.name, entry.sha256, |file|, entry.mediaType, Encode(contentBytes), truncated));
  }

  // -------------------------------------------------------------------- client

  /** `fetchEvidenceContent` on the reply it received. */
  function Fetched(sha: seq<Byte> -> string, isHash: string -> bool, name: string, complete: bool, m: Reply)
    : Result<Content, Error>
  {
    if m.name != name || !isHash(m.sha256) || m.mediaType == "" || m.sizeBytes > MAX_ENTRY then Err(Corrupt)
    else if |m.base64| > (MAX_ENTRY + 2) / 3 * 4 then Err(LimitExceeded)
    else
      var bytes := Decode(m.base64);
      if bytes.None? || (complete && m.truncated) then Err(Corrupt)
      else if m.truncated && |bytes.value| > MAX_PREVIEW then Err(LimitExceeded)
      else if !m.truncated && (|bytes.value| != m.sizeBytes || sha(bytes.value) != m.sha256) then Err(Corrupt)
      else Ok(Content(bytes.value, m.sha256, m.truncated, m.mediaType))
  }

  method FetchEvidenceContent(sha: seq<Byte> -> string, isHash: string -> bool, name: string, complete: bool, m: Reply)
    returns (r: Result<Content, Error>)
    ensures r == Fetched(sha, isHash, name, complete, m)
  {
    hide Decode;
    if m.name != name || !isHash(m.sha256) || m.mediaType == "" || m.sizeBytes > MAX_ENTRY { return Err(Corrupt); }
    var maxEncoded := (MAX_ENTRY + 2) / 3 * 4;
    if |m.base64| > maxEncoded { return Err(LimitExceeded); }
    var bytes := DecodeBase64(m.base64);
    if bytes.None? { return Err(Corrupt); }
    if complete && m.truncated { return Err(Corrupt); }
    if m.truncated && |bytes.value| > MAX_PREVIEW { return Err(LimitExceeded); }
    if !m.truncated && (|bytes.value| != m.sizeBytes || sha(bytes.value) != m.sha256) { return Err(Corrupt); }
    r := Ok(Content(bytes.value, m.sha256, m.truncated, m.mediaType));
  }

  // -------------------------------------------------------------- the exchange

  /** The worker's reply for a file that matches its entry. */
  function HonestReply(entry: Entry, file: seq<Byte>, complete: bool): Reply
  {
    Reply(entry.name, entry.sha256, |file|, entry.mediaType, Encode(Shown(file, complete)), !complete && |file| > MAX_CONTENT)
  }

  /** What is shown never makes the text longer than the client admits. */
  lemma ShownFits(file: seq<Byte>, complete: bool)
    requires |file| <= MAX_ENTRY
    ensures |Encode(Shown(file, complete))| <= (MAX_ENTRY + 2) / 3 * 4
    ensures !complete && |file| > MAX_CONTENT ==> |Shown(file, complete)| <= MAX_PREVIEW
  {
    if !complete && |file| > MAX_CONTENT { PreviewShape(file); }
    hide Preview, Encode;
  }

  /** The exact bytes, or, of a long file that was not asked for complete, the preview. */
  predicate Delivered(entry: Entry, file: seq<Byte>, complete: bool, content: Content)
  {
    && content.sha256 == entry.sha256 && content.mediaType == entry.mediaType
    && (complete || |file| <= MAX_CONTENT ==> content.bytes == file && !content.truncated)
    && (!complete && |file| > MAX_CONTENT ==>
          content.truncated && content.bytes == Preview(file) && |content.bytes| <= MAX_PREVIEW)
  }

  predicate Matches(sha: seq<Byte> -> string, entry: Entry, file: seq<Byte>)
  {
    |file| == entry.sizeBytes && sha(file) == entry.sha256
  }

  /** The client accepts the worker's reply for every file that matches its recorded size and digest. */
  lemma ExchangeSucceeds(sha: seq<Byte> -> string, isHash: string -> bool, entry: Entry, file: seq<Byte>, complete: bool)
    requires Matches(sha, entry, file) && |file| <= MAX_ENTRY && isHash(entry.sha256) && entry.mediaType != ""
    ensures
      var r := Fetched(sha, isHash, entry.name, complete, HonestReply(entry, file, complete));
      r.Ok? && Delivered(entry, file, complete, r.value)
  {
    ShownFits(file, complete);
    RoundTrip(Shown(file, complete));
    hide Encode, Decode, Preview;
  }

  /**
   * The whole way of a file: the client gets what is on disk exactly if the
   * manifest keeps the limits and the first entry of the name describes and
   * matches the file, and an error in every other case.
   */
  method Exchange(sha: seq<Byte> -> string, isHash: string -> bool, entries: seq<Entry>, name: string, complete: bool,
                  file: seq<Byte>) returns (r: Result<Content, Error>)
    ensures r.Ok? <==>
      && WithinLimits(entries)
      && exists k: nat :: FirstNamed(entries, name, k) && Matches(sha, entries[k], file) && Describes(isHash, entries[k])
    ensures r.Ok? ==> forall k: nat :: FirstNamed(entries, name, k) ==> Delivered(entries[k], file, complete, r.value)
  {
    hide Encode, Decode, Preview, Delivered, Shown, Sum;
    var reply := EvidenceContent(sha, entries, name, complete, file);
    FirstIfAny(entries, name);
    if reply.Err? { return Err(reply.error); }
    r := FetchEvidenceContent(sha, isHash, name, complete, reply.value);
    ghost var k: nat :| FirstNamed(entries, name, k);
    assert reply.value == HonestReply(entries[k], file, complete);
    if Describes(isHash, entries[k]) { ExchangeSucceeds(sha, isHash, entries[k], file, complete); }
    forall j: nat | FirstNamed(entries, name, j) ensures j == k {
    }
  }

  lemma {:induction false} FirstIfAny(entries: seq<Entry>, name: string)
    ensures (exists k: nat :: FirstNamed(entries, name, k)) <==> exists i :: 0 <= i < |entries| && entries[i].name == name
  {
    if i :| 0 <= i < |entries| && entries[i].name == name {
      var k: nat := 0;
      while entries[k].name != name
        invariant k <= i && forall j :: 0 <= j < k ==> entries[j].name != name
        decreases i - k
      {
        k := k + 1;
      }
      assert FirstNamed(entries, name, k);
    }
  }

  /** Conversely: bytes that the client takes for a whole file are the file, whatever the worker sent. */
  lemma CompleteIsExact(sha: seq<Byte> -> string, isHash: string -> bool, name: string, complete: bool, m: Reply, file: seq<Byte>)
    requires forall x, y :: sha(x) == sha(y) ==> x == y
    requires m.sha256 == sha(file)
    requires
      var r := Fetched(sha, isHash, name, complete, m);
      r.Ok? && !r.value.truncated
    ensures Fetched(sha, isHash, name, complete, m).value.bytes == file
  {
    hide Decode;
    var r := Fetched(sha, isHash, name, complete, m).value;
    assert sha(r.bytes) == sha(file);
  }
}
