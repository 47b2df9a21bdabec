/** Base64 as both sides of the evidence exchange use it (section 4 of RFC 4648). */
module Base64 {
  import opened Common

  type Byte = b: int | 0 <= b < 256

  /** The alphabet: A-Z, a-z, 0-9, + and /. */
  function Sextet(v: nat): char
    requires v < 64
  {
    if v < 26 then ('A' as int + v) as char
    else if v < 52 then ('a' as int + v - 26) as char
    else if v < 62 then ('0' as int + v - 52) as char
    else if v == 62 then '+' else '/'
  }

  /** The value of a character of the alphabet, or 64. */
  function Value(c: char): (v: nat)
    ensures v <= 64
  {
    if 'A' <= c <= 'Z' then c as int - 'A' as int
    else if 'a' <= c <= 'z' then c as int - 'a' as int + 26
    else if '0' <= c <= '9' then c as int - '0' as int + 52
    else if c == '+' then 62
    else if c == '/' then 63
    else 64
  }

  predicate InAlphabet(c: char)
  {
    Value(c) < 64
  }

  lemma ValueOfSextet(v: nat)
    requires v < 64
    ensures Value(Sextet(v)) == v && Sextet(v) != '='
  {
  }

  const UPPER := "ABCDEFGHIJKLMNOPQRSTUVWXYZ"
  const LOWER := "abcdefghijklmnopqrstuvwxyz"
  const REST := "0123456789+/"

  /** The alphabet, written out. */
  lemma Alphabet(v: nat)
    requires v < 64
    ensures |UPPER + LOWER + REST| == 64 && Sextet(v) == (UPPER + LOWER + REST)[v]
  {
    assert |UPPER| == 26 && |LOWER| == 26 && |REST| == 12;
    if v < 26 {
      Upper(v);
    } else if v < 52 {
      Lower(v - 26);
    } else {
      DigitsAndSigns(v - 52);
    }
    hide Sextet, UPPER, LOWER, REST;
  }

  lemma Upper(v: nat)
    requires v < 26
    ensures |UPPER| == 26 && Sextet(v) == UPPER[v]
  {
  }

  lemma Lower(v: nat)
    requires v < 26
    ensures |LOWER| == 26 && Sextet(v + 26) == LOWER[v]
  {
  }

  lemma DigitsAndSigns(v: nat)
    requires v < 12
    ensures |REST| == 12 && Sextet(v + 52) == REST[v]
  {
  }

  function EncodeThree(a: Byte, b: Byte, c: Byte): (s: string)
    ensures |s| == 4
  {
    [Sextet(a / 4), Sextet(a % 4 * 16 + b / 16), Sextet(b % 16 * 4 + c / 64), Sextet(c % 64)]
  }

  function EncodeTwo(a: Byte, b: Byte): (s: string)
    ensures |s| == 4
  {
    [Sextet(a / 4), Sextet(a % 4 * 16 + b / 16), Sextet(b % 16 * 4), '=']
  }

  function EncodeOne(a: Byte): (s: string)
    ensures |s| == 4
  {
    [Sextet(a / 4), Sextet(a % 4 * 16), '=', '=']
  }

  function Encode(bytes: seq<Byte>): (s: string)
    ensures |s| == (|bytes| + 2) / 3 * 4
  {
    if bytes == [] then ""
    else if |bytes| == 1 then EncodeOne(bytes[0])
    else if |bytes| == 2 then EncodeTwo(bytes[0], bytes[1])
    else EncodeThree(bytes[0], bytes[1], bytes[2]) + Encode(bytes[3..])
  }

  /** A group of four characters, decoded; `last` says whether padding is allowed. */
  function DecodeFour(s: string, last: bool): Option<seq<Byte>>
    requires |s| == 4
  {
    var a, b, c, d := Value(s[0]), Value(s[1]), Value(s[2]), Value(s[3]);
    if a == 64 || b == 64 then None
    else if c < 64 && d < 64 then
      Some([a * 4 + b / 16, b % 16 * 16 + c / 4, c % 4 * 64 + d])
    else if last && c < 64 && s[3] == '=' then
      Some([a * 4 + b / 16, b % 16 * 16 + c / 4])
    else if last && s[2] == '=' && s[3] == '=' then
      Some([a * 4 + b / 16])
    else None
  }

  function Decode(s: string): Option<seq<Byte>>
    decreases |s|
  {
    if s == "" then Some([])
    else if |s| < 4 then None
    else
      var first, rest := DecodeFour(s[..4], |s| == 4), Decode(s[4..]);
      if first.None? || rest.None? then None else Some(first.value + rest.value)
  }

  /** Three bytes are one number of 24 bits, written in base 64 from the most significant digit on. */
  lemma SixBitsEach(a: Byte, b: Byte, c: Byte, n: nat)
    requires n == a * 0x10000 + b * 0x100 + c
    ensures 0 <= n / 0x40000 < 64
    ensures EncodeThree(a, b, c) == [Sextet(n / 0x40000), Sextet(n / 0x1000 % 64), Sextet(n / 64 % 64), Sextet(n % 64)]
    ensures EncodeTwo(a, b)[..3] == EncodeThree(a, b, 0)[..3] && EncodeTwo(a, b)[3] == '='
    ensures EncodeOne(a)[..2] == EncodeThree(a, 0, 0)[..2] && EncodeOne(a)[2..] == "=="
  {
    Quotients(a / 4, a % 4 * 16 + b / 16, b % 16 * 4 + c / 64, c % 64, n);
    hide Sextet;
  }

  lemma Quotients(x: nat, y: nat, z: nat, w: nat, n: nat)
    requires x < 64 && y < 64 && z < 64 && w < 64 && n == x * 0x40000 + y * 0x1000 + z * 64 + w
    ensures n / 0x40000 == x && n / 0x1000 % 64 == y && n / 64 % 64 == z && n % 64 == w
  {
    assert n / 64 == x * 0x1000 + y * 64 + z;
    assert n / 0x1000 == x * 64 + y;
  }

  /** Three bytes as four groups of six bits, put together again. */
  lemma Regrouped(a: Byte, b: Byte, c: Byte)
    ensures
      var x: nat, y: nat, z: nat, w: nat := a / 4, a % 4 * 16 + b / 16, b % 16 * 4 + c / 64, c % 64;
      && x < 64 && y < 64 && z < 64 && w < 64
      && x * 4 + y / 16 == a && y % 16 * 16 + z / 4 == b && z % 4 * 64 + w == c
  {
  }

  lemma ThreeRoundTrip(a: Byte, b: Byte, c: Byte, last: bool)
    ensures DecodeFour(EncodeThree(a, b, c), last) == Some([a, b, c])
  {
    Regrouped(a, b, c);
    var x: nat, y: nat, z: nat, w: nat := a / 4, a % 4 * 16 + b / 16, b % 16 * 4 + c / 64, c % 64;
    ValueOfSextet(x);
    ValueOfSextet(y);
    ValueOfSextet(z);
    ValueOfSextet(w);
    hide Sextet, Value;
    assert EncodeThree(a, b, c) == [Sextet(x), Sextet(y), Sextet(z), Sextet(w)];
  }

  lemma TwoRoundTrip(a: Byte, b: Byte)
    ensures DecodeFour(EncodeTwo(a, b), true) == Some([a, b])
  {
    ValueOfSextet(a / 4);
    ValueOfSextet(a % 4 * 16 + b / 16);
    ValueOfSextet(b % 16 * 4);
    assert Value('=') == 64;
    hide Sextet, Value;
  }

  lemma OneRoundTrip(a: Byte)
    ensures DecodeFour(EncodeOne(a), true) == Some([a])
  {
    ValueOfSextet(a / 4);
    ValueOfSextet(a % 4 * 16);
    assert Value('=') == 64;
    hide Sextet, Value;
  }

  /** Decoding what was encoded gives the bytes back. */
  lemma {:induction false} RoundTrip(bytes: seq<Byte>)
    ensures Decode(Encode(bytes)) == Some(bytes)
  {
    hide EncodeOne, EncodeTwo, EncodeThree, DecodeFour, Encode, Decode;
    EncodeStep(bytes);
    if |bytes| == 1 {
      OneRoundTrip(bytes[0]);
      LastGroup(Encode(bytes));
      assert bytes == [bytes[0]];
    } else if |bytes| == 2 {
      TwoRoundTrip(bytes[0], bytes[1]);
      LastGroup(Encode(bytes));
      assert bytes == [bytes[0], bytes[1]];
    } else if |bytes| > 2 {
      ThreeRoundTrip(bytes[0], bytes[1], bytes[2], |Encode(bytes)| == 4);
      RoundTrip(bytes[3..]);
      DecodeStep(EncodeThree(bytes[0], bytes[1], bytes[2]), Encode(bytes[3..]));
      assert bytes == [bytes[0], bytes[1], bytes[2]] + bytes[3..];
    }
  }

  lemma EncodeStep(bytes: seq<Byte>)
    ensures bytes == [] ==> Encode(bytes) == "" && Decode("") == Some([])
    ensures |bytes| == 1 ==> Encode(bytes) == EncodeOne(bytes[0])
    ensures |bytes| == 2 ==> Encode(bytes) == EncodeTwo(bytes[0], bytes[1])
    ensures |bytes| > 2 ==> Encode(bytes) == EncodeThree(bytes[0], bytes[1], bytes[2]) + Encode(bytes[3..])
  {
  }

  lemma DecodeStep(head: string, tail: string)
    requires |head| == 4 && DecodeFour(head, tail == "").Some? && Decode(tail).Some?
    ensures Decode(head + tail) == Some(DecodeFour(head, tail == "").value + Decode(tail).value)
  {
    assert (head + tail)[..4] == head && (head + tail)[4..] == tail;
  }

  lemma LastGroup(s: string)
    requires |s| == 4
    ensures Decode(s) == DecodeFour(s, true)
  {
    hide DecodeFour;
    assert s[..4] == s && s[4..] == "";
    var first := DecodeFour(s, true);
    if first.Some? { assert first.value + [] == first.value; }
  }

  // ---------------------------------------------------------------- acceptance

  /** The pattern the client requires: groups of four, the last one possibly padded. */
  predicate WellFormed(s: string)
  {
    && |s| % 4 == 0
    && (forall i :: 0 <= i < |s| - 4 ==> InAlphabet(s[i]))
    && (s != "" ==>
          && InAlphabet(s[|s| - 4]) && InAlphabet(s[|s| - 3])
          && ((InAlphabet(s[|s| - 2]) && (InAlphabet(s[|s| - 1]) || s[|s| - 1] == '='))
              || (s[|s| - 2] == '=' && s[|s| - 1] == '=')))
  }

  lemma GroupAccepted(s: string, last: bool)
    requires |s| == 4
    ensures DecodeFour(s, last).Some? <==>
      && InAlphabet(s[0]) && InAlphabet(s[1])
      && ((InAlphabet(s[2]) && InAlphabet(s[3]))
          || (last && ((InAlphabet(s[2]) && s[3] == '=') || (s[2] == '=' && s[3] == '='))))
  {
  }

  /** Exactly the texts of that pattern can be decoded. */
  lemma {:induction false} DecodableExactly(s: string)
    ensures Decode(s).Some? <==> WellFormed(s)
    decreases |s|
  {
    if |s| >= 4 {
      var head, rest := s[..4], s[4..];
      GroupAccepted(head, |s| == 4);
      DecodableExactly(rest);
      hide DecodeFour, Value;
      assert forall i :: 0 <= i < |rest| ==> rest[i] == s[i + 4];
      assert forall i :: 0 <= i < 4 ==> head[i] == s[i];
      if |s| > 4 { WellFormedSplit(s); }
    }
  }

  lemma WellFormedSplit(s: string)
    requires |s| > 4
    ensures WellFormed(s) <==> (forall i :: 0 <= i < 4 ==> InAlphabet(s[i])) && |s| >= 8 && WellFormed(s[4..])
  {
    hide InAlphabet;
    var rest := s[4..];
    assert forall i :: 0 <= i < |rest| ==> rest[i] == s[i + 4];
    if WellFormed(rest) && |s| >= 8 && (forall i :: 0 <= i < 4 ==> InAlphabet(s[i])) {
      forall i | 0 <= i < |s| - 4 ensures InAlphabet(s[i]) {
        if i >= 4 { assert InAlphabet(rest[i - 4]); }
      }
    }
  }

  /** `decodeBase64`. */
  method DecodeBase64(s: string) returns (bytes: Option<seq<Byte>>)
    ensures bytes == Decode(s)
    ensures bytes.Some? <==> WellFormed(s)
  {
    DecodableExactly(s);
    hide WellFormed, DecodeFour;
    var done: seq<Byte> := [];
    var i := 0;
    assert s[0..] == s;
    assert forall rest: seq<Byte> :: done + rest == rest;
    while i < |s|
      invariant 0 <= i <= |s|
      invariant Decode(s) == (var rest := Decode(s[i..]); if rest.None? then None else Some(done + rest.value))
      decreases |s| - i
    {
      var rest := s[i..];
      if |rest| < 4 { return None; }
      var four := DecodeFour(s[i..i + 4], i + 4 == |s|);
      assert rest[..4] == s[i..i + 4] && rest[4..] == s[i + 4..];
      if four.None? { return None; }
      ghost var later := Decode(s[i + 4..]);
      if later.Some? { AppendAssoc(done, four.value, later.value); }
      done := done + four.value;
      i := i + 4;
    }
    assert s[|s|..] == "" && done + [] == done;
    bytes := Some(done);
  }
}
