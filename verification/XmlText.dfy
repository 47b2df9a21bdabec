/** Escaping of run text in `word/document.xml`, and reading it back. */
module XmlText {
  import opened Common

  // ---------------------------------------------------------------- escaping

  /** `value.replace(/c/g, rep)` for a single character `c`. */
  function ReplaceChar(s: string, c: char, rep: string): string
  {
    if s == "" then "" else (if s[0] == c then rep else [s[0]]) + ReplaceChar(s[1..], c, rep)
  }

  /** The five successive replacements of `escapeXml`. */
  function EscapeXml(s: string): string
  {
    var a := ReplaceChar(s, '&', "&amp;");
    var b := ReplaceChar(a, '<', "&lt;");
    var c := ReplaceChar(b, '>', "&gt;");
    var d := ReplaceChar(c, '"', "&quot;");
    ReplaceChar(d, '\'', "&apos;")
  }

  /** What one character becomes. */
  function EscapeChar(c: char): string
  {
    if c == '&' then "&amp;"
    else if c == '<' then "&lt;"
    else if c == '>' then "&gt;"
    else if c == '"' then "&quot;"
    else if c == '\'' then "&apos;"
    else [c]
  }

  function EscapeEach(s: string): string
  {
    if s == "" then "" else EscapeChar(s[0]) + EscapeEach(s[1..])
  }

  lemma {:induction false} ReplaceCharAppend(a: string, b: string, c: char, rep: string)
    ensures ReplaceChar(a + b, c, rep) == ReplaceChar(a, c, rep) + ReplaceChar(b, c, rep)
  {
    if a == "" {
      assert a + b == b;
    } else {
      assert (a + b)[1..] == a[1..] + b;
      ReplaceCharAppend(a[1..], b, c, rep);
    }
  }

  lemma {:induction false} ReplaceCharAbsent(s: string, c: char, rep: string)
    requires c !in s
    ensures ReplaceChar(s, c, rep) == s
  {
    if s != "" {
      ReplaceCharAbsent(s[1..], c, rep);
    }
  }

  lemma ReplaceCharOne(x: char, c: char, rep: string)
    ensures ReplaceChar([x], c, rep) == if x == c then rep else [x]
  {
    assert [x][1..] == "";
  }

  /** On a single character the five replacements never touch each other's output. */
  lemma EscapeOneChar(x: char)
    ensures EscapeXml([x]) == EscapeChar(x)
  {
    ReplaceCharOne(x, '&', "&amp;");
    if x == '&' {
      AbsentFromFive("&amp;", '<', "&lt;", '>', "&gt;");
    } else {
      ReplaceCharOne(x, '<', "&lt;");
      if x == '<' {
        AbsentFromFive("&lt;", '>', "&gt;", '>', "&gt;");
      } else {
        ReplaceCharOne(x, '>', "&gt;");
        if x == '>' {
          AbsentFromFive("&gt;", '"', "&quot;", '"', "&quot;");
        } else {
          ReplaceCharOne(x, '"', "&quot;");
          if x == '"' {
            ReplaceCharAbsent("&quot;", '\'', "&apos;");
          } else {
            ReplaceCharOne(x, '\'', "&apos;");
          }
        }
      }
    }
  }

  lemma AbsentFromFive(s: string, c: char, cRep: string, d: char, dRep: string)
    requires c !in s && d !in s && '"' !in s && '\'' !in s
    ensures ReplaceChar(s, c, cRep) == s == ReplaceChar(s, d, dRep)
    ensures ReplaceChar(s, '"', "&quot;") == s == ReplaceChar(s, '\'', "&apos;")
  {
    ReplaceCharAbsent(s, c, cRep);
    ReplaceCharAbsent(s, d, dRep);
    ReplaceCharAbsent(s, '"', "&quot;");
    ReplaceCharAbsent(s, '\'', "&apos;");
  }

  lemma EscapeXmlAppend(s: string, t: string)
    ensures EscapeXml(s + t) == EscapeXml(s) + EscapeXml(t)
  {
    ReplaceCharAppend(s, t, '&', "&amp;");
    var a, a' := ReplaceChar(s, '&', "&amp;"), ReplaceChar(t, '&', "&amp;");
    ReplaceCharAppend(a, a', '<', "&lt;");
    var b, b' := ReplaceChar(a, '<', "&lt;"), ReplaceChar(a', '<', "&lt;");
    ReplaceCharAppend(b, b', '>', "&gt;");
    var c, c' := ReplaceChar(b, '>', "&gt;"), ReplaceChar(b', '>', "&gt;");
    ReplaceCharAppend(c, c', '"', "&quot;");
    ReplaceCharAppend(ReplaceChar(c, '"', "&quot;"), ReplaceChar(c', '"', "&quot;"), '\'', "&apos;");
  }

  /** The five passes over the text are one pass that maps each character on its own. */
  lemma {:induction false} EscapeIsPerCharacter(s: string)
    ensures EscapeXml(s) == EscapeEach(s)
  {
    if s != "" {
      assert s == [s[0]] + s[1..];
      EscapeXmlAppend([s[0]], s[1..]);
      EscapeOneChar(s[0]);
      EscapeIsPerCharacter(s[1..]);
    }
  }

  /** Escaped text holds no markup delimiter, so it cannot open or close an element. */
  lemma {:induction false} EscapedHasNoMarkup(s: string)
    ensures '<' !in EscapeXml(s) && '>' !in EscapeXml(s)
  {
    EscapeIsPerCharacter(s);
    if s != "" {
      EscapeIsPerCharacter(s[1..]);
      EscapedHasNoMarkup(s[1..]);
    }
  }

  // -------------------------------------------------------------- unescaping

  function HexValue(c: char): (v: Option<nat>)
  {
    if '0' <= c <= '9' then Some(c as nat - '0' as nat)
    else if 'a' <= c <= 'f' then Some(c as nat - 'a' as nat + 10)
    else if 'A' <= c <= 'F' then Some(c as nat - 'A' as nat + 10)
    else None
  }

  predicate IsDigit(c: char, radix: nat)
  {
    HexValue(c).Some? && HexValue(c).value < radix
  }

  /** Length of the longest run of digits at the start of `s`. */
  function DigitRun(s: string, radix: nat): (n: nat)
    ensures n <= |s|
  {
    if s != "" && IsDigit(s[0], radix) then 1 + DigitRun(s[1..], radix) else 0
  }

  function ParseDigits(s: string, radix: nat, acc: nat): nat
  {
    if s == "" || HexValue(s[0]).None? then acc
    else ParseDigits(s[1..], radix, acc * radix + HexValue(s[0]).value)
  }

  /**
   * `String.fromCodePoint`; `None` is its RangeError. A surrogate on its own is
   * read as U+FFFD, which is how it would be written out.
   */
  function FromCodePoint(n: nat): (r: Option<string>)
    ensures r.Some? ==> |r.value| == 1
  {
    if n > 0x10FFFF then None
    else if 0xD800 <= n < 0xE000 then Some("\U{FFFD}")
    else Some([n as char])
  }

  datatype Entity = NoEntity | Entity(length: nat, text: Option<string>)

  predicate HasPrefix(s: string, p: string)
  {
    |p| <= |s| && s[..|p|] == p
  }

  /** The reference at the very start of `s`, as the pattern of `unescapeXml` matches it. */
  function EntityAt(s: string): (e: Entity)
    ensures e.Entity? ==> 0 < e.length <= |s|
    ensures e.Entity? && e.text.Some? ==> e.text.value != ""
  {
    if HasPrefix(s, "&amp;") then Entity(5, Some("&"))
    else if HasPrefix(s, "&lt;") then Entity(4, Some("<"))
    else if HasPrefix(s, "&gt;") then Entity(4, Some(">"))
    else if HasPrefix(s, "&quot;") then Entity(6, Some("\""))
    else if HasPrefix(s, "&apos;") then Entity(6, Some("'"))
    else if HasPrefix(s, "&#x") then NumericAt(s, 3, 16)
    else if HasPrefix(s, "&#") then NumericAt(s, 2, 10)
    else NoEntity
  }

  function NumericAt(s: string, from: nat, radix: nat): (e: Entity)
    requires 0 < from <= |s|
    ensures e.Entity? ==> 0 < e.length <= |s|
    ensures e.Entity? && e.text.Some? ==> e.text.value != ""
  {
    var n := DigitRun(s[from..], radix);
    if n > 0 && from + n < |s| && s[from + n] == ';' then
      Entity(from + n + 1, FromCodePoint(ParseDigits(s[from..from + n], radix, 0)))
    else NoEntity
  }

  /** `unescapeXml`; `None` when a numeric reference is out of range. */
  function UnescapeXml(s: string): (r: Option<string>)
    ensures r.Some? ==> (r.value == "" <==> s == "")
  {
    if s == "" then Some("")
    else
      match EntityAt(s)
      case NoEntity =>
        (var rest := UnescapeXml(s[1..]);
         if rest.None? then None else Some([s[0]] + rest.value))
      case Entity(n, text) =>
        (var rest := UnescapeXml(s[n..]);
         if text.None? || rest.None? then None else Some(text.value + rest.value))
  }

  /** The reference that stands for one character is read back as that character. */
  lemma UnescapeEscapedChar(c: char, rest: string)
    ensures UnescapeXml(EscapeChar(c) + rest)
         == if UnescapeXml(rest).None? then None else Some([c] + UnescapeXml(rest).value)
  {
    hide EntityAt;
    var e := EscapeChar(c);
    if |e| == 1 {
      PlainFirst(c, rest);
      NoEntityWithoutAmpersand(e + rest);
    } else {
      assert (e + rest)[|e|..] == rest;
      EntityOfEscaped(c, rest);
    }
  }

  lemma PlainFirst(c: char, rest: string)
    requires |EscapeChar(c)| == 1
    ensures EscapeChar(c) == [c] && ([c] + rest)[0] != '&' && ([c] + rest)[1..] == rest
  {
  }

  lemma DiffersAt(s: string, p: string, k: nat)
    requires k < |p| && (k < |s| ==> s[k] != p[k])
    ensures !HasPrefix(s, p)
  {
  }

  lemma NoEntityWithoutAmpersand(s: string)
    requires s == "" || s[0] != '&'
    ensures EntityAt(s) == NoEntity
  {
    DiffersAt(s, "&amp;", 0);
    DiffersAt(s, "&lt;", 0);
    DiffersAt(s, "&gt;", 0);
    DiffersAt(s, "&quot;", 0);
    DiffersAt(s, "&apos;", 0);
    DiffersAt(s, "&#x", 0);
    DiffersAt(s, "&#", 0);
  }

  lemma EntityOfEscaped(c: char, rest: string)
    requires |EscapeChar(c)| > 1
    ensures EntityAt(EscapeChar(c) + rest) == Entity(|EscapeChar(c)|, Some([c]))
  {
    var s := EscapeChar(c) + rest;
    assert s[..|EscapeChar(c)|] == EscapeChar(c);
    assert s[1] == EscapeChar(c)[1] && s[2] == EscapeChar(c)[2];
    if c != '&' { DiffersAt(s, "&amp;", if c == '\'' then 2 else 1); }
    if c != '&' && c != '<' { DiffersAt(s, "&lt;", 1); }
    if c == '"' || c == '\'' { DiffersAt(s, "&gt;", 1); }
    if c == '\'' { DiffersAt(s, "&quot;", 1); }
  }

  /** Escaping followed by unescaping gives back every text. */
  lemma {:induction false} EscapeRoundTrip(s: string)
    ensures UnescapeXml(EscapeXml(s)) == Some(s)
  {
    EscapeIsPerCharacter(s);
    if s != "" {
      EscapeIsPerCharacter(s[1..]);
      EscapeRoundTrip(s[1..]);
      UnescapeEscapedChar(s[0], EscapeEach(s[1..]));
      assert [s[0]] + s[1..] == s;
    }
  }

  // ----------------------------------------------------- what references stand for

  /** The character is this digit, in either case. */
  predicate StandsFor(c: char, d: nat)
  {
    d < 16 && (c == "0123456789abcdef"[d] || c == "0123456789ABCDEF"[d])
  }

  /** `s` is a numeral of `n`, with any leading zeros and in either case. */
  predicate Spells(s: string, n: nat, radix: nat)
    requires radix in {10, 16}
    decreases |s|
  {
    && s != "" && StandsFor(s[|s| - 1], n % radix)
    && if |s| == 1 then n < radix else Spells(s[..|s| - 1], n / radix, radix)
  }

  lemma DigitValue(c: char, d: nat, radix: nat)
    requires StandsFor(c, d) && d < radix && radix in {10, 16}
    ensures HexValue(c) == Some(d) && IsDigit(c, radix)
  {
    DigitTable();
  }

  lemma DigitTable()
    ensures forall d: nat :: d < 16 ==> HexValue("0123456789abcdef"[d]) == Some(d) == HexValue("0123456789ABCDEF"[d])
  {
    assert forall d: nat :: d < 10 ==>
      "0123456789abcdef"[d] == "0123456789ABCDEF"[d] && "0123456789abcdef"[d] as nat == '0' as nat + d;
    assert forall d: nat :: 10 <= d < 16 ==>
      "0123456789abcdef"[d] as nat == 'a' as nat + d - 10 && "0123456789ABCDEF"[d] as nat == 'A' as nat + d - 10;
  }

  predicate Digits(s: string, radix: nat)
  {
    forall i :: 0 <= i < |s| ==> IsDigit(s[i], radix)
  }

  lemma {:induction false} ParseMore(s: string, c: char, radix: nat, acc: nat)
    requires Digits(s, 16) && IsDigit(c, 16)
    ensures ParseDigits(s + [c], radix, acc) == ParseDigits(s, radix, acc) * radix + HexValue(c).value
    decreases |s|
  {
    if s == "" {
      assert s + [c] == [c] && [c][1..] == "";
    } else {
      assert (s + [c])[1..] == s[1..] + [c];
      ParseMore(s[1..], c, radix, acc * radix + HexValue(s[0]).value);
    }
  }

  /** A numeral consists of digits and is parsed as its number. */
  lemma {:induction false} NumeralParses(s: string, n: nat, radix: nat)
    requires radix in {10, 16} && Spells(s, n, radix)
    ensures Digits(s, radix) && ParseDigits(s, radix, 0) == n
    decreases |s|
  {
    hide StandsFor, HexValue;
    var before, c := s[..|s| - 1], s[|s| - 1];
    DigitValue(c, n % radix, radix);
    assert s == before + [c];
    if |s| == 1 {
      assert n % radix == n;
      ParseMore("", c, radix, 0);
      assert "" + [c] == s;
    } else {
      NumeralParses(before, n / radix, radix);
      ParseMore(before, c, radix, 0);
    }
  }

  lemma {:induction false} RunOfDigits(s: string, rest: string, radix: nat)
    requires Digits(s, radix) && (rest == "" || !IsDigit(rest[0], radix))
    ensures DigitRun(s + rest, radix) == |s|
    decreases |s|
  {
    hide IsDigit;
    if s == "" {
      assert s + rest == rest;
    } else {
      assert (s + rest)[1..] == s[1..] + rest;
      RunOfDigits(s[1..], rest, radix);
    }
  }

  /** `prefix`, digits and a semicolon are a numeric reference. */
  lemma NumericIs(prefix: string, s: string, rest: string, radix: nat)
    requires prefix != "" && s != "" && Digits(s, radix)
    ensures NumericAt(prefix + s + ";" + rest, |prefix|, radix)
      == Entity(|prefix| + |s| + 1, FromCodePoint(ParseDigits(s, radix, 0)))
  {
    hide FromCodePoint, ParseDigits, DigitRun, Digits;
    assert !IsDigit((";" + rest)[0], radix);
    RunOfDigits(s, ";" + rest, radix);
    hide IsDigit;
    Parts(prefix, s, rest);
  }

  lemma Parts(prefix: string, s: string, rest: string)
    ensures
      var text := prefix + s + ";" + rest;
      && |text| == |prefix| + |s| + 1 + |rest| && text[|prefix|..] == s + (";" + rest)
      && text[|prefix|..|prefix| + |s|] == s && text[|prefix| + |s|] == ';'
  {
    var text := prefix + s + ";" + rest;
    AppendAssoc(prefix + s, ";", rest);
    assert text[|prefix| + |s|] == ';';
    AppendAssoc(prefix, s, ";" + rest);
    assert text == prefix + (s + (";" + rest));
  }

  lemma DecimalOrHex(s: string)
    ensures "&#x" <= s ==> EntityAt(s) == NumericAt(s, 3, 16)
    ensures "&#" <= s && !("&#x" <= s) ==> EntityAt(s) == NumericAt(s, 2, 10)
  {
    hide NumericAt;
    if "&#" <= s {
      DiffersAt(s, "&amp;", 1);
      DiffersAt(s, "&lt;", 1);
      DiffersAt(s, "&gt;", 1);
      DiffersAt(s, "&quot;", 1);
      DiffersAt(s, "&apos;", 1);
    }
  }

  /** What a code point is read as: its character, or the range error. */
  function CharOf(n: nat): (r: Option<char>)
  {
    if n < 0xD800 || 0xE000 <= n <= 0x10FFFF then Some(n as char)
    else if n <= 0x10FFFF then Some('\U{FFFD}')
    else None
  }

  function Then(c: Option<char>, rest: Option<string>): Option<string>
  {
    if c.None? || rest.None? then None else Some([c.value] + rest.value)
  }

  /** A decimal or hexadecimal reference is read as the code point its numeral spells. */
  lemma NumericReference(s: string, n: nat, rest: string)
    ensures Spells(s, n, 10) ==> UnescapeXml("&#" + s + ";" + rest) == Then(CharOf(n), UnescapeXml(rest))
    ensures Spells(s, n, 16) ==> UnescapeXml("&#x" + s + ";" + rest) == Then(CharOf(n), UnescapeXml(rest))
  {
    hide EntityAt, NumericAt, UnescapeXml, Spells;
    if Spells(s, n, 10) {
      NumeralParses(s, n, 10);
      NumeralHasDigits(s, n, 10);
      var text := "&#" + s + ";" + rest;
      assert text[2] == s[0] != 'x';
      DecimalOrHex(text);
      NumericIs("&#", s, rest, 10);
      ReadAt("&#" + s + ";", n, rest);
    }
    if Spells(s, n, 16) {
      NumeralParses(s, n, 16);
      NumeralHasDigits(s, n, 16);
      DecimalOrHex("&#x" + s + ";" + rest);
      NumericIs("&#x", s, rest, 16);
      ReadAt("&#x" + s + ";", n, rest);
    }
  }

  lemma NumeralHasDigits(s: string, n: nat, radix: nat)
    requires radix in {10, 16} && Spells(s, n, radix) && Digits(s, radix)
    ensures s != "" && (radix == 10 ==> s[0] != 'x')
  {
    assert IsDigit(s[0], radix);
  }

  lemma ReadAt(r: string, n: nat, rest: string)
    requires EntityAt(r + rest) == Entity(|r|, FromCodePoint(n)) && r != ""
    ensures UnescapeXml(r + rest) == Then(CharOf(n), UnescapeXml(rest))
  {
    hide EntityAt;
    assert (r + rest)[|r|..] == rest;
  }

  /** Every number has a numeral. */
  lemma {:induction false} HasNumeral(n: nat, radix: nat) returns (s: string)
    requires radix in {10, 16}
    ensures Spells(s, n, radix)
    decreases n
  {
    var c := "0123456789abcdef"[n % radix];
    if n < radix { return [c]; }
    var before := HasNumeral(n / radix, radix);
    s := before + [c];
    assert s[..|s| - 1] == before;
  }

  /** The five characters and their names. */
  lemma NamedReferences(rest: string)
    ensures EscapeXml("&") == "&amp;" && UnescapeXml("&amp;" + rest) == Then(Some('&'), UnescapeXml(rest))
    ensures EscapeXml("<") == "&lt;" && UnescapeXml("&lt;" + rest) == Then(Some('<'), UnescapeXml(rest))
    ensures EscapeXml(">") == "&gt;" && UnescapeXml("&gt;" + rest) == Then(Some('>'), UnescapeXml(rest))
    ensures EscapeXml("\"") == "&quot;" && UnescapeXml("&quot;" + rest) == Then(Some('"'), UnescapeXml(rest))
    ensures EscapeXml("'") == "&apos;" && UnescapeXml("&apos;" + rest) == Then(Some('\''), UnescapeXml(rest))
  {
    hide EscapeXml, UnescapeXml;
    NameOf('&', rest);
    NameOf('<', rest);
    NameOf('>', rest);
    NameOf('"', rest);
    NameOf('\'', rest);
  }

  lemma NameOf(c: char, rest: string)
    ensures EscapeXml([c]) == EscapeChar(c) && UnescapeXml(EscapeChar(c) + rest) == Then(Some(c), UnescapeXml(rest))
  {
    EscapeOneChar(c);
    UnescapeEscapedChar(c, rest);
  }

  /** The text is one whole reference, as the pattern has it. */
  predicate Reference(r: string)
  {
    || r in ["&amp;", "&lt;", "&gt;", "&quot;", "&apos;"]
    || (|r| > 3 && "&#" <= r && r[|r| - 1] == ';' && Digits(r[2..|r| - 1], 10))
    || (|r| > 4 && "&#x" <= r && r[|r| - 1] == ';' && Digits(r[3..|r| - 1], 16))
  }

  /** A reference is found at the start exactly when the text begins with one. */
  lemma ReferenceExactly(s: string)
    ensures EntityAt(s).Entity? <==> exists n :: 0 <= n <= |s| && Reference(s[..n])
  {
    hide EntityAt;
    if EntityAt(s).Entity? { FoundIsReference(s); }
    if n :| 0 <= n <= |s| && Reference(s[..n]) { ReferenceIsFound(s, n); }
  }

  lemma FoundIsReference(s: string)
    requires EntityAt(s).Entity?
    ensures Reference(s[..EntityAt(s).length])
  {
    hide NumericAt;
    var n := EntityAt(s).length;
    if HasPrefix(s, "&#x") {
      DecimalOrHex(s);
      FoundDigits(s, 3, 16);
      assert "&#x" <= s[..n];
    } else if HasPrefix(s, "&#") {
      DecimalOrHex(s);
      FoundDigits(s, 2, 10);
      assert "&#" <= s[..n];
    }
  }

  lemma {:induction false} RunIsDigits(s: string, radix: nat)
    ensures Digits(s[..DigitRun(s, radix)], radix)
    decreases |s|
  {
    if s != "" && IsDigit(s[0], radix) {
      RunIsDigits(s[1..], radix);
      var n := DigitRun(s[1..], radix);
      assert s[..n + 1] == [s[0]] + s[1..][..n];
    }
  }

  lemma FoundDigits(s: string, from: nat, radix: nat)
    requires 0 < from <= |s| && NumericAt(s, from, radix).Entity?
    ensures
      var n := NumericAt(s, from, radix).length;
      n > from + 1 && s[n - 1] == ';' && s[..n][from..n - 1] == s[from..n - 1] && Digits(s[from..n - 1], radix)
  {
    RunIsDigits(s[from..], radix);
    var n := NumericAt(s, from, radix).length;
    assert s[from..][..n - 1 - from] == s[from..n - 1] == s[..n][from..n - 1];
  }

  lemma ReferenceIsFound(s: string, n: nat)
    requires n <= |s| && Reference(s[..n])
    ensures EntityAt(s).Entity?
  {
    hide NumericAt, Digits;
    var r, rest := s[..n], s[n..];
    assert s == r + rest;
    if r in ["&amp;", "&lt;", "&gt;", "&quot;", "&apos;"] {
      NamedIsFound(s, r);
    } else if |r| > 4 && "&#x" <= r && r[|r| - 1] == ';' && Digits(r[3..|r| - 1], 16) {
      DecimalOrHex(s);
      NumericIs("&#x", r[3..|r| - 1], rest, 16);
      assert r == "&#x" + r[3..|r| - 1] + ";";
    } else {
      FirstIsDigit(r[2..|r| - 1]);
      assert s[2] == r[2..|r| - 1][0];
      DecimalOrHex(s);
      NumericIs("&#", r[2..|r| - 1], rest, 10);
      assert r == "&#" + r[2..|r| - 1] + ";";
    }
  }

  lemma FirstIsDigit(s: string)
    requires s != "" && Digits(s, 10)
    ensures s[0] != 'x'
  {
    assert IsDigit(s[0], 10);
  }

  lemma NamedIsFound(s: string, r: string)
    requires r <= s && r in ["&amp;", "&lt;", "&gt;", "&quot;", "&apos;"]
    ensures EntityAt(s).Entity?
  {
    hide NumericAt;
    assert HasPrefix(s, r);
  }
}
