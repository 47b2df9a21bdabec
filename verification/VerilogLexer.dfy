/** Comments and strings taken out of Verilog text, and the module counts that depend on it. */
module VerilogLexer {
  import opened Common

  // ------------------------------------------------------------- the automaton

  /** What the lexer is inside of after the characters read so far; `Slash` is a slash not yet decided. */
  datatype State = Code | Slash | Line | Block | BlockStar | Quoted | Escaped

  function Next(st: State, c: char): State
  {
    match st
    case Code => if c == '/' then Slash else if c == '"' then Quoted else Code
    case Slash => if c == '/' then Line else if c == '*' then Block else if c == '"' then Quoted else Code
    case Line => if c == '\n' then Code else Line
    case Block => if c == '*' then BlockStar else Block
    case BlockStar => if c == '/' then Code else if c == '*' then BlockStar else Block
    case Quoted => if c == '\\' then Escaped else if c == '"' then Code else Quoted
    case Escaped => Quoted
  }

  /** What is kept when a character is read. */
  function Kept(st: State, c: char): string
  {
    match st
    case Code => if c == '/' || c == '"' then "" else [c]
    case Slash => if c == '/' || c == '*' then "" else if c == '"' then "/" else ['/', c]
    case Line => if c == '\n' then "\n" else ""
    case _ => ""
  }

  function StateAfter(st: State, s: string): State
    decreases |s|
  {
    if s == "" then st else StateAfter(Next(st, s[0]), s[1..])
  }

  /** What is kept of a text, character by character. */
  function Lexed(st: State, s: string): string
    decreases |s|
  {
    if s == "" then if st == Slash then "/" else ""
    else Kept(st, s[0]) + Lexed(Next(st, s[0]), s[1..])
  }

  /** What is kept of a beginning, whatever follows. */
  function KeptOf(st: State, s: string): string
    decreases |s|
  {
    if s == "" then "" else Kept(st, s[0]) + KeptOf(Next(st, s[0]), s[1..])
  }

  lemma {:induction false} LexedAppend(st: State, a: string, b: string)
    ensures Lexed(st, a + b) == KeptOf(st, a) + Lexed(StateAfter(st, a), b)
    ensures StateAfter(st, a + b) == StateAfter(StateAfter(st, a), b)
    decreases |a|
  {
    if a == "" {
      assert a + b == b;
    } else {
      assert (a + b)[1..] == a[1..] + b;
      LexedAppend(Next(st, a[0]), a[1..], b);
      AppendAssoc(Kept(st, a[0]), KeptOf(Next(st, a[0]), a[1..]), Lexed(StateAfter(st, a), b));
    }
  }

  function Strip(text: string): string
  {
    Lexed(Code, text)
  }

  // ---------------------------------------------------------------- the lexer

  lemma LexedStep(st: State, text: string, i: nat)
    requires i < |text|
    ensures Lexed(st, text[i..]) == Kept(st, text[i]) + Lexed(Next(st, text[i]), text[i + 1..])
  {
    assert text[i..][1..] == text[i + 1..];
  }

  lemma LexedEnd(st: State, text: string)
    ensures Lexed(st, text[|text|..]) == if st == Slash then "/" else ""
  {
  }

  /** Skip to the end of the line, or of the text. */
  method SkipLine(text: string, from: nat) returns (i: nat)
    requires from <= |text|
    ensures from <= i <= |text| && Lexed(Line, text[from..]) == Lexed(Code, text[i..])
  {
    hide Lexed;
    i := from;
    while i < |text| && text[i] != '\n'
      invariant from <= i <= |text| && Lexed(Line, text[from..]) == Lexed(Line, text[i..])
    {
      LexedStep(Line, text, i);
      i := i + 1;
    }
    if i < |text| {
      LexedStep(Line, text, i);
      LexedStep(Code, text, i);
    } else {
      LexedEnd(Line, text);
      LexedEnd(Code, text);
    }
  }

  /** Skip to behind the closing of a block comment, or to the end of the text. */
  method SkipBlock(text: string, from: nat) returns (i: nat)
    requires from <= |text|
    ensures from <= i <= |text| && Lexed(Block, text[from..]) == Lexed(Code, text[i..])
  {
    hide Lexed;
    i := from;
    while i < |text| && !(text[i] == '*' && i + 1 < |text| && text[i + 1] == '/')
      invariant from <= i <= |text| && Lexed(Block, text[from..]) == Lexed(Block, text[i..])
    {
      LexedStep(Block, text, i);
      if text[i] == '*' { StarIsBlock(text, i + 1); }
      i := i + 1;
    }
    if i < |text| {
      LexedStep(Block, text, i);
      LexedStep(BlockStar, text, i + 1);
      i := i + 2;
    } else {
      LexedEnd(Block, text);
      LexedEnd(Code, text);
    }
  }

  /** A star that is not followed by a slash changes nothing. */
  lemma StarIsBlock(text: string, i: nat)
    requires i <= |text| && (i < |text| ==> text[i] != '/')
    ensures Lexed(BlockStar, text[i..]) == Lexed(Block, text[i..])
  {
    hide Lexed;
    if i < |text| {
      LexedStep(BlockStar, text, i);
      LexedStep(Block, text, i);
    } else {
      LexedEnd(BlockStar, text);
      LexedEnd(Block, text);
    }
  }

  /** Skip to behind the closing quote, or to the end of the text. */
  method SkipString(text: string, from: nat) returns (i: nat)
    requires from <= |text|
    ensures from <= i <= |text| && Lexed(Quoted, text[from..]) == Lexed(Code, text[i..])
  {
    hide Lexed;
    i := from;
    while i < |text| && text[i] != '"'
      invariant from <= i <= |text| && Lexed(Quoted, text[from..]) == Lexed(Quoted, text[i..])
    {
      LexedStep(Quoted, text, i);
      if text[i] == '\\' && i + 1 < |text| {
        LexedStep(Escaped, text, i + 1);
        i := i + 2;
      } else {
        if text[i] == '\\' { LastBackslash(text, i + 1); }
        i := i + 1;
      }
    }
    if i < |text| {
      LexedStep(Quoted, text, i);
      i := i + 1;
    } else {
      LexedEnd(Quoted, text);
      LexedEnd(Code, text);
    }
  }

  lemma LastBackslash(text: string, i: nat)
    requires i == |text|
    ensures Lexed(Escaped, text[i..]) == Lexed(Quoted, text[i..])
  {
    LexedEnd(Escaped, text);
    LexedEnd(Quoted, text);
  }

  /** A slash that opens no comment is kept. */
  lemma PlainSlash(text: string, i: nat)
    requires i < |text| && text[i] == '/' && (i + 1 < |text| ==> text[i + 1] != '/' && text[i + 1] != '*')
    ensures Lexed(Code, text[i..]) == "/" + Lexed(Code, text[i + 1..])
  {
    LexedStep(Code, text, i);
    if i + 1 < |text| {
      LexedStep(Slash, text, i + 1);
      LexedStep(Code, text, i + 1);
      AppendAssoc("/", Kept(Code, text[i + 1]), Lexed(Next(Code, text[i + 1]), text[i + 2..]));
    } else {
      LexedEnd(Slash, text);
      LexedEnd(Code, text);
    }
  }

  /** `stripVerilogLexical`. */
  method StripVerilogLexical(text: string) returns (out: string)
    ensures out == Strip(text)
  {
    hide Lexed;
    out := "";
    var i := 0;
    assert text[0..] == text;
    while i < |text|
      invariant 0 <= i <= |text| && Strip(text) == out + Lexed(Code, text[i..])
      decreases |text| - i
    {
      var c := text[i];
      if c == '/' && i + 1 < |text| && text[i + 1] == '/' {
        LexedStep(Code, text, i);
        LexedStep(Slash, text, i + 1);
        i := SkipLine(text, i + 2);
      } else if c == '/' && i + 1 < |text| && text[i + 1] == '*' {
        LexedStep(Code, text, i);
        LexedStep(Slash, text, i + 1);
        i := SkipBlock(text, i + 2);
      } else if c == '"' {
        LexedStep(Code, text, i);
        i := SkipString(text, i + 1);
      } else {
        if c == '/' { PlainSlash(text, i); } else { LexedStep(Code, text, i); }
        AppendAssoc(out, [c], Lexed(Code, text[i + 1..]));
        out := out + [c];
        i := i + 1;
      }
    }
    LexedEnd(Code, text);
  }

  // ----------------------------------------------------- what contributes nothing

  /** A stretch of text that is a whole number of comments and strings. */
  predicate Closed(c: string)
  {
    StateAfter(Code, c) == Code && KeptOf(Code, c) == ""
  }

  /** Comments and strings inserted in code contribute nothing. */
  lemma ClosedIsTransparent(a: string, c: string, b: string)
    requires StateAfter(Code, a) == Code && Closed(c)
    ensures Strip(a + c + b) == Strip(a + b)
  {
    LexedAppend(Code, a, c);
    LexedAppend(Code, a + c, b);
    LexedAppend(Code, a, b);
    KeptAppend(Code, a, c);
  }

  lemma {:induction false} KeptAppend(st: State, a: string, b: string)
    ensures KeptOf(st, a + b) == KeptOf(st, a) + KeptOf(StateAfter(st, a), b)
    decreases |a|
  {
    if a == "" {
      assert a + b == b;
    } else {
      assert (a + b)[1..] == a[1..] + b;
      KeptAppend(Next(st, a[0]), a[1..], b);
      AppendAssoc(Kept(st, a[0]), KeptOf(Next(st, a[0]), a[1..]), KeptOf(StateAfter(st, a), b));
    }
  }

  /** Nothing in the body closes the comment. */
  predicate CommentBody(body: string)
  {
    forall i :: 0 <= i < |body| - 1 ==> !(body[i] == '*' && body[i + 1] == '/')
  }

  function Comment(body: string): string
  {
    "/*" + (body + "*/")
  }

  lemma {:induction false} CommentBodyInside(body: string, st: State)
    requires CommentBody(body) && (st == Block || (st == BlockStar && (body == "" || body[0] != '/')))
    ensures StateAfter(st, body) in {Block, BlockStar} && KeptOf(st, body) == ""
    decreases |body|
  {
    if body != "" {
      var rest := body[1..];
      assert forall i :: 0 <= i < |rest| ==> rest[i] == body[i + 1];
      assert body[0] == '*' && rest != "" ==> rest[0] == body[1] != '/';
      CommentBodyInside(rest, Next(st, body[0]));
    }
  }

  lemma CommentIsClosed(body: string)
    requires CommentBody(body)
    ensures Closed(Comment(body))
  {
    CommentBodyInside(body, Block);
    var tail := body + "*/";
    assert ("/*" + tail)[1..] == "*" + tail && ("*" + tail)[1..] == tail;
    LexedAppend(Block, body, "*/");
    KeptAppend(Block, body, "*/");
    var st := StateAfter(Block, body);
    assert "*/"[1..] == "/" && "/"[1..] == "";
    assert StateAfter(st, "*/") == Code && KeptOf(st, "*/") == "";
    assert StateAfter(Code, "/*" + tail) == StateAfter(Slash, "*" + tail) == StateAfter(Block, tail);
    assert KeptOf(Code, "/*" + tail) == KeptOf(Slash, "*" + tail) == KeptOf(Block, tail);
  }

  /** Every quote in the body is escaped, and the last character is not a lone escape. */
  predicate StringBody(body: string)
  {
    body == "" || if body[0] == '\\' then |body| >= 2 && StringBody(body[2..]) else body[0] != '"' && StringBody(body[1..])
  }

  function Literal(body: string): string
  {
    "\"" + (body + "\"")
  }

  lemma {:induction false} StringBodyInside(body: string)
    requires StringBody(body)
    ensures StateAfter(Quoted, body) == Quoted && KeptOf(Quoted, body) == ""
    decreases |body|
  {
    if body != "" {
      if body[0] == '\\' {
        assert body[1..][1..] == body[2..];
        StringBodyInside(body[2..]);
      } else {
        StringBodyInside(body[1..]);
      }
    }
  }

  lemma LiteralIsClosed(body: string)
    requires StringBody(body)
    ensures Closed(Literal(body))
  {
    StringBodyInside(body);
    LexedAppend(Quoted, body, "\"");
    KeptAppend(Quoted, body, "\"");
    assert Literal(body)[1..] == body + "\"";
    assert "\""[1..] == "";
  }

  /** A line comment put before the end of its line contributes nothing either. */
  lemma LineCommentIsTransparent(a: string, body: string, b: string)
    requires StateAfter(Code, a) == Code && '\n' !in body && (b == "" || b[0] == '\n')
    ensures Strip(a + ("//" + body) + b) == Strip(a + b)
  {
    hide Lexed, KeptOf, StateAfter;
    var c := "//" + body;
    LineCommentStays(body);
    LexedAppend(Code, a, c);
    KeptAppend(Code, a, c);
    LexedAppend(Code, a + c, b);
    LexedAppend(Code, a, b);
    LineEnds(b);
  }

  /** A line comment keeps nothing and leaves the lexer on its line. */
  lemma LineCommentStays(body: string)
    requires '\n' !in body
    ensures StateAfter(Code, "//" + body) == Line && KeptOf(Code, "//" + body) == ""
  {
    LineInside(body);
    var c := "//" + body;
    assert c[1..] == "/" + body && c[1..][1..] == body;
    assert StateAfter(Code, c) == StateAfter(Slash, c[1..]) == StateAfter(Line, body);
    assert KeptOf(Code, c) == KeptOf(Slash, c[1..]) == KeptOf(Line, body);
  }

  /** At the end of a line it makes no difference whether a comment ends there. */
  lemma LineEnds(b: string)
    requires b == "" || b[0] == '\n'
    ensures Lexed(Line, b) == Lexed(Code, b)
  {
  }

  lemma {:induction false} LineInside(body: string)
    requires '\n' !in body
    ensures StateAfter(Line, body) == Line && KeptOf(Line, body) == ""
    decreases |body|
  {
    if body != "" {
      LineInside(body[1..]);
    }
  }

  // -------------------------------------------------- what a text is made of

  /** A text is made of code, comments and strings; the last comment or string may be left open. */
  datatype Piece =
    | Plain(code: string)
    | LineComment(body: string)
    | BlockComment(body: string)
    | StringLiteral(body: string)
    | OpenComment(body: string)
    | OpenString(body: string)

  function Spelt(p: Piece): string
  {
    match p
    case Plain(code) => code
    case LineComment(body) => "//" + body
    case BlockComment(body) => "/*" + (body + "*/")
    case StringLiteral(body) => "\"" + (body + "\"")
    case OpenComment(body) => "/*" + body
    case OpenString(body) => "\"" + body
  }

  function Written(pieces: seq<Piece>): string
  {
    if pieces == [] then "" else Spelt(pieces[0]) + Written(pieces[1..])
  }

  /** The code alone, in its order. */
  function CodeOf(pieces: seq<Piece>): string
  {
    if pieces == [] then "" else (if pieces[0].Plain? then pieces[0].code else "") + CodeOf(pieces[1..])
  }

  predicate OpensComment(s: string)
  {
    "//" <= s || "/*" <= s
  }

  /** The piece ends where it is said to, when this follows. */
  predicate Ends(p: Piece, rest: string)
  {
    match p
    case Plain(code) => '"' !in code && forall i :: 0 <= i < |code| ==> !OpensComment((code + rest)[i..])
    case LineComment(body) => '\n' !in body && (rest == "" || rest[0] == '\n')
    case BlockComment(body) => CommentBody(body)
    case StringLiteral(body) => StringBody(body)
    case OpenComment(body) => CommentBody(body) && rest == ""
    case OpenString(body) => OpenBody(body) && rest == ""
  }

  /** No quote closes the string; a backslash at the very end escapes nothing. */
  predicate OpenBody(body: string)
  {
    StringBody(body) || (body != "" && body[|body| - 1] == '\\' && StringBody(body[..|body| - 1]))
  }

  predicate Pieces(pieces: seq<Piece>)
  {
    pieces == [] || (Ends(pieces[0], Written(pieces[1..])) && Pieces(pieces[1..]))
  }

  /** Code is kept as it is. */
  lemma {:induction false} CodeIsKept(code: string, rest: string)
    requires '"' !in code && forall i :: 0 <= i < |code| ==> !OpensComment((code + rest)[i..])
    ensures Lexed(Code, code + rest) == code + Lexed(Code, rest)
    decreases |code|
  {
    hide Lexed;
    if code == "" {
      assert code + rest == rest;
    } else {
      var text, tail := code + rest, code[1..];
      assert text[0..] == text && text[1..] == tail + rest;
      assert forall i :: 0 <= i < |tail| ==> (tail + rest)[i..] == text[i + 1..];
      CodeIsKept(tail, rest);
      assert !OpensComment(text[0..]);
      if code[0] == '/' {
        assert |text| > 1 && text[1] == '/' ==> "//" <= text;
        assert |text| > 1 && text[1] == '*' ==> "/*" <= text;
        PlainSlash(text, 0);
      } else {
        LexedStep(Code, text, 0);
      }
      AppendAssoc([code[0]], tail, Lexed(Code, rest));
      assert [code[0]] + tail == code;
    }
  }

  lemma LineCommentIsDropped(body: string, rest: string)
    requires '\n' !in body && (rest == "" || rest[0] == '\n')
    ensures Lexed(Code, ("//" + body) + rest) == Lexed(Code, rest)
  {
    LineCommentStays(body);
    LexedAppend(Code, "//" + body, rest);
    LineEnds(rest);
  }

  lemma ClosedIsDropped(c: string, rest: string)
    requires Closed(c)
    ensures Lexed(Code, c + rest) == Lexed(Code, rest)
  {
    LexedAppend(Code, c, rest);
  }

  lemma OpenCommentIsDropped(body: string)
    requires CommentBody(body)
    ensures Lexed(Code, "/*" + body) == ""
  {
    CommentBodyInside(body, Block);
    LexedAppend(Block, body, "");
    assert body + "" == body;
    assert ("/*" + body)[1..] == "*" + body && ("*" + body)[1..] == body;
    assert Lexed(Code, "/*" + body) == Lexed(Slash, "*" + body) == Lexed(Block, body);
  }

  lemma OpenStringIsDropped(body: string)
    requires OpenBody(body)
    ensures Lexed(Code, "\"" + body) == ""
  {
    assert ("\"" + body)[1..] == body;
    if StringBody(body) {
      StringBodyInside(body);
      LexedAppend(Quoted, body, "");
      assert body + "" == body;
    } else {
      var before := body[..|body| - 1];
      StringBodyInside(before);
      LexedAppend(Quoted, before, "\\");
      assert before + "\\" == body && "\\"[1..] == "";
    }
  }

  lemma PieceIsKept(p: Piece, rest: string)
    requires Ends(p, rest)
    ensures Lexed(Code, Spelt(p) + rest) == (if p.Plain? then p.code else "") + Lexed(Code, rest)
  {
    hide Lexed, OpensComment, Closed, StringBody, CommentBody, OpenBody;
    match p {
      case Plain(code) => CodeIsKept(code, rest);
      case LineComment(body) => LineCommentIsDropped(body, rest);
      case BlockComment(body) =>
        CommentIsClosed(body);
        ClosedIsDropped(Comment(body), rest);
      case StringLiteral(body) =>
        LiteralIsClosed(body);
        ClosedIsDropped(Literal(body), rest);
      case OpenComment(body) =>
        OpenCommentIsDropped(body);
        NothingLeft("/*" + body, rest);
      case OpenString(body) =>
        OpenStringIsDropped(body);
        NothingLeft("\"" + body, rest);
    }
  }

  lemma NothingLeft(s: string, rest: string)
    requires rest == ""
    ensures s + rest == s && Lexed(Code, rest) == ""
  {
  }

  /** However a text is made of pieces, what is kept of it is its code. */
  lemma {:induction false} CodeAlone(pieces: seq<Piece>)
    requires Pieces(pieces)
    ensures Strip(Written(pieces)) == CodeOf(pieces)
    decreases |pieces|
  {
    hide Lexed, Ends, Spelt;
    if pieces == [] {
      LexedEnd(Code, "");
    } else {
      CodeAlone(pieces[1..]);
      PieceIsKept(pieces[0], Written(pieces[1..]));
    }
  }

  /** Every text is made of pieces. */
  lemma {:induction false} MadeOfPieces(text: string) returns (pieces: seq<Piece>)
    ensures Pieces(pieces) && Written(pieces) == text
    decreases |text|
  {
    hide CommentBody, StringBody, OpenBody;
    if text == "" {
      return [];
    }
    var p, n := FirstPiece(text);
    var others := MadeOfPieces(text[n..]);
    pieces := [p] + others;
    assert pieces[1..] == others && text == text[..n] + text[n..];
  }

  lemma FirstPiece(text: string) returns (p: Piece, n: nat)
    requires text != ""
    ensures 0 < n <= |text| && Spelt(p) == text[..n] && Ends(p, text[n..])
  {
    hide Ends, OpensComment;
    if "//" <= text {
      p, n := FirstLineComment(text);
    } else if "/*" <= text {
      p, n := FirstBlockComment(text);
    } else if text[0] == '"' {
      p, n := FirstString(text);
    } else {
      p, n := Plain(text[..1]), 1;
      OneOfCode(text);
    }
  }

  lemma OneOfCode(text: string)
    requires text != "" && !("//" <= text) && !("/*" <= text) && text[0] != '"'
    ensures Ends(Plain(text[..1]), text[1..])
  {
    assert text[..1] + text[1..] == text && text[0..] == text;
  }

  lemma FirstLineComment(text: string) returns (p: Piece, n: nat)
    requires "//" <= text
    ensures 0 < n <= |text| && Spelt(p) == text[..n] && Ends(p, text[n..])
  {
    n := LineEnd(text, 2);
    p := LineComment(text[2..n]);
    assert text[..n] == text[..2] + text[2..n] && text[..2] == "//";
  }

  lemma FirstBlockComment(text: string) returns (p: Piece, n: nat)
    requires "/*" <= text
    ensures 0 < n <= |text| && Spelt(p) == text[..n] && Ends(p, text[n..])
  {
    hide CommentBody;
    var k := CommentEnd(text, 2);
    var body := text[2..k];
    assert text[..k] == "/*" + body;
    if k < |text| {
      p, n := BlockComment(body), k + 2;
      AppendAssoc("/*", body, "*/");
      assert text[..k + 2] == text[..k] + text[k..k + 2];
      assert text[k..k + 2] == text[k..][..2] == "*/";
    } else {
      p, n := OpenComment(body), k;
    }
  }

  lemma FirstString(text: string) returns (p: Piece, n: nat)
    requires text != "" && text[0] == '"'
    ensures 0 < n <= |text| && Spelt(p) == text[..n] && Ends(p, text[n..])
  {
    hide StringBody, OpenBody;
    var k := StringEnd(text, 1);
    var body := text[1..k];
    assert text[..k] == "\"" + body;
    if k < |text| {
      p, n := StringLiteral(body), k + 1;
      AppendAssoc("\"", body, "\"");
      assert text[..k + 1] == text[..k] + "\"";
    } else {
      p, n := OpenString(body), k;
    }
  }

  lemma {:induction false} LineEnd(text: string, i: nat) returns (k: nat)
    requires i <= |text|
    ensures i <= k <= |text| && '\n' !in text[i..k] && (k < |text| ==> text[k] == '\n')
    decreases |text| - i
  {
    if i == |text| || text[i] == '\n' { return i; }
    k := LineEnd(text, i + 1);
    assert text[i..k] == [text[i]] + text[i + 1..k];
  }

  lemma {:induction false} CommentEnd(text: string, i: nat) returns (k: nat)
    requires i <= |text|
    ensures i <= k <= |text| && CommentBody(text[i..k]) && (k < |text| ==> "*/" <= text[k..])
    ensures forall j :: i <= j < k ==> !("*/" <= text[j..])
    decreases |text| - i
  {
    if i == |text| || "*/" <= text[i..] { return i; }
    k := CommentEnd(text, i + 1);
    forall j | 0 <= j < k - i - 1 ensures !(text[i..k][j] == '*' && text[i..k][j + 1] == '/') {
      assert !("*/" <= text[i + j..]);
      assert text[i + j..][0] == text[i + j] && text[i + j..][1] == text[i + j + 1];
    }
  }

  lemma {:induction false} StringEnd(text: string, i: nat) returns (k: nat)
    requires i <= |text|
    ensures i <= k <= |text| && (if k < |text| then text[k] == '"' && StringBody(text[i..k]) else OpenBody(text[i..k]))
    decreases |text| - i
  {
    if i == |text| || text[i] == '"' { return i; }
    if text[i] != '\\' {
      k := StringEnd(text, i + 1);
      MoreString(text[i..k], 1);
      assert text[i..k][1..] == text[i + 1..k];
    } else if i + 1 == |text| {
      assert text[i..i + 1][..0] == "";
      return i + 1;
    } else {
      k := StringEnd(text, i + 2);
      MoreString(text[i..k], 2);
      assert text[i..k][2..] == text[i + 2..k];
    }
  }

  /** One character, or an escaped one, before the rest of a string. */
  lemma MoreString(body: string, n: nat)
    requires 0 < n <= |body| && (if n == 1 then body[0] != '"' && body[0] != '\\' else n == 2 && body[0] == '\\')
    ensures StringBody(body[n..]) ==> StringBody(body)
    ensures OpenBody(body[n..]) ==> OpenBody(body)
  {
    var rest := body[n..];
    if rest != "" && StringBody(rest[..|rest| - 1]) {
      var before := body[..|body| - 1];
      assert before[n..] == rest[..|rest| - 1];
      assert StringBody(before);
    }
  }

  /** Of every text exactly its code is kept, whichever way one divides it into pieces. */
  lemma StripIsCode(text: string)
    ensures exists pieces :: Pieces(pieces) && Written(pieces) == text
    ensures forall pieces :: Pieces(pieces) && Written(pieces) == text ==> Strip(text) == CodeOf(pieces)
  {
    hide Pieces, Written, Strip, CodeOf;
    var made := MadeOfPieces(text);
    forall pieces | Pieces(pieces) && Written(pieces) == text ensures Strip(text) == CodeOf(pieces) {
      CodeAlone(pieces);
    }
  }

  /** A stretch of code with neither slash nor quote is kept unchanged between whatever stands around it. */
  lemma CodeStays(a: string, c: string, b: string)
    requires StateAfter(Code, a) == Code && '/' !in c && '"' !in c
    ensures Strip(a + c + b) == Strip(a) + c + Strip(b)
  {
    hide Lexed, StateAfter, KeptOf;
    LexedAppend(Code, a, "");
    assert a + "" == a;
    LexedEnd(Code, "");
    AppendAssoc(a, c, b);
    LexedAppend(Code, a, c + b);
    forall i | 0 <= i < |c| ensures !OpensComment((c + b)[i..]) {
      assert (c + b)[i..][0] == c[i];
    }
    CodeIsKept(c, b);
    AppendAssoc(KeptOf(Code, a), c, Lexed(Code, b));
  }

  /** Text with neither slash nor quote is left as it is. */
  lemma PlainText(c: string)
    requires '/' !in c && '"' !in c
    ensures Strip(c) == c
  {
    hide Lexed, KeptOf;
    CodeStays("", c, "");
    LexedEnd(Code, "");
    assert "" + c + "" == c && "" + c + "" == c;
  }

  /** A slash that opens no comment is kept. */
  lemma SlashStays(a: string, b: string)
    requires StateAfter(Code, a) == Code && (b == "" || (b[0] != '/' && b[0] != '*'))
    ensures Strip(a + "/" + b) == Strip(a) + "/" + Strip(b)
  {
    hide Lexed, StateAfter, KeptOf;
    LexedAppend(Code, a, "");
    assert a + "" == a;
    LexedEnd(Code, "");
    AppendAssoc(a, "/", b);
    LexedAppend(Code, a, "/" + b);
    assert ("/" + b)[0..] == "/" + b && ("/" + b)[1..] == b;
    PlainSlash("/" + b, 0);
    AppendAssoc(KeptOf(Code, a), "/", Lexed(Code, b));
  }

  // ----------------------------------------------------- exactly where it holds

  /** Whatever closed comment is inserted here, and whatever follows, nothing changes. */
  ghost predicate Transparent(a: string)
  {
    forall body, b :: CommentBody(body) ==> Strip(a + Comment(body) + b) == Strip(a + b)
  }

  /** What is kept of two texts with a common beginning differs where their ends do. */
  lemma SameBeginning(a: string, x: string, y: string)
    ensures Strip(a + x) == Strip(a + y) <==> Lexed(StateAfter(Code, a), x) == Lexed(StateAfter(Code, a), y)
  {
    LexedAppend(Code, a, x);
    LexedAppend(Code, a, y);
    var k, u, v := KeptOf(Code, a), Lexed(StateAfter(Code, a), x), Lexed(StateAfter(Code, a), y);
    assert (k + u)[|k|..] == u && (k + v)[|k|..] == v;
  }

  /** A comment with this body shows what state the text before it has left the lexer in. */
  lemma Witness(a: string, body: string, b: string)
    requires CommentBody(body) && Lexed(StateAfter(Code, a), Comment(body) + b) != Lexed(StateAfter(Code, a), b)
    ensures !Transparent(a)
  {
    SameBeginning(a, Comment(body) + b, b);
    AppendAssoc(a, Comment(body), b);
  }

  /**
   * Comments may be inserted without effect exactly where the lexer is in code
   * and the last character is not a slash still to be decided.
   */
  lemma TransparentExactly(a: string)
    ensures Transparent(a) <==> StateAfter(Code, a) == Code
  {
    var st := StateAfter(Code, a);
    if st == Code {
      forall body, b | CommentBody(body) ensures Strip(a + Comment(body) + b) == Strip(a + b) {
        CommentIsClosed(body);
        ClosedIsTransparent(a, Comment(body), b);
      }
    } else {
      NotTransparent(a);
    }
  }

  lemma SlashShows()
    ensures Lexed(Slash, Comment("") + "") != Lexed(Slash, "")
  {
    assert Comment("") + "" == "/**/";
    assert Lexed(Slash, "/**/") == "" && Lexed(Slash, "") == "/";
  }

  lemma LineShows()
    ensures Lexed(Line, Comment("\n") + "") != Lexed(Line, "")
  {
    assert Comment("\n") + "" == "/*\n*/";
    assert Lexed(Line, "/*\n*/")[0] == '\n' && Lexed(Line, "") == "";
  }

  lemma BlockShows()
    ensures Lexed(Block, Comment("") + "x") != Lexed(Block, "x")
    ensures Lexed(BlockStar, Comment("") + "x") != Lexed(BlockStar, "x")
  {
    assert Comment("") + "x" == "/**/x";
    assert Lexed(Block, "/**/x") == "x" && Lexed(Block, "x") == "";
    assert Lexed(BlockStar, "/**/x")[0] == '*' && Lexed(BlockStar, "x") == "";
  }

  lemma QuoteShows()
    ensures Lexed(Quoted, Comment("\"") + "") != Lexed(Quoted, "")
    ensures Lexed(Escaped, Comment("\"") + "") != Lexed(Escaped, "")
  {
    assert Comment("\"") + "" == "/*\"*/";
    assert Lexed(Quoted, "/*\"*/")[0] == '*' && Lexed(Quoted, "") == "";
    assert Lexed(Escaped, "/*\"*/")[0] == '*' && Lexed(Escaped, "") == "";
  }

  lemma NotTransparent(a: string)
    requires StateAfter(Code, a) != Code
    ensures !Transparent(a)
  {
    hide Lexed, Comment, Transparent;
    SlashShows();
    LineShows();
    BlockShows();
    QuoteShows();
    match StateAfter(Code, a) {
      case Slash => Witness(a, "", "");
      case Line => Witness(a, "\n", "");
      case Block => Witness(a, "", "x");
      case BlockStar => Witness(a, "", "x");
      case Quoted => Witness(a, "\"", "");
      case Escaped => Witness(a, "\"", "");
      case Code =>
    }
  }

  // ------------------------------------------------------------- module counts

  datatype Verdict = Accepted | MissingTopModule | AmbiguousTopModule | AmbiguousSourceRole

  /** How often a source declares a module; `declared` reads the declarations off stripped text. */
  function Declares(declared: string -> seq<string>, source: string, name: string): nat
  {
    multiset(declared(Strip(source)))[name]
  }

  function Total(declared: string -> seq<string>, sources: seq<string>, name: string): nat
  {
    if sources == [] then 0
    else Total(declared, sources[..|sources| - 1], name) + Declares(declared, sources[|sources| - 1], name)
  }

  predicate BothRoles(declared: string -> seq<string>, source: string, top: string, testbench: string)
  {
    Declares(declared, source, top) > 0 && Declares(declared, source, testbench) > 0
  }

  function Judged(declared: string -> seq<string>, sources: seq<string>, top: string, testbench: string): Verdict
  {
    var tops, tbs := Total(declared, sources, top), Total(declared, sources, testbench);
    if tops == 0 || tbs == 0 then MissingTopModule
    else if tops > 1 || tbs > 1 then AmbiguousTopModule
    else if exists i :: 0 <= i < |sources| && BothRoles(declared, sources[i], top, testbench) then AmbiguousSourceRole
    else Accepted
  }

  /** `declaredModules`. */
  method DeclaredModules(declared: string -> seq<string>, source: string) returns (names: seq<string>)
    ensures names == declared(Strip(source))
  {
    var text := StripVerilogLexical(source);
    names := declared(text);
  }

  /** `totals.get(name) ?? 0`. */
  function CountIn(totals: map<string, nat>, name: string): nat
  {
    if name in totals then totals[name] else 0
  }

  /** The totals, with one more source counted. */
  method AddNames(totals: map<string, nat>, names: seq<string>) returns (more: map<string, nat>)
    ensures forall x :: CountIn(more, x) == CountIn(totals, x) + multiset(names)[x]
  {
    more := totals;
    for i := 0 to |names|
      invariant forall x :: CountIn(more, x) == CountIn(totals, x) + multiset(names[..i])[x]
    {
      assert names[..i + 1] == names[..i] + [names[i]];
      more := more[names[i] := CountIn(more, names[i]) + 1];
    }
    assert names[..|names|] == names;
  }

  /** `assertSimulateModules`. */
  method AssertSimulateModules(declared: string -> seq<string>, sources: seq<string>, top: string, testbench: string)
    returns (verdict: Verdict)
    ensures verdict == Judged(declared, sources, top, testbench)
  {
    hide Strip;
    var totals: map<string, nat> := map[];
    for i := 0 to |sources|
      invariant forall x :: CountIn(totals, x) == Total(declared, sources[..i], x)
    {
      var names := DeclaredModules(declared, sources[i]);
      totals := AddNames(totals, names);
      assert sources[..i + 1][..i] == sources[..i];
    }
    assert sources[..|sources|] == sources;
    var topCount, tbCount := CountIn(totals, top), CountIn(totals, testbench);
    if topCount == 0 || tbCount == 0 { return MissingTopModule; }
    if topCount > 1 || tbCount > 1 { return AmbiguousTopModule; }
    for i := 0 to |sources|
      invariant forall j :: 0 <= j < i ==> !BothRoles(declared, sources[j], top, testbench)
    {
      var names := DeclaredModules(declared, sources[i]);
      if top in names && testbench in names {
        assert BothRoles(declared, sources[i], top, testbench);
        return AmbiguousSourceRole;
      }
      assert top !in multiset(names) || testbench !in multiset(names);
    }
    verdict := Accepted;
  }

  /** Source `i` declares the module, once, and no other source does. */
  predicate OnlyIn(declared: string -> seq<string>, sources: seq<string>, name: string, i: nat)
  {
    && i < |sources| && Declares(declared, sources[i], name) == 1
    && forall j :: 0 <= j < |sources| && j != i ==> Declares(declared, sources[j], name) == 0
  }

  lemma {:induction false} TotalZero(declared: string -> seq<string>, sources: seq<string>, name: string)
    ensures Total(declared, sources, name) == 0 <==> forall j :: 0 <= j < |sources| ==> Declares(declared, sources[j], name) == 0
    decreases |sources|
  {
    hide Declares;
    if sources != [] {
      var n := |sources| - 1;
      TotalZero(declared, sources[..n], name);
      assert forall j :: 0 <= j < n ==> sources[..n][j] == sources[j];
    }
  }

  lemma {:induction false} TotalOne(declared: string -> seq<string>, sources: seq<string>, name: string)
    ensures Total(declared, sources, name) == 1 <==> exists i: nat :: OnlyIn(declared, sources, name, i)
    decreases |sources|
  {
    hide Declares;
    if sources != [] {
      var n := |sources| - 1;
      var before := sources[..n];
      assert forall j :: 0 <= j < n ==> before[j] == sources[j];
      TotalOne(declared, before, name);
      TotalZero(declared, before, name);
      if Total(declared, sources, name) == 1 {
        if Declares(declared, sources[n], name) == 1 {
          assert OnlyIn(declared, sources, name, n);
        } else {
          var i: nat :| OnlyIn(declared, before, name, i);
          assert OnlyIn(declared, sources, name, i);
        }
      }
      if i: nat :| OnlyIn(declared, sources, name, i) {
        if i < n { assert OnlyIn(declared, before, name, i); }
      }
    }
  }

  /** A simulation is accepted exactly when one source declares the top, once, and another the testbench, once. */
  lemma AcceptedExactly(declared: string -> seq<string>, sources: seq<string>, top: string, testbench: string)
    ensures Judged(declared, sources, top, testbench) == Accepted
      <==> exists i: nat, j: nat :: i != j && OnlyIn(declared, sources, top, i) && OnlyIn(declared, sources, testbench, j)
  {
    hide Declares, Total;
    TotalOne(declared, sources, top);
    TotalOne(declared, sources, testbench);
    if Total(declared, sources, top) == 1 && Total(declared, sources, testbench) == 1 {
      var i: nat :| OnlyIn(declared, sources, top, i);
      var j: nat :| OnlyIn(declared, sources, testbench, j);
      assert forall k :: 0 <= k < |sources| && BothRoles(declared, sources[k], top, testbench) ==> k == i == j;
      assert i == j ==> BothRoles(declared, sources[i], top, testbench);
    }
  }

  /** The `k`-th declaration in source `i` is of this module. */
  predicate DeclaredAt(declared: string -> seq<string>, sources: seq<string>, name: string, i: nat, k: nat)
  {
    i < |sources| && k < |declared(Strip(sources[i]))| && declared(Strip(sources[i]))[k] == name
  }

  /** The module is declared in one place, and that is in source `i`. */
  ghost predicate Once(declared: string -> seq<string>, sources: seq<string>, name: string, i: nat)
  {
    exists k: nat :: DeclaredAt(declared, sources, name, i, k)
      && forall j: nat, l: nat :: DeclaredAt(declared, sources, name, j, l) ==> j == i && l == k
  }

  ghost predicate Nowhere(declared: string -> seq<string>, sources: seq<string>, name: string)
  {
    forall i: nat, k: nat :: !DeclaredAt(declared, sources, name, i, k)
  }

  /** Which verdict is given when, by the places where the two modules are declared. */
  lemma JudgedExactly(declared: string -> seq<string>, sources: seq<string>, top: string, testbench: string)
    ensures
      var verdict := Judged(declared, sources, top, testbench);
      && (verdict == MissingTopModule <==> Nowhere(declared, sources, top) || Nowhere(declared, sources, testbench))
      && (verdict == AmbiguousSourceRole <==>
            exists i: nat :: Once(declared, sources, top, i) && Once(declared, sources, testbench, i))
      && (verdict == Accepted <==>
            exists i: nat, j: nat :: i != j && Once(declared, sources, top, i) && Once(declared, sources, testbench, j))
  {
    hide Declares, Total, Once, Nowhere;
    AcceptedExactly(declared, sources, top, testbench);
    TotalZero(declared, sources, top);
    TotalZero(declared, sources, testbench);
    TotalOne(declared, sources, top);
    TotalOne(declared, sources, testbench);
    NowhereMeans(declared, sources, top);
    NowhereMeans(declared, sources, testbench);
    OnceMeans(declared, sources, top);
    OnceMeans(declared, sources, testbench);
    if Total(declared, sources, top) == 1 && Total(declared, sources, testbench) == 1 {
      var i: nat :| OnlyIn(declared, sources, top, i);
      var j: nat :| OnlyIn(declared, sources, testbench, j);
      assert forall k :: 0 <= k < |sources| && BothRoles(declared, sources[k], top, testbench) ==> k == i == j;
      assert i == j ==> BothRoles(declared, sources[i], top, testbench);
    }
  }

  lemma {:induction false} CountedNone(names: seq<string>, name: string)
    ensures multiset(names)[name] == 0 <==> forall k :: 0 <= k < |names| ==> names[k] != name
  {
    assert name in multiset(names) <==> name in names;
  }

  predicate Alone(names: seq<string>, name: string, k: nat)
  {
    k < |names| && names[k] == name && forall l :: 0 <= l < |names| && l != k ==> names[l] != name
  }

  lemma AloneOnce(names: seq<string>, name: string, k: nat)
    requires Alone(names, name, k)
    ensures multiset(names)[name] == 1
  {
    var before, after := names[..k], names[k + 1..];
    assert names == before + [name] + after;
    CountedNone(before, name);
    CountedNone(after, name);
  }

  lemma CountedOne(names: seq<string>, name: string)
    ensures multiset(names)[name] == 1 <==> exists k: nat :: Alone(names, name, k)
  {
    if multiset(names)[name] == 1 {
      assert name in names;
      var k: nat :| k < |names| && names[k] == name;
      var before, after := names[..k], names[k + 1..];
      assert names == before + [name] + after;
      assert multiset(before)[name] == 0 && multiset(after)[name] == 0;
      CountedNone(before, name);
      CountedNone(after, name);
      assert forall l :: 0 <= l < |names| && l != k ==> names[l] == if l < k then before[l] else after[l - k - 1];
      assert Alone(names, name, k);
    }
    if k: nat :| Alone(names, name, k) {
      AloneOnce(names, name, k);
    }
  }

  lemma NowhereMeans(declared: string -> seq<string>, sources: seq<string>, name: string)
    ensures Nowhere(declared, sources, name) <==> forall j :: 0 <= j < |sources| ==> Declares(declared, sources[j], name) == 0
  {
    hide Strip;
    forall j | 0 <= j < |sources|
      ensures Declares(declared, sources[j], name) == 0 <==> forall k: nat :: !DeclaredAt(declared, sources, name, j, k)
    {
      NoneAt(declared, sources, name, j);
    }
  }

  lemma NoneAt(declared: string -> seq<string>, sources: seq<string>, name: string, j: nat)
    requires j < |sources|
    ensures Declares(declared, sources[j], name) == 0 <==> forall k: nat :: !DeclaredAt(declared, sources, name, j, k)
  {
    hide Strip;
    var names := declared(Strip(sources[j]));
    CountedNone(names, name);
    assert forall k: nat :: DeclaredAt(declared, sources, name, j, k) <==> k < |names| && names[k] == name;
  }

  lemma OneAt(declared: string -> seq<string>, sources: seq<string>, name: string, j: nat)
    requires j < |sources|
    ensures Declares(declared, sources[j], name) == 1 <==> exists k: nat :: OnePlace(declared, sources, name, j, k)
  {
    hide Strip;
    var names := declared(Strip(sources[j]));
    CountedOne(names, name);
    forall k: nat ensures OnePlace(declared, sources, name, j, k) <==> Alone(names, name, k) {
      assert forall l: nat :: DeclaredAt(declared, sources, name, j, l) <==> l < |names| && names[l] == name;
    }
  }

  /** Within source `i` the module is declared at `k` and nowhere else. */
  ghost predicate OnePlace(declared: string -> seq<string>, sources: seq<string>, name: string, i: nat, k: nat)
  {
    DeclaredAt(declared, sources, name, i, k) && forall l: nat :: DeclaredAt(declared, sources, name, i, l) ==> l == k
  }

  lemma OnceMeans(declared: string -> seq<string>, sources: seq<string>, name: string)
    ensures forall i: nat :: Once(declared, sources, name, i) <==> OnlyIn(declared, sources, name, i)
  {
    hide DeclaredAt, Declares;
    forall i: nat ensures Once(declared, sources, name, i) <==> OnlyIn(declared, sources, name, i) {
      OnceMeansAt(declared, sources, name, i);
    }
  }

  lemma OnceMeansAt(declared: string -> seq<string>, sources: seq<string>, name: string, i: nat)
    ensures Once(declared, sources, name, i) <==> OnlyIn(declared, sources, name, i)
  {
    InSources(declared, sources, name);
    hide DeclaredAt, Declares;
    if i < |sources| {
      OneAt(declared, sources, name, i);
      forall j: nat | j < |sources|
        ensures Declares(declared, sources[j], name) == 0 <==> forall k: nat :: !DeclaredAt(declared, sources, name, j, k)
      {
        NoneAt(declared, sources, name, j);
      }
      if OnlyIn(declared, sources, name, i) {
        var k: nat :| OnePlace(declared, sources, name, i, k);
        forall j: nat, l: nat | DeclaredAt(declared, sources, name, j, l) ensures j == i && l == k {
          NotElsewhere(declared, sources, name, i, j, l);
        }
      }
      if k: nat :| DeclaredAt(declared, sources, name, i, k)
                   && forall j: nat, l: nat :: DeclaredAt(declared, sources, name, j, l) ==> j == i && l == k {
        assert OnePlace(declared, sources, name, i, k);
      }
    }
  }

  lemma NotElsewhere(declared: string -> seq<string>, sources: seq<string>, name: string, i: nat, j: nat, l: nat)
    requires OnlyIn(declared, sources, name, i) && DeclaredAt(declared, sources, name, j, l)
    ensures j == i
  {
    hide Declares;
    NoneAt(declared, sources, name, j);
  }

  lemma InSources(declared: string -> seq<string>, sources: seq<string>, name: string)
    ensures forall i: nat, k: nat :: DeclaredAt(declared, sources, name, i, k) ==> i < |sources|
  {
  }

  /** What is inside a comment or a string literal never counts as a declaration. */
  lemma BodiesDoNotCount(declared: string -> seq<string>, a: string, body: string, b: string, name: string)
    requires StateAfter(Code, a) == Code
    ensures CommentBody(body) ==> Declares(declared, a + Comment(body) + b, name) == Declares(declared, a + b, name)
    ensures StringBody(body) ==> Declares(declared, a + Literal(body) + b, name) == Declares(declared, a + b, name)
  {
    hide Strip, Comment, Literal, Closed, StateAfter;
    if CommentBody(body) {
      CommentIsClosed(body);
      ClosedIsTransparent(a, Comment(body), b);
    }
    if StringBody(body) {
      LiteralIsClosed(body);
      ClosedIsTransparent(a, Literal(body), b);
    }
  }
}
