/** Patches inside Codex tool calls: the apply_patch envelope, the script that
    carries it as an escaped string literal, and the proof that reading undoes
    writing. Strings are strings of bytes. */
module CodexPatch {
  import opened Text

  /** The diffstat of one file section. */
  datatype FilePatch = FilePatch(path: string, added: nat, removed: nat)

  const UPDATE := "*** Update File: "
  const ADD := "*** Add File: "
  const STARS := "*** "
  const WORDS := "Begin Patch"
  const BEGIN := STARS + WORDS
  const CALL := "tools.apply_patch("

  // ----- the envelope ---------------------------------------------------------

  function Bump(fp: FilePatch, line: string): FilePatch {
    if "+" <= line then FilePatch(fp.path, fp.added + 1, fp.removed)
    else if "-" <= line then FilePatch(fp.path, fp.added, fp.removed + 1)
    else fp
  }

  predicate Opens(line: string) { UPDATE <= line || ADD <= line }

  function PathOf(line: string): string
    requires Opens(line)
  {
    Trim(line[Index(line, ": ") + 2..])
  }

  /** Reads on with `out` found so far; `open` says whether its last section is
      still being counted. */
  function Sections(out: seq<FilePatch>, open: bool, lines: seq<string>): seq<FilePatch>
    requires open ==> out != []
    decreases |lines|
  {
    if lines == [] then out
    else
      var l, rest := lines[0], lines[1..];
      if Opens(l) then Sections(out + [FilePatch(PathOf(l), 0, 0)], true, rest)
      else if STARS <= l then Sections(out, false, rest)
      else if open then Sections(out[|out| - 1 := Bump(out[|out| - 1], l)], true, rest)
      else Sections(out, false, rest)
  }

  function PatchFiles(input: string): seq<FilePatch> { Sections([], false, Split(input, '\n')) }

  method ParseApplyPatch(input: string) returns (out: seq<FilePatch>)
    ensures out == PatchFiles(input)
  {
    out := [];
    var cur := -1; // index into out; -1 outside a counted section
    var lines := Split(input, '\n');
    assert lines[0..] == lines;
    for i := 0 to |lines|
      invariant cur == -1 || cur == |out| - 1
      invariant Sections(out, cur >= 0, lines[i..]) == PatchFiles(input)
    {
      var l := lines[i];
      assert lines[i..][1..] == lines[i + 1..];
      if UPDATE <= l || ADD <= l {
        out := out + [FilePatch(Trim(l[Index(l, ": ") + 2..]), 0, 0)];
        cur := |out| - 1;
      } else if STARS <= l {
        cur := -1; // Delete File, End Patch, Move to, Begin Patch
      } else if cur >= 0 && "+" <= l {
        out := out[cur := FilePatch(out[cur].path, out[cur].added + 1, out[cur].removed)];
      } else if cur >= 0 && "-" <= l {
        out := out[cur := FilePatch(out[cur].path, out[cur].added, out[cur].removed + 1)];
      } else if cur >= 0 {
        assert out[|out| - 1 := Bump(out[|out| - 1], l)] == out;
      }
    }
  }

  // ----- string escapes -------------------------------------------------------

  predicate IsHex(c: char) { '0' <= c <= '9' || 'a' <= c <= 'f' || 'A' <= c <= 'F' }

  function HexDigit(c: char): (n: nat)
    requires IsHex(c)
    ensures n < 16
  {
    if '0' <= c <= '9' then c as int - '0' as int
    else if 'a' <= c <= 'f' then c as int - 'a' as int + 10
    else c as int - 'A' as int + 10
  }

  /** The UTF-8 bytes of a code point below 0x10000; a surrogate becomes U+FFFD. */
  function Utf8(v: nat): string
    requires v < 0x10000
    decreases if 0xD800 <= v < 0xE000 then 1 else 0
  {
    if v < 0x80 then [v as char]
    else if v < 0x800 then [(0xC0 + v / 0x40) as char, (0x80 + v % 0x40) as char]
    else if 0xD800 <= v < 0xE000 then Utf8(0xFFFD)
    else [(0xE0 + v / 0x1000) as char, (0x80 + v / 0x40 % 0x40) as char, (0x80 + v % 0x40) as char]
  }

  /** The text of the escape sequence `s` starts with, and its length. */
  function DecodeEscape(s: string): (r: (string, nat))
    requires s != "" && s[0] == '\\'
    ensures 0 < r.1 <= |s|
  {
    if |s| < 2 then ("\\", 1)
    else if s[1] == 'n' then ("\n", 2)
    else if s[1] == 't' then ("\t", 2)
    else if s[1] == 'r' then ("\r", 2)
    else if s[1] == 'u' then
      if |s| >= 6 && IsHex(s[2]) && IsHex(s[3]) && IsHex(s[4]) && IsHex(s[5])
      then (Utf8(HexDigit(s[2]) * 0x1000 + HexDigit(s[3]) * 0x100 + HexDigit(s[4]) * 0x10 + HexDigit(s[5])), 6)
      else ("u", 2)
    else if s[1] as int < 0x10000 then (Utf8(s[1] as int), 2)
    else (s[1..2], 2)
  }

  /** Every escape of a script decoded. */
  function Unescaped(s: string): string
    decreases |s|
  {
    if s == "" then ""
    else if s[0] == '\\' then var (text, n) := DecodeEscape(s); text + Unescaped(s[n..])
    else [s[0]] + Unescaped(s[1..])
  }

  /** The literal's contents up to its closing quote and the bytes consumed, or
      0 bytes when it is not terminated. */
  function Body(s: string, quote: char): (r: (string, nat))
    ensures r.1 <= |s|
    ensures r.1 == 0 ==> r.0 == ""
    decreases |s|
  {
    if s == "" then ("", 0)
    else if s[0] == '\\' then
      var (text, n) := DecodeEscape(s);
      var (more, m) := Body(s[n..], quote);
      if m == 0 then ("", 0) else (text + more, n + m)
    else if s[0] == quote then ("", 1)
    else
      var (more, m) := Body(s[1..], quote);
      if m == 0 then ("", 0) else ([s[0]] + more, 1 + m)
  }

  predicate IsBlank(c: char) { c == ' ' || c == '\t' || c == '\n' || c == '\r' }

  predicate IsQuote(c: char) { c == '"' || c == '\'' || c == '`' }

  /** The string literal `s` starts with, after blanks. */
  function Literal(s: string): (r: (string, nat))
    ensures r.1 <= |s|
    ensures r.1 == 0 ==> r.0 == ""
    decreases |s|
  {
    if s == "" then ("", 0)
    else if IsBlank(s[0]) then
      var (text, n) := Literal(s[1..]);
      (text, if n == 0 then 0 else n + 1)
    else if !IsQuote(s[0]) then ("", 0)
    else
      var (text, n) := Body(s[1..], s[0]);
      (text, if n == 0 then 0 else n + 1)
  }

  lemma Drop(s: string, i: nat, j: nat)
    requires i + j <= |s|
    ensures s[i..][j..] == s[i + j..]
  {
  }

  lemma Assoc<T>(a: seq<T>, b: seq<T>, c: seq<T>)
    ensures (a + b) + c == a + (b + c)
  {
  }

  method UnescapeJs(s: string) returns (b: string)
    ensures b == Unescaped(s)
  {
    b := "";
    var rest := s;
    assert b + Unescaped(rest) == Unescaped(s);
    while rest != ""
      invariant b + Unescaped(rest) == Unescaped(s)
      decreases |rest|
    {
      if rest[0] == '\\' {
        var (text, n) := DecodeEscape(rest);
        Assoc(b, text, Unescaped(rest[n..]));
        b, rest := b + text, rest[n..];
      } else {
        Assoc(b, [rest[0]], Unescaped(rest[1..]));
        b, rest := b + [rest[0]], rest[1..];
      }
    }
    assert b + "" == b;
  }

  /** What has been read, put before what reading on gives. */
  function After(read: string, consumed: nat, rest: (string, nat)): (string, nat) {
    if rest.1 == 0 then ("", 0) else (read + rest.0, consumed + rest.1)
  }

  lemma AfterAfter(a: string, m: nat, b: string, n: nat, rest: (string, nat))
    ensures After(a, m, After(b, n, rest)) == After(a + b, m + n, rest)
  {
    Assoc(a, b, rest.0);
  }

  lemma AfterNothing(rest: (string, nat))
    requires rest.1 == 0 ==> rest.0 == ""
    ensures After("", 0, rest) == rest
  {
    assert "" + rest.0 == rest.0;
  }

  lemma BlankRead(s: string)
    requires s != "" && IsBlank(s[0])
    ensures Literal(s) == After("", 1, Literal(s[1..]))
  {
    var r := Literal(s[1..]);
    assert "" + r.0 == r.0;
  }

  method SkipBlanks(s: string) returns (i: nat)
    ensures i <= |s| && Literal(s) == After("", i, Literal(s[i..]))
    ensures i < |s| ==> !IsBlank(s[i])
  {
    i := 0;
    assert s[0..] == s;
    AfterNothing(Literal(s));
    while i < |s| && IsBlank(s[i])
      invariant 0 <= i <= |s|
      invariant Literal(s) == After("", i, Literal(s[i..]))
    {
      Drop(s, i, 1);
      BlankRead(s[i..]);
      AfterAfter("", i, "", 1, Literal(s[i + 1..]));
      i := i + 1;
    }
  }

  lemma BodyStep(s: string, quote: char)
    requires s != "" && (s[0] == '\\' || s[0] != quote)
    ensures s[0] == '\\' ==>
      Body(s, quote) == After(DecodeEscape(s).0, DecodeEscape(s).1, Body(s[DecodeEscape(s).1..], quote))
    ensures s[0] != '\\' ==> Body(s, quote) == After([s[0]], 1, Body(s[1..], quote))
  {
  }

  /** The loop over the literal's bytes, from just past the opening quote. */
  method ReadBody(s: string, quote: char) returns (text: string, n: nat)
    ensures (text, n) == Body(s, quote)
  {
    var i := 0;
    text := "";
    assert s[0..] == s;
    AfterNothing(Body(s, quote));
    while i < |s|
      invariant 0 <= i <= |s|
      invariant Body(s, quote) == After(text, i, Body(s[i..], quote))
      decreases |s| - i
    {
      var rest := s[i..];
      if rest[0] == '\\' {
        var (piece, k) := DecodeEscape(rest);
        BodyStep(rest, quote);
        Drop(s, i, k);
        AfterAfter(text, i, piece, k, Body(rest[k..], quote));
        text, i := text + piece, i + k;
      } else if rest[0] == quote {
        assert text + "" == text;
        return text, i + 1;
      } else {
        BodyStep(rest, quote);
        Drop(s, i, 1);
        AfterAfter(text, i, [rest[0]], 1, Body(rest[1..], quote));
        text, i := text + [rest[0]], i + 1;
      }
    }
    return "", 0; // unterminated
  }

  method JsStringLiteral(s: string) returns (text: string, n: nat)
    ensures text == Literal(s).0 && n == Literal(s).1
  {
    var i := SkipBlanks(s);
    if i >= |s| || !IsQuote(s[i]) {
      return "", 0;
    }
    Drop(s, i, 1);
    text, n := ReadBody(s[i + 1..], s[i]);
    assert "" + text == text;
    n := if n == 0 then 0 else i + 1 + n;
  }

  // ----- the envelopes of one tool call ----------------------------------------

  /** The argument of the call at `i`, if it is an envelope, and the text after. */
  function NextCall(s: string, i: nat): (r: (seq<string>, string))
    requires i + |CALL| <= |s|
    ensures |r.1| < |s|
  {
    var rest := s[i + |CALL|..];
    var (arg, n) := Literal(rest);
    (if n > 0 && Contains(arg, BEGIN) then [arg] else [], rest[n..])
  }

  /** The literal arguments of every apply_patch call that hold an envelope. */
  function Arguments(s: string): seq<string>
    decreases |s|
  {
    var i := Index(s, CALL);
    if i < 0 then [] else NextCall(s, i).0 + Arguments(NextCall(s, i).1)
  }

  function Envelopes(name: string, input: string): seq<string> {
    if name == "apply_patch" then [input]
    else if !Contains(input, WORDS) then []
    else if Arguments(input) != [] then Arguments(input)
    else if Contains(Unescaped(input), BEGIN) then [Unescaped(input)]
    else []
  }

  function AllFiles(envelopes: seq<string>): seq<FilePatch> {
    if envelopes == [] then [] else PatchFiles(envelopes[0]) + AllFiles(envelopes[1..])
  }

  /** What a tool call contributes. */
  function FilesOf(name: string, input: string): seq<FilePatch> { AllFiles(Envelopes(name, input)) }

  method ReadCall(s: string, i: nat) returns (found: seq<string>, rest: string)
    requires i + |CALL| <= |s|
    ensures found == NextCall(s, i).0 && rest == NextCall(s, i).1
  {
    rest := s[i + |CALL|..];
    found := [];
    var arg, n := JsStringLiteral(rest);
    if n > 0 {
      rest := rest[n..];
      if Contains(arg, BEGIN) {
        found := [arg];
      }
    }
  }

  /** The loop over the calls. */
  method CallArguments(input: string) returns (out: seq<string>)
    ensures out == Arguments(input)
  {
    out := [];
    var rest := input;
    assert out + Arguments(rest) == Arguments(input);
    var i := Index(rest, CALL);
    while i >= 0
      invariant i == Index(rest, CALL)
      invariant out + Arguments(rest) == Arguments(input)
      decreases |rest|
    {
      var found, after := ReadCall(rest, i);
      Assoc(out, found, Arguments(after));
      out, rest := out + found, after;
      i := Index(rest, CALL);
    }
    assert out + [] == out;
  }

  method CodexPatchEnvelopes(name: string, input: string) returns (out: seq<string>)
    ensures out == Envelopes(name, input)
  {
    if name == "apply_patch" {
      return [input];
    }
    if !Contains(input, WORDS) {
      return [];
    }
    out := CallArguments(input);
    if |out| > 0 {
      return out;
    }
    var unescaped := UnescapeJs(input);
    if Contains(unescaped, BEGIN) {
      return [unescaped];
    }
    return [];
  }

  // ----- writing --------------------------------------------------------------

  /** A line of a hunk. */
  datatype Change = Added(text: string) | Removed(text: string) | Context(text: string) | Hunk(text: string)

  /** A file section of a patch. A moved file's hunks follow its `Move to` line. */
  datatype Section =
    | Update(path: string, body: seq<Change>)
    | Add(path: string, body: seq<Change>)
    | Move(path: string, to: string, body: seq<Change>)
    | Delete(path: string)

  function ChangeLine(c: Change): string {
    match c
    case Added(t) => "+" + t
    case Removed(t) => "-" + t
    case Context(t) => " " + t
    case Hunk(t) => "@@" + t
  }

  function BodyLines(body: seq<Change>): seq<string> {
    if body == [] then [] else [ChangeLine(body[0])] + BodyLines(body[1..])
  }

  function SectionLines(s: Section): seq<string> {
    match s
    case Update(p, body) => ["*** Update File: " + p] + BodyLines(body)
    case Add(p, body) => ["*** Add File: " + p] + BodyLines(body)
    case Move(p, to, body) => ["*** Update File: " + p] + ["*** Move to: " + to] + BodyLines(body)
    case Delete(p) => ["*** Delete File: " + p]
  }

  function AllLines(ss: seq<Section>): seq<string> {
    if ss == [] then [] else SectionLines(ss[0]) + AllLines(ss[1..])
  }

  const END := "*** End Patch"

  function Render(ss: seq<Section>): string {
    Join(["*** Begin Patch"] + AllLines(ss) + ["*** End Patch"], '\n')
  }

  function CountAdded(body: seq<Change>): nat {
    if body == [] then 0 else (if body[0].Added? then 1 else 0) + CountAdded(body[1..])
  }

  function CountRemoved(body: seq<Change>): nat {
    if body == [] then 0 else (if body[0].Removed? then 1 else 0) + CountRemoved(body[1..])
  }

  /** What reading a section should give: nothing for a deletion; a moved file is
      recorded under its old name, with its lines uncounted. */
  function Counted(s: Section): seq<FilePatch> {
    match s
    case Update(p, body) => [FilePatch(p, CountAdded(body), CountRemoved(body))]
    case Add(p, body) => [FilePatch(p, CountAdded(body), CountRemoved(body))]
    case Move(p, _, _) => [FilePatch(p, 0, 0)]
    case Delete(_) => []
  }

  function AllCounted(ss: seq<Section>): seq<FilePatch> {
    if ss == [] then [] else Counted(ss[0]) + AllCounted(ss[1..])
  }

  ghost predicate OneLine(s: string) { Free(s, '\n') }

  /** Paths and lines hold no newline, and a path no white space at its ends. */
  ghost predicate Writable(s: Section) {
    && OneLine(s.path) && Trim(s.path) == s.path
    && (s.Move? ==> OneLine(s.to))
    && (!s.Delete? ==> forall i | 0 <= i < |s.body| :: OneLine(s.body[i].text))
  }

  ghost predicate AllWritable(ss: seq<Section>) { forall i | 0 <= i < |ss| :: Writable(ss[i]) }

  // ----- reading undoes writing: the envelope -----------------------------------

  lemma HeaderColon(head: string)
    requires head == UPDATE || head == ADD
    ensures head[|head| - 2] == ':' && head[|head| - 1] == ' '
    ensures forall j | 0 <= j < |head| - 2 :: head[j] != ':'
  {
  }

  lemma HeaderPath(head: string, path: string)
    requires head == UPDATE || head == ADD
    requires Trim(path) == path
    ensures Opens(head + path) && PathOf(head + path) == path
  {
    HeaderColon(head);
    ColonIndex(head, path);
    assert (head + path)[|head|..] == path;
  }

  lemma ColonIndex(head: string, path: string)
    requires |head| >= 2 && head[|head| - 2] == ':' && head[|head| - 1] == ' '
    requires forall j | 0 <= j < |head| - 2 :: head[j] != ':'
    ensures Index(head + path, ": ") == |head| - 2
  {
    var l, k := head + path, |head| - 2;
    assert l[k..k + 2] == ": ";
    IndexIsFirst(l, ": ", k);
    var i := Index(l, ": ");
    assert l[i..i + 2][0] == l[i];
  }

  /** The fourth and fifth characters tell the kinds of lines apart. */
  lemma NotAHeader(l: string)
    ensures |l| < 5 || (l[4] != 'U' && l[4] != 'A') ==> !Opens(l)
    ensures |l| < 1 || l[0] != '*' ==> !Opens(l) && !(STARS <= l)
  {
    assert UPDATE[4] == 'U' && ADD[4] == 'A';
  }

  /** A counted section's line bumps the last file found. */
  lemma LineRead(pre: seq<FilePatch>, fp: FilePatch, l: string, rest: seq<string>)
    requires !Opens(l) && !(STARS <= l)
    ensures Sections(pre + [fp], true, [l] + rest) == Sections(pre + [Bump(fp, l)], true, rest)
  {
    var out := pre + [fp];
    assert ([l] + rest)[1..] == rest;
    assert out[|out| - 1 := Bump(fp, l)] == pre + [Bump(fp, l)];
  }

  function Tally(fp: FilePatch, body: seq<Change>): FilePatch {
    FilePatch(fp.path, fp.added + CountAdded(body), fp.removed + CountRemoved(body))
  }

  lemma ChangeRead(fp: FilePatch, body: seq<Change>)
    requires body != []
    ensures !Opens(ChangeLine(body[0])) && !(STARS <= ChangeLine(body[0]))
    ensures Tally(Bump(fp, ChangeLine(body[0])), body[1..]) == Tally(fp, body)
  {
    NotAHeader(ChangeLine(body[0]));
  }

  lemma {:induction false} BodyRead(pre: seq<FilePatch>, fp: FilePatch, body: seq<Change>, rest: seq<string>)
    ensures Sections(pre + [fp], true, BodyLines(body) + rest) == Sections(pre + [Tally(fp, body)], true, rest)
    decreases |body|
  {
    if body == [] {
      assert BodyLines(body) + rest == rest;
    } else {
      var l := ChangeLine(body[0]);
      Assoc([l], BodyLines(body[1..]), rest);
      ChangeRead(fp, body);
      LineRead(pre, fp, l, BodyLines(body[1..]) + rest);
      BodyRead(pre, Bump(fp, l), body[1..], rest);
    }
  }

  lemma {:induction false} BodySkipped(out: seq<FilePatch>, body: seq<Change>, rest: seq<string>)
    ensures Sections(out, false, BodyLines(body) + rest) == Sections(out, false, rest)
    decreases |body|
  {
    if body == [] {
      assert BodyLines(body) + rest == rest;
    } else {
      var lines := BodyLines(body) + rest;
      assert lines[0] == ChangeLine(body[0]) && lines[1..] == BodyLines(body[1..]) + rest;
      NotAHeader(ChangeLine(body[0]));
      BodySkipped(out, body[1..], rest);
    }
  }

  /** `lines` continue the reading with one header line in front. */
  lemma HeaderRead(out: seq<FilePatch>, open: bool, head: string, path: string, lines: seq<string>)
    requires open ==> out != []
    requires head == UPDATE || head == ADD
    requires Trim(path) == path
    ensures Sections(out, open, [head + path] + lines) == Sections(out + [FilePatch(path, 0, 0)], true, lines)
  {
    HeaderPath(head, path);
    assert ([head + path] + lines)[1..] == lines;
  }

  lemma StarsRead(out: seq<FilePatch>, open: bool, l: string, lines: seq<string>)
    requires open ==> out != []
    requires STARS <= l && |l| > 4 && l[4] != 'U' && l[4] != 'A'
    ensures Sections(out, open, [l] + lines) == Sections(out, false, lines)
  {
    NotAHeader(l);
    assert ([l] + lines)[1..] == lines;
  }

  /** After a section the reader has recorded it and stands wherever it stands. */
  lemma SectionRead(out: seq<FilePatch>, open: bool, s: Section, rest: seq<string>)
    requires (open ==> out != []) && Writable(s)
    ensures Sections(out, open, SectionLines(s) + rest)
         == Sections(out + Counted(s), s.Update? || s.Add?, rest)
  {
    match s
    case Update(p, body) => CountedRead(out, open, UPDATE, p, body, rest);
    case Add(p, body) => CountedRead(out, open, ADD, p, body, rest);
    case Move(p, to, body) => MovedRead(out, open, p, "*** Move to: " + to, body, rest);
    case Delete(p) =>
      StarsRead(out, open, "*** Delete File: " + p, rest);
      assert out + [] == out;
  }

  lemma MovedRead(out: seq<FilePatch>, open: bool, p: string, move: string, body: seq<Change>, rest: seq<string>)
    requires (open ==> out != []) && Trim(p) == p && "*** Move to: " <= move
    ensures Sections(out, open, [UPDATE + p] + [move] + BodyLines(body) + rest)
         == Sections(out + [FilePatch(p, 0, 0)], false, rest)
  {
    var lines := BodyLines(body) + rest;
    assert [UPDATE + p] + [move] + BodyLines(body) + rest == [UPDATE + p] + ([move] + lines);
    HeaderRead(out, open, UPDATE, p, [move] + lines);
    StarsRead(out + [FilePatch(p, 0, 0)], true, move, lines);
    BodySkipped(out + [FilePatch(p, 0, 0)], body, rest);
  }

  lemma CountedRead(out: seq<FilePatch>, open: bool, head: string, p: string, body: seq<Change>, rest: seq<string>)
    requires (open ==> out != []) && Trim(p) == p && (head == UPDATE || head == ADD)
    ensures Sections(out, open, [head + p] + BodyLines(body) + rest)
         == Sections(out + [FilePatch(p, CountAdded(body), CountRemoved(body))], true, rest)
  {
    assert [head + p] + BodyLines(body) + rest == [head + p] + (BodyLines(body) + rest);
    HeaderRead(out, open, head, p, BodyLines(body) + rest);
    BodyRead(out, FilePatch(p, 0, 0), body, rest);
  }

  lemma ConcatFree(head: string, s: string)
    requires OneLine(head) && OneLine(s)
    ensures OneLine(head + s)
  {
  }

  lemma {:induction false} BodyOneLine(body: seq<Change>)
    requires forall i | 0 <= i < |body| :: OneLine(body[i].text)
    ensures forall i | 0 <= i < |BodyLines(body)| :: OneLine(BodyLines(body)[i])
    decreases |body|
  {
    if body != [] {
      assert OneLine(body[0].text);
      BodyOneLine(body[1..]);
    }
  }

  lemma SectionOneLine(s: Section)
    requires Writable(s)
    ensures forall i | 0 <= i < |SectionLines(s)| :: OneLine(SectionLines(s)[i])
  {
    ConcatFree(UPDATE, s.path);
    ConcatFree(ADD, s.path);
    ConcatFree("*** Delete File: ", s.path);
    if !s.Delete? {
      BodyOneLine(s.body);
    }
    if s.Move? {
      ConcatFree("*** Move to: ", s.to);
    }
  }

  lemma {:induction false} LinesOneLine(ss: seq<Section>)
    requires AllWritable(ss)
    ensures forall i | 0 <= i < |AllLines(ss)| :: OneLine(AllLines(ss)[i])
    decreases |ss|
  {
    if ss != [] {
      SectionOneLine(ss[0]);
      LinesOneLine(ss[1..]);
    }
  }

  /** Lines that open no section. */
  ghost predicate Quiet(lines: seq<string>) { forall i | 0 <= i < |lines| :: !Opens(lines[i]) }

  lemma {:induction false} QuietSkipped(out: seq<FilePatch>, lines: seq<string>, rest: seq<string>)
    requires Quiet(lines)
    ensures Sections(out, false, lines + rest) == Sections(out, false, rest)
    decreases |lines|
  {
    if lines == [] {
      assert lines + rest == rest;
    } else {
      assert !Opens(lines[0]);
      assert (lines + rest)[1..] == lines[1..] + rest;
      QuietSkipped(out, lines[1..], rest);
    }
  }

  /** The end line, perhaps with more text on it, and lines that open no section. */
  ghost predicate Ends(lines: seq<string>) { lines != [] && END <= lines[0] && Quiet(lines) }

  lemma {:induction false} SectionsThen(out: seq<FilePatch>, open: bool, ss: seq<Section>, end: seq<string>)
    requires (open ==> out != []) && AllWritable(ss) && Ends(end)
    ensures Sections(out, open, AllLines(ss) + end) == out + AllCounted(ss)
    decreases |ss|
  {
    if ss == [] {
      EndThen(out, open, end);
    } else {
      var s, rest := ss[0], AllLines(ss[1..]) + end;
      Assoc(SectionLines(s), AllLines(ss[1..]), end);
      SectionRead(out, open, s, rest);
      SectionsThen(out + Counted(s), s.Update? || s.Add?, ss[1..], end);
      Assoc(out, Counted(s), AllCounted(ss[1..]));
    }
  }

  lemma EndThen(out: seq<FilePatch>, open: bool, end: seq<string>)
    requires (open ==> out != []) && Ends(end)
    ensures Sections(out, open, AllLines([]) + end) == out + AllCounted([])
  {
    var after := end[1..];
    assert AllLines([]) + end == [end[0]] + after;
    assert END[4] == 'E';
    StarsRead(out, open, end[0], after);
    QuietSkipped(out, after, []);
    assert after + [] == after;
    assert out + [] == out;
  }

  lemma Begins()
    ensures BEGIN == "*** Begin Patch"
  {
  }

  /** The lines of a text with an envelope in it. */
  lemma TextLines(a: string, ss: seq<Section>, z: string)
    requires AllWritable(ss)
    ensures Split(a + Render(ss) + z, '\n') == Split(a + BEGIN, '\n') + (AllLines(ss) + Split(END + z, '\n'))
  {
    Begins();
    var lines := AllLines(ss) + [END];
    var text := Join(lines, '\n') + z;
    assert [BEGIN] + AllLines(ss) + [END] == [BEGIN] + lines && ([BEGIN] + lines)[1..] == lines;
    assert a + Render(ss) + z == (a + BEGIN) + ['\n'] + text;
    SplitAt(a + BEGIN, '\n', text);
    LinesOneLine(ss);
    SplitJoined(AllLines(ss), END, '\n', z);
  }

  /** An envelope inside a text that opens no other section is read as if it stood alone,
      whatever else is on its first and last line. */
  lemma EnvelopeInText(a: string, ss: seq<Section>, z: string)
    requires AllWritable(ss) && Quiet(Split(a + BEGIN, '\n')) && Quiet(Split(END + z, '\n'))
    ensures PatchFiles(a + Render(ss) + z) == AllCounted(ss)
  {
    TextLines(a, ss, z);
    SplitStart(END, '\n', z);
    QuietSkipped([], Split(a + BEGIN, '\n'), AllLines(ss) + Split(END + z, '\n'));
    SectionsThen([], false, ss, Split(END + z, '\n'));
  }

  /** Reading a written envelope recovers every path, and both counts of every section
      that is not a move. */
  lemma EnvelopeRoundTrip(ss: seq<Section>)
    requires AllWritable(ss)
    ensures PatchFiles(Render(ss)) == AllCounted(ss)
  {
    QuietLine(BEGIN);
    QuietLine(END);
    Bare(BEGIN);
    Bare(END);
    Bare(Render(ss));
    EnvelopeInText("", ss, "");
  }

  lemma QuietLine(line: string)
    requires line == BEGIN || line == END
    ensures Quiet(Split(line, '\n'))
  {
    MarkerFree(line);
    SplitFree(line, '\n');
    NotAHeader(line);
  }

  lemma MarkerFree(line: string)
    requires line == BEGIN || line == END
    ensures Free(line, '\n')
  {
  }

  lemma Bare(s: string)
    ensures "" + s == s == s + "" == "" + s + ""
  {
  }

  // ----- what is lost ----------------------------------------------------------------

  /** What the patch says about a section: for a moved file too. */
  function WrittenIn(s: Section): seq<FilePatch> {
    match s
    case Update(p, body) => [FilePatch(p, CountAdded(body), CountRemoved(body))]
    case Add(p, body) => [FilePatch(p, CountAdded(body), CountRemoved(body))]
    case Move(p, _, body) => [FilePatch(p, CountAdded(body), CountRemoved(body))]
    case Delete(_) => []
  }

  function AllWritten(ss: seq<Section>): seq<FilePatch> {
    if ss == [] then [] else WrittenIn(ss[0]) + AllWritten(ss[1..])
  }

  /** A file moved without a change to its lines, or not moved. */
  predicate Unmoved(s: Section) { s.Move? ==> CountAdded(s.body) == 0 && CountRemoved(s.body) == 0 }

  lemma {:induction false} CountedIffUnmoved(ss: seq<Section>)
    ensures |AllCounted(ss)| == |AllWritten(ss)|
    ensures AllCounted(ss) == AllWritten(ss) <==> forall s | s in ss :: Unmoved(s)
    decreases |ss|
  {
    if ss != [] {
      CountedIffUnmoved(ss[1..]);
      var a, b := Counted(ss[0]), WrittenIn(ss[0]);
      assert |a| == |b| && (a == b <==> Unmoved(ss[0]));
      HeadsAndTails(a, AllCounted(ss[1..]), b, AllWritten(ss[1..]));
      assert forall s :: s in ss <==> s == ss[0] || s in ss[1..];
    }
  }

  lemma HeadsAndTails<T>(a: seq<T>, x: seq<T>, b: seq<T>, y: seq<T>)
    requires |a| == |b|
    ensures a + x == b + y <==> a == b && x == y
  {
    if a + x == b + y {
      assert a == (a + x)[..|a|] && b == (b + y)[..|b|];
      assert x == (a + x)[|a|..] && y == (b + y)[|b|..];
    }
  }

  /** A rendered envelope gives back every path and count if and only if no moved file
      changes lines: the `Move to` line ends the section before its hunks are read. */
  lemma RecoversIff(ss: seq<Section>)
    requires AllWritable(ss)
    ensures PatchFiles(Render(ss)) == AllWritten(ss) <==> forall s | s in ss :: Unmoved(s)
  {
    EnvelopeRoundTrip(ss);
    CountedIffUnmoved(ss);
  }

  // ----- reading undoes writing: literals and scripts ---------------------------

  predicate Special(c: char, quote: char) {
    c == '\n' || c == '\t' || c == '\r' || c == '\\' || c == quote
  }

  function EscapeChar(c: char, quote: char): string {
    if c == '\n' then "\\n"
    else if c == '\t' then "\\t"
    else if c == '\r' then "\\r"
    else if c == '\\' || c == quote then ['\\', c]
    else [c]
  }

  /** A text as the inside of a quoted literal. */
  function Escaped(s: string, quote: char): string {
    if s == "" then "" else EscapeChar(s[0], quote) + Escaped(s[1..], quote)
  }

  /** Each written character reads back as itself, and nothing past it is read. */
  lemma CharRead(c: char, quote: char, rest: string)
    requires IsQuote(quote)
    ensures var e := EscapeChar(c, quote); var s := e + rest;
            && s[|e|..] == rest
            && (e[0] == '\\' <==> Special(c, quote))
            && (Special(c, quote) ==> DecodeEscape(s) == ([c], |e|))
            && (!Special(c, quote) ==> e == [c])
  {
  }

  lemma CharUnescaped(c: char, quote: char, rest: string)
    requires IsQuote(quote)
    ensures Unescaped(EscapeChar(c, quote) + rest) == [c] + Unescaped(rest)
  {
    CharRead(c, quote, rest);
  }

  lemma CharInBody(c: char, quote: char, rest: string)
    requires IsQuote(quote)
    ensures Body(EscapeChar(c, quote) + rest, quote) == After([c], |EscapeChar(c, quote)|, Body(rest, quote))
  {
    CharRead(c, quote, rest);
    BodyStep(EscapeChar(c, quote) + rest, quote);
  }

  /** Unescaping undoes escaping, and goes on behind. */
  lemma {:induction false} UnescapeEscaped(s: string, quote: char, rest: string)
    requires IsQuote(quote)
    ensures Unescaped(Escaped(s, quote) + rest) == s + Unescaped(rest)
    decreases |s|
  {
    if s == "" {
      assert Escaped(s, quote) + rest == rest;
    } else {
      HeadUnescaped(s, quote, rest);
      UnescapeEscaped(s[1..], quote, rest);
      HeadBack(s, Unescaped(rest));
    }
  }

  lemma HeadUnescaped(s: string, quote: char, rest: string)
    requires IsQuote(quote) && s != ""
    ensures Unescaped(Escaped(s, quote) + rest) == [s[0]] + Unescaped(Escaped(s[1..], quote) + rest)
  {
    Assoc(EscapeChar(s[0], quote), Escaped(s[1..], quote), rest);
    CharUnescaped(s[0], quote, Escaped(s[1..], quote) + rest);
  }

  lemma HeadBack(s: string, rest: string)
    requires s != ""
    ensures [s[0]] + (s[1..] + rest) == s + rest
  {
  }

  lemma BodyCloses(quote: char, rest: string)
    requires IsQuote(quote)
    ensures Body(Escaped("", quote) + ([quote] + rest), quote) == ("", 1)
  {
    assert Escaped("", quote) + ([quote] + rest) == [quote] + rest;
  }

  lemma {:induction false} BodyWritten(s: string, quote: char, rest: string)
    requires IsQuote(quote)
    ensures Body(Escaped(s, quote) + ([quote] + rest), quote) == (s, |Escaped(s, quote)| + 1)
    decreases |s|
  {
    var close := [quote] + rest;
    if s == "" {
      BodyCloses(quote, rest);
    } else {
      FirstInBody(s, quote, close);
      BodyWritten(s[1..], quote, rest);
      assert [s[0]] + s[1..] == s;
    }
  }

  lemma FirstInBody(s: string, quote: char, close: string)
    requires IsQuote(quote) && s != ""
    ensures Body(Escaped(s, quote) + close, quote)
            == After([s[0]], |EscapeChar(s[0], quote)|, Body(Escaped(s[1..], quote) + close, quote))
  {
    Assoc(EscapeChar(s[0], quote), Escaped(s[1..], quote), close);
    CharInBody(s[0], quote, Escaped(s[1..], quote) + close);
  }

  predicate Blank(s: string) { forall i | 0 <= i < |s| :: s[i] in [' ', '\t', '\n', '\r'] }

  predicate Delimits(c: char) { c in ['"', '\'', '`'] }

  function Quoted(text: string, quote: char): string { [quote] + Escaped(text, quote) + [quote] }

  /** A written literal is consumed exactly, with its blanks and both quotes. */
  lemma {:induction false} LiteralWritten(blanks: string, text: string, quote: char, rest: string)
    requires Blank(blanks) && Delimits(quote)
    ensures Literal(blanks + Quoted(text, quote) + rest) == (text, |blanks| + |Quoted(text, quote)|)
    decreases |blanks|
  {
    var s := blanks + Quoted(text, quote) + rest;
    if blanks == "" {
      assert s[1..] == Escaped(text, quote) + ([quote] + rest);
      BodyWritten(text, quote, rest);
    } else {
      assert s[1..] == blanks[1..] + Quoted(text, quote) + rest;
      LiteralWritten(blanks[1..], text, quote, rest);
    }
  }

  /** One apply_patch call of a script, with the text before it. */
  datatype Call = Call(glue: string, blanks: string, quote: char, patch: seq<Section>)

  function CallText(c: Call): string {
    "tools.apply_patch(" + (c.blanks + Quoted(Render(c.patch), c.quote))
  }

  function Script(calls: seq<Call>, tail: string): string {
    if calls == [] then tail else calls[0].glue + CallText(calls[0]) + Script(calls[1..], tail)
  }

  ghost predicate Embeddable(c: Call) {
    && !Contains(c.glue, CALL)
    && Blank(c.blanks) && Delimits(c.quote) && AllWritable(c.patch)
  }

  function Rendered(calls: seq<Call>): seq<string> {
    if calls == [] then [] else [Render(calls[0].patch)] + Rendered(calls[1..])
  }

  function Counts(calls: seq<Call>): seq<FilePatch> {
    if calls == [] then [] else AllCounted(calls[0].patch) + Counts(calls[1..])
  }

  lemma RenderStart(ss: seq<Section>) returns (rest: string)
    ensures Render(ss) == BEGIN + rest && Contains(Render(ss), BEGIN)
  {
    Begins();
    var pieces := [BEGIN] + AllLines(ss) + [END];
    rest := ['\n'] + Join(pieces[1..], '\n');
    assert Render(ss) == BEGIN + rest;
    assert "" + BEGIN + rest == Render(ss);
    ContainsMiddle("", BEGIN, rest);
  }

  /** The next call the reader finds in a script is the next one written; its argument
      counts if it holds an envelope. */
  lemma CallRead(glue: string, blanks: string, text: string, quote: char, rest: string)
    requires !Contains(glue, CALL) && Blank(blanks) && Delimits(quote)
    ensures Arguments(glue + ("tools.apply_patch(" + (blanks + Quoted(text, quote))) + rest)
            == (if Contains(text, "*** Begin Patch") then [text] else []) + Arguments(rest)
  {
    var lit := blanks + Quoted(text, quote);
    Begins();
    CallSlices(glue, CALL, lit, rest);
    IndexAfterGlue(glue, CALL, lit + rest);
    LiteralWritten(blanks, text, quote, rest);
  }

  /** Without the words of the marker anywhere, a call that is no apply_patch itself gives
      nothing, however its text is escaped. */
  lemma NothingWithoutMarker(name: string, input: string)
    requires name != "apply_patch"
    requires forall i: nat :: !OccursAt(input, "Begin Patch", i)
    ensures FilesOf(name, input) == []
  {
    assert Index(input, WORDS) >= 0 ==> OccursAt(input, "Begin Patch", Index(input, WORDS));
  }

  predicate OccursAt(s: string, p: string, i: nat) { i + |p| <= |s| && s[i..i + |p|] == p }

  lemma CallSlices(glue: string, call: string, lit: string, rest: string)
    ensures glue + (call + lit) + rest == glue + call + (lit + rest)
    ensures (glue + (call + lit) + rest)[|glue| + |call|..] == lit + rest
    ensures (lit + rest)[|lit|..] == rest
  {
  }

  lemma {:induction false} ScriptRead(calls: seq<Call>, tail: string)
    requires (forall i | 0 <= i < |calls| :: Embeddable(calls[i])) && !Contains(tail, CALL)
    ensures Arguments(Script(calls, tail)) == Rendered(calls)
    decreases |calls|
  {
    if calls != [] {
      var c := calls[0];
      Begins();
      var _ := RenderStart(c.patch);
      CallRead(c.glue, c.blanks, Render(c.patch), c.quote, Script(calls[1..], tail));
      ScriptRead(calls[1..], tail);
    }
  }

  lemma {:induction false} EscapedAppend(a: string, b: string, quote: char)
    ensures Escaped(a + b, quote) == Escaped(a, quote) + Escaped(b, quote)
    decreases |a|
  {
    if a == "" {
      assert a + b == b;
    } else {
      assert (a + b)[1..] == a[1..] + b;
      EscapedAppend(a[1..], b, quote);
      Assoc(EscapeChar(a[0], quote), Escaped(a[1..], quote), Escaped(b, quote));
    }
  }

  lemma {:induction false} EscapedPlain(s: string, quote: char)
    requires forall i | 0 <= i < |s| :: !Special(s[i], quote)
    ensures Escaped(s, quote) == s
    decreases |s|
  {
    if s != "" {
      assert !Special(s[0], quote);
      EscapedPlain(s[1..], quote);
      assert [s[0]] + s[1..] == s;
    }
  }

  lemma BeginPlain(quote: char)
    requires IsQuote(quote)
    ensures Escaped(BEGIN, quote) == BEGIN
  {
    EscapedPlain(STARS, quote);
    EscapedPlain(WORDS, quote);
    EscapedAppend(STARS, WORDS, quote);
  }

  lemma EscapedRender(ss: seq<Section>, quote: char) returns (more: string)
    requires IsQuote(quote)
    ensures Escaped(Render(ss), quote) == STARS + (WORDS + more)
  {
    var rest := RenderStart(ss);
    BeginPlain(quote);
    EscapedAppend(BEGIN, rest, quote);
    more := Escaped(rest, quote);
    Assoc(STARS, WORDS, more);
  }

  lemma Regroup(g: string, k: string, bl: string, q: string, st: string, m: string, b: string, r: string)
    ensures g + (k + (bl + (q + (st + (m + b)) + q))) + r == (g + k + bl + q + st) + m + (b + q + r)
  {
  }

  /** The escaped envelope still shows the words the fast check looks for. */
  lemma MarkerSurvives(c: Call, rest: string)
    requires IsQuote(c.quote)
    ensures Contains(c.glue + CallText(c) + rest, WORDS)
  {
    var more := EscapedRender(c.patch, c.quote);
    var q, m := [c.quote], WORDS;
    Regroup(c.glue, CALL, c.blanks, q, STARS, m, more, rest);
    ContainsMiddle(c.glue + CALL + c.blanks + q + STARS, m, more + q + rest);
  }

  lemma {:induction false} AllFilesCounted(calls: seq<Call>)
    requires forall i | 0 <= i < |calls| :: Embeddable(calls[i])
    ensures AllFiles(Rendered(calls)) == Counts(calls)
    decreases |calls|
  {
    if calls != [] {
      EnvelopeRoundTrip(calls[0].patch);
      AllFilesCounted(calls[1..]);
    }
  }

  /** Any number of patches, each rendered, escaped and embedded as a call in a script,
      come back in order as each would be read alone. */
  lemma ScriptRoundTrip(name: string, calls: seq<Call>, tail: string)
    requires name != "apply_patch" && calls != []
    requires (forall i | 0 <= i < |calls| :: Embeddable(calls[i])) && !Contains(tail, CALL)
    ensures FilesOf(name, Script(calls, tail)) == Counts(calls)
  {
    MarkerSurvives(calls[0], Script(calls[1..], tail));
    ScriptRead(calls, tail);
    AllFilesCounted(calls);
  }

  function WrittenCounts(calls: seq<Call>): seq<FilePatch> {
    if calls == [] then [] else AllWritten(calls[0].patch) + WrittenCounts(calls[1..])
  }

  lemma {:induction false} CountsIffUnmoved(calls: seq<Call>)
    ensures Counts(calls) == WrittenCounts(calls) <==> forall c, s | c in calls && s in c.patch :: Unmoved(s)
    ensures |Counts(calls)| == |WrittenCounts(calls)|
    decreases |calls|
  {
    if calls != [] {
      CountedIffUnmoved(calls[0].patch);
      CountsIffUnmoved(calls[1..]);
      HeadsAndTails(AllCounted(calls[0].patch), Counts(calls[1..]), AllWritten(calls[0].patch),
                    WrittenCounts(calls[1..]));
      assert forall c :: c in calls <==> c == calls[0] || c in calls[1..];
    }
  }

  /** And so does a script. */
  lemma ScriptRecoversIff(name: string, calls: seq<Call>, tail: string)
    requires name != "apply_patch" && calls != []
    requires (forall i | 0 <= i < |calls| :: Embeddable(calls[i])) && !Contains(tail, CALL)
    ensures FilesOf(name, Script(calls, tail)) == WrittenCounts(calls)
      <==> forall c, s | c in calls && s in c.patch :: Unmoved(s)
  {
    ScriptRoundTrip(name, calls, tail);
    CountsIffUnmoved(calls);
  }

  /** The older form: the whole input is one envelope. */
  lemma DirectRoundTrip(ss: seq<Section>)
    requires AllWritable(ss)
    ensures FilesOf("apply_patch", Render(ss)) == AllCounted(ss)
  {
    EnvelopeRoundTrip(ss);
    assert AllFiles([Render(ss)]) == PatchFiles(Render(ss)) + [];
  }

  // ----- the heredoc form -----------------------------------------------------------

  /** No escape is cut off at the end, so what follows does not change how `p` reads. */
  ghost predicate Whole(p: string)
    decreases |p|
  {
    p == "" ||
    if p[0] == '\\' then |p| >= 2 && (p[1] == 'u' ==> |p| >= 6) && Whole(p[DecodeEscape(p).1..])
    else Whole(p[1..])
  }

  lemma DecodeWhole(p: string, rest: string)
    requires p != "" && p[0] == '\\' && |p| >= 2 && (p[1] == 'u' ==> |p| >= 6)
    ensures DecodeEscape(p + rest) == DecodeEscape(p)
    ensures (p + rest)[DecodeEscape(p).1..] == p[DecodeEscape(p).1..] + rest
  {
    assert p[1] != 'u' ==> (p + rest)[1..2] == p[1..2];
  }

  lemma {:induction false} UnescapedAppend(p: string, rest: string)
    requires Whole(p)
    ensures Unescaped(p + rest) == Unescaped(p) + Unescaped(rest)
    decreases |p|
  {
    if p == "" {
      assert p + rest == rest;
    } else if p[0] == '\\' {
      var (text, n) := DecodeEscape(p);
      DecodeWhole(p, rest);
      UnescapedAppend(p[n..], rest);
      Assoc(text, Unescaped(p[n..]), Unescaped(rest));
    } else {
      assert (p + rest)[1..] == p[1..] + rest;
      UnescapedAppend(p[1..], rest);
      Assoc([p[0]], Unescaped(p[1..]), Unescaped(rest));
    }
  }

  lemma {:induction false} PlainUnescaped(p: string)
    requires Free(p, '\\')
    ensures Whole(p) && Unescaped(p) == p
    decreases |p|
  {
    if p != "" {
      PlainUnescaped(p[1..]);
      assert [p[0]] + p[1..] == p;
    }
  }

  /** A script with one text in it that is escaped for a literal; both parts around it may
      hold escapes of their own. */
  function Around(p: string, text: string, quote: char, s: string): string { p + Escaped(text, quote) + s }

  lemma AroundUnescaped(p: string, text: string, quote: char, s: string)
    requires Whole(p) && IsQuote(quote)
    ensures Unescaped(Around(p, text, quote, s)) == Unescaped(p) + (text + Unescaped(s))
  {
    Assoc(p, Escaped(text, quote), s);
    UnescapedAppend(p, Escaped(text, quote) + s);
    UnescapeEscaped(text, quote, s);
  }

  lemma FiveAssoc(u: string, a: string, m: string, z: string, v: string)
    ensures u + ((a + m + z) + v) == (u + a) + m + (z + v)
  {
  }

  /** The heredoc form: a script that carries, in a string literal, a text that pipes an
      envelope into the patch binary. Unescaped as a whole it is read like the envelope
      alone, as long as no apply_patch call in it yields one and nothing around the
      envelope opens a section. */
  lemma HeredocRoundTrip(name: string, p: string, a: string, ss: seq<Section>, z: string, quote: char, s: string)
    requires name != "apply_patch" && Delimits(quote) && AllWritable(ss) && Whole(p)
    requires Quiet(Split(Unescaped(p) + a + BEGIN, '\n')) && Quiet(Split(END + (z + Unescaped(s)), '\n'))
    requires Arguments(Around(p, a + Render(ss) + z, quote, s)) == []
    ensures FilesOf(name, Around(p, a + Render(ss) + z, quote, s)) == AllCounted(ss)
  {
    var u, v, text := Unescaped(p), Unescaped(s), a + Render(ss) + z;
    AroundUnescaped(p, text, quote, s);
    FiveAssoc(u, a, Render(ss), z, v);
    EnvelopeInText(u + a, ss, z + v);
    TextShows(u + a, ss, z + v);
    WordsShow(p, a, ss, z, quote, s);
    WholesaleRead(name, Around(p, text, quote, s), (u + a) + Render(ss) + (z + v));
  }

  /** With every path and count as written if and only if no moved file changes lines. */
  lemma HeredocRecoversIff(name: string, p: string, a: string, ss: seq<Section>, z: string, quote: char, s: string)
    requires name != "apply_patch" && Delimits(quote) && AllWritable(ss) && Whole(p)
    requires Quiet(Split(Unescaped(p) + a + BEGIN, '\n')) && Quiet(Split(END + (z + Unescaped(s)), '\n'))
    requires Arguments(Around(p, a + Render(ss) + z, quote, s)) == []
    ensures FilesOf(name, Around(p, a + Render(ss) + z, quote, s)) == AllWritten(ss)
            <==> forall x | x in ss :: Unmoved(x)
  {
    HeredocRoundTrip(name, p, a, ss, z, quote, s);
    CountedIffUnmoved(ss);
  }

  /** The usual script has no backslash outside the literal, and may quote as it likes. */
  lemma PlainHeredoc(name: string, p: string, a: string, ss: seq<Section>, z: string, quote: char, s: string)
    requires name != "apply_patch" && Delimits(quote) && AllWritable(ss) && Free(p, '\\') && Free(s, '\\')
    requires Quiet(Split(p + a + BEGIN, '\n')) && Quiet(Split(END + (z + s), '\n'))
    requires Arguments(Around(p, a + Render(ss) + z, quote, s)) == []
    ensures FilesOf(name, Around(p, a + Render(ss) + z, quote, s)) == AllCounted(ss)
  {
    PlainUnescaped(p);
    PlainUnescaped(s);
    HeredocRoundTrip(name, p, a, ss, z, quote, s);
  }

  lemma TextShows(a: string, ss: seq<Section>, z: string)
    ensures Contains(a + Render(ss) + z, BEGIN)
  {
    var rest := RenderStart(ss);
    assert a + Render(ss) + z == a + BEGIN + (rest + z);
    ContainsMiddle(a, BEGIN, rest + z);
  }

  /** Escaping leaves the words the fast check looks for. */
  lemma WordsShow(p: string, a: string, ss: seq<Section>, z: string, quote: char, s: string)
    requires IsQuote(quote)
    ensures Contains(Around(p, a + Render(ss) + z, quote, s), WORDS)
  {
    var more := EscapedRender(ss, quote);
    var x, y := Escaped(a, quote), Escaped(z, quote);
    EscapedAppend(a + Render(ss), z, quote);
    EscapedAppend(a, Render(ss), quote);
    WordsInside(p, x, more, y, s);
    ContainsMiddle(p + x + STARS, WORDS, more + y + s);
  }

  lemma WordsInside(p: string, x: string, more: string, y: string, s: string)
    ensures p + (x + (STARS + (WORDS + more)) + y) + s == (p + x + STARS) + WORDS + (more + y + s)
  {
    Flatten(p, x, STARS, WORDS, more, y, s);
  }

  lemma Flatten(p: string, x: string, b: string, m: string, more: string, y: string, s: string)
    ensures p + (x + (b + (m + more)) + y) + s == (p + x + b) + m + (more + y + s)
  {
  }

  lemma WholesaleRead(name: string, input: string, text: string)
    requires name != "apply_patch" && Contains(input, WORDS) && Arguments(input) == []
    requires Unescaped(input) == text && Contains(text, BEGIN)
    ensures FilesOf(name, input) == PatchFiles(text)
  {
    assert AllFiles([text]) == PatchFiles(text) + [];
  }

  // ----- the other escapes --------------------------------------------------------------

  /** The code point the bytes encode in UTF-8. */
  predicate Encodes(t: string, v: int) {
    || (|t| == 1 && v == t[0] as int < 0x80)
    || (|t| == 2 && 0xC0 <= t[0] as int < 0xE0 && Follows(t[1])
        && v == (t[0] as int - 0xC0) * 64 + (t[1] as int - 0x80) >= 0x80)
    || (|t| == 3 && 0xE0 <= t[0] as int < 0xF0 && Follows(t[1]) && Follows(t[2])
        && v == (t[0] as int - 0xE0) * 4096 + (t[1] as int - 0x80) * 64 + (t[2] as int - 0x80) >= 0x800)
  }

  predicate Follows(c: char) { 0x80 <= c as int < 0xC0 }

  /** A hexadecimal digit in either case. */
  predicate IsDigit(c: char, d: int) { 0 <= d < 16 && (c == "0123456789abcdef"[d] || c == "0123456789ABCDEF"[d]) }

  lemma Utf8Encodes(v: nat)
    requires v < 0x10000 && !(0xD800 <= v < 0xE000)
    ensures Encodes(Utf8(v), v)
  {
    if v >= 0x800 { assert v == 4096 * (v / 0x1000) + 64 * (v / 0x40 % 0x40) + v % 0x40; }
  }

  lemma HexIs(c: char, d: int)
    requires IsDigit(c, d)
    ensures IsHex(c) && HexDigit(c) == d
  {
  }

  /** Four hexadecimal digits after a backslash and a `u` are the UTF-8 bytes of the code
      point they write, or of the replacement character for a surrogate. */
  lemma UnicodeEscape(a: char, b: char, c: char, d: char, i: int, j: int, k: int, l: int, rest: string)
    returns (t: string)
    requires IsDigit(a, i) && IsDigit(b, j) && IsDigit(c, k) && IsDigit(d, l)
    ensures Unescaped(['\\', 'u', a, b, c, d] + rest) == t + Unescaped(rest)
    ensures var v := i * 4096 + j * 256 + k * 16 + l; Encodes(t, if 0xD800 <= v < 0xE000 then 0xFFFD else v)
  {
    var s := ['\\', 'u', a, b, c, d] + rest;
    var v := i * 4096 + j * 256 + k * 16 + l;
    HexDecoded(s, i, j, k, l);
    assert s[6..] == rest;
    t := Utf8(v);
    Utf8Encodes(if 0xD800 <= v < 0xE000 then 0xFFFD else v);
  }

  lemma HexDecoded(s: string, i: int, j: int, k: int, l: int)
    requires |s| >= 6 && s[0] == '\\' && s[1] == 'u'
    requires IsDigit(s[2], i) && IsDigit(s[3], j) && IsDigit(s[4], k) && IsDigit(s[5], l)
    ensures DecodeEscape(s) == (Utf8(i * 4096 + j * 256 + k * 16 + l), 6)
  {
    HexIs(s[2], i);
    HexIs(s[3], j);
    HexIs(s[4], k);
    HexIs(s[5], l);
  }

  /** A backslash before any other character reads as that character, in UTF-8 if it is a
      byte above ASCII; a `u` without four hexadecimal digits is such a character, and a
      backslash at the end is itself. */
  lemma OtherEscape(c: char, rest: string) returns (t: string)
    requires c !in ['n', 't', 'r'] && c as int < 0x100
    requires c == 'u' ==> |rest| < 4 || exists i :: 0 <= i < 4 && NoDigit(rest[i])
    ensures Unescaped(['\\', c] + rest) == t + Unescaped(rest) && Encodes(t, c as int)
    ensures Unescaped(['\\']) == ['\\']
  {
    var s := ['\\', c] + rest;
    if c == 'u' { NotHex(rest); }
    Utf8Encodes(c as int);
    t := DecodeEscape(s).0;
    assert s[2..] == rest;
    assert ['\\'][1..] == "";
  }

  ghost predicate NoDigit(c: char) { forall d :: !IsDigit(c, d) }

  lemma NotHex(rest: string)
    requires |rest| < 4 || exists i :: 0 <= i < 4 && NoDigit(rest[i])
    ensures |rest| < 4 || !(IsHex(rest[0]) && IsHex(rest[1]) && IsHex(rest[2]) && IsHex(rest[3]))
  {
    if |rest| >= 4 {
      var i :| 0 <= i < 4 && NoDigit(rest[i]);
      if IsHex(rest[i]) { HexWritten(rest[i]); }
    }
  }

  lemma HexWritten(c: char)
    requires IsHex(c)
    ensures IsDigit(c, HexDigit(c))
  {
  }
}
