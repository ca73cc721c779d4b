/** The few string operations of Go's `strings` package the parsers use, on
    strings of bytes. */
module Text {

  /** strings.Index: the first place `p` occurs in `s`, or -1. */
  function Index(s: string, p: string): (i: int)
    ensures -1 <= i
    ensures i >= 0 ==> i + |p| <= |s| && s[i..i + |p|] == p
  {
    if p <= s then 0
    else if s == "" then -1
    else
      var i := Index(s[1..], p);
      if i < 0 then -1 else i + 1
  }

  predicate Contains(s: string, p: string) { Index(s, p) >= 0 }

  /** No occurrence lies before the reported one, and -1 means there is none. */
  lemma {:induction false} IndexIsFirst(s: string, p: string, j: nat)
    requires j + |p| <= |s| && s[j..j + |p|] == p
    ensures 0 <= Index(s, p) <= j
    decreases |s|
  {
    if !(p <= s) {
      assert s[1..][j - 1..j - 1 + |p|] == s[j..j + |p|];
      IndexIsFirst(s[1..], p, j - 1);
    }
  }

  lemma ContainsMiddle(a: string, p: string, b: string)
    ensures Contains(a + p + b, p)
  {
    var s := a + p + b;
    assert s[|a|..|a| + |p|] == p;
    IndexIsFirst(s, p, |a|);
  }

  /** A pattern whose last character occurs nowhere else in it cannot overlap
      text that does not contain it. */
  lemma {:induction false} IndexAfterGlue(glue: string, p: string, rest: string)
    requires p != "" && Index(glue, p) < 0
    requires forall k | 0 <= k < |p| - 1 :: p[k] != p[|p| - 1]
    ensures Index(glue + p + rest, p) == |glue|
    decreases |glue|
  {
    var s := glue + p + rest;
    if glue == "" {
      assert s[..|p|] == p;
    } else {
      assert |p| <= |glue| ==> s[..|p|] == glue[..|p|];
      assert |p| > |glue| ==> s[|p| - 1] == p[|p| - 1 - |glue|];
      assert !(p <= s);
      assert s[1..] == glue[1..] + p + rest;
      IndexAfterGlue(glue[1..], p, rest);
    }
  }

  /** strings.Split at single characters; always at least one piece. */
  function Split(s: string, c: char): (r: seq<string>)
    ensures r != []
  {
    if s == "" then [""]
    else
      var r := Split(s[1..], c);
      if s[0] == c then [""] + r else [[s[0]] + r[0]] + r[1..]
  }

  function Join(pieces: seq<string>, c: char): string
    requires pieces != []
  {
    if |pieces| == 1 then pieces[0] else pieces[0] + [c] + Join(pieces[1..], c)
  }

  predicate Free(s: string, c: char) { forall i | 0 <= i < |s| :: s[i] != c }

  lemma {:induction false} SplitFree(s: string, c: char)
    requires Free(s, c)
    ensures Split(s, c) == [s]
    decreases |s|
  {
    if s != "" {
      SplitFree(s[1..], c);
      assert [s[0]] + s[1..] == s;
    }
  }

  lemma {:induction false} SplitPiece(s: string, c: char, rest: string)
    requires Free(s, c)
    ensures Split(s + [c] + rest, c) == [s] + Split(rest, c)
    decreases |s|
  {
    var t := s + [c] + rest;
    if s == "" {
      assert t[1..] == rest;
    } else {
      assert t[1..] == s[1..] + [c] + rest;
      SplitPiece(s[1..], c, rest);
      assert [s[0]] + s[1..] == s;
    }
  }

  /** Splitting at a separator splits what is on either side. */
  lemma {:induction false} SplitAt(a: string, c: char, rest: string)
    ensures Split(a + [c] + rest, c) == Split(a, c) + Split(rest, c)
    decreases |a|
  {
    var t := a + [c] + rest;
    if a == "" {
      assert t[1..] == rest;
    } else {
      assert t[1..] == a[1..] + [c] + rest;
      SplitAt(a[1..], c, rest);
    }
  }

  lemma JoinFirst(piece: string, more: seq<string>, c: char)
    requires more != []
    ensures Join([piece] + more, c) == piece + [c] + Join(more, c)
  {
    assert ([piece] + more)[1..] == more;
  }

  lemma HeadFirst<T>(s: seq<T>, t: seq<T>)
    requires s != []
    ensures [s[0]] + (s[1..] + t) == s + t
  {
  }

  lemma Regroup(a: string, b: string, c: string, d: string)
    ensures (a + b + c) + d == a + b + (c + d)
  {
  }

  /** Text after the last of some joined pieces stays with it. */
  lemma {:induction false} SplitJoined(pieces: seq<string>, last: string, c: char, rest: string)
    requires forall i | 0 <= i < |pieces| :: Free(pieces[i], c)
    ensures Split(Join(pieces + [last], c) + rest, c) == pieces + Split(last + rest, c)
    decreases |pieces|
  {
    if pieces == [] {
      assert pieces + [last] == [last];
    } else {
      var more := Join(pieces[1..] + [last], c);
      assert pieces + [last] == [pieces[0]] + (pieces[1..] + [last]);
      JoinFirst(pieces[0], pieces[1..] + [last], c);
      Regroup(pieces[0], [c], more, rest);
      SplitPiece(pieces[0], c, more + rest);
      SplitJoined(pieces[1..], last, c, rest);
      HeadFirst(pieces, Split(last + rest, c));
    }
  }

  lemma {:induction false} SplitStart(s: string, c: char, rest: string)
    requires Free(s, c)
    ensures s <= Split(s + rest, c)[0]
    decreases |s|
  {
    if s != "" {
      assert (s + rest)[1..] == s[1..] + rest;
      SplitStart(s[1..], c, rest);
      assert s == [s[0]] + s[1..];
    }
  }

  predicate IsSpace(c: char) { c == ' ' || c == '\t' || c == '\n' || c == '\r' || c == 11 as char || c == 12 as char }

  function TrimLeft(s: string): string { if s != "" && IsSpace(s[0]) then TrimLeft(s[1..]) else s }

  function TrimRight(s: string): string {
    if s != "" && IsSpace(s[|s| - 1]) then TrimRight(s[..|s| - 1]) else s
  }

  /** strings.TrimSpace on ASCII white space. */
  function Trim(s: string): string { TrimRight(TrimLeft(s)) }

  /** strings.Count(s, "\n"). */
  function Newlines(s: string): nat {
    if s == "" then 0 else (if s[0] == '\n' then 1 else 0) + Newlines(s[1..])
  }

  /** strings.TrimSuffix(s, "\n"). */
  function TrimNewline(s: string): string { if s != "" && s[|s| - 1] == '\n' then s[..|s| - 1] else s }

  // ----- what they compute ------------------------------------------------------------

  /** Splitting cuts at every separator and nowhere else. */
  lemma {:induction false} SplitIsJoin(s: string, c: char)
    ensures Join(Split(s, c), c) == s
    ensures forall i | 0 <= i < |Split(s, c)| :: Free(Split(s, c)[i], c)
    decreases |s|
  {
    if s != "" {
      SplitIsJoin(s[1..], c);
      var r := Split(s[1..], c);
      assert s == [s[0]] + s[1..];
      if s[0] == c {
        assert ([""] + r)[1..] == r;
      } else {
        assert ([[s[0]] + r[0]] + r[1..])[1..] == r[1..];
      }
    }
  }

  /** Only the six ASCII white space characters are cut off, and all of them on either end. */
  lemma Trimmed(s: string) returns (a: string, b: string)
    ensures s == a + Trim(s) + b
    ensures forall c | c in a || c in b :: c in [' ', '\t', '\n', '\r', 11 as char, 12 as char]
    ensures Trim(s) != "" ==> Trim(s)[0] !in [' ', '\t', '\n', '\r', 11 as char, 12 as char]
                              && Trim(s)[|Trim(s)| - 1] !in [' ', '\t', '\n', '\r', 11 as char, 12 as char]
  {
    a := TrimmedLeft(s);
    b := TrimmedRight(TrimLeft(s));
    assert a + (Trim(s) + b) == a + Trim(s) + b;
    if Trim(s) != "" { assert Trim(s)[0] == TrimLeft(s)[0]; }
  }

  lemma {:induction false} TrimmedLeft(s: string) returns (a: string)
    ensures s == a + TrimLeft(s) && (forall c | c in a :: IsSpace(c))
    ensures TrimLeft(s) != "" ==> !IsSpace(TrimLeft(s)[0])
    decreases |s|
  {
    a := "";
    if s != "" && IsSpace(s[0]) {
      a := TrimmedLeft(s[1..]);
      a := [s[0]] + a;
    }
  }

  lemma {:induction false} TrimmedRight(s: string) returns (b: string)
    ensures s == TrimRight(s) + b && (forall c | c in b :: IsSpace(c))
    ensures TrimRight(s) != "" ==> !IsSpace(TrimRight(s)[|TrimRight(s)| - 1])
    decreases |s|
  {
    b := "";
    if s != "" && IsSpace(s[|s| - 1]) {
      b := TrimmedRight(s[..|s| - 1]);
      b := b + [s[|s| - 1]];
    }
  }

  /** Where a text has its newlines. */
  function Breaks(s: string): set<nat> { set i: nat | i < |s| && s[i] == '\n' }

  lemma {:induction false} NewlinesLast(s: string, c: char)
    ensures Newlines(s + [c]) == Newlines(s) + (if c == '\n' then 1 else 0)
    decreases |s|
  {
    if s != "" {
      assert (s + [c])[1..] == s[1..] + [c];
      NewlinesLast(s[1..], c);
    } else {
      assert (s + [c])[1..] == "";
    }
  }

  lemma BreaksLast(s: string, c: char)
    ensures |Breaks(s + [c])| == |Breaks(s)| + (if c == '\n' then 1 else 0)
  {
    assert Breaks(s + [c]) == if c == '\n' then Breaks(s) + {|s|} else Breaks(s);
  }

  lemma {:induction false} NewlinesCount(s: string)
    ensures Newlines(s) == |Breaks(s)|
    decreases |s|
  {
    if s != "" {
      var n := |s| - 1;
      assert s == s[..n] + [s[n]];
      NewlinesLast(s[..n], s[n]);
      NewlinesCount(s[..n]);
      BreaksLast(s[..n], s[n]);
    } else {
      assert Breaks(s) == {};
    }
  }

  /** Lines of a text, a last one without its newline included. */
  lemma LinesCount(s: string)
    ensures Newlines(TrimNewline(s)) + 1 == |Breaks(s)| + (if s != "" && s[|s| - 1] == '\n' then 0 else 1)
  {
    NewlinesCount(TrimNewline(s));
    if s != "" && s[|s| - 1] == '\n' {
      var n := |s| - 1;
      assert s == s[..n] + ['\n'];
      BreaksLast(s[..n], '\n');
    }
  }
}
