/** The tail loop shared by the Claude Code and pi parsers: read complete lines
    from a byte offset, leave a partial last line for the next tick. What a line
    yields is a parameter: the theorems hold for every per-line extractor. */
module TailScan {
  import opened Types

  type Bytes = seq<char>
  type Extract = Bytes -> ScanResult

  /** Length of the first line including its newline; 0 when no newline is left,
      which is when reading reports end of file. */
  function LineLength(b: Bytes): (n: nat)
    ensures n <= |b|
    ensures n > 0 ==> b[n - 1] == '\n'
  {
    if b == [] then 0
    else if b[0] == '\n' then 1
    else
      var n := LineLength(b[1..]);
      if n == 0 then 0 else n + 1
  }

  /** It is the first newline, and 0 means there is none. */
  lemma {:induction false} LineLengthIsFirst(b: Bytes, i: nat)
    requires i < |b| && (LineLength(b) == 0 || i < LineLength(b) - 1)
    ensures b[i] != '\n'
    decreases |b|
  {
    if i > 0 {
      LineLengthIsFirst(b[1..], i - 1);
    }
  }

  /** The complete lines of `b`, newlines included. */
  function Lines(b: Bytes): seq<Bytes>
    decreases |b|
  {
    var n := LineLength(b);
    if n == 0 then [] else [b[..n]] + Lines(b[n..])
  }

  /** How many bytes of `b` are complete lines. */
  function Complete(b: Bytes): (n: nat)
    ensures n <= |b|
    decreases |b|
  {
    var n := LineLength(b);
    if n == 0 then 0 else n + Complete(b[n..])
  }

  /** What a list of lines yields, in order. */
  function Collect(x: Extract, lines: seq<Bytes>): ScanResult
  {
    if lines == [] then NOTHING else x(lines[0]).Then(Collect(x, lines[1..]))
  }

  function ScanLines(x: Extract, b: Bytes): ScanResult { Collect(x, Lines(b)) }

  predicate AtBoundary(b: Bytes) { b == [] || Last(b) == '\n' }

  lemma ThenLaws(a: ScanResult, b: ScanResult, c: ScanResult)
    ensures a.Then(b).Then(c) == a.Then(b.Then(c))
    ensures a.Then(NOTHING) == a && NOTHING.Then(a) == a
  {
  }

  lemma {:induction false} CollectAppend(x: Extract, a: seq<Bytes>, b: seq<Bytes>)
    ensures Collect(x, a + b) == Collect(x, a).Then(Collect(x, b))
    decreases |a|
  {
    if a == [] {
      assert a + b == b;
      ThenLaws(Collect(x, b), NOTHING, NOTHING);
    } else {
      assert (a + b)[1..] == a[1..] + b;
      CollectAppend(x, a[1..], b);
      ThenLaws(x(a[0]), Collect(x, a[1..]), Collect(x, b));
    }
  }

  lemma DropDrop(b: Bytes, i: nat, j: nat)
    requires i + j <= |b|
    ensures b[i..][j..] == b[i + j..]
    ensures b[..i] + b[i..][..j] == b[..i + j]
  {
  }

  lemma Cut(b: Bytes, i: nat)
    requires i <= |b|
    ensures b == b[..i] + b[i..]
  {
  }

  lemma {:induction false} CompleteIsBoundary(b: Bytes)
    ensures AtBoundary(b[..Complete(b)])
    decreases |b|
  {
    var n := LineLength(b);
    if n > 0 {
      CompleteIsBoundary(b[n..]);
      DropDrop(b, n, Complete(b[n..]));
      BoundaryAppend(b[..n], b[n..][..Complete(b[n..])]);
    }
  }

  lemma {:induction false} NoLineLeft(b: Bytes)
    ensures LineLength(b[Complete(b)..]) == 0
    decreases |b|
  {
    var n := LineLength(b);
    if n == 0 {
      assert b[0..] == b;
    } else {
      var rest := b[n..];
      NoLineLeft(rest);
      assert Complete(b) == n + Complete(rest);
      DropDrop(b, n, Complete(rest));
      assert b[Complete(b)..] == rest[Complete(rest)..];
    }
  }

  lemma BoundaryAppend(a: Bytes, b: Bytes)
    requires AtBoundary(a) && AtBoundary(b)
    ensures AtBoundary(a + b)
  {
    if b == [] { assert a + b == a; }
  }

  lemma {:induction false} LineLengthAppend(a: Bytes, c: Bytes)
    requires a != [] && AtBoundary(a)
    ensures LineLength(a + c) == LineLength(a) > 0
    decreases |a|
  {
    if a[0] != '\n' {
      AppendSlices(a, c, 1);
      BoundaryRest(a, 1);
      LineLengthAppend(a[1..], c);
    }
  }

  lemma AppendSlices(a: Bytes, c: Bytes, n: nat)
    requires n <= |a|
    ensures (a + c)[..n] == a[..n]
    ensures (a + c)[n..] == a[n..] + c
    ensures a + c == a[..n] + (a[n..] + c)
  {
  }

  lemma ConsAppend<T>(h: T, s: seq<T>, t: seq<T>)
    ensures [h] + (s + t) == ([h] + s) + t
  {
  }

  lemma BoundaryRest(a: Bytes, n: nat)
    requires AtBoundary(a) && n <= |a|
    ensures AtBoundary(a[n..])
  {
  }

  /** Reading on from a line boundary continues the whole-file reading. */
  lemma {:induction false} LinesAppend(a: Bytes, c: Bytes)
    requires AtBoundary(a)
    ensures Lines(a + c) == Lines(a) + Lines(c)
    ensures Complete(a + c) == |a| + Complete(c)
    decreases |a|
  {
    if a == [] {
      assert a + c == c;
    } else {
      var n := LineLength(a);
      LineLengthAppend(a, c);
      AppendSlices(a, c, n);
      BoundaryRest(a, n);
      LinesAppend(a[n..], c);
      ConsAppend(a[..n], Lines(a[n..]), Lines(c));
    }
  }

  lemma ScanAppend(x: Extract, a: Bytes, c: Bytes)
    requires AtBoundary(a)
    ensures ScanLines(x, a + c) == ScanLines(x, a).Then(ScanLines(x, c))
  {
    LinesAppend(a, c);
    CollectAppend(x, Lines(a), Lines(c));
  }

  /** A partial last line contributes nothing. */
  lemma LinesComplete(b: Bytes)
    ensures Lines(b) == Lines(b[..Complete(b)])
  {
    CompleteIsBoundary(b);
    NoLineLeft(b);
    Cut(b, Complete(b));
    LinesAppend(b[..Complete(b)], b[Complete(b)..]);
  }

  /** Where a scan starts: at the start for a new, replaced or truncated file. */
  function StartOffset(prev: FileState, inode: nat, size: nat): (o: nat)
    ensures o <= size
  {
    if prev.inode == 0 && prev.offset == 0 then 0
    else if prev.inode != 0 && inode != 0 && prev.inode != inode then 0
    else if size < prev.offset then 0
    else prev.offset
  }

  /** One tick's view of a file: what stat reported, and the content reading
      found, which may have grown since. */
  datatype Glimpse = Glimpse(inode: nat, size: nat, content: Bytes)

  type Tick = t: Glimpse | t.size <= |t.content| witness Glimpse(0, 0, [])

  /** One scan. */
  function TailSpec(x: Extract, prev: FileState, t: Tick): (ScanResult, FileState) {
    var o := StartOffset(prev, t.inode, t.size);
    if t.size == o then (NOTHING, FileState(t.inode, o))
    else (ScanLines(x, t.content[o..]), FileState(t.inode, o + Complete(t.content[o..])))
  }

  method Scan(x: Extract, prev: FileState, t: Tick) returns (res: ScanResult, state: FileState)
    ensures (res, state) == TailSpec(x, prev, t)
  {
    var offset := Rewind(prev, t.inode, t.size);
    if t.size == offset {
      return NOTHING, FileState(t.inode, offset);
    }
    var cur;
    res, cur := ReadLines(x, t.content, offset);
    state := FileState(t.inode, cur);
  }

  method Rewind(prev: FileState, inode: nat, size: nat) returns (offset: nat)
    ensures offset == StartOffset(prev, inode, size)
  {
    offset := prev.offset;
    if prev.inode == 0 && prev.offset == 0 {
      offset := 0; // first time this file is seen
    } else if prev.inode != 0 && inode != 0 && prev.inode != inode {
      offset := 0; // rotated or replaced
    } else if size < offset {
      offset := 0; // truncated
    }
  }

  /** The read loop: a partial trailing line stays for the next tick. */
  method ReadLines(x: Extract, content: Bytes, offset: nat) returns (res: ScanResult, cur: nat)
    requires offset <= |content|
    ensures res == ScanLines(x, content[offset..])
    ensures cur == offset + Complete(content[offset..])
  {
    cur := offset;
    res := NOTHING;
    var br := content[offset..];
    ghost var all, read := br, [];
    var n := LineLength(br);
    while n > 0
      invariant n == LineLength(br)
      invariant Lines(all) == read + Lines(br) && res == Collect(x, read)
      invariant offset + Complete(all) == cur + Complete(br)
      decreases |br|
    {
      var line := br[..n];
      Push(x, read, line, Lines(br[n..]));
      res := res.Then(x(line));
      read := read + [line];
      cur, br := cur + n, br[n..];
      n := LineLength(br);
    }
    assert read + [] == read;
  }

  lemma Push(x: Extract, read: seq<Bytes>, line: Bytes, rest: seq<Bytes>)
    ensures read + ([line] + rest) == (read + [line]) + rest
    ensures Collect(x, read + [line]) == Collect(x, read).Then(x(line))
  {
    CollectAppend(x, read, [line]);
    CollectOne(x, line);
  }

  lemma CollectOne(x: Extract, line: Bytes)
    ensures Collect(x, [line]) == x(line)
  {
    ThenLaws(x(line), NOTHING, NOTHING);
  }

  // ----- whole schedules ----------------------------------------------------

  /** The same file, only growing, with every stat taken after the previous read. */
  ghost predicate Growing(seen: Bytes, inode: nat, ticks: seq<Tick>)
    decreases |ticks|
  {
    ticks != [] ==>
      && ticks[0].inode == inode
      && |seen| <= ticks[0].size
      && seen <= ticks[0].content
      && Growing(ticks[0].content, inode, ticks[1..])
  }

  ghost function Ticks(x: Extract, prev: FileState, ticks: seq<Tick>): (ScanResult, FileState)
    decreases |ticks|
  {
    if ticks == [] then (NOTHING, prev)
    else
      var (r, st) := TailSpec(x, prev, ticks[0]);
      var (rs, last) := Ticks(x, st, ticks[1..]);
      (r.Then(rs), last)
  }

  /** The scan state is a boundary of what was seen, with everything before it
      delivered. */
  ghost predicate Caught(x: Extract, seen: Bytes, inode: nat, st: FileState, got: ScanResult)
  {
    && (st == UNSEEN || st.inode == inode)
    && st.offset <= |seen| && AtBoundary(seen[..st.offset])
    && got == ScanLines(x, seen[..st.offset])
  }

  /** After the tick `t` everything before the offset is delivered, the offset has
      not fallen, and it has passed every line that was complete at the stat: only
      a partial line, or lines appended after the stat, can be pending. */
  ghost predicate Delivered(x: Extract, t: Tick, inode: nat, from: nat, st: FileState, got: ScanResult)
  {
    && Caught(x, t.content, inode, st, got)
    && from <= st.offset
    && Complete(t.content[..t.size]) <= st.offset <= Complete(t.content)
  }

  /** One tick on a grown file. */
  lemma TickCatches(x: Extract, seen: Bytes, inode: nat, st: FileState, got: ScanResult, t: Tick)
    requires Caught(x, seen, inode, st, got)
    requires t.inode == inode && |seen| <= t.size && seen <= t.content
    ensures Delivered(x, t, inode, st.offset, TailSpec(x, st, t).1, got.Then(TailSpec(x, st, t).0))
  {
    var o := st.offset;
    ThenLaws(got, NOTHING, NOTHING);
    assert t.content[..o] == seen[..o];
    ReadFrom(x, t.content, o);
    StatBound(t.content, o, t.size);
  }

  lemma ReadFrom(x: Extract, b: Bytes, o: nat)
    requires o <= |b| && AtBoundary(b[..o])
    ensures o + Complete(b[o..]) == Complete(b) && AtBoundary(b[..Complete(b)])
    ensures ScanLines(x, b[..Complete(b)]) == ScanLines(x, b[..o]).Then(ScanLines(x, b[o..]))
  {
    Cut(b, o);
    LinesAppend(b[..o], b[o..]);
    ScanAppend(x, b[..o], b[o..]);
    CompleteIsBoundary(b);
    LinesComplete(b);
  }

  /** The lines that were complete at the stat are read. */
  lemma StatBound(b: Bytes, o: nat, size: nat)
    requires o <= size <= |b| && AtBoundary(b[..o])
    ensures o <= Complete(b[..size]) <= Complete(b)
  {
    BoundaryBelow(b[..size], o);
    Cut(b, size);
    CompleteMonotone(b[..size], b[size..]);
  }

  lemma BoundaryBelow(b: Bytes, o: nat)
    requires o <= |b| && AtBoundary(b[..o])
    ensures o <= Complete(b)
  {
    Cut(b, o);
    LinesAppend(b[..o], b[o..]);
  }

  lemma CompleteMonotone(a: Bytes, c: Bytes)
    ensures Complete(a) <= Complete(a + c)
  {
    CompleteIsBoundary(a);
    AppendSlices(a, c, Complete(a));
    LinesAppend(a[..Complete(a)], a[Complete(a)..] + c);
  }

  /** Tail scan equals whole scan: for every schedule of appends, with scans that
      cut lines anywhere, the concatenated results are those of one reading of
      the final content up to the final offset. */
  lemma {:induction false} TailEqualsWhole(x: Extract, seen: Bytes, inode: nat, st: FileState, got: ScanResult,
                                           ticks: seq<Tick>)
    requires Growing(seen, inode, ticks) && Caught(x, seen, inode, st, got) && ticks != []
    ensures Delivered(x, Last(ticks), inode, st.offset, Ticks(x, st, ticks).1, got.Then(Ticks(x, st, ticks).0))
    decreases |ticks|
  {
    var t, rest := ticks[0], ticks[1..];
    var (r, st') := TailSpec(x, st, t);
    TickCatches(x, seen, inode, st, got, t);
    if rest == [] {
      ThenLaws(r, NOTHING, NOTHING);
      assert Ticks(x, st', rest) == (NOTHING, st');
      assert Last(ticks) == t;
    } else {
      TailEqualsWhole(x, t.content, inode, st', got.Then(r), rest);
      ThenLaws(got, r, Ticks(x, st', rest).0);
      assert Last(ticks) == Last(rest);
    }
  }

  /** From a file never seen, with nothing appended after the last stat, the
      schedule yields exactly one whole-file reading. */
  lemma FreshTailEqualsWhole(x: Extract, inode: nat, ticks: seq<Tick>)
    requires ticks != [] && Growing([], inode, ticks) && Last(ticks).size == |Last(ticks).content|
    ensures Ticks(x, UNSEEN, ticks).0 == ScanLines(x, Last(ticks).content)
    ensures Ticks(x, UNSEEN, ticks).1.offset == Complete(Last(ticks).content)
  {
    var (rs, last) := Ticks(x, UNSEEN, ticks);
    var end := Last(ticks).content;
    TailEqualsWhole(x, [], inode, UNSEEN, NOTHING, ticks);
    ThenLaws(rs, NOTHING, NOTHING);
    WholeSlice(end);
    Settled(x, end, inode, last, rs);
  }

  lemma Settled(x: Extract, end: Bytes, inode: nat, st: FileState, got: ScanResult)
    requires Caught(x, end, inode, st, got) && st.offset == Complete(end)
    ensures got == ScanLines(x, end)
  {
    LinesComplete(end);
  }

  lemma WholeSlice(b: Bytes)
    ensures b[..|b|] == b
  {
  }

  /** A replaced file is scanned as one never seen, whatever the old entry said. */
  lemma ReplacedForgets(x: Extract, prev: FileState, ticks: seq<Tick>)
    requires ticks != [] && prev.inode != 0 && ticks[0].inode != 0 && prev.inode != ticks[0].inode
    ensures Ticks(x, prev, ticks) == Ticks(x, UNSEEN, ticks)
  {
    FromZero(x, prev, ticks);
  }

  /** A scan from the start of the file has forgotten the entry. */
  lemma FromZero(x: Extract, prev: FileState, ticks: seq<Tick>)
    requires ticks != [] && StartOffset(prev, ticks[0].inode, ticks[0].size) == 0
    ensures Ticks(x, prev, ticks) == Ticks(x, UNSEEN, ticks)
  {
    assert TailSpec(x, prev, ticks[0]) == TailSpec(x, UNSEEN, ticks[0]);
  }

  lemma {:induction false} TicksAppend(x: Extract, prev: FileState, a: seq<Tick>, b: seq<Tick>)
    ensures Ticks(x, prev, a + b).0 == Ticks(x, prev, a).0.Then(Ticks(x, Ticks(x, prev, a).1, b).0)
    ensures Ticks(x, prev, a + b).1 == Ticks(x, Ticks(x, prev, a).1, b).1
    decreases |a|
  {
    if a == [] {
      assert a + b == b;
      ThenLaws(Ticks(x, prev, b).0, NOTHING, NOTHING);
    } else {
      var (r, st) := TailSpec(x, prev, a[0]);
      assert (a + b)[0] == a[0] && (a + b)[1..] == a[1..] + b;
      TicksAppend(x, st, a[1..], b);
      ThenLaws(r, Ticks(x, st, a[1..]).0, Ticks(x, Ticks(x, st, a[1..]).1, b).0);
    }
  }

  /** All ticks of one content of the file, the last of them over nothing newer. */
  ghost predicate Generation(ticks: seq<Tick>, inode: nat) {
    ticks != [] && inode != 0 && Growing([], inode, ticks) && Last(ticks).size == |Last(ticks).content|
  }

  /** A file replaced while it is tailed: if the old content was read to its end, the scans
      yield one whole reading of the old content and then one of the new. */
  lemma RotatedTailEqualsWhole(x: Extract, older: seq<Tick>, i: nat, newer: seq<Tick>, j: nat)
    requires Generation(older, i) && Generation(newer, j) && i != j
    ensures Ticks(x, UNSEEN, older + newer).0
         == ScanLines(x, Last(older).content).Then(ScanLines(x, Last(newer).content))
  {
    FreshTailEqualsWhole(x, i, older);
    FreshTailEqualsWhole(x, j, newer);
    TicksAppend(x, UNSEEN, older, newer);
    TicksInode(x, [], i, UNSEEN, older);
    ReplacedForgets(x, Ticks(x, UNSEEN, older).1, newer);
  }

  lemma {:induction false} TicksInode(x: Extract, seen: Bytes, inode: nat, st: FileState, ticks: seq<Tick>)
    requires ticks != [] && Growing(seen, inode, ticks)
    ensures Ticks(x, st, ticks).1.inode == inode
    decreases |ticks|
  {
    var (_, next) := TailSpec(x, st, ticks[0]);
    if |ticks| > 1 {
      TicksInode(x, ticks[0].content, inode, next, ticks[1..]);
    } else {
      assert ticks[1..] == [];
      assert Ticks(x, next, []) == (NOTHING, next);
    }
  }

  /** A file truncated below what was read of it, and written anew under the same inode: the
      scans yield one whole reading of each content. */
  lemma TruncatedTailEqualsWhole(x: Extract, older: seq<Tick>, newer: seq<Tick>, i: nat)
    requires Generation(older, i) && Generation(newer, i) && newer[0].size < Complete(Last(older).content)
    ensures Ticks(x, UNSEEN, older + newer).0
         == ScanLines(x, Last(older).content).Then(ScanLines(x, Last(newer).content))
  {
    FreshTailEqualsWhole(x, i, older);
    FreshTailEqualsWhole(x, i, newer);
    TicksAppend(x, UNSEEN, older, newer);
    TicksInode(x, [], i, UNSEEN, older);
    TruncatedForgets(x, Ticks(x, UNSEEN, older).1, newer);
  }

  lemma TruncatedForgets(x: Extract, prev: FileState, ticks: seq<Tick>)
    requires ticks != [] && ticks[0].size < prev.offset
    ensures Ticks(x, prev, ticks) == Ticks(x, UNSEEN, ticks)
  {
    FromZero(x, prev, ticks);
  }

  // ----- what the lines are ---------------------------------------------------------------

  function Joined(lines: seq<Bytes>): Bytes { if lines == [] then [] else lines[0] + Joined(lines[1..]) }

  /** The line is a line: its only newline is its last byte. */
  ghost predicate IsWholeLine(line: Bytes) {
    line != [] && Last(line) == '\n' && forall i | 0 <= i < |line| - 1 :: line[i] != '\n'
  }

  lemma FirstIsWhole(b: Bytes)
    requires LineLength(b) > 0
    ensures IsWholeLine(b[..LineLength(b)])
  {
    var n := LineLength(b);
    forall i | 0 <= i < n - 1 ensures b[..n][i] != '\n' { LineLengthIsFirst(b, i); }
  }

  /** The lines of a content are whole lines and, put together, all of it up to its last
      newline. */
  lemma {:induction false} LinesAre(b: Bytes)
    ensures Joined(Lines(b)) == b[..Complete(b)]
    ensures forall line | line in Lines(b) :: IsWholeLine(line)
    ensures forall i | Complete(b) <= i < |b| :: b[i] != '\n'
    decreases |b|
  {
    var n := LineLength(b);
    if n == 0 {
      forall i | 0 <= i < |b| ensures b[i] != '\n' { LineLengthIsFirst(b, i); }
    } else {
      LinesAre(b[n..]);
      FirstIsWhole(b);
      DropDrop(b, n, Complete(b[n..]));
      assert Lines(b) == [b[..n]] + Lines(b[n..]);
      forall i | Complete(b) <= i < |b| ensures b[i] != '\n' { assert b[n..][i - n] == b[i]; }
    }
  }

  /** A content yields what the extractor makes of its lines, in their order: first that of
      its first line, then that of the rest; a last line without its newline nothing. */
  lemma ContentYields(x: Extract, line: Bytes, rest: Bytes)
    ensures IsWholeLine(line) ==>
      && ScanLines(x, line + rest).usage == x(line).usage + ScanLines(x, rest).usage
      && ScanLines(x, line + rest).edits == x(line).edits + ScanLines(x, rest).edits
    ensures '\n' !in rest ==> ScanLines(x, rest) == ScanResult([], [])
  {
    if IsWholeLine(line) {
      WholeLength(line, rest);
      var b := line + rest;
      assert b[..|line|] == line && b[|line|..] == rest;
      assert Lines(b) == [line] + Lines(rest);
      assert ([line] + Lines(rest))[1..] == Lines(rest);
    }
  }

  lemma WholeLength(line: Bytes, rest: Bytes)
    requires IsWholeLine(line)
    ensures LineLength(line + rest) == |line|
  {
    var b, n := line + rest, LineLength(line + rest);
    assert b[|line| - 1] == '\n' && forall i | 0 <= i < |line| - 1 :: b[i] == line[i] != '\n';
    if n == 0 || n > |line| { LineLengthIsFirst(b, |line| - 1); }
  }

  // ----- reading on ---------------------------------------------------------------------------

  /** From wherever a reading starts, it ends behind every complete line. */
  lemma ReadingPasses(b: Bytes, o: nat)
    requires o <= |b|
    ensures Complete(b) <= o + Complete(b[o..])
  {
    if Complete(b) > o {
      CompleteIsBoundary(b);
      FromWithin(b, o, Complete(b));
    }
  }

  /** Behind a boundary further on, nothing before it is left to read. */
  lemma FromWithin(b: Bytes, o: nat, c: nat)
    requires o < c <= |b| && AtBoundary(b[..c])
    ensures c - o <= Complete(b[o..])
  {
    MiddleCut(b, o, c);
    LinesAppend(b[o..c], b[c..]);
  }

  lemma MiddleCut(b: Bytes, o: nat, c: nat)
    requires o < c <= |b| && AtBoundary(b[..c])
    ensures b[o..] == b[o..c] + b[c..] && AtBoundary(b[o..c])
  {
    assert Last(b[..c]) == b[c - 1] == Last(b[o..c]);
  }
}
