/** Exactly when counting once means counting the first: with a spool, batches can overtake
    each other, so the server is sure to end with the clean parse of a growing file if and
    only if records of an equal new key in it read alike. */
module Overtaking {
  import opened Types
  import opened Dedup
  import opened Rollup
  import opened StoreSpec
  import opened TailScan
  import opened Delivery
  import opened Batching
  import opened ExactlyOnce
  import NoLoss
  import W = Watcher

  /** A watcher with a spool and a tailed file at `p`, for any batch size. */
  ghost predicate Spooled(cfg: Config, x: Extract, p: Path) {
    Delivery.Valid(cfg) && cfg.buffered && cfg.source(p) == Tailed(x) && forall b :: cfg.legal(p)(b)
  }

  lemma {:induction false} Above(used: set<nat>) returns (n: nat)
    ensures forall k | k in used :: k < n
    decreases |used|
  {
    n := 0;
    if used != {} {
      var k :| k in used;
      var m := Above(used - {k});
      n := if k < m then m else k + 1;
      forall j | j in used ensures j < n { assert j == k || j in used - {k}; }
    }
  }

  const LOST := Outcome(Nothing, Unreachable)
  const DONE := Outcome(All, Reply.Accepted)

  // ----- one key to be stored wrongly -----------------------------------------------------

  /** A table of the server, the rows a batch has for it, a reading of rows, and what the
      row under one key reads after a clean send. */
  datatype Target<!K, !V, !T> = Target(
    tab: Tables -> map<K, V>, rows: Body -> seq<(K, V)>, read: V -> T, key: K, value: T)

  ghost predicate Sights<K, V, T>(cfg: Config, g: Target<K, V, T>) {
    forall t, body :: g.tab(Land(cfg, t, body, All)) == Absorb(g.tab(t), g.rows(body))
  }

  /** The batch carries the row of the clean send: it is to be overtaken. */
  ghost predicate Late<K, V, T>(g: Target<K, V, T>, body: Body) {
    exists row :: row in g.rows(body) && row.0 == g.key && g.read(row.1) == g.value
  }

  ghost predicate NotRight<K, V, T>(g: Target<K, V, T>, t: Tables) {
    g.key in g.tab(t) ==> g.read(g.tab(t)[g.key]) != g.value
  }

  ghost predicate Has<K, V, T>(g: Target<K, V, T>, t: Tables) { g.key in g.tab(t) }

  /** The batch brings another row under the key. */
  ghost predicate Brings<K, V, T>(g: Target<K, V, T>, body: Body) { !Late(g, body) && g.key in KeysOf(g.rows(body)) }

  ghost predicate SomeBrings<K, V, T>(g: Target<K, V, T>, q: seq<Body>) { exists body :: body in q && Brings(g, body) }

  /** The server changed from `t` to `t'` without coming closer to the clean row. */
  ghost predicate Astray<K, V, T>(g: Target<K, V, T>, t: Tables, t': Tables) {
    NotRight(g, t) ==> NotRight(g, t') && (Has(g, t) ==> Has(g, t'))
  }

  lemma LandsAstray<K, V, T>(cfg: Config, g: Target<K, V, T>, t: Tables, body: Body)
    requires Sights(cfg, g) && (Has(g, t) || !Late(g, body))
    ensures Astray(g, t, Land(cfg, t, body, All))
    ensures Brings(g, body) ==> Has(g, Land(cfg, t, body, All))
  {
    var t' := Land(cfg, t, body, All);
    assert g.tab(t') == Absorb(g.tab(t), g.rows(body));
    AbsorbGrows(g.tab(t), g.rows(body));
  }

  // ----- a tick in which some batches do not get through -----------------------------------

  /** The head of the queue is spooled if it is to be late and delivered otherwise. */
  lemma DrainOne<K, V, T>(cfg: Config, g: Target<K, V, T>, w: World) returns (w': World)
    requires cfg.buffered && w.phase.Sending? && w.phase.queue != []
    ensures W.Runs(cfg, w, w')
    ensures var body, q := w.phase.queue[0], w.phase.queue[1..];
            w' == w.(server := if Late(g, body) then w.server else Land(cfg, w.server, body, All),
                     spool := w'.spool, phase := Rest(q, w.phase.pending))
  {
    W.RunsNothing(cfg, w);
    if Late(g, w.phase.queue[0]) {
      var n := Above(w.spool.Keys);
      W.RunsStep(cfg, w, w, Post(LOST));
      var mid := Do(cfg, w, Post(LOST));
      W.RunsStep(cfg, w, mid, Spool(n, true));
      w' := Do(cfg, mid, Spool(n, true));
    } else {
      W.RunsStep(cfg, w, w, Post(DONE));
      w' := Do(cfg, w, Post(DONE));
    }
  }

  lemma {:induction false} Drain<K, V, T>(cfg: Config, g: Target<K, V, T>, w: World, q: seq<Body>,
                                          pending: map<Path, FileState>)
    returns (w': World)
    requires cfg.buffered && Sights(cfg, g) && w.phase == Rest(q, pending) && NotRight(g, w.server)
    ensures W.Runs(cfg, w, w')
    ensures w' == w.(server := w'.server, spool := w'.spool, phase := Setting(pending))
    ensures Astray(g, w.server, w'.server) && (SomeBrings(g, q) ==> Has(g, w'.server))
    decreases |q|
  {
    if q == [] {
      W.RunsNothing(cfg, w);
      w' := w;
    } else {
      var mid := DrainOne(cfg, g, w);
      if !Late(g, q[0]) {
        LandsAstray(cfg, g, w.server, q[0]);
      }
      w' := Drain(cfg, g, mid, q[1..], pending);
      W.RunsTrans(cfg, w, mid, w');
      assert SomeBrings(g, q) ==> Brings(g, q[0]) || SomeBrings(g, q[1..]);
    }
  }

  /** Every spooled batch is replayed: too late for the key, which has its row. */
  lemma {:induction false} Replay<K, V, T>(cfg: Config, g: Target<K, V, T>, w: World) returns (w': World)
    requires w.phase == Flushing(w.spool.Keys) && Sights(cfg, g) && Has(g, w.server) && NotRight(g, w.server)
    ensures W.Runs(cfg, w, w') && Has(g, w'.server) && NotRight(g, w'.server)
    ensures w' == w.(server := w'.server, spool := map[], answers := w'.answers,
                     phase := Scanning(NOTHING, map[]))
    decreases |w.spool|
  {
    if w.spool == map[] {
      w' := ReplayEnds(cfg, w);
    } else {
      var n :| n in w.spool;
      var mid := ReplayOne(cfg, w, n);
      LandsAstray(cfg, g, w.server, w.spool[n]);
      OneFewer(w.spool, n);
      w' := Replay(cfg, g, mid);
      W.RunsTrans(cfg, w, mid, w');
    }
  }

  lemma OneFewer(spool: map<nat, Body>, n: nat)
    requires n in spool
    ensures |spool - {n}| < |spool|
  {
    assert spool == (spool - {n})[n := spool[n]];
  }

  lemma ReplayEnds(cfg: Config, w: World) returns (w': World)
    requires w.phase == Flushing({})
    ensures W.Runs(cfg, w, w') && w' == w.(phase := Scanning(NOTHING, map[]))
  {
    W.RunsNothing(cfg, w);
    W.RunsStep(cfg, w, w, EndFlush);
    w' := Do(cfg, w, EndFlush);
  }

  lemma ReplayOne(cfg: Config, w: World, n: nat) returns (w': World)
    requires w.phase == Flushing(w.spool.Keys) && n in w.spool
    ensures W.Runs(cfg, w, w')
    ensures w' == w.(server := Land(cfg, w.server, w.spool[n], All), spool := w.spool - {n}, answers := w'.answers,
                     phase := Flushing((w.spool - {n}).Keys))
  {
    W.RunsNothing(cfg, w);
    W.RunsStep(cfg, w, w, FlushPost(n, DONE));
    var mid := Do(cfg, w, FlushPost(n, DONE));
    W.RunsStep(cfg, w, mid, FlushRemove(true));
    w' := Do(cfg, mid, FlushRemove(true));
    assert w.spool.Keys - {n} == (w.spool - {n}).Keys;
  }

  // ----- a file that grows a line per tick ------------------------------------------------------

  function EntryAt(p: Path, b: Bytes): map<Path, FileState> { if b == [] then map[] else map[p := FileState(1, |b|)] }

  /** Between ticks: `b` was written and read. */
  ghost predicate Resting(cfg: Config, p: Path, w: World, b: Bytes) {
    && Reachable(cfg, w) && w.phase.Idle? && w.files == map[p := File(1, b)] && w.mem == EntryAt(p, b)
    && w.retired == [] && !w.torn && w.rejected == {} && w.others == []
  }

  lemma Born(cfg: Config, x: Extract, p: Path) returns (w: World)
    requires Spooled(cfg, x, p)
    ensures Resting(cfg, p, w, []) && w.server == cfg.base
  {
    var w0 := Start(cfg);
    W.RunsNothing(cfg, w0);
    W.RunsStep(cfg, w0, w0, Create(p, File(1, [])));
    w := Do(cfg, w0, Create(p, File(1, [])));
  }

  /** More is written, and a tick starts whose replay of the spool fails at once. */
  lemma Opens(cfg: Config, x: Extract, p: Path, w: World, b: Bytes, more: Bytes) returns (w': World)
    requires Spooled(cfg, x, p) && Resting(cfg, p, w, b)
    ensures Reachable(cfg, w')
    ensures w' == w.(files := map[p := File(1, b + more)], written := w'.written, answers := w'.answers,
                     phase := Scanning(NOTHING, map[]))
  {
    var s := Start(cfg);
    var w1 := Written(cfg, x, p, w, b, more);
    W.RunsStep(cfg, s, w1, StartTick);
    var w2 := Do(cfg, w1, StartTick);
    if w.spool == map[] {
      assert w2.phase == Flushing({});
      W.RunsStep(cfg, s, w2, EndFlush);
      w' := Do(cfg, w2, EndFlush);
    } else {
      var n :| n in w.spool;
      W.RunsStep(cfg, s, w2, FlushPost(n, LOST));
      w' := Do(cfg, w2, FlushPost(n, LOST));
    }
  }

  lemma Written(cfg: Config, x: Extract, p: Path, w: World, b: Bytes, more: Bytes) returns (w': World)
    requires Spooled(cfg, x, p) && Resting(cfg, p, w, b)
    ensures Reachable(cfg, w')
    ensures w' == w.(files := map[p := File(1, b + more)], written := w'.written)
  {
    W.RunsStep(cfg, Start(cfg), w, Append(p, more));
    w' := Do(cfg, w, Append(p, more));
    assert w'.files == map[p := File(1, b + more)];
  }

  ghost predicate IsLine(line: Bytes) { line != [] && LineLength(line) == |line| }

  lemma LineAlone(x: Extract, line: Bytes)
    requires IsLine(line)
    ensures ScanLines(x, line) == x(line) && Complete(line) == |line|
  {
    var rest := line[|line|..];
    assert rest == [] && line[..|line|] == line;
    assert Lines(line) == [line] + Lines(rest);
    CollectOne(x, line);
  }

  lemma LineScan(x: Extract, p: Path, b: Bytes, line: Bytes)
    requires IsLine(line)
    ensures TailSpec(x, Get(EntryAt(p, b), p), Glimpse(1, |b + line|, b + line)) == (x(line), FileState(1, |b + line|))
  {
    LineAlone(x, line);
    assert (b + line)[|b|..] == line;
  }

  /** The line is scanned and its records are queued. */
  lemma Scans(cfg: Config, x: Extract, p: Path, w: World, b: Bytes, line: Bytes) returns (w': World)
    requires Spooled(cfg, x, p) && IsLine(line) && Reachable(cfg, w)
    requires w.files == map[p := File(1, b + line)] && w.mem == EntryAt(p, b) && w.phase == Scanning(NOTHING, map[])
    ensures Reachable(cfg, w')
    ensures w' == w.(written := w'.written,
                     phase := Rest(Batches(x(line), cfg.batch), map[p := FileState(1, |b + line|)]))
  {
    var c := b + line;
    LineScan(x, p, b, line);
    var mid := Finds(cfg, x, p, w, c, x(line), FileState(1, |c|));
    w' := Queues(cfg, mid, x(line), map[p := FileState(1, |c|)]);
  }

  lemma Finds(cfg: Config, x: Extract, p: Path, w: World, c: Bytes, r: ScanResult, st: FileState) returns (w': World)
    requires Spooled(cfg, x, p) && Reachable(cfg, w) && w.files == map[p := File(1, c)]
             && w.phase == Scanning(NOTHING, map[])
    requires TailSpec(x, Get(w.mem, p), Glimpse(1, |c|, c)) == (r, st)
    ensures Reachable(cfg, w') && w' == w.(written := w'.written, phase := Scanning(r, map[p := st]))
  {
    assert c + [] == c;
    ThenLaws(r, NOTHING, NOTHING);
    W.RunsStep(cfg, Start(cfg), w, ScanFile(p, []));
    w' := Do(cfg, w, ScanFile(p, []));
    assert w'.files == w.files;
  }

  lemma Queues(cfg: Config, w: World, got: ScanResult, pending: map<Path, FileState>) returns (w': World)
    requires Reachable(cfg, w) && cfg.batch > 0 && w.phase == Scanning(got, pending) && pending != map[]
    ensures Reachable(cfg, w') && w' == w.(phase := Rest(Batches(got, cfg.batch), pending))
  {
    W.RunsStep(cfg, Start(cfg), w, EndScan);
    w' := Do(cfg, w, EndScan);
  }

  /** The checkpoint moves. */
  lemma Settles(cfg: Config, w: World, p: Path, st: FileState) returns (w': World)
    requires Reachable(cfg, w) && (w.mem == map[] || w.mem.Keys == {p}) && w.phase == Setting(map[p := st])
    ensures Reachable(cfg, w')
    ensures w' == w.(mem := map[p := st], disk := map[p := st], phase := Idle)
  {
    W.RunsStep(cfg, Start(cfg), w, SetOne(p));
    var w1 := Do(cfg, w, SetOne(p));
    assert w1 == w.(mem := map[p := st], phase := Setting(map[]));
    w' := Saves(cfg, w1);
  }

  lemma Saves(cfg: Config, w: World) returns (w': World)
    requires Reachable(cfg, w) && w.phase == Setting(map[])
    ensures Reachable(cfg, w') && w' == w.(disk := w.mem, phase := Idle)
  {
    W.RunsStep(cfg, Start(cfg), w, EndSet);
    var w1 := Do(cfg, w, EndSet);
    W.RunsStep(cfg, Start(cfg), w1, Save(true));
    w' := Do(cfg, w1, Save(true));
  }

  lemma Tick<K, V, T>(cfg: Config, x: Extract, p: Path, g: Target<K, V, T>, w: World, b: Bytes, line: Bytes)
    returns (w': World)
    requires Spooled(cfg, x, p) && Sights(cfg, g) && IsLine(line) && Resting(cfg, p, w, b) && NotRight(g, w.server)
    ensures Resting(cfg, p, w', b + line)
    ensures Astray(g, w.server, w'.server) && (SomeBrings(g, Batches(x(line), cfg.batch)) ==> Has(g, w'.server))
  {
    var q, pending := Batches(x(line), cfg.batch), map[p := FileState(1, |b + line|)];
    var w1 := Opens(cfg, x, p, w, b, line);
    var w2 := Scans(cfg, x, p, w1, b, line);
    var w3 := Drain(cfg, g, w2, q, pending);
    W.ReachableOn(cfg, w2, w3);
    w' := Settles(cfg, w3, p, FileState(1, |b + line|));
  }

  lemma {:induction false} FirstLine(b: Bytes)
    requires LineLength(b) > 0
    ensures IsLine(b[..LineLength(b)])
    decreases |b|
  {
    var n := LineLength(b);
    if b[0] != '\n' {
      FirstLine(b[1..]);
      assert b[..n][1..] == b[1..][..n - 1];
    }
  }

  /** A line of the file whose records, in one tick, bring the key another row. */
  ghost predicate LineBrings<K, V, T>(cfg: Config, x: Extract, g: Target<K, V, T>, lines: seq<Bytes>)
    requires cfg.batch > 0
  {
    exists line :: line in lines && SomeBrings(g, Batches(x(line), cfg.batch))
  }

  lemma {:induction false} Ticks<K, V, T>(cfg: Config, x: Extract, p: Path, g: Target<K, V, T>, w: World, b: Bytes,
                                          rest: Bytes)
    returns (w': World)
    requires Spooled(cfg, x, p) && Sights(cfg, g) && Resting(cfg, p, w, b) && NotRight(g, w.server)
    ensures Resting(cfg, p, w', b + rest[..Complete(rest)])
    ensures Astray(g, w.server, w'.server) && (LineBrings(cfg, x, g, Lines(rest)) ==> Has(g, w'.server))
    decreases |rest|
  {
    var n := LineLength(rest);
    if n == 0 {
      assert b + rest[..0] == b;
      w' := w;
    } else {
      var line := rest[..n];
      FirstLine(rest);
      var mid := Tick(cfg, x, p, g, w, b, line);
      w' := Ticks(cfg, x, p, g, mid, b + line, rest[n..]);
      LinesOn(b, rest);
      if LineBrings(cfg, x, g, Lines(rest)) {
        FirstBrings(cfg, x, g, rest);
      }
    }
  }

  lemma LinesOn(b: Bytes, rest: Bytes)
    requires LineLength(rest) > 0
    ensures var n := LineLength(rest); b + rest[..n] + rest[n..][..Complete(rest[n..])] == b + rest[..Complete(rest)]
  {
    var n := LineLength(rest);
    DropDrop(rest, n, Complete(rest[n..]));
    assert b + rest[..n] + rest[n..][..Complete(rest[n..])] == b + (rest[..n] + rest[n..][..Complete(rest[n..])]);
  }

  lemma FirstBrings<K, V, T>(cfg: Config, x: Extract, g: Target<K, V, T>, rest: Bytes)
    requires cfg.batch > 0 && LineLength(rest) > 0 && LineBrings(cfg, x, g, Lines(rest))
    ensures var n := LineLength(rest);
            SomeBrings(g, Batches(x(rest[..n]), cfg.batch)) || LineBrings(cfg, x, g, Lines(rest[n..]))
  {
    var n := LineLength(rest);
    var line :| line in Lines(rest) && SomeBrings(g, Batches(x(line), cfg.batch));
    assert Lines(rest) == [rest[..n]] + Lines(rest[n..]);
  }

  /** A world as it is once everything was sent, some of it late. */
  ghost predicate Ends(cfg: Config, p: Path, b: Bytes, w: World) {
    Reachable(cfg, w) && CaughtUp(cfg, w) && w.files == map[p := File(1, b)] && w.retired == [] && !w.torn
    && w.others == []
  }

  /** The rest of the file is written, and the spool is replayed. */
  lemma Closes<K, V, T>(cfg: Config, x: Extract, p: Path, g: Target<K, V, T>, w: World, b: Bytes) returns (w': World)
    requires Spooled(cfg, x, p) && Sights(cfg, g) && Complete(b) > 0 && Resting(cfg, p, w, b[..Complete(b)])
    requires Has(g, w.server) && NotRight(g, w.server)
    ensures Ends(cfg, p, b, w') && Has(g, w'.server) && NotRight(g, w'.server)
  {
    var c := Complete(b);
    Cut(b, c);
    var w1 := Written(cfg, x, p, w, b[..c], b[c..]);
    W.RunsStep(cfg, Start(cfg), w1, StartTick);
    var w2 := Do(cfg, w1, StartTick);
    w' := Replay(cfg, g, w2);
    W.ReachableOn(cfg, w2, w');
  }

  /** If some line brings another row under a key than the clean send stores, there is a
      run that stores another. */
  lemma Overtakes<K, V, T>(cfg: Config, x: Extract, p: Path, g: Target<K, V, T>, b: Bytes) returns (w: World)
    requires Spooled(cfg, x, p) && Sights(cfg, g) && !Has(g, cfg.base) && LineBrings(cfg, x, g, Lines(b))
    ensures Ends(cfg, p, b, w) && Has(g, w.server) && NotRight(g, w.server)
  {
    var w0 := Born(cfg, x, p);
    var w1 := Ticks(cfg, x, p, g, w0, [], b);
    assert [] + b[..Complete(b)] == b[..Complete(b)];
    w := Closes(cfg, x, p, g, w1, b);
  }

  // ----- which row a record becomes ---------------------------------------------------------------

  function Usage(cfg: Config): Body -> seq<(UsageKey, UsageRow)> {
    (body: Body) => UsageRows(cfg.userId, cfg.machineId, body.usage)
  }

  function Edits(cfg: Config): Body -> seq<(string, EditRow)> {
    (body: Body) => EditRows(cfg.userId, cfg.machineId, body.edits)
  }

  ghost predicate Adds<K, V>(rows: Body -> seq<(K, V)>) {
    && rows(NOTHING) == []
    && forall a: Body, b: Body :: rows(a.Then(b)) == rows(a) + rows(b)
  }

  lemma RowsAdd(cfg: Config)
    ensures Adds(Usage(cfg)) && Adds(Edits(cfg))
  {
    forall a: Body, b: Body ensures Usage(cfg)(a.Then(b)) == Usage(cfg)(a) + Usage(cfg)(b) {
      UsageRowsAppend(cfg.userId, cfg.machineId, a.usage, b.usage);
    }
    forall a: Body, b: Body ensures Edits(cfg)(a.Then(b)) == Edits(cfg)(a) + Edits(cfg)(b) {
      EditRowsAppend(cfg.userId, cfg.machineId, a.edits, b.edits);
    }
  }

  lemma {:induction false} InLines<K, V>(x: Extract, rows: Body -> seq<(K, V)>, lines: seq<Bytes>, row: (K, V))
    returns (line: Bytes)
    requires Adds(rows) && row in rows(Collect(x, lines))
    ensures line in lines && row in rows(x(line))
    decreases |lines|
  {
    assert rows(x(lines[0]).Then(Collect(x, lines[1..]))) == rows(x(lines[0])) + rows(Collect(x, lines[1..]));
    if row in rows(x(lines[0])) {
      line := lines[0];
    } else {
      line := InLines(x, rows, lines[1..], row);
    }
  }

  lemma {:induction false} InQueue<K, V>(rows: Body -> seq<(K, V)>, q: seq<Body>, row: (K, V))
    requires Adds(rows)
    ensures row in rows(ScanResult(UsageOf(q), EditsOf(q))) <==> exists body :: body in q && row in rows(body)
    decreases |q|
  {
    if q != [] {
      var rest := ScanResult(UsageOf(q[1..]), EditsOf(q[1..]));
      assert ScanResult(UsageOf(q), EditsOf(q)) == q[0].Then(rest);
      InQueue(rows, q[1..], row);
      assert forall body :: body in q <==> body == q[0] || body in q[1..];
    }
  }

  /** The rows of a line's batches are the rows of the line. */
  lemma InBatches<K, V>(rows: Body -> seq<(K, V)>, r: ScanResult, n: nat, row: (K, V))
    requires Adds(rows) && n > 0
    ensures row in rows(r) <==> exists body :: body in Batches(r, n) && row in rows(body)
  {
    BatchesPartition(r, n);
    InQueue(rows, Batches(r, n), row);
  }

  /** Where rows of an equal new key read differently, one of them does not read like the
      one a clean insert stores. */
  lemma Disagreement<K, V, T>(f: V -> T, s: seq<(K, V)>, base: map<K, V>) returns (k: K, row: (K, V))
    requires !AgreeUnder(f, s, base)
    ensures k !in base && k in Absorb(base, s)
    ensures row in s && row.0 == k && f(row.1) != f(Absorb(base, s)[k])
  {
    var a, b :| a in s && b in s && a.0 == b.0 && a.0 !in base && f(a.1) != f(b.1);
    AbsorbGrows(base, s);
    k := a.0;
    assert k in KeysOf(s);
    row := if f(a.1) != f(Absorb(base, s)[k]) then a else b;
  }

  /** A line that agrees with itself and has the other row brings it. */
  lemma OtherBrought<K, V, T>(cfg: Config, x: Extract, g: Target<K, V, T>, lines: seq<Bytes>, line: Bytes, row: (K, V))
    requires Adds(g.rows) && cfg.batch > 0 && line in lines && row in g.rows(x(line))
    requires row.0 == g.key && g.read(row.1) != g.value
    requires forall a, b | a in g.rows(x(line)) && b in g.rows(x(line)) && a.0 == b.0 == g.key ::
               g.read(a.1) == g.read(b.1)
    ensures LineBrings(cfg, x, g, lines)
  {
    var q := Batches(x(line), cfg.batch);
    InBatches(g.rows, x(line), cfg.batch, row);
    var body :| body in q && row in g.rows(body);
    if Late(g, body) {
      var other :| other in g.rows(body) && other.0 == g.key && g.read(other.1) == g.value;
      InBatches(g.rows, x(line), cfg.batch, other);
    }
    assert row.0 in KeysOf(g.rows(body));
    assert Brings(g, body);
  }

  // ----- exactly when ---------------------------------------------------------------------------------

  lemma Shows<K, V, T>(cfg: Config, x: Extract, p: Path, b: Bytes,
                       tab: Tables -> map<K, V>, rows: Body -> seq<(K, V)>, f: V -> T) returns (w: World)
    requires Spooled(cfg, x, p) && Adds(rows)
    requires forall t, body :: tab(Land(cfg, t, body, All)) == Absorb(tab(t), rows(body))
    requires !AgreeUnder(f, rows(ScanLines(x, b)), tab(cfg.base))
    requires forall line | line in Lines(b) :: AgreeUnder(f, rows(x(line)), tab(cfg.base))
    ensures Ends(cfg, p, b, w)
    ensures !SameUnder(f, tab(w.server), tab(Land(cfg, cfg.base, ScanLines(x, b), All)))
  {
    var s, base := rows(ScanLines(x, b)), tab(cfg.base);
    var k, row := Disagreement(f, s, base);
    var g := Target(tab, rows, f, k, f(Absorb(base, s)[k]));
    var line := InLines(x, rows, Lines(b), row);
    OtherBrought(cfg, x, g, Lines(b), line, row);
    w := Overtakes(cfg, x, p, g, b);
  }

  /** Every caught-up run over the final content `b` reads like its clean parse. */
  ghost predicate AlwaysClean<T, S>(cfg: Config, x: Extract, p: Path, b: Bytes, f: UsageRow -> T, g: EditRow -> S) {
    forall w | Ends(cfg, p, b, w) :: ReadsClean(cfg, w, ScanLines(x, b), f, g)
  }

  /** No line contradicts itself; a line with one record of a kind cannot. */
  ghost predicate LinesAgree<T, S>(cfg: Config, x: Extract, b: Bytes, f: UsageRow -> T, g: EditRow -> S) {
    forall line | line in Lines(b) :: Agreeing(cfg, [], x(line), f, g)
  }

  lemma OnePerLine<T, S>(cfg: Config, x: Extract, b: Bytes, f: UsageRow -> T, g: EditRow -> S)
    requires forall line :: |x(line).usage| <= 1 && |x(line).edits| <= 1
    ensures LinesAgree(cfg, x, b, f, g)
  {
    forall line | line in Lines(b) ensures Agreeing(cfg, [], x(line), f, g) {
      var r := x(line);
      assert r.usage != [] ==> r.usage[1..] == [];
      assert r.edits != [] ==> r.edits[1..] == [];
      assert UsageRows(cfg.userId, cfg.machineId, []) == [] && EditRows(cfg.userId, cfg.machineId, []) == [];
      NoOthers(cfg, r);
      assert |UsageRows(cfg.userId, cfg.machineId, r.usage)| <= 1
             && |EditRows(cfg.userId, cfg.machineId, r.edits)| <= 1;
    }
  }

  lemma AgreeingIsClean<T, S>(cfg: Config, x: Extract, p: Path, b: Bytes, w: World, f: UsageRow -> T, g: EditRow -> S)
    requires Spooled(cfg, x, p) && Agreeing(cfg, [], ScanLines(x, b), f, g) && Ends(cfg, p, b, w)
    ensures ReadsClean(cfg, w, ScanLines(x, b), f, g)
  {
    assert p in w.files;
    forall it ensures it in Items(ScanLines(x, b)) <==> InFiles(cfg, w, it) {
      if it in Items(ScanLines(x, b)) {
        assert Held(w, Content(p, b)) && it in Yield(cfg.source(p), b);
      }
    }
    OnceUnder(cfg, w, ScanLines(x, b), f, g);
  }

  lemma NoOthers(cfg: Config, r: ScanResult)
    ensures SentUsage(cfg, [], r) == Usage(cfg)(r) && SentEdits(cfg, [], r) == Edits(cfg)(r)
    ensures CleanState(cfg, [], r) == Land(cfg, cfg.base, r, All)
  {
    assert OtherUsage([]) + Usage(cfg)(r) == Usage(cfg)(r);
    assert OtherEdits([]) + Edits(cfg)(r) == Edits(cfg)(r);
  }

  lemma LineUnder<T, S>(cfg: Config, x: Extract, b: Bytes, f: UsageRow -> T, g: EditRow -> S, line: Bytes)
    requires LinesAgree(cfg, x, b, f, g) && line in Lines(b)
    ensures AgreeUnder(f, Usage(cfg)(x(line)), cfg.base.usage) && AgreeUnder(g, Edits(cfg)(x(line)), cfg.base.edits)
  {
    NoOthers(cfg, x(line));
    assert Agreeing(cfg, [], x(line), f, g);
  }

  /** A world whose usage rows do not read like the clean ones shows it. */
  lemma UsageOff<T, S>(cfg: Config, x: Extract, p: Path, b: Bytes, w: World, f: UsageRow -> T, g: EditRow -> S)
    requires Ends(cfg, p, b, w) && !SameUnder(f, w.server.usage, Land(cfg, cfg.base, ScanLines(x, b), All).usage)
    ensures !AlwaysClean(cfg, x, p, b, f, g)
  {
    NoOthers(cfg, ScanLines(x, b));
    assert !ReadsClean(cfg, w, ScanLines(x, b), f, g);
  }

  lemma EditsOff<T, S>(cfg: Config, x: Extract, p: Path, b: Bytes, w: World, f: UsageRow -> T, g: EditRow -> S)
    requires Ends(cfg, p, b, w) && !SameUnder(g, w.server.edits, Land(cfg, cfg.base, ScanLines(x, b), All).edits)
    ensures !AlwaysClean(cfg, x, p, b, f, g)
  {
    NoOthers(cfg, ScanLines(x, b));
    assert !ReadsClean(cfg, w, ScanLines(x, b), f, g);
  }

  lemma UsageShows<T, S>(cfg: Config, x: Extract, p: Path, b: Bytes, f: UsageRow -> T, g: EditRow -> S)
    requires Spooled(cfg, x, p) && LinesAgree(cfg, x, b, f, g)
    requires !AgreeUnder(f, UsageRows(cfg.userId, cfg.machineId, ScanLines(x, b).usage), cfg.base.usage)
    ensures !AlwaysClean(cfg, x, p, b, f, g)
  {
    RowsAdd(cfg);
    forall line | line in Lines(b) ensures AgreeUnder(f, Usage(cfg)(x(line)), cfg.base.usage) {
      LineUnder(cfg, x, b, f, g, line);
    }
    var w := Shows(cfg, x, p, b, (t: Tables) => t.usage, Usage(cfg), f);
    UsageOff(cfg, x, p, b, w, f, g);
  }

  lemma EditShows<T, S>(cfg: Config, x: Extract, p: Path, b: Bytes, f: UsageRow -> T, g: EditRow -> S)
    requires Spooled(cfg, x, p) && LinesAgree(cfg, x, b, f, g)
    requires !AgreeUnder(g, EditRows(cfg.userId, cfg.machineId, ScanLines(x, b).edits), cfg.base.edits)
    ensures !AlwaysClean(cfg, x, p, b, f, g)
  {
    RowsAdd(cfg);
    forall line | line in Lines(b) ensures AgreeUnder(g, Edits(cfg)(x(line)), cfg.base.edits) {
      LineUnder(cfg, x, b, f, g, line);
    }
    var w := Shows(cfg, x, p, b, (t: Tables) => t.edits, Edits(cfg), g);
    EditsOff(cfg, x, p, b, w, f, g);
  }

  /** With a spool, for every batch size and every reading of the rows: all schedules of one
      growing file, whose lines do not contradict themselves, end reading like its clean
      parse if and only if its records of an equal new key read alike. */
  lemma OnceIffAgreeing<T, S>(cfg: Config, x: Extract, p: Path, b: Bytes, f: UsageRow -> T, g: EditRow -> S)
    requires Spooled(cfg, x, p) && LinesAgree(cfg, x, b, f, g)
    ensures AlwaysClean(cfg, x, p, b, f, g) <==> Agreeing(cfg, [], ScanLines(x, b), f, g)
  {
    NoOthers(cfg, ScanLines(x, b));
    if Agreeing(cfg, [], ScanLines(x, b), f, g) {
      forall w | Ends(cfg, p, b, w) ensures ReadsClean(cfg, w, ScanLines(x, b), f, g) {
        AgreeingIsClean(cfg, x, p, b, w, f, g);
      }
    } else if !AgreeUnder(f, UsageRows(cfg.userId, cfg.machineId, ScanLines(x, b).usage), cfg.base.usage) {
      UsageShows(cfg, x, p, b, f, g);
    } else {
      EditShows(cfg, x, p, b, f, g);
    }
  }
}
