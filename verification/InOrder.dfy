/** Without a spool nothing overtakes: the records of one tailed file reach the server in
    the order they were written, again and again from an earlier point perhaps, but never
    with a gap. Under every key that only this file has, the server then ends with the
    clean parse whatever the records say, and whatever other files and other watchers send
    meanwhile. */
module InOrder {
  import opened Types
  import opened Dedup
  import opened GroupSum
  import opened Rollup
  import opened StoreSpec
  import opened TailScan
  import opened Delivery
  import opened Batching
  import opened ExactlyOnce
  import opened Feeding
  import opened NoLoss

  // ----- the keys of one file ---------------------------------------------------------------

  datatype Own = Own(usage: UsageKey -> bool, edits: string -> bool)

  /** A tailed file and the keys looked at. */
  datatype Lane = Lane(own: Own, x: Extract, p: Path)

  function KeepUsage(own: Own): UsageRecord -> bool {
    (r: UsageRecord) => own.usage(UsageKey(r.messageId, r.requestId))
  }

  function KeepEdits(own: Own): EditRecord -> bool { (e: EditRecord) => own.edits(e.eventId) }

  function KeepPath(p: Path): Content -> bool { (c: Content) => c.path == p }

  /** What of a result has such a key. */
  function Mine(own: Own, r: ScanResult): ScanResult {
    ScanResult(Only(KeepUsage(own), r.usage), Only(KeepEdits(own), r.edits))
  }

  function Reads(lane: Lane): Extract { (line: Bytes) => Mine(lane.own, lane.x(line)) }

  lemma MineThen(own: Own, a: ScanResult, b: ScanResult)
    ensures Mine(own, a.Then(b)) == Mine(own, a).Then(Mine(own, b))
  {
    OnlyAppend(KeepUsage(own), a.usage, b.usage);
    OnlyAppend(KeepEdits(own), a.edits, b.edits);
  }

  lemma {:induction false} MineCollect(lane: Lane, lines: seq<Bytes>)
    ensures Collect(Reads(lane), lines) == Mine(lane.own, Collect(lane.x, lines))
    decreases |lines|
  {
    if lines != [] {
      MineCollect(lane, lines[1..]);
      MineThen(lane.own, lane.x(lines[0]), Collect(lane.x, lines[1..]));
    }
  }

  /** Scanning for these keys is scanning and then looking for them. */
  lemma MineLines(lane: Lane, b: Bytes)
    ensures ScanLines(Reads(lane), b) == Mine(lane.own, ScanLines(lane.x, b))
  {
    MineCollect(lane, Lines(b));
  }

  lemma MineTail(lane: Lane, prev: FileState, t: Tick)
    ensures TailSpec(Reads(lane), prev, t).0 == Mine(lane.own, TailSpec(lane.x, prev, t).0)
    ensures TailSpec(Reads(lane), prev, t).1 == TailSpec(lane.x, prev, t).1
  {
    var o := StartOffset(prev, t.inode, t.size);
    if t.size != o {
      MineLines(lane, t.content[o..]);
    }
  }

  predicate OwnItem(own: Own, it: Item) {
    match it
    case U(r) => KeepUsage(own)(r)
    case E(e) => KeepEdits(own)(e)
  }

  ghost predicate NoneOwn(own: Own, items: set<Item>) { forall it | it in items :: !OwnItem(own, it) }

  lemma NoneMine(own: Own, r: ScanResult)
    requires NoneOwn(own, Items(r))
    ensures Mine(own, r) == NOTHING
  {
    forall u | u in r.usage ensures !KeepUsage(own)(u) { assert U(u) in Items(r); }
    forall e | e in r.edits ensures !KeepEdits(own)(e) { assert E(e) in Items(r); }
    OnlyNone(KeepUsage(own), r.usage);
    OnlyNone(KeepEdits(own), r.edits);
  }

  /** No beginning of the content has such a key. */
  ghost predicate Foreign(cfg: Config, own: Own, c: Content) {
    forall n: nat | n <= |c.bytes| :: NoneOwn(own, Yield(cfg.source(c.path), c.bytes[..n]))
  }

  ghost predicate OthersApart(own: Own, others: seq<Request>) {
    && (forall row | row in OtherUsage(others) :: !own.usage(row.0))
    && (forall row | row in OtherEdits(others) :: !own.edits(row.0))
  }

  ghost predicate FilesApart(cfg: Config, lane: Lane, w: World) {
    forall c | Held(w, c) && c.path != lane.p :: Foreign(cfg, lane.own, c)
  }

  /** Nobody else ever had such a key. */
  ghost predicate Apart(cfg: Config, lane: Lane, w: World) {
    FilesApart(cfg, lane, w) && OthersApart(lane.own, w.others)
  }

  /** A content is still there in `w'`, longer perhaps. */
  ghost predicate Lives(w': World, c: Content) {
    exists c' :: Held(w', c') && c'.path == c.path && c.bytes <= c'.bytes
  }

  lemma HeldLives(cfg: Config, w: World, s: Step, c: Content)
    requires Enabled(cfg, w, s) && Held(w, c)
    ensures Lives(Do(cfg, w, s), c)
  {
    var w' := Do(cfg, w, s);
    if c in w.retired {
      assert c in w'.retired && Held(w', c);
    } else {
      FileLives(cfg, w, s, c);
    }
  }

  lemma FileLives(cfg: Config, w: World, s: Step, c: Content)
    requires Enabled(cfg, w, s) && c.path in w.files && w.files[c.path].bytes == c.bytes
    ensures Lives(Do(cfg, w, s), c)
  {
    var w' := Do(cfg, w, s);
    if s.Rotate? && s.p == c.path {
      assert c in w'.retired && Held(w', c);
    } else {
      FilesGrow(cfg, w, s, c.path);
      assert Held(w', Content(c.path, w'.files[c.path].bytes));
    }
  }

  lemma FilesGrow(cfg: Config, w: World, s: Step, p: Path)
    requires Enabled(cfg, w, s) && p in w.files && !(s.Rotate? && s.p == p)
    ensures p in Do(cfg, w, s).files && w.files[p].bytes <= Do(cfg, w, s).files[p].bytes
  {
    match s
    case Append(_, _) =>
    case ScanFile(q, more) =>
      var f := w.files[q];
      assert Do(cfg, w, s).files == Delivery.Write(cfg, w, q, File(f.inode, f.bytes + more)).files;
    case _ =>
  }

  lemma ForeignBefore(cfg: Config, own: Own, c: Content, c': Content)
    requires Foreign(cfg, own, c') && c'.path == c.path && c.bytes <= c'.bytes
    ensures Foreign(cfg, own, c)
  {
    forall n: nat | n <= |c.bytes| ensures NoneOwn(own, Yield(cfg.source(c.path), c.bytes[..n])) {
      assert c.bytes[..n] == c'.bytes[..n];
    }
  }

  /** Who is apart at the end was so all the time. */
  lemma ApartBefore(cfg: Config, lane: Lane, w: World, s: Step)
    requires Enabled(cfg, w, s) && Apart(cfg, lane, Do(cfg, w, s))
    ensures Apart(cfg, lane, w)
  {
    var w' := Do(cfg, w, s);
    forall c | Held(w, c) && c.path != lane.p ensures Foreign(cfg, lane.own, c) {
      HeldLives(cfg, w, s, c);
      var c' :| Held(w', c') && c'.path == c.path && c.bytes <= c'.bytes;
      ForeignBefore(cfg, lane.own, c, c');
    }
    if s.Other? {
      OthersLast(cfg, w.others, s.req);
    }
  }

  // ----- the stream of one tailed file -----------------------------------------------------

  /** One clean reading of contents, one after the other. */
  function ReadAll(x: Extract, cs: seq<Content>): ScanResult {
    if cs == [] then NOTHING else ScanLines(x, cs[0].bytes).Then(ReadAll(x, cs[1..]))
  }

  lemma {:induction false} ReadAllAppend(x: Extract, a: seq<Content>, c: Content)
    ensures ReadAll(x, a + [c]) == ReadAll(x, a).Then(ScanLines(x, c.bytes))
    decreases |a|
  {
    ThenLaws(ScanLines(x, c.bytes), NOTHING, NOTHING);
    if a == [] {
      assert a + [c] == [c] && [c][1..] == [];
    } else {
      assert (a + [c])[1..] == a[1..] + [c];
      ReadAllAppend(x, a[1..], c);
      ThenLaws(ScanLines(x, a[0].bytes), ReadAll(x, a[1..]), ScanLines(x, c.bytes));
    }
  }

  /** What replaced contents and the first `b` bytes of the current one yield. */
  function UpTo(x: Extract, past: seq<Content>, b: Bytes): ScanResult { ReadAll(x, past).Then(ScanLines(x, b)) }

  function BytesOf(w: World, p: Path): Bytes { if p in w.files then w.files[p].bytes else [] }

  /** What the path held before its file was replaced. */
  function Past(w: World, p: Path): seq<Content> { Only(KeepPath(p), w.retired) }

  /** Everything the path ever held, read in order. */
  function Stream(x: Extract, w: World, p: Path): ScanResult { UpTo(x, Past(w, p), BytesOf(w, p)) }

  predicate Extends(a: ScanResult, b: ScanResult) { a.usage <= b.usage && a.edits <= b.edits }

  /** Where a scan from `st` would read on. */
  function ResumeAt(w: World, p: Path, st: FileState): (o: nat)
    ensures o <= |BytesOf(w, p)|
  {
    if p in w.files then StartOffset(st, w.files[p].inode, |w.files[p].bytes|) else 0
  }

  /** A scan from `st` leaves no gap behind the fronts `m` and `n`. */
  ghost predicate Behind(x: Extract, w: World, p: Path, st: FileState, m: nat, n: nat) {
    var b, o := BytesOf(w, p), ResumeAt(w, p, st);
    && AtBoundary(b[..o])
    && |UpTo(x, Past(w, p), b[..o]).usage| <= m
    && |UpTo(x, Past(w, p), b[..o]).edits| <= n
  }

  lemma ScanExtends(x: Extract, b: Bytes, more: Bytes)
    ensures Extends(ScanLines(x, b), ScanLines(x, b + more))
  {
    var c := Complete(b);
    CompleteIsBoundary(b);
    LinesComplete(b);
    AppendSlices(b, more, c);
    ScanAppend(x, b[..c], b[c..] + more);
  }

  /** A longer current content extends the stream. */
  lemma UpToExtends(x: Extract, past: seq<Content>, b: Bytes, more: Bytes)
    ensures Extends(UpTo(x, past, b), UpTo(x, past, b + more))
  {
    ScanExtends(x, b, more);
  }

  lemma UpToNothing(x: Extract, past: seq<Content>)
    ensures UpTo(x, past, []) == ReadAll(x, past)
  {
    assert Lines([]) == [];
    ThenLaws(ReadAll(x, past), NOTHING, NOTHING);
  }

  // ----- the invariant --------------------------------------------------------------------

  function Usage(cfg: Config): seq<UsageRecord> -> seq<(UsageKey, UsageRow)> {
    (recs: seq<UsageRecord>) => UsageRows(cfg.userId, cfg.machineId, recs)
  }

  function Edits(cfg: Config): seq<EditRecord> -> seq<(string, EditRow)> {
    (edits: seq<EditRecord>) => EditRows(cfg.userId, cfg.machineId, edits)
  }

  lemma RowsDistribute(cfg: Config)
    ensures Distributes(Usage(cfg)) && Distributes(Edits(cfg))
  {
    forall a, b ensures Usage(cfg)(a + b) == Usage(cfg)(a) + Usage(cfg)(b) {
      UsageRowsAppend(cfg.userId, cfg.machineId, a, b);
    }
    forall a, b ensures Edits(cfg)(a + b) == Edits(cfg)(a) + Edits(cfg)(b) {
      EditRowsAppend(cfg.userId, cfg.machineId, a, b);
    }
  }

  lemma {:induction false} UsageRowsMine(own: Own, u: string, m: string, recs: seq<UsageRecord>)
    ensures UsageRows(u, m, Only(KeepUsage(own), recs)) == Only(OfKey(own.usage), UsageRows(u, m, recs))
    decreases |recs|
  {
    if recs != [] {
      var one, rest := if KeepUsage(own)(recs[0]) then [recs[0]] else [], Only(KeepUsage(own), recs[1..]);
      var row := if recs[0].messageId == "" then [] else [UsageRowOf(u, m, recs[0])];
      UsageRowsMine(own, u, m, recs[1..]);
      UsageRowsAppend(u, m, one, rest);
      OnlyAppend(OfKey(own.usage), row, UsageRows(u, m, recs[1..]));
      OneUsageMine(own, u, m, recs[0]);
    }
  }

  lemma OneUsageMine(own: Own, u: string, m: string, r: UsageRecord)
    ensures UsageRows(u, m, if KeepUsage(own)(r) then [r] else [])
         == Only(OfKey(own.usage), if r.messageId == "" then [] else [UsageRowOf(u, m, r)])
  {
    var row := UsageRowOf(u, m, r);
    assert [r][1..] == [] && UsageRows(u, m, []) == [];
    assert [row][1..] == [] && Only(OfKey<UsageKey, UsageRow>(own.usage), []) == [];
    assert OfKey(own.usage)(row) == KeepUsage(own)(r);
  }

  lemma {:induction false} EditRowsMine(own: Own, u: string, m: string, edits: seq<EditRecord>)
    ensures EditRows(u, m, Only(KeepEdits(own), edits)) == Only(OfKey(own.edits), EditRows(u, m, edits))
    decreases |edits|
  {
    if edits != [] {
      var one, rest := if KeepEdits(own)(edits[0]) then [edits[0]] else [], Only(KeepEdits(own), edits[1..]);
      var row := if edits[0].eventId == "" then [] else [EditRowOf(u, m, edits[0])];
      EditRowsMine(own, u, m, edits[1..]);
      EditRowsAppend(u, m, one, rest);
      OnlyAppend(OfKey(own.edits), row, EditRows(u, m, edits[1..]));
      OneEditMine(own, u, m, edits[0]);
    }
  }

  lemma OneEditMine(own: Own, u: string, m: string, e: EditRecord)
    ensures EditRows(u, m, if KeepEdits(own)(e) then [e] else [])
         == Only(OfKey(own.edits), if e.eventId == "" then [] else [EditRowOf(u, m, e)])
  {
    var row := EditRowOf(u, m, e);
    assert [e][1..] == [] && EditRows(u, m, []) == [];
    assert [row][1..] == [] && Only(OfKey<string, EditRow>(own.edits), []) == [];
    assert OfKey(own.edits)(row) == KeepEdits(own)(e);
  }

  /** What the watcher holds of this tick, in the order it will be sent. */
  function Carried(ph: Phase): ScanResult {
    match ph
    case Scanning(got, _) => got
    case Sending(queue, _) => ScanResult(UsageOf(queue), EditsOf(queue))
    case _ => NOTHING
  }

  /** Under its keys the server holds exactly the stream up to a front. */
  ghost predicate Holds(cfg: Config, own: Own, t: Tables, s: ScanResult, m: nat, n: nat) {
    && m <= |s.usage| && n <= |s.edits|
    && SameOn(own.usage, t.usage, Absorb(cfg.base.usage, Usage(cfg)(s.usage[..m])))
    && SameOn(own.edits, t.edits, Absorb(cfg.base.edits, Edits(cfg)(s.edits[..n])))
  }

  /** `c` continues the stream from the fronts `m`, `n` to `m'`, `n'`. */
  ghost predicate Feeds(s: ScanResult, c: ScanResult, m: nat, n: nat, m': nat, n': nat) {
    Fed(c.usage, s.usage, m, m') && Fed(c.edits, s.edits, n, n')
  }

  function LaneStream(lane: Lane, w: World): ScanResult { Stream(Reads(lane), w, lane.p) }

  ghost predicate LaneBehind(lane: Lane, w: World, st: FileState, m: nat, n: nat) {
    Behind(Reads(lane), w, lane.p, st, m, n)
  }

  ghost predicate CkptsBehind(lane: Lane, w: World, m: nat, n: nat, m': nat, n': nat) {
    var p := lane.p;
    && LaneBehind(lane, w, Get(w.mem, p), m, n)
    && LaneBehind(lane, w, Get(w.disk, p), m, n)
    && (p in Pending(w.phase) ==> LaneBehind(lane, w, Pending(w.phase)[p], m', n'))
  }

  ghost predicate PastBehind(lane: Lane, w: World, m: nat, n: nat) {
    var past := ReadAll(Reads(lane), Past(w, lane.p));
    |past.usage| <= m && |past.edits| <= n
  }

  /** The fronts `m`, `n` are reached and `m'`, `n'` will be once everything carried is
      delivered. */
  ghost predicate Fronts(cfg: Config, lane: Lane, w: World, m: nat, n: nat, m': nat, n': nat) {
    && Holds(cfg, lane.own, w.server, LaneStream(lane, w), m, n)
    && Feeds(LaneStream(lane, w), Mine(lane.own, Carried(w.phase)), m, n, m', n')
    && PastBehind(lane, w, m, n)
    && CkptsBehind(lane, w, m, n, m', n')
  }

  ghost predicate Gapless(cfg: Config, lane: Lane, w: World) {
    exists m: nat, n: nat, m': nat, n': nat :: Fronts(cfg, lane, w, m, n, m', n')
  }

  ghost predicate Spoolless(w: World) {
    w.spool == map[] && !w.phase.Flushing? && !w.phase.Removing? && !w.phase.Spooling?
  }

  ghost predicate Ordered(cfg: Config, lane: Lane, w: World) {
    Spoolless(w) && (!w.torn && Apart(cfg, lane, w) ==> Gapless(cfg, lane, w))
  }

  /** A spool-less watcher of a tailed file, among others of any kind. */
  ghost predicate Plain(cfg: Config, lane: Lane) {
    Delivery.Valid(cfg) && !cfg.buffered && cfg.source(lane.p) == Tailed(lane.x)
  }

  lemma BehindMore(lane: Lane, w: World, st: FileState, m: nat, n: nat, m': nat, n': nat)
    requires LaneBehind(lane, w, st, m, n) && m <= m' && n <= n'
    ensures LaneBehind(lane, w, st, m', n')
  {
  }

  lemma FeedBounds(s: ScanResult, c: ScanResult, m: nat, n: nat, m': nat, n': nat)
    requires Feeds(s, c, m, n, m', n') && m <= |s.usage| && n <= |s.edits|
    ensures m <= m' <= |s.usage| && n <= n' <= |s.edits|
  {
    FedBounds(c.usage, s.usage, m, m');
    FedBounds(c.edits, s.edits, n, n');
  }

  // ----- sending -------------------------------------------------------------------------------

  lemma UsageLands(cfg: Config, own: Own, t: Detail, stream: seq<UsageRecord>, recs: seq<UsageRecord>, m: nat, k: nat)
    requires m <= k <= |stream| && Fed(Only(KeepUsage(own), recs), stream, m, k)
    requires SameOn(own.usage, t, Absorb(cfg.base.usage, Usage(cfg)(stream[..m])))
    ensures SameOn(own.usage, Absorb(t, Usage(cfg)(recs)), Absorb(cfg.base.usage, Usage(cfg)(stream[..k])))
  {
    RowsDistribute(cfg);
    OnlyAbsorbs(own.usage, t, Absorb(cfg.base.usage, Usage(cfg)(stream[..m])), Usage(cfg)(recs));
    UsageRowsMine(own, cfg.userId, cfg.machineId, recs);
    FedAbsorbs(cfg.base.usage, Usage(cfg), Only(KeepUsage(own), recs), stream, m, k);
  }

  lemma EditsLand(cfg: Config, own: Own, t: map<string, EditRow>, stream: seq<EditRecord>, edits: seq<EditRecord>,
                  n: nat, l: nat)
    requires n <= l <= |stream| && Fed(Only(KeepEdits(own), edits), stream, n, l)
    requires SameOn(own.edits, t, Absorb(cfg.base.edits, Edits(cfg)(stream[..n])))
    ensures SameOn(own.edits, Absorb(t, Edits(cfg)(edits)), Absorb(cfg.base.edits, Edits(cfg)(stream[..l])))
  {
    RowsDistribute(cfg);
    OnlyAbsorbs(own.edits, t, Absorb(cfg.base.edits, Edits(cfg)(stream[..n])), Edits(cfg)(edits));
    EditRowsMine(own, cfg.userId, cfg.machineId, edits);
    FedAbsorbs(cfg.base.edits, Edits(cfg), Only(KeepEdits(own), edits), stream, n, l);
  }

  /** A body that continues the stream moves the fronts of what landed of it. */
  lemma Lands(cfg: Config, own: Own, t: Tables, s: ScanResult, body: Body, landed: Landed, m: nat, n: nat, k: nat,
              l: nat)
    requires Holds(cfg, own, t, s, m, n) && Feeds(s, Mine(own, body), m, n, k, l)
    ensures m <= k && n <= l
    ensures Holds(cfg, own, Land(cfg, t, body, landed), s, if landed.Nothing? then m else k,
                  if landed.All? then l else n)
  {
    FeedBounds(s, Mine(own, body), m, n, k, l);
    UsageLands(cfg, own, t.usage, s.usage, body.usage, m, k);
    EditsLand(cfg, own, t.edits, s.edits, body.edits, n, l);
  }

  /** Only the server and the control point changed. */
  lemma Refront(cfg: Config, lane: Lane, w: World, w': World,
                m: nat, n: nat, m': nat, n': nat, a: nat, b: nat, a': nat, b': nat)
    requires Fronts(cfg, lane, w, m, n, m', n') && w' == w.(server := w'.server, phase := w'.phase)
    requires m <= a && n <= b && Holds(cfg, lane.own, w'.server, LaneStream(lane, w), a, b)
    requires Feeds(LaneStream(lane, w), Mine(lane.own, Carried(w'.phase)), a, b, a', b')
    requires Pending(w'.phase) == map[] || (Pending(w'.phase) == Pending(w.phase) && m' <= a' && n' <= b')
    ensures Gapless(cfg, lane, w')
  {
    BehindMore(lane, w, Get(w.mem, lane.p), m, n, a, b);
    BehindMore(lane, w, Get(w.disk, lane.p), m, n, a, b);
    if lane.p in Pending(w'.phase) {
      BehindMore(lane, w, Pending(w.phase)[lane.p], m', n', a', b');
    }
    assert Fronts(cfg, lane, w', a, b, a', b');
  }

  lemma RestCarries(queue: seq<Body>, pending: map<Path, FileState>)
    ensures Carried(Rest(queue, pending)) == ScanResult(UsageOf(queue), EditsOf(queue))
  {
    assert UsageOf([]) == [] && EditsOf([]) == [];
  }

  /** What a queue feeds, its head feeds first. */
  lemma HeadFeeds(own: Own, s: ScanResult, q: seq<Body>, m: nat, n: nat, m': nat, n': nat) returns (k: nat, l: nat)
    requires q != [] && Feeds(s, Mine(own, ScanResult(UsageOf(q), EditsOf(q))), m, n, m', n')
    ensures Feeds(s, Mine(own, q[0]), m, n, k, l)
    ensures Feeds(s, Mine(own, ScanResult(UsageOf(q[1..]), EditsOf(q[1..]))), k, l, m', n')
  {
    var head, rest := Mine(own, q[0]), Mine(own, ScanResult(UsageOf(q[1..]), EditsOf(q[1..])));
    MineThen(own, q[0], ScanResult(UsageOf(q[1..]), EditsOf(q[1..])));
    k := FedSplit(head.usage, rest.usage, s.usage, m, m');
    l := FedSplit(head.edits, rest.edits, s.edits, n, n');
  }

  lemma PostAccepted(cfg: Config, lane: Lane, w: World, w': World)
    requires w.phase.Sending? && w.phase.queue != [] && Gapless(cfg, lane, w)
    requires w' == w.(server := Land(cfg, w.server, w.phase.queue[0], All),
                      phase := Rest(w.phase.queue[1..], w.phase.pending))
    ensures Gapless(cfg, lane, w')
  {
    var q, s := w.phase.queue, LaneStream(lane, w);
    var m: nat, n: nat, m': nat, n': nat :| Fronts(cfg, lane, w, m, n, m', n');
    var k, l := HeadFeeds(lane.own, s, q, m, n, m', n');
    Lands(cfg, lane.own, w.server, s, q[0], All, m, n, k, l);
    RestCarries(q[1..], w.phase.pending);
    RestPhase(q[1..], w.phase.pending);
    Refront(cfg, lane, w, w', m, n, m', n', k, l, m', n');
  }

  lemma NothingFeeds(own: Own, s: ScanResult, m: nat, n: nat)
    ensures Mine(own, NOTHING) == NOTHING && Feeds(s, NOTHING, m, n, m, n)
  {
  }

  lemma PostFailed(cfg: Config, lane: Lane, w: World, landed: Landed, w': World)
    requires w.phase.Sending? && w.phase.queue != [] && Gapless(cfg, lane, w)
    requires w' == w.(server := Land(cfg, w.server, w.phase.queue[0], landed), phase := Idle)
    ensures Gapless(cfg, lane, w')
  {
    var m: nat, n: nat, m': nat, n': nat :| Fronts(cfg, lane, w, m, n, m', n');
    var a, b := PartLands(cfg, lane, w, landed, m, n, m', n');
    NothingFeeds(lane.own, LaneStream(lane, w), a, b);
    Refront(cfg, lane, w, w', m, n, m', n', a, b, a, b);
  }

  lemma PartLands(cfg: Config, lane: Lane, w: World, landed: Landed, m: nat, n: nat, m': nat, n': nat)
    returns (a: nat, b: nat)
    requires w.phase.Sending? && w.phase.queue != [] && Fronts(cfg, lane, w, m, n, m', n')
    ensures m <= a && n <= b
    ensures Holds(cfg, lane.own, Land(cfg, w.server, w.phase.queue[0], landed), LaneStream(lane, w), a, b)
  {
    var q, s := w.phase.queue, LaneStream(lane, w);
    var k, l := HeadFeeds(lane.own, s, q, m, n, m', n');
    Lands(cfg, lane.own, w.server, s, q[0], landed, m, n, k, l);
    a, b := if landed.Nothing? then m else k, if landed.All? then l else n;
  }

  lemma PostOrdered(cfg: Config, lane: Lane, w: World, s: Step)
    requires Plain(cfg, lane) && Ordered(cfg, lane, w) && Enabled(cfg, w, s) && s.Post?
    ensures Ordered(cfg, lane, Do(cfg, w, s))
  {
    var w' := Do(cfg, w, s);
    if !w'.torn && Apart(cfg, lane, w') {
      ApartBefore(cfg, lane, w, s);
      if s.o.reply.Accepted? {
        PostAccepted(cfg, lane, w, w');
      } else {
        PostFailed(cfg, lane, w, s.o.landed, w');
      }
    }
  }

  /** Another watcher's rows have other keys. */
  lemma OtherHolds(cfg: Config, own: Own, t: Tables, req: Request, s: ScanResult, m: nat, n: nat)
    requires Holds(cfg, own, t, s, m, n)
    requires forall row | row in UsageRows(req.userId, req.machineId, req.body.usage) :: !own.usage(row.0)
    requires forall row | row in EditRows(req.userId, req.machineId, req.body.edits) :: !own.edits(row.0)
    ensures Holds(cfg, own, Received(t, req), s, m, n)
  {
    var us := UsageRows(req.userId, req.machineId, req.body.usage);
    var es := EditRows(req.userId, req.machineId, req.body.edits);
    ReceivedRows(t, req);
    OnlyNone(OfKey(own.usage), us);
    OnlyNone(OfKey(own.edits), es);
    OnlyAbsorbs(own.usage, t.usage, Absorb(cfg.base.usage, Usage(cfg)(s.usage[..m])), us);
    OnlyAbsorbs(own.edits, t.edits, Absorb(cfg.base.edits, Edits(cfg)(s.edits[..n])), es);
  }

  lemma OtherOrdered(cfg: Config, lane: Lane, w: World, s: Step)
    requires Ordered(cfg, lane, w) && Enabled(cfg, w, s) && s.Other?
    ensures Ordered(cfg, lane, Do(cfg, w, s))
  {
    var w' := Do(cfg, w, s);
    if !w'.torn && Apart(cfg, lane, w') {
      ApartBefore(cfg, lane, w, s);
      OthersLast(cfg, w.others, s.req);
      var m: nat, n: nat, m': nat, n': nat :| Fronts(cfg, lane, w, m, n, m', n');
      OtherHolds(cfg, lane.own, w.server, s.req, LaneStream(lane, w), m, n);
      Reserved(cfg, lane, w, w', m, n, m', n');
    }
  }

  /** Only the tables and their history changed. */
  lemma Reserved(cfg: Config, lane: Lane, w: World, w': World, m: nat, n: nat, m': nat, n': nat)
    requires Fronts(cfg, lane, w, m, n, m', n') && w' == w.(server := w'.server, others := w'.others)
    requires Holds(cfg, lane.own, w'.server, LaneStream(lane, w), m, n)
    ensures Fronts(cfg, lane, w', m, n, m', n')
  {
    assert LaneStream(lane, w') == LaneStream(lane, w);
  }

  // ----- steps that send nothing ------------------------------------------------------------------

  lemma ApartSame(cfg: Config, lane: Lane, w: World, w': World)
    requires Apart(cfg, lane, w') && w'.files == w.files && w'.retired == w.retired && w'.others == w.others
    ensures Apart(cfg, lane, w)
  {
    assert forall c :: Held(w, c) <==> Held(w', c);
  }

  /** The control point moves; what was carried stays or is dropped. */
  lemma PhaseOrdered(cfg: Config, lane: Lane, w: World, ph: Phase)
    requires Ordered(cfg, lane, w) && Spoolless(w.(phase := ph))
    requires (Carried(ph) == Carried(w.phase) && Pending(ph) == Pending(w.phase))
          || (Carried(ph) == NOTHING && Pending(ph) == map[])
    ensures Ordered(cfg, lane, w.(phase := ph))
  {
    var w' := w.(phase := ph);
    if !w.torn && Apart(cfg, lane, w') {
      ApartSame(cfg, lane, w, w');
      PhaseFronts(cfg, lane, w, ph);
    }
  }

  lemma PhaseFronts(cfg: Config, lane: Lane, w: World, ph: Phase)
    requires Gapless(cfg, lane, w)
    requires (Carried(ph) == Carried(w.phase) && Pending(ph) == Pending(w.phase))
          || (Carried(ph) == NOTHING && Pending(ph) == map[])
    ensures Gapless(cfg, lane, w.(phase := ph))
  {
    var m: nat, n: nat, m': nat, n': nat :| Fronts(cfg, lane, w, m, n, m', n');
    if Carried(ph) == Carried(w.phase) && Pending(ph) == Pending(w.phase) {
      Refront(cfg, lane, w, w.(phase := ph), m, n, m', n', m, n, m', n');
    } else {
      NothingFeeds(lane.own, LaneStream(lane, w), m, n);
      Refront(cfg, lane, w, w.(phase := ph), m, n, m', n', m, n, m, n);
    }
  }

  lemma BatchesCarry(r: ScanResult, n: nat, pending: map<Path, FileState>)
    requires n > 0
    ensures Carried(Rest(Batches(r, n), pending)) == r && Pending(Rest(Batches(r, n), pending)) == pending
  {
    BatchesPartition(r, n);
    RestCarries(Batches(r, n), pending);
  }

  lemma EndScanOrdered(cfg: Config, lane: Lane, w: World, s: Step)
    requires Ordered(cfg, lane, w) && Enabled(cfg, w, s) && s.EndScan?
    ensures Ordered(cfg, lane, Do(cfg, w, s))
  {
    var got, pending := w.phase.got, w.phase.pending;
    if got == NOTHING && pending == map[] {
      PhaseOrdered(cfg, lane, w, Idle);
    } else {
      BatchesCarry(got, cfg.batch, pending);
      PhaseOrdered(cfg, lane, w, Rest(Batches(got, cfg.batch), pending));
    }
  }

  /** Checkpoints move to states that are behind the fronts already. */
  lemma CkptFronts(cfg: Config, lane: Lane, w: World, w': World)
    requires Gapless(cfg, lane, w) && Carried(w.phase) == NOTHING && Carried(w'.phase) == NOTHING
    requires w' == w.(mem := w'.mem, disk := w'.disk, phase := w'.phase)
    requires var p := lane.p;
             && (Get(w'.mem, p) == Get(w.mem, p) || Get(w'.mem, p) == Get(w.disk, p)
                 || (p in Pending(w.phase) && Get(w'.mem, p) == Pending(w.phase)[p]))
             && (Get(w'.disk, p) == Get(w.disk, p) || Get(w'.disk, p) == Get(w.mem, p))
             && (p in Pending(w'.phase) ==> p in Pending(w.phase) && Pending(w'.phase)[p] == Pending(w.phase)[p])
    ensures Gapless(cfg, lane, w')
  {
    var m: nat, n: nat, m': nat, n': nat :| Fronts(cfg, lane, w, m, n, m', n');
    NothingFeeds(lane.own, LaneStream(lane, w), m, n);
    assert m' == m && n' == n;
    assert Fronts(cfg, lane, w', m, n, m, n);
  }

  lemma SetFronts(cfg: Config, lane: Lane, w: World, q: Path)
    requires Gapless(cfg, lane, w) && w.phase.Setting? && q in w.phase.pending
    ensures Gapless(cfg, lane, w.(mem := w.mem[q := w.phase.pending[q]], phase := Setting(w.phase.pending - {q})))
  {
    CkptFronts(cfg, lane, w, w.(mem := w.mem[q := w.phase.pending[q]], phase := Setting(w.phase.pending - {q})));
  }

  lemma SaveFronts(cfg: Config, lane: Lane, w: World, ok: bool)
    requires Gapless(cfg, lane, w) && w.phase.Saving?
    ensures Gapless(cfg, lane, w.(disk := if ok then w.mem else w.disk, phase := Idle))
  {
    CkptFronts(cfg, lane, w, w.(disk := if ok then w.mem else w.disk, phase := Idle));
  }

  lemma CkptOrdered(cfg: Config, lane: Lane, w: World, s: Step)
    requires Ordered(cfg, lane, w) && Enabled(cfg, w, s) && (s.SetOne? || s.EndSet? || s.Save?)
    ensures Ordered(cfg, lane, Do(cfg, w, s))
  {
    if s.EndSet? {
      PhaseOrdered(cfg, lane, w, Saving);
    } else if !w.torn && Apart(cfg, lane, Do(cfg, w, s)) {
      ApartSame(cfg, lane, w, Do(cfg, w, s));
      if s.SetOne? { SetFronts(cfg, lane, w, s.p); } else { SaveFronts(cfg, lane, w, s.ok); }
    }
  }

  lemma CrashOrdered(cfg: Config, lane: Lane, w: World)
    requires Ordered(cfg, lane, w)
    ensures Ordered(cfg, lane, Do(cfg, w, Crash))
  {
    var mid := w.(phase := Idle);
    PhaseOrdered(cfg, lane, w, Idle);
    if !w.torn && Apart(cfg, lane, Do(cfg, w, Crash)) {
      ApartSame(cfg, lane, mid, Do(cfg, w, Crash));
      CkptFronts(cfg, lane, mid, Do(cfg, w, Crash));
    }
  }

  // ----- steps on other files ------------------------------------------------------------------------

  /** `w'` is `w` as far as the lane's file goes. */
  ghost predicate Elsewhere(p: Path, w: World, w': World) {
    && w' == w.(files := w'.files, written := w'.written, retired := w'.retired, torn := w'.torn)
    && (p in w'.files <==> p in w.files) && (p in w.files ==> w'.files[p] == w.files[p])
    && Past(w', p) == Past(w, p)
  }

  lemma ElsewhereFronts(cfg: Config, lane: Lane, w: World, w': World, m: nat, n: nat, m': nat, n': nat)
    requires Fronts(cfg, lane, w, m, n, m', n') && Elsewhere(lane.p, w, w')
    ensures Fronts(cfg, lane, w', m, n, m', n')
  {
    assert LaneStream(lane, w') == LaneStream(lane, w);
    assert forall st :: ResumeAt(w', lane.p, st) == ResumeAt(w, lane.p, st);
  }

  lemma RotateElsewhere(cfg: Config, w: World, s: Step, p: Path)
    requires Enabled(cfg, w, s) && (s.Create? || s.Append? || s.Rotate?) && s.p != p
    ensures Elsewhere(p, w, Do(cfg, w, s))
  {
    if s.Rotate? {
      var c := Content(s.p, w.files[s.p].bytes);
      OnlyAppend(KeepPath(p), w.retired, [c]);
      OnlyNone(KeepPath(p), [c]);
      assert Past(w, p) + [] == Past(w, p);
    }
  }

  lemma WrittenElsewhere(cfg: Config, lane: Lane, w: World, s: Step)
    requires Ordered(cfg, lane, w) && Enabled(cfg, w, s) && (s.Create? || s.Append? || s.Rotate?) && s.p != lane.p
    ensures Ordered(cfg, lane, Do(cfg, w, s))
  {
    var w' := Do(cfg, w, s);
    if !w'.torn && Apart(cfg, lane, w') {
      ApartBefore(cfg, lane, w, s);
      RotateElsewhere(cfg, w, s, lane.p);
      var m: nat, n: nat, m': nat, n': nat :| Fronts(cfg, lane, w, m, n, m', n');
      ElsewhereFronts(cfg, lane, w, w', m, n, m', n');
    }
  }

  // ----- steps on the file ---------------------------------------------------------------------------

  lemma HoldsLonger(cfg: Config, own: Own, t: Tables, s: ScanResult, s': ScanResult, m: nat, n: nat)
    requires Holds(cfg, own, t, s, m, n) && Extends(s, s')
    ensures Holds(cfg, own, t, s', m, n)
  {
    assert s'.usage[..m] == s.usage[..m] && s'.edits[..n] == s.edits[..n];
  }

  lemma FeedsLonger(s: ScanResult, s': ScanResult, c: ScanResult, m: nat, n: nat, m': nat, n': nat)
    requires Feeds(s, c, m, n, m', n') && Extends(s, s')
    ensures Feeds(s', c, m, n, m', n')
  {
    FedLonger(c.usage, s.usage, s'.usage, m, m');
    FedLonger(c.edits, s.edits, s'.edits, n, n');
  }

  /** The file grew; entries of it, and entries of files it replaced, resume where they did. */
  lemma GrowsBehind(lane: Lane, w: World, w': World, st: FileState, flight: set<Item>, m: nat, n: nat)
    requires LaneBehind(lane, w, st, m, n) && Longer(w, w', lane.p)
    requires st == UNSEEN || StOk(Tailed(lane.x), w.files[lane.p], w, flight, st)
    ensures LaneBehind(lane, w', st, m, n)
  {
    var o := ResumeAt(w, lane.p, st);
    assert ResumeAt(w', lane.p, st) == o;
    assert w'.files[lane.p].bytes[..o] == w.files[lane.p].bytes[..o];
  }

  /** `w'` is `w` with more bytes in the file. */
  ghost predicate Longer(w: World, w': World, p: Path) {
    && p in w.files && p in w'.files
    && w'.files[p].inode == w.files[p].inode && w.files[p].bytes <= w'.files[p].bytes
    && w' == w.(files := w.files[p := w'.files[p]], written := w'.written)
  }

  lemma LongerStream(lane: Lane, w: World, w': World)
    requires Longer(w, w', lane.p)
    ensures Extends(LaneStream(lane, w), LaneStream(lane, w'))
  {
    var b, c := w.files[lane.p].bytes, w'.files[lane.p].bytes;
    assert c == b + c[|b|..];
    UpToExtends(Reads(lane), Past(w, lane.p), b, c[|b|..]);
  }

  lemma GrowCkpts(cfg: Config, lane: Lane, w: World, w': World, m: nat, n: nat, m': nat, n': nat)
    requires Plain(cfg, lane) && Inv(cfg, w) && CkptsBehind(lane, w, m, n, m', n') && Longer(w, w', lane.p)
    ensures CkptsBehind(lane, w', m, n, m', n')
  {
    var p := lane.p;
    assert p in w.mem ==> StOk(cfg.source(p), w.files[p], w, {}, w.mem[p]);
    assert p in w.disk ==> StOk(cfg.source(p), w.files[p], w, {}, w.disk[p]);
    GrowsBehind(lane, w, w', Get(w.mem, p), {}, m, n);
    GrowsBehind(lane, w, w', Get(w.disk, p), {}, m, n);
    if p in Pending(w.phase) {
      assert StOk(cfg.source(p), w.files[p], w, InFlight(w.phase), Pending(w.phase)[p]);
      GrowsBehind(lane, w, w', Pending(w.phase)[p], InFlight(w.phase), m', n');
    }
  }

  lemma GrowFronts(cfg: Config, lane: Lane, w: World, w': World, m: nat, n: nat, m': nat, n': nat)
    requires Plain(cfg, lane) && Inv(cfg, w) && Fronts(cfg, lane, w, m, n, m', n') && Longer(w, w', lane.p)
    ensures Fronts(cfg, lane, w', m, n, m', n')
  {
    var s, s' := LaneStream(lane, w), LaneStream(lane, w');
    LongerStream(lane, w, w');
    HoldsLonger(cfg, lane.own, w.server, s, s', m, n);
    FeedsLonger(s, s', Mine(lane.own, Carried(w.phase)), m, n, m', n');
    GrowCkpts(cfg, lane, w, w', m, n, m', n');
  }

  lemma AppendOrdered(cfg: Config, lane: Lane, w: World, s: Step)
    requires Plain(cfg, lane) && Inv(cfg, w) && Ordered(cfg, lane, w) && Enabled(cfg, w, s) && s.Append?
             && s.p == lane.p
    ensures Ordered(cfg, lane, Do(cfg, w, s))
  {
    var w' := Do(cfg, w, s);
    if !w'.torn && Apart(cfg, lane, w') {
      ApartBefore(cfg, lane, w, s);
      var m: nat, n: nat, m': nat, n': nat :| Fronts(cfg, lane, w, m, n, m', n');
      GrowFronts(cfg, lane, w, w', m, n, m', n');
    }
  }

  // ----- scans -----------------------------------------------------------------------------------------

  /** A scan reads on from behind the front to the end of the stream. */
  lemma ScanFeeds(x: Extract, past: seq<Content>, c: Bytes, o: nat, m: nat, n: nat)
    requires o <= |c| && AtBoundary(c[..o])
    requires |UpTo(x, past, c[..o]).usage| <= m && |UpTo(x, past, c[..o]).edits| <= n
    ensures var found, s := ScanLines(x, c[o..]), UpTo(x, past, c);
            Feeds(s, found, m, n, Max(m, |s.usage|), Max(n, |s.edits|))
  {
    var from, found, s := UpTo(x, past, c[..o]), ScanLines(x, c[o..]), UpTo(x, past, c);
    Cut(c, o);
    ScanAppend(x, c[..o], c[o..]);
    ThenLaws(ReadAll(x, past), ScanLines(x, c[..o]), found);
    assert s == from.Then(found);
    assert s.usage[|from.usage|..|s.usage|] == found.usage;
    assert s.edits[|from.edits|..|s.edits|] == found.edits;
    FedSegment(s.usage, |from.usage|, |s.usage|, m);
    FedSegment(s.edits, |from.edits|, |s.edits|, n);
  }

  /** After it, the new state is behind that end. */
  lemma ScannedBehind(lane: Lane, w: World, st: FileState, m: nat, n: nat)
    requires lane.p in w.files && st.inode == w.files[lane.p].inode && st.offset == Complete(w.files[lane.p].bytes)
    requires |LaneStream(lane, w).usage| <= m && |LaneStream(lane, w).edits| <= n
    ensures LaneBehind(lane, w, st, m, n)
  {
    var c := w.files[lane.p].bytes;
    CompleteIsBoundary(c);
    LinesComplete(c);
    assert c[..0] == [];
  }

  lemma ThenFeeds(s: ScanResult, a: ScanResult, b: ScanResult, m: nat, n: nat, m': nat, n': nat, k: nat, l: nat)
    requires Feeds(s, a, m, n, m', n') && Feeds(s, b, m', n', k, l)
    ensures Feeds(s, a.Then(b), m, n, k, l)
  {
    FedAppend(a.usage, b.usage, s.usage, m, m', k);
    FedAppend(a.edits, b.edits, s.edits, n, n', l);
  }

  /** A scan of the file found `r`, and its entry is to become `st`. */
  lemma ScanFronts(cfg: Config, lane: Lane, w: World, r: ScanResult, st: FileState,
                   m: nat, n: nat, m': nat, n': nat, k: nat, l: nat)
    requires w.phase.Scanning? && Fronts(cfg, lane, w, m, n, m', n')
    requires Feeds(LaneStream(lane, w), Mine(lane.own, r), m', n', k, l) && LaneBehind(lane, w, st, k, l)
    ensures Fronts(cfg, lane, w.(phase := Scanning(w.phase.got.Then(r), w.phase.pending[lane.p := st])), m, n, k, l)
  {
    MineThen(lane.own, w.phase.got, r);
    ThenFeeds(LaneStream(lane, w), Mine(lane.own, w.phase.got), Mine(lane.own, r), m, n, m', n', k, l);
    Recarry(cfg, lane, w, Scanning(w.phase.got.Then(r), w.phase.pending[lane.p := st]), m, n, m', n', k, l);
  }

  /** Only what is carried changed. */
  lemma Recarry(cfg: Config, lane: Lane, w: World, ph: Phase, m: nat, n: nat, m': nat, n': nat, k: nat, l: nat)
    requires Fronts(cfg, lane, w, m, n, m', n') && Feeds(LaneStream(lane, w), Mine(lane.own, Carried(ph)), m, n, k, l)
    requires lane.p in Pending(ph) ==> LaneBehind(lane, w, Pending(ph)[lane.p], k, l)
    ensures Fronts(cfg, lane, w.(phase := ph), m, n, k, l)
  {
    assert LaneStream(lane, w.(phase := ph)) == LaneStream(lane, w);
  }

  /** The tail scan from the in-memory entry. */
  lemma TailFeeds(cfg: Config, lane: Lane, w: World, size: nat, m: nat, n: nat, m': nat, n': nat)
    returns (k: nat, l: nat)
    requires Fronts(cfg, lane, w, m, n, m', n') && lane.p in w.files && size <= |w.files[lane.p].bytes|
    requires ResumeAt(w, lane.p, Get(w.mem, lane.p)) == StartOffset(Get(w.mem, lane.p), w.files[lane.p].inode, size)
    ensures var f := w.files[lane.p];
            var found := TailSpec(Reads(lane), Get(w.mem, lane.p), Glimpse(f.inode, size, f.bytes));
            Feeds(LaneStream(lane, w), found.0, m', n', k, l) && LaneBehind(lane, w, found.1, k, l)
  {
    var f, s := w.files[lane.p], LaneStream(lane, w);
    var o := ResumeAt(w, lane.p, Get(w.mem, lane.p));
    TailReads(Reads(lane), Get(w.mem, lane.p), Glimpse(f.inode, size, f.bytes), o);
    FeedBounds(s, Mine(lane.own, Carried(w.phase)), m, n, m', n');
    if size == o {
      k, l := m', n';
      RestsBehind(lane, w, m', n', m, n);
      NothingFeeds(lane.own, s, m', n');
    } else {
      k, l := Max(m', |s.usage|), Max(n', |s.edits|);
      ReadsOn(lane, w, o, m, n, m', n');
    }
  }

  /** The two outcomes of a scan. */
  lemma TailReads(x: Extract, prev: FileState, t: Tick, o: nat)
    requires o == StartOffset(prev, t.inode, t.size) && o <= |t.content|
    ensures t.size == o ==> TailSpec(x, prev, t).0 == NOTHING && TailSpec(x, prev, t).1 == FileState(t.inode, o)
    ensures t.size != o ==>
      && TailSpec(x, prev, t).0 == ScanLines(x, t.content[o..])
      && TailSpec(x, prev, t).1 == FileState(t.inode, o + Complete(t.content[o..]))
  {
  }

  /** Reading on to the end of the file. */
  lemma ReadsOn(lane: Lane, w: World, o: nat, m: nat, n: nat, m': nat, n': nat)
    requires lane.p in w.files && LaneBehind(lane, w, Get(w.mem, lane.p), m, n) && m <= m' && n <= n'
    requires o == ResumeAt(w, lane.p, Get(w.mem, lane.p))
    ensures var c, s := w.files[lane.p].bytes, LaneStream(lane, w);
            var k, l := Max(m', |s.usage|), Max(n', |s.edits|);
            && Feeds(s, ScanLines(Reads(lane), c[o..]), m', n', k, l)
            && LaneBehind(lane, w, FileState(w.files[lane.p].inode, o + Complete(c[o..])), k, l)
  {
    var c, s := w.files[lane.p].bytes, LaneStream(lane, w);
    ScanFeeds(Reads(lane), Past(w, lane.p), c, o, m', n');
    ReadFrom(Reads(lane), c, o);
    ScannedBehind(lane, w, FileState(w.files[lane.p].inode, o + Complete(c[o..])), Max(m', |s.usage|),
                  Max(n', |s.edits|));
  }

  /** The entry a scan of an unchanged file leaves. */
  lemma RestsBehind(lane: Lane, w: World, k: nat, l: nat, m: nat, n: nat)
    requires lane.p in w.files && LaneBehind(lane, w, Get(w.mem, lane.p), m, n) && m <= k && n <= l
    ensures LaneBehind(lane, w, FileState(w.files[lane.p].inode, ResumeAt(w, lane.p, Get(w.mem, lane.p))), k, l)
  {
    var o := ResumeAt(w, lane.p, Get(w.mem, lane.p));
    var st := FileState(w.files[lane.p].inode, o);
    assert ResumeAt(w, lane.p, st) == o;
  }

  /** One scan of the lane's file, from given fronts. */
  lemma OwnScan(cfg: Config, lane: Lane, w: World, s: Step, m: nat, n: nat, m': nat, n': nat)
    requires Plain(cfg, lane) && Inv(cfg, w) && Enabled(cfg, w, s) && s.ScanFile? && s.p == lane.p
    requires Fronts(cfg, lane, w, m, n, m', n')
    ensures Gapless(cfg, lane, Do(cfg, w, s))
  {
    var p, f := lane.p, w.files[lane.p];
    var t := Glimpse(f.inode, |f.bytes|, f.bytes + s.more);
    var w1 := Delivery.Write(cfg, w, p, File(f.inode, f.bytes + s.more));
    GrowFronts(cfg, lane, w, w1, m, n, m', n');
    ResumesSame(cfg, lane, w, s.more);
    var k, l := TailFeeds(cfg, lane, w1, |f.bytes|, m, n, m', n');
    MineTail(lane, Get(w.mem, p), t);
    var (r, st) := TailSpec(lane.x, Get(w.mem, p), t);
    ScanFronts(cfg, lane, w1, r, st, m, n, m', n', k, l);
    ScanDoes(cfg, lane, w, s);
  }

  lemma ScanDoes(cfg: Config, lane: Lane, w: World, s: Step)
    requires Plain(cfg, lane) && Enabled(cfg, w, s) && s.ScanFile? && s.p == lane.p
    ensures var f := w.files[s.p];
            var found := TailSpec(lane.x, Get(w.mem, s.p), Glimpse(f.inode, |f.bytes|, f.bytes + s.more));
            var w1 := Delivery.Write(cfg, w, s.p, File(f.inode, f.bytes + s.more));
            Do(cfg, w, s) == w1.(phase := Scanning(w1.phase.got.Then(found.0), w1.phase.pending[s.p := found.1]))
  {
  }

  /** The offset the scan starts at does not depend on what was appended after the stat. */
  lemma ResumesSame(cfg: Config, lane: Lane, w: World, more: Bytes)
    requires Plain(cfg, lane) && Inv(cfg, w) && lane.p in w.files
    ensures var f := w.files[lane.p]; var w1 := Delivery.Write(cfg, w, lane.p, File(f.inode, f.bytes + more));
            ResumeAt(w1, lane.p, Get(w.mem, lane.p)) == StartOffset(Get(w.mem, lane.p), f.inode, |f.bytes|)
  {
    var p := lane.p;
    assert p in w.mem ==> StOk(cfg.source(p), w.files[p], w, {}, w.mem[p]);
  }

  /** What another file's scan found has other keys. */
  lemma StrangeFound(cfg: Config, lane: Lane, w: World, s: Step)
    requires Inv(cfg, w) && Enabled(cfg, w, s) && s.ScanFile? && s.p != lane.p && FilesApart(cfg, lane, Do(cfg, w, s))
    ensures var f := w.files[s.p];
            var found := ScanOne(cfg.source(s.p), Get(w.mem, s.p), Glimpse(f.inode, |f.bytes|, f.bytes + s.more));
            found.Some? ==> Mine(lane.own, found.value.0) == NOTHING
  {
    var f := w.files[s.p];
    var c := Content(s.p, f.bytes + s.more);
    var found := ScanOne(cfg.source(s.p), Get(w.mem, s.p), Glimpse(f.inode, |f.bytes|, c.bytes));
    FoundWritten(cfg, w, s.p, s.more);
    assert Held(Do(cfg, w, s), c);
    assert Foreign(cfg, lane.own, c) && c.bytes[..|c.bytes|] == c.bytes;
    if found.Some? {
      assert NoneOwn(lane.own, Items(found.value.0));
      NoneMine(lane.own, found.value.0);
    }
  }

  lemma StrangeScan(cfg: Config, lane: Lane, w: World, s: Step, m: nat, n: nat, m': nat, n': nat)
    requires Inv(cfg, w) && Enabled(cfg, w, s) && s.ScanFile? && s.p != lane.p && FilesApart(cfg, lane, Do(cfg, w, s))
    requires Fronts(cfg, lane, w, m, n, m', n')
    ensures Fronts(cfg, lane, Do(cfg, w, s), m, n, m', n')
  {
    var f := w.files[s.p];
    var w1 := Delivery.Write(cfg, w, s.p, File(f.inode, f.bytes + s.more));
    var found := ScanOne(cfg.source(s.p), Get(w.mem, s.p), Glimpse(f.inode, |f.bytes|, f.bytes + s.more));
    ElsewhereFronts(cfg, lane, w, w1, m, n, m', n');
    if found.Some? {
      StrangeFound(cfg, lane, w, s);
      StrangeFronts(cfg, lane, w1, s.p, found.value.0, found.value.1, m, n, m', n');
    }
  }

  lemma StrangeFronts(cfg: Config, lane: Lane, w: World, q: Path, r: ScanResult, st: FileState, m: nat, n: nat,
                      m': nat, n': nat)
    requires w.phase.Scanning? && q != lane.p && Fronts(cfg, lane, w, m, n, m', n') && Mine(lane.own, r) == NOTHING
    ensures Fronts(cfg, lane, w.(phase := Scanning(w.phase.got.Then(r), w.phase.pending[q := st])), m, n, m', n')
  {
    MineThen(lane.own, w.phase.got, r);
    ThenLaws(Mine(lane.own, w.phase.got), NOTHING, NOTHING);
    Recarry(cfg, lane, w, Scanning(w.phase.got.Then(r), w.phase.pending[q := st]), m, n, m', n', m', n');
  }

  lemma ScanOrdered(cfg: Config, lane: Lane, w: World, s: Step)
    requires Plain(cfg, lane) && Inv(cfg, w) && Ordered(cfg, lane, w) && Enabled(cfg, w, s) && s.ScanFile?
    ensures Ordered(cfg, lane, Do(cfg, w, s))
  {
    var w' := Do(cfg, w, s);
    if !w'.torn && Apart(cfg, lane, w') {
      ApartBefore(cfg, lane, w, s);
      var m: nat, n: nat, m': nat, n': nat :| Fronts(cfg, lane, w, m, n, m', n');
      if s.p == lane.p {
        OwnScan(cfg, lane, w, s, m, n, m', n');
      } else {
        StrangeScan(cfg, lane, w, s, m, n, m', n');
      }
    }
  }

  // ----- a new content ---------------------------------------------------------------------------------

  /** A replaced file is resumed at its start, behind everything the old one held. */
  lemma ReplacedBehind(lane: Lane, w': World, st: FileState, m: nat, n: nat)
    requires lane.p in w'.files && ResumeAt(w', lane.p, st) == 0 && PastBehind(lane, w', m, n)
    ensures LaneBehind(lane, w', st, m, n)
  {
    assert BytesOf(w', lane.p)[..0] == [];
    UpToNothing(Reads(lane), Past(w', lane.p));
  }

  /** A new content begins behind everything read before. */
  ghost predicate Begins(lane: Lane, w: World, w': World) {
    var p := lane.p;
    && p in w'.files && w'.server == w.server && w'.phase == w.phase && w'.mem == w.mem && w'.disk == w.disk
    && ReadAll(Reads(lane), Past(w', p)) == LaneStream(lane, w)
    && ResumeAt(w', p, Get(w.mem, p)) == 0 && ResumeAt(w', p, Get(w.disk, p)) == 0
    && (p in Pending(w.phase) ==> ResumeAt(w', p, Pending(w.phase)[p]) == 0)
  }

  lemma BeginFronts(cfg: Config, lane: Lane, w: World, w': World, m: nat, n: nat, m': nat, n': nat)
    requires Fronts(cfg, lane, w, m, n, m', n') && Begins(lane, w, w')
    requires |LaneStream(lane, w).usage| <= m && |LaneStream(lane, w).edits| <= n
    ensures Fronts(cfg, lane, w', m, n, m', n')
  {
    var s, s' := LaneStream(lane, w), LaneStream(lane, w');
    assert Extends(s, s');
    HoldsLonger(cfg, lane.own, w.server, s, s', m, n);
    FeedBounds(s, Mine(lane.own, Carried(w.phase)), m, n, m', n');
    FeedsLonger(s, s', Mine(lane.own, Carried(w.phase)), m, n, m', n');
    ReplacedBehind(lane, w', Get(w.mem, lane.p), m, n);
    ReplacedBehind(lane, w', Get(w.disk, lane.p), m, n);
    if lane.p in Pending(w.phase) {
      ReplacedBehind(lane, w', Pending(w.phase)[lane.p], m', n');
    }
  }

  lemma CreateOrdered(cfg: Config, lane: Lane, w: World, s: Step)
    requires Plain(cfg, lane) && Inv(cfg, w) && Ordered(cfg, lane, w) && Enabled(cfg, w, s) && s.Create?
             && s.p == lane.p
    ensures Ordered(cfg, lane, Do(cfg, w, s))
  {
    var w' := Do(cfg, w, s);
    if !w'.torn && Apart(cfg, lane, w') {
      ApartBefore(cfg, lane, w, s);
      var m: nat, n: nat, m': nat, n': nat :| Fronts(cfg, lane, w, m, n, m', n');
      UpToNothing(Reads(lane), Past(w, lane.p));
      BeginFronts(cfg, lane, w, w', m, n, m', n');
    }
  }

  /** A file read to its end is wholly behind the front. */
  lemma FinishedBehind(cfg: Config, lane: Lane, w: World, m: nat, n: nat)
    requires Plain(cfg, lane) && lane.p in w.files && Finished(cfg.source(lane.p), w.files[lane.p], Get(w.mem, lane.p))
    requires LaneBehind(lane, w, Get(w.mem, lane.p), m, n)
    ensures |LaneStream(lane, w).usage| <= m && |LaneStream(lane, w).edits| <= n
  {
    LinesComplete(w.files[lane.p].bytes);
  }

  lemma RotateOrdered(cfg: Config, lane: Lane, w: World, s: Step)
    requires Plain(cfg, lane) && Inv(cfg, w) && Ordered(cfg, lane, w) && Enabled(cfg, w, s) && s.Rotate?
             && s.p == lane.p
    ensures Ordered(cfg, lane, Do(cfg, w, s))
  {
    var w' := Do(cfg, w, s);
    if !w'.torn && Apart(cfg, lane, w') {
      ApartBefore(cfg, lane, w, s);
      var m: nat, n: nat, m': nat, n': nat :| Fronts(cfg, lane, w, m, n, m', n');
      FinishedBehind(cfg, lane, w, m, n);
      RotateBegins(cfg, lane, w, s);
      BeginFronts(cfg, lane, w, w', m, n, m', n');
    }
  }

  lemma RotateBegins(cfg: Config, lane: Lane, w: World, s: Step)
    requires Inv(cfg, w) && Enabled(cfg, w, s) && s.Rotate? && s.p == lane.p
    ensures Begins(lane, w, Do(cfg, w, s))
  {
    var p, c := lane.p, Content(lane.p, w.files[lane.p].bytes);
    OnlyAppend(KeepPath(p), w.retired, [c]);
    assert [c][1..] == [] && Only(KeepPath(p), [c]) == [c];
    ReadAllAppend(Reads(lane), Past(w, p), c);
    assert p in w.mem ==> StOk(cfg.source(p), w.files[p], w, {}, w.mem[p]);
    assert p in w.disk ==> StOk(cfg.source(p), w.files[p], w, {}, w.disk[p]);
    assert p in Pending(w.phase) ==> StOk(cfg.source(p), w.files[p], w, InFlight(w.phase), Pending(w.phase)[p]);
  }

  // ----- runs -----------------------------------------------------------------------------------------

  lemma FileOrdered(cfg: Config, lane: Lane, w: World, s: Step)
    requires Plain(cfg, lane) && Inv(cfg, w) && Ordered(cfg, lane, w) && Enabled(cfg, w, s)
    requires s.Create? || s.Append? || s.Rotate?
    ensures Ordered(cfg, lane, Do(cfg, w, s))
  {
    if s.p != lane.p {
      WrittenElsewhere(cfg, lane, w, s);
    } else {
      match s
      case Create(_, _) => CreateOrdered(cfg, lane, w, s);
      case Append(_, _) => AppendOrdered(cfg, lane, w, s);
      case Rotate(_, _) => RotateOrdered(cfg, lane, w, s);
    }
  }

  /** Every step keeps the order. */
  lemma StepKeepsOrder(cfg: Config, lane: Lane, w: World, s: Step)
    requires Plain(cfg, lane) && Inv(cfg, w) && Ordered(cfg, lane, w) && Enabled(cfg, w, s)
    ensures Ordered(cfg, lane, Do(cfg, w, s))
  {
    match s
    case Create(_, _) => FileOrdered(cfg, lane, w, s);
    case Rotate(_, _) => FileOrdered(cfg, lane, w, s);
    case Append(_, _) => FileOrdered(cfg, lane, w, s);
    case ScanFile(_, _) => ScanOrdered(cfg, lane, w, s);
    case StartTick => PhaseOrdered(cfg, lane, w, Scanning(NOTHING, map[]));
    case EndScan => EndScanOrdered(cfg, lane, w, s);
    case Post(_) => PostOrdered(cfg, lane, w, s);
    case SetOne(_) => CkptOrdered(cfg, lane, w, s);
    case EndSet => CkptOrdered(cfg, lane, w, s);
    case Save(_) => CkptOrdered(cfg, lane, w, s);
    case Crash => CrashOrdered(cfg, lane, w);
    case Other(_) => OtherOrdered(cfg, lane, w, s);
    case _ =>
  }

  lemma StartOrdered(cfg: Config, lane: Lane)
    requires Plain(cfg, lane)
    ensures Inv(cfg, Start(cfg)) && Ordered(cfg, lane, Start(cfg))
  {
    var w := Start(cfg);
    UpToNothing(Reads(lane), []);
    assert UsageRows(cfg.userId, cfg.machineId, []) == [] && EditRows(cfg.userId, cfg.machineId, []) == [];
    assert BytesOf(w, lane.p)[..0] == [];
    NothingFeeds(lane.own, LaneStream(lane, w), 0, 0);
    assert Fronts(cfg, lane, w, 0, 0, 0, 0);
  }

  lemma {:induction false} RunKeepsOrder(cfg: Config, lane: Lane, w: World, steps: seq<Step>, end: World)
    requires Plain(cfg, lane) && Inv(cfg, w) && Ordered(cfg, lane, w) && Run(cfg, w, steps, end)
    ensures Inv(cfg, end) && Ordered(cfg, lane, end)
    decreases |steps|
  {
    if steps != [] {
      StepKeepsInv(cfg, w, steps[0]);
      StepKeepsOrder(cfg, lane, w, steps[0]);
      RunKeepsOrder(cfg, lane, Do(cfg, w, steps[0]), steps[1..], end);
    }
  }

  /** At every moment of every run the server holds, under keys that only this file has,
      exactly a prefix of what the file ever held, read in order. */
  lemma PrefixAlways(cfg: Config, lane: Lane, w: World) returns (m: nat, n: nat)
    requires Plain(cfg, lane) && Reachable(cfg, w) && Apart(cfg, lane, w) && !w.torn
    ensures Holds(cfg, lane.own, w.server, LaneStream(lane, w), m, n)
    ensures LaneBehind(lane, w, Get(w.mem, lane.p), m, n) && LaneBehind(lane, w, Get(w.disk, lane.p), m, n)
  {
    var steps :| Run(cfg, Start(cfg), steps, w);
    StartOrdered(cfg, lane);
    RunKeepsOrder(cfg, lane, Start(cfg), steps, w);
    var a: nat, b: nat, a': nat, b': nat :| Fronts(cfg, lane, w, a, b, a', b');
    m, n := a, b;
  }

  /** Caught up, it is the whole stream. */
  lemma LaneIsClean(cfg: Config, lane: Lane, w: World)
    requires Plain(cfg, lane) && Reachable(cfg, w) && Apart(cfg, lane, w) && CaughtUp(cfg, w) && !w.torn
             && lane.p in w.files
    ensures var s := LaneStream(lane, w);
            && SameOn(lane.own.usage, w.server.usage, Absorb(cfg.base.usage, Usage(cfg)(s.usage)))
            && SameOn(lane.own.edits, w.server.edits, Absorb(cfg.base.edits, Edits(cfg)(s.edits)))
  {
    var m, n := PrefixAlways(cfg, lane, w);
    FinishedBehind(cfg, lane, w, m, n);
    var s := LaneStream(lane, w);
    assert s.usage[..m] == s.usage && s.edits[..n] == s.edits;
  }
}
