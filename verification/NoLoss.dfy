/** No loss over whole runs: whatever crashes, lost replies and failed saves
    happen, everything a checkpoint claims to have read is on the server, in the
    spool, or in a batch the server permanently rejected. */
module NoLoss {
  import opened Types
  import opened Dedup
  import opened Rollup
  import opened StoreSpec
  import opened TailScan
  import opened Delivery

  /** Records without an id are never stored; the parsers emit none. */
  predicate Keyed(it: Item) {
    match it
    case U(r) => r.messageId != ""
    case E(e) => e.eventId != ""
  }

  predicate Stored(t: Tables, it: Item) {
    match it
    case U(r) => UsageKey(r.messageId, r.requestId) in t.usage
    case E(e) => e.eventId in t.edits
  }

  ghost predicate InSpool(spool: map<nat, Body>, it: Item) { exists n :: n in spool && it in Items(spool[n]) }

  /** `it` cannot get lost any more, provided what is in `flight` is not lost. */
  ghost predicate Safe(w: World, flight: set<Item>, it: Item) {
    Keyed(it) ==> Stored(w.server, it) || InSpool(w.spool, it) || it in w.rejected || it in flight
  }

  ghost predicate AllSafe(w: World, flight: set<Item>, items: set<Item>) {
    forall it | it in items :: Safe(w, flight, it)
  }

  /** The claim a checkpoint entry makes about its file. */
  ghost predicate StOk(src: Source, f: File, w: World, flight: set<Item>, st: FileState) {
    && (st.inode == 0 || f.inode == 0 ==> st.inode == f.inode)
    && (st.inode == f.inode ==> Claims(src, f.bytes, w, flight, st.offset))
  }

  ghost predicate Claims(src: Source, b: Bytes, w: World, flight: set<Item>, offset: nat) {
    && offset <= |b|
    && (src.Tailed? ==> AtBoundary(b[..offset]))
    && AllSafe(w, flight, Yield(src, b[..offset]))
  }

  ghost predicate CkptOk(cfg: Config, w: World, flight: set<Item>, ckpt: map<Path, FileState>) {
    forall p | p in ckpt :: p in w.files && StOk(cfg.source(p), w.files[p], w, flight, ckpt[p])
  }

  ghost predicate FlushOk(w: World) {
    match w.phase
    case Flushing(todo) => todo <= w.spool.Keys
    case Removing(n, dropped, todo) =>
      && n in w.spool && todo <= w.spool.Keys && n !in todo
      && (!dropped ==> forall it | it in Items(w.spool[n]) && Keyed(it) :: Stored(w.server, it))
    case _ => true
  }

  ghost predicate Inv(cfg: Config, w: World) {
    && CkptOk(cfg, w, {}, w.mem)
    && CkptOk(cfg, w, {}, w.disk)
    && CkptOk(cfg, w, InFlight(w.phase), Pending(w.phase))
    && FlushOk(w)
  }

  // ----- what the server keeps ------------------------------------------------

  lemma {:induction false} UsageRowsHave(u: string, m: string, recs: seq<UsageRecord>, r: UsageRecord)
    requires r in recs && r.messageId != ""
    ensures UsageRowOf(u, m, r) in UsageRows(u, m, recs)
    decreases |recs|
  {
    if r != recs[0] {
      UsageRowsHave(u, m, recs[1..], r);
    }
  }

  lemma {:induction false} EditRowsHave(u: string, m: string, edits: seq<EditRecord>, e: EditRecord)
    requires e in edits && e.eventId != ""
    ensures EditRowOf(u, m, e) in EditRows(u, m, edits)
    decreases |edits|
  {
    if e != edits[0] {
      EditRowsHave(u, m, edits[1..], e);
    }
  }

  /** Whatever lands, nothing stored is lost. */
  lemma LandKeeps(cfg: Config, t: Tables, body: Body, landed: Landed, it: Item)
    requires Stored(t, it)
    ensures Stored(Land(cfg, t, body, landed), it)
  {
    AbsorbGrows(t.usage, UsageRows(cfg.userId, cfg.machineId, body.usage));
    AbsorbGrows(t.edits, EditRows(cfg.userId, cfg.machineId, body.edits));
  }

  /** Nor by what others send. */
  lemma ReceivedKeeps(t: Tables, req: Request, it: Item)
    requires Stored(t, it)
    ensures Stored(Received(t, req), it)
  {
    AbsorbGrows(t.usage, UsageRows(req.userId, req.machineId, req.body.usage));
    AbsorbGrows(t.edits, EditRows(req.userId, req.machineId, req.body.edits));
  }

  /** A request that lands wholly stores all its items. */
  lemma LandStores(cfg: Config, t: Tables, body: Body, it: Item)
    requires it in Items(body) && Keyed(it)
    ensures Stored(Land(cfg, t, body, All), it)
  {
    var us, es := UsageRows(cfg.userId, cfg.machineId, body.usage), EditRows(cfg.userId, cfg.machineId, body.edits);
    AbsorbGrows(t.usage, us);
    AbsorbGrows(t.edits, es);
    match it
    case U(r) => UsageRowsHave(cfg.userId, cfg.machineId, body.usage, r);
    case E(e) => EditRowsHave(cfg.userId, cfg.machineId, body.edits, e);
  }

  // ----- items and batches ----------------------------------------------------

  lemma ItemsThen(a: ScanResult, b: ScanResult)
    ensures Items(a.Then(b)) == Items(a) + Items(b)
  {
    forall it ensures it in Items(a.Then(b)) <==> it in Items(a) || it in Items(b) {
      match it
      case U(r) =>
      case E(e) =>
    }
  }

  lemma {:induction false} QueueAppend(a: seq<Body>, b: seq<Body>)
    ensures QueueItems(a + b) == QueueItems(a) + QueueItems(b)
    decreases |a|
  {
    if a == [] {
      assert a + b == b;
    } else {
      assert (a + b)[1..] == a[1..] + b;
      QueueAppend(a[1..], b);
    }
  }

  lemma {:induction false} UsageBatchesItems(s: seq<UsageRecord>, n: nat)
    requires n > 0
    ensures QueueItems(UsageBatches(s, n)) == Items(ScanResult(s, []))
    decreases |s|
  {
    if s != [] {
      var k := Min(n, |s|);
      UsageBatchesItems(s[k..], n);
      var q := UsageBatches(s, n);
      assert q[1..] == UsageBatches(s[k..], n);
      assert s == s[..k] + s[k..];
      ItemsThen(ScanResult(s[..k], []), ScanResult(s[k..], []));
    }
  }

  lemma {:induction false} EditBatchesItems(s: seq<EditRecord>, n: nat)
    requires n > 0
    ensures QueueItems(EditBatches(s, n)) == Items(ScanResult([], s))
    decreases |s|
  {
    if s != [] {
      var k := Min(n, |s|);
      EditBatchesItems(s[k..], n);
      var q := EditBatches(s, n);
      assert q[1..] == EditBatches(s[k..], n);
      assert s == s[..k] + s[k..];
      ItemsThen(ScanResult([], s[..k]), ScanResult([], s[k..]));
    }
  }

  /** Batching neither loses nor invents an item. */
  lemma BatchesItems(r: ScanResult, n: nat)
    requires n > 0
    ensures QueueItems(Batches(r, n)) == Items(r)
  {
    UsageBatchesItems(r.usage, n);
    EditBatchesItems(r.edits, n);
    QueueAppend(UsageBatches(r.usage, n), EditBatches(r.edits, n));
  }

  // ----- frames ---------------------------------------------------------------

  /** Everything safe stays safe. */
  ghost predicate Keeps(w: World, flight: set<Item>, w': World, flight': set<Item>) {
    forall it | Safe(w, flight, it) :: Safe(w', flight', it)
  }

  lemma CkptKeeps(cfg: Config, w: World, flight: set<Item>, w': World, flight': set<Item>, ckpt: map<Path, FileState>)
    requires CkptOk(cfg, w, flight, ckpt) && w'.files == w.files && Keeps(w, flight, w', flight')
    ensures CkptOk(cfg, w', flight', ckpt)
  {
    forall p | p in ckpt
      ensures p in w'.files && StOk(cfg.source(p), w'.files[p], w', flight', ckpt[p])
    {
      assert StOk(cfg.source(p), w.files[p], w, flight, ckpt[p]);
    }
  }

  /** A step that leaves files and checkpoints alone and loses nothing. */
  lemma QuietStep(cfg: Config, w: World, w': World)
    requires Inv(cfg, w)
    requires w'.files == w.files && w'.mem == w.mem && w'.disk == w.disk
    requires Keeps(w, {}, w', {}) && FlushOk(w')
    requires Pending(w'.phase) == map[]
          || (Pending(w'.phase) == Pending(w.phase) && Keeps(w, InFlight(w.phase), w', InFlight(w'.phase)))
    ensures Inv(cfg, w')
  {
    CkptKeeps(cfg, w, {}, w', {}, w.mem);
    CkptKeeps(cfg, w, {}, w', {}, w.disk);
    if Pending(w'.phase) != map[] {
      CkptKeeps(cfg, w, InFlight(w.phase), w', InFlight(w'.phase), Pending(w.phase));
    }
  }

  lemma ServerKeeps(cfg: Config, w: World, w': World, body: Body, landed: Landed, flight: set<Item>)
    requires w'.server == Land(cfg, w.server, body, landed) && w'.spool == w.spool && w'.rejected == w.rejected
    ensures Keeps(w, flight, w', flight)
  {
    forall it | Safe(w, flight, it) ensures Safe(w', flight, it) {
      if Stored(w.server, it) {
        LandKeeps(cfg, w.server, body, landed, it);
      }
    }
  }

  lemma OtherKeeps(w: World, req: Request, flight: set<Item>)
    ensures Keeps(w, flight, w.(server := Received(w.server, req), others := w.others + [req]), flight)
  {
    var w' := w.(server := Received(w.server, req), others := w.others + [req]);
    forall it | Safe(w, flight, it) ensures Safe(w', flight, it) {
      if Stored(w.server, it) {
        ReceivedKeeps(w.server, req, it);
      }
    }
  }

  // ----- steps on the watcher's side --------------------------------------------

  lemma FlushPostOk(cfg: Config, w: World, s: Step)
    requires Inv(cfg, w) && Enabled(cfg, w, s) && s.FlushPost?
    ensures Inv(cfg, Do(cfg, w, s))
  {
    var w' := Do(cfg, w, s);
    ServerKeeps(cfg, w, w', w.spool[s.name], s.o.landed, {});
    if s.o.reply.Accepted? {
      forall it | it in Items(w.spool[s.name]) && Keyed(it) ensures Stored(w'.server, it) {
        LandStores(cfg, w.server, w.spool[s.name], it);
      }
    }
    QuietStep(cfg, w, w');
  }

  lemma FlushRemoveOk(cfg: Config, w: World, s: Step)
    requires Inv(cfg, w) && Enabled(cfg, w, s) && s.FlushRemove?
    ensures Inv(cfg, Do(cfg, w, s))
  {
    var w' := Do(cfg, w, s);
    forall it | Safe(w, {}, it) ensures Safe(w', {}, it) { RemovedSafe(cfg, w, s, it); }
    QuietStep(cfg, w, w');
  }

  lemma EndScanOk(cfg: Config, w: World, s: Step)
    requires Inv(cfg, w) && Enabled(cfg, w, s) && s.EndScan?
    ensures Inv(cfg, Do(cfg, w, s))
  {
    BatchesItems(w.phase.got, cfg.batch);
    RestPhase(Batches(w.phase.got, cfg.batch), w.phase.pending);
    var w' := Do(cfg, w, s);
    assert w' == w.(phase := w'.phase);
    PhaseStep(cfg, w, w'.phase);
  }

  /** Only the control point moves. */
  lemma PhaseStep(cfg: Config, w: World, ph: Phase)
    requires Inv(cfg, w) && FlushOk(w.(phase := ph))
    requires Pending(ph) == map[] || (Pending(ph) == Pending(w.phase) && InFlight(w.phase) == InFlight(ph))
    ensures Inv(cfg, w.(phase := ph))
  {
    QuietStep(cfg, w, w.(phase := ph));
  }

  lemma RestPhase(queue: seq<Body>, pending: map<Path, FileState>)
    ensures InFlight(Rest(queue, pending)) == QueueItems(queue)
    ensures Pending(Rest(queue, pending)) == pending
  {
  }

  lemma PostOk(cfg: Config, w: World, s: Step)
    requires Inv(cfg, w) && Enabled(cfg, w, s) && s.Post?
    ensures Inv(cfg, Do(cfg, w, s))
  {
    var w', body := Do(cfg, w, s), w.phase.queue[0];
    ServerKeeps(cfg, w, w', body, s.o.landed, {});
    ServerKeeps(cfg, w, w', body, s.o.landed, InFlight(w.phase));
    RestPhase(w.phase.queue[1..], w.phase.pending);
    assert QueueItems(w.phase.queue) == Items(body) + QueueItems(w.phase.queue[1..]);
    if s.o.reply.Accepted? {
      forall it | Safe(w, InFlight(w.phase), it) ensures Safe(w', InFlight(w'.phase), it) {
        assert Safe(w', InFlight(w.phase), it);
        if Keyed(it) && it in Items(body) {
          LandStores(cfg, w.server, body, it);
        }
      }
    }
    QuietStep(cfg, w, w');
  }

  lemma SpoolOk(cfg: Config, w: World, s: Step)
    requires Inv(cfg, w) && Enabled(cfg, w, s) && s.Spool?
    ensures Inv(cfg, Do(cfg, w, s))
  {
    var w' := Do(cfg, w, s);
    assert forall n | n in w.spool && s.ok :: n in w'.spool && w'.spool[n] == w.spool[n];
    assert s.ok ==> s.name in w'.spool && w'.spool[s.name] == w.phase.body;
    forall it, flight | Safe(w, flight, it) ensures Safe(w', flight, it) {
      if InSpool(w.spool, it) {
        var n :| n in w.spool && it in Items(w.spool[n]);
        assert n in w'.spool && it in Items(w'.spool[n]);
      }
    }
    RestPhase(w.phase.queue, w.phase.pending);
    if s.ok {
      forall it | Safe(w, InFlight(w.phase), it) ensures Safe(w', InFlight(w'.phase), it) {
        assert Safe(w', InFlight(w.phase), it);
        if it in Items(w.phase.body) {
          assert InSpool(w'.spool, it);
        }
      }
    }
    QuietStep(cfg, w, w');
  }

  lemma CheckpointOk(cfg: Config, w: World, s: Step)
    requires Inv(cfg, w) && Enabled(cfg, w, s)
    requires s.SetOne? || s.EndSet? || s.Save? || s.Crash?
    ensures Inv(cfg, Do(cfg, w, s))
  {
    var w' := Do(cfg, w, s);
    assert Keeps(w, {}, w', {});
    CkptKeeps(cfg, w, {}, w', {}, w.mem);
    CkptKeeps(cfg, w, {}, w', {}, w.disk);
    CkptKeeps(cfg, w, InFlight(w.phase), w', InFlight(w.phase), Pending(w.phase));
  }

  lemma OtherOk(cfg: Config, w: World, s: Step)
    requires Inv(cfg, w) && Enabled(cfg, w, s) && s.Other?
    ensures Inv(cfg, Do(cfg, w, s))
  {
    OtherKeeps(w, s.req, {});
    OtherKeeps(w, s.req, InFlight(w.phase));
    if w.phase.Removing? && !w.phase.dropped {
      forall it | it in Items(w.spool[w.phase.name]) && Keyed(it) ensures Stored(Received(w.server, s.req), it) {
        ReceivedKeeps(w.server, s.req, it);
      }
    }
    QuietStep(cfg, w, Do(cfg, w, s));
  }

  // ----- steps on the files' side -------------------------------------------------

  lemma YieldThen(x: Extract, a: ScanResult, b: ScanResult, c: Bytes)
    requires ScanLines(x, c) == a.Then(b)
    ensures Yield(Tailed(x), c) == Items(a) + Items(b)
  {
    ItemsThen(a, b);
  }

  /** Growth does not touch what an entry claims. */
  lemma GrowOk(src: Source, f: File, w: World, flight: set<Item>, st: FileState, more: Bytes)
    requires StOk(src, f, w, flight, st)
    ensures StOk(src, File(f.inode, f.bytes + more), w, flight, st)
  {
    if st.inode == f.inode {
      assert (f.bytes + more)[..st.offset] == f.bytes[..st.offset];
    }
  }

  /** Writing to one file: entries of that file must still hold, the others do. */
  lemma CkptWrite(cfg: Config, w: World, w': World, flight: set<Item>, flight': set<Item>, ckpt: map<Path, FileState>,
                  p: Path)
    requires CkptOk(cfg, w, flight, ckpt) && Keeps(w, flight, w', flight')
    requires p in w'.files && w'.files == w.files[p := w'.files[p]]
    requires p in ckpt ==> StOk(cfg.source(p), w'.files[p], w, flight, ckpt[p])
    ensures CkptOk(cfg, w', flight', ckpt)
  {
    forall q | q in ckpt
      ensures q in w'.files && StOk(cfg.source(q), w'.files[q], w', flight', ckpt[q])
    {
      assert StOk(cfg.source(q), w'.files[q], w, flight, ckpt[q]) by {
        if q != p { assert StOk(cfg.source(q), w.files[q], w, flight, ckpt[q]); }
      }
    }
  }

  lemma WriteOk(cfg: Config, w: World, w': World, p: Path)
    requires Inv(cfg, w)
    requires p in w'.files && w' == w.(files := w.files[p := w'.files[p]], written := w'.written,
                                       retired := w'.retired, torn := w'.torn)
    requires p in w.mem ==> StOk(cfg.source(p), w'.files[p], w, {}, w.mem[p])
    requires p in w.disk ==> StOk(cfg.source(p), w'.files[p], w, {}, w.disk[p])
    requires p in Pending(w.phase) ==> StOk(cfg.source(p), w'.files[p], w, InFlight(w.phase), Pending(w.phase)[p])
    ensures Inv(cfg, w')
  {
    CkptWrite(cfg, w, w', {}, {}, w.mem, p);
    CkptWrite(cfg, w, w', {}, {}, w.disk, p);
    CkptWrite(cfg, w, w', InFlight(w.phase), InFlight(w.phase), Pending(w.phase), p);
  }

  lemma AppendOk(cfg: Config, w: World, p: Path, more: Bytes)
    requires Inv(cfg, w) && p in w.files
    ensures Inv(cfg, Delivery.Write(cfg, w, p, File(w.files[p].inode, w.files[p].bytes + more)))
  {
    var f := w.files[p];
    if p in w.mem { GrowOk(cfg.source(p), f, w, {}, w.mem[p], more); }
    if p in w.disk { GrowOk(cfg.source(p), f, w, {}, w.disk[p], more); }
    if p in Pending(w.phase) { GrowOk(cfg.source(p), f, w, InFlight(w.phase), Pending(w.phase)[p], more); }
    WriteOk(cfg, w, Delivery.Write(cfg, w, p, File(f.inode, f.bytes + more)), p);
  }

  lemma RotateOk(cfg: Config, w: World, s: Step)
    requires Inv(cfg, w) && Enabled(cfg, w, s) && (s.Rotate? || s.Create?)
    ensures Inv(cfg, Do(cfg, w, s))
  {
    WriteOk(cfg, w, Do(cfg, w, s), s.p);
  }

  /** What a scan found, together with what the old state claimed, is what the
      new state claims. */
  lemma TailCovers(x: Extract, b: Bytes, more: Bytes, inode: nat, w: World, flight: set<Item>, st: FileState)
    requires st == UNSEEN || StOk(Tailed(x), File(inode, b), w, {}, st)
    ensures var found := TailSpec(x, st, Glimpse(inode, |b|, b + more));
            Items(found.0) <= flight ==> StOk(Tailed(x), File(inode, b + more), w, flight, found.1)
  {
    var o := StartOffset(st, inode, |b|);
    StartClaims(x, b, more, inode, w, st);
    ClaimsMore(Tailed(x), b + more, w, {}, flight, o);
    if Items(ScanLines(x, (b + more)[o..])) <= flight {
      ReadClaims(x, b + more, w, flight, o);
    }
  }

  lemma StartClaims(x: Extract, b: Bytes, more: Bytes, inode: nat, w: World, st: FileState)
    requires st == UNSEEN || StOk(Tailed(x), File(inode, b), w, {}, st)
    ensures Claims(Tailed(x), b + more, w, {}, StartOffset(st, inode, |b|))
  {
    var o := StartOffset(st, inode, |b|);
    if o == 0 {
      assert (b + more)[..0] == [];
      assert Lines([]) == [];
    } else {
      assert (b + more)[..o] == b[..o];
    }
  }

  lemma ClaimsMore(src: Source, b: Bytes, w: World, flight: set<Item>, flight': set<Item>, o: nat)
    requires Claims(src, b, w, flight, o) && flight <= flight'
    ensures Claims(src, b, w, flight', o)
  {
  }

  lemma ReadClaims(x: Extract, c: Bytes, w: World, flight: set<Item>, o: nat)
    requires Claims(Tailed(x), c, w, flight, o) && Items(ScanLines(x, c[o..])) <= flight
    ensures Claims(Tailed(x), c, w, flight, o + Complete(c[o..]))
  {
    ReadFrom(x, c, o);
    YieldThen(x, ScanLines(x, c[..o]), ScanLines(x, c[o..]), c[..Complete(c)]);
    JointlySafe(w, flight, Items(ScanLines(x, c[..o])), Items(ScanLines(x, c[o..])));
  }

  lemma JointlySafe(w: World, flight: set<Item>, a: set<Item>, b: set<Item>)
    requires AllSafe(w, flight, a) && b <= flight
    ensures AllSafe(w, flight, a + b)
  {
  }

  lemma ReparseCovers(src: Source, legal: Bytes -> bool, b: Bytes, more: Bytes, inode: nat, w: World,
                      flight: set<Item>, st: FileState)
    requires src.Reparsed? && Converges(src, legal) && legal(b + more)
    requires st == UNSEEN || StOk(src, File(inode, b), w, {}, st)
    requires ScanOne(src, st, Glimpse(inode, |b|, b + more)).Some?
    ensures var (r, st') := ScanOne(src, st, Glimpse(inode, |b|, b + more)).value;
            Items(r) <= flight ==> StOk(src, File(inode, b + more), w, flight, st')
  {
    var c := b + more;
    var (r, st') := ScanOne(src, st, Glimpse(inode, |b|, c)).value;
    assert c[..|b|] == b;
    if st.inode == inode && st.offset == |b| {
      assert b[..|b|] == b;
      if st == UNSEEN { assert b == []; }
    } else {
      assert Yield(src, b) <= Yield(src, c);
    }
  }

  lemma ScanFileOk(cfg: Config, w: World, s: Step)
    requires Valid(cfg) && Inv(cfg, w) && Enabled(cfg, w, s) && s.ScanFile?
    ensures Inv(cfg, Do(cfg, w, s))
  {
    var p, f := s.p, w.files[s.p];
    var f' := File(f.inode, f.bytes + s.more);
    var w1 := Delivery.Write(cfg, w, p, f');
    AppendOk(cfg, w, p, s.more);
    var found := ScanOne(cfg.source(p), Get(w.mem, p), Glimpse(f.inode, |f.bytes|, f'.bytes));
    if found.Some? {
      var got := w.phase.got.Then(found.value.0);
      ItemsThen(w.phase.got, found.value.0);
      ScanCovers(cfg, w, p, s.more, Items(got));
      Discovered(cfg, w1, got, p, found.value.1);
    }
  }

  lemma ScanCovers(cfg: Config, w: World, p: Path, more: Bytes, flight: set<Item>)
    requires Valid(cfg) && CkptOk(cfg, w, {}, w.mem) && p in w.files && cfg.legal(p)(w.files[p].bytes + more)
    ensures var f := w.files[p];
            var found := ScanOne(cfg.source(p), Get(w.mem, p), Glimpse(f.inode, |f.bytes|, f.bytes + more));
            found.Some? && Items(found.value.0) <= flight ==>
              StOk(cfg.source(p), File(f.inode, f.bytes + more), w, flight, found.value.1)
  {
    var f, st := w.files[p], Get(w.mem, p);
    match cfg.source(p)
    case Tailed(x) => TailCovers(x, f.bytes, more, f.inode, w, flight, st);
    case Reparsed(_) =>
      if ScanOne(cfg.source(p), st, Glimpse(f.inode, |f.bytes|, f.bytes + more)).Some? {
        ReparseCovers(cfg.source(p), cfg.legal(p), f.bytes, more, f.inode, w, flight, st);
      }
  }

  /** A scanned file enters the tick's findings. */
  lemma Discovered(cfg: Config, w: World, got: ScanResult, p: Path, st: FileState)
    requires Inv(cfg, w) && w.phase.Scanning? && p in w.files
    requires Items(w.phase.got) <= Items(got) && StOk(cfg.source(p), w.files[p], w, Items(got), st)
    ensures Inv(cfg, w.(phase := Scanning(got, w.phase.pending[p := st])))
  {
    var w' := w.(phase := Scanning(got, w.phase.pending[p := st]));
    CkptKeeps(cfg, w, {}, w', {}, w.mem);
    CkptKeeps(cfg, w, {}, w', {}, w.disk);
    CkptKeeps(cfg, w, Items(w.phase.got), w', Items(got), w.phase.pending);
    assert Keeps(w, Items(got), w', Items(got));
  }

  /** What is safe stays safe, whatever happens next. */
  lemma StaysSafe(cfg: Config, w: World, s: Step)
    requires Inv(cfg, w) && Enabled(cfg, w, s)
    ensures Keeps(w, {}, Do(cfg, w, s), {})
  {
    var w' := Do(cfg, w, s);
    match s
    case FlushPost(n, o) => ServerKeeps(cfg, w, w', w.spool[n], o.landed, {});
    case Post(o) => ServerKeeps(cfg, w, w', w.phase.queue[0], o.landed, {});
    case Other(req) => OtherKeeps(w, req, {});
    case FlushRemove(_) =>
      forall it | Safe(w, {}, it) ensures Safe(w', {}, it) { RemovedSafe(cfg, w, s, it); }
    case Spool(_, _) =>
      forall it | Safe(w, {}, it) ensures Safe(w', {}, it) { SpooledSafe(cfg, w, s, it); }
    case _ => InnerKeeps(cfg, w, s);
  }

  /** The steps that leave server, spool and history alone. */
  lemma InnerKeeps(cfg: Config, w: World, s: Step)
    requires Enabled(cfg, w, s)
    requires !s.FlushPost? && !s.FlushRemove? && !s.Post? && !s.Spool? && !s.Other?
    ensures Keeps(w, {}, Do(cfg, w, s), {})
  {
    if s.Create? || s.Append? || s.Rotate? || s.ScanFile? { FileSame(cfg, w, s); } else { CourseSame(cfg, w, s); }
  }

  ghost predicate SameStore(w: World, w': World) {
    w'.server == w.server && w'.spool == w.spool && w'.rejected == w.rejected
  }

  lemma FileSame(cfg: Config, w: World, s: Step)
    requires Enabled(cfg, w, s) && (s.Create? || s.Append? || s.Rotate? || s.ScanFile?)
    ensures SameStore(w, Do(cfg, w, s))
  {
    if s.ScanFile? {
      ScanSame(cfg, w, s.p, s.more);
    }
  }

  lemma ScanSame(cfg: Config, w: World, p: Path, more: Bytes)
    requires Enabled(cfg, w, ScanFile(p, more))
    ensures SameStore(w, Delivery.Scanned(cfg, w, p, more))
  {
  }

  lemma CourseSame(cfg: Config, w: World, s: Step)
    requires Enabled(cfg, w, s)
    requires s.StartTick? || s.FlushSkip? || s.EndFlush? || s.EndScan? || s.SetOne? || s.EndSet? || s.Save? || s.Crash?
    ensures SameStore(w, Do(cfg, w, s))
  {
  }

  lemma RemovedSafe(cfg: Config, w: World, s: Step, it: Item)
    requires Inv(cfg, w) && Enabled(cfg, w, s) && s.FlushRemove? && Safe(w, {}, it)
    ensures Safe(Do(cfg, w, s), {}, it)
  {
    var w', n := Do(cfg, w, s), w.phase.name;
    if Keyed(it) && InSpool(w.spool, it) {
      var m :| m in w.spool && it in Items(w.spool[m]);
      if m != n {
        assert m in w'.spool && w'.spool[m] == w.spool[m];
      }
    }
  }

  lemma SpooledSafe(cfg: Config, w: World, s: Step, it: Item)
    requires Enabled(cfg, w, s) && s.Spool? && Safe(w, {}, it)
    ensures Safe(Do(cfg, w, s), {}, it)
  {
    var w' := Do(cfg, w, s);
    if InSpool(w.spool, it) {
      var m :| m in w.spool && it in Items(w.spool[m]);
      assert m in w'.spool && w'.spool[m] == w.spool[m];
    }
  }

  /** A file whose entry stands at its end has nothing left to lose. */
  lemma FinishedSafe(cfg: Config, w: World, p: Path)
    requires Valid(cfg) && Inv(cfg, w) && p in w.files && Finished(cfg.source(p), w.files[p], Get(w.mem, p))
    ensures AllSafe(w, {}, Yield(cfg.source(p), w.files[p].bytes))
  {
    var b, st := w.files[p].bytes, Get(w.mem, p);
    if p in w.mem {
      assert StOk(cfg.source(p), w.files[p], w, {}, st);
    } else {
      EmptyYields(cfg, p);
      assert b[..0] == [];
    }
    match cfg.source(p)
    case Tailed(x) => LinesComplete(b);
    case Reparsed(_) => assert b[..st.offset] == b;
  }

  // ----- why a batch was dropped ---------------------------------------------------

  /** A reply that marks the payload or the endpoint itself as unacceptable. */
  predicate Hopeless(r: Reply) {
    r == Status(400) || r == Status(404) || r == Status(410) || r == Status(413) || r == Status(422)
  }

  /** Such a reply came back for a replayed batch that held `it`. */
  ghost predicate TurnedAway(w: World, it: Item) {
    exists i :: 0 <= i < |w.answers| && Hopeless(w.answers[i].reply) && it in Items(w.answers[i].body)
  }

  /** Nothing is dropped without such a reply. */
  ghost predicate Excused(w: World) {
    && (forall it | it in w.rejected :: TurnedAway(w, it))
    && (w.phase.Removing? && w.phase.dropped && w.phase.name in w.spool ==>
          forall it | it in Items(w.spool[w.phase.name]) :: TurnedAway(w, it))
  }

  lemma AnswersStay(w: World, w': World, it: Item)
    requires TurnedAway(w, it) && w.answers <= w'.answers
    ensures TurnedAway(w', it)
  {
    var i :| 0 <= i < |w.answers| && Hopeless(w.answers[i].reply) && it in Items(w.answers[i].body);
    assert w'.answers[i] == w.answers[i];
  }

  lemma ReplayExcused(cfg: Config, w: World, n: nat, o: Outcome)
    requires Excused(w) && Enabled(cfg, w, FlushPost(n, o))
    ensures Excused(Do(cfg, w, FlushPost(n, o)))
  {
    var w' := Do(cfg, w, FlushPost(n, o));
    forall it | it in w'.rejected ensures TurnedAway(w', it) { AnswersStay(w, w', it); }
    if w'.phase.Removing? && w'.phase.dropped {
      forall it | it in Items(w'.spool[n]) ensures TurnedAway(w', it) {
        assert w'.answers[|w.answers|] == Answer(w.spool[n], o.reply) && Hopeless(o.reply);
      }
    }
  }

  lemma StepKeepsExcused(cfg: Config, w: World, s: Step)
    requires Excused(w) && Enabled(cfg, w, s)
    ensures Excused(Do(cfg, w, s))
  {
    match s
    case FlushPost(n, o) => ReplayExcused(cfg, w, n, o);
    case FlushRemove(_) => RemovalExcused(cfg, w, s);
    case _ => OtherwiseExcused(cfg, w, s);
  }

  lemma RemovalExcused(cfg: Config, w: World, s: Step)
    requires Excused(w) && Enabled(cfg, w, s) && s.FlushRemove?
    ensures Excused(Do(cfg, w, s))
  {
    var w' := Do(cfg, w, s);
    forall it | it in w'.rejected ensures TurnedAway(w', it) {
      assert TurnedAway(w, it);
      AnswersStay(w, w', it);
    }
  }

  lemma OtherwiseExcused(cfg: Config, w: World, s: Step)
    requires Excused(w) && Enabled(cfg, w, s) && !s.FlushPost? && !s.FlushRemove?
    ensures Excused(Do(cfg, w, s))
  {
    var w' := Do(cfg, w, s);
    SameHistory(cfg, w, s);
    forall it | it in w'.rejected ensures TurnedAway(w', it) { AnswersStay(w, w', it); }
    if w'.phase.Removing? {
      forall it | w.phase.dropped && w.phase.name in w.spool && it in Items(w.spool[w.phase.name])
        ensures TurnedAway(w', it)
      {
        AnswersStay(w, w', it);
      }
    }
  }

  lemma SameHistory(cfg: Config, w: World, s: Step)
    requires Enabled(cfg, w, s) && !s.FlushPost? && !s.FlushRemove?
    ensures var w' := Do(cfg, w, s);
            && w'.rejected == w.rejected && w'.answers == w.answers
            && (w'.phase.Removing? ==> w'.phase == w.phase && w'.spool == w.spool)
  {
    if s.ScanFile? { ScanSame(cfg, w, s.p, s.more); }
  }

  // ----- main results ---------------------------------------------------------------

  lemma StepKeepsInv(cfg: Config, w: World, s: Step)
    requires Valid(cfg) && Inv(cfg, w) && Enabled(cfg, w, s)
    ensures Inv(cfg, Do(cfg, w, s))
  {
    match s
    case Create(_, _) => RotateOk(cfg, w, s);
    case Rotate(_, _) => RotateOk(cfg, w, s);
    case Append(p, more) => AppendOk(cfg, w, p, more);
    case StartTick => PhaseStep(cfg, w, Do(cfg, w, s).phase);
    case FlushPost(_, _) => FlushPostOk(cfg, w, s);
    case FlushSkip(_) => PhaseStep(cfg, w, Do(cfg, w, s).phase);
    case FlushRemove(_) => FlushRemoveOk(cfg, w, s);
    case EndFlush => PhaseStep(cfg, w, Do(cfg, w, s).phase);
    case ScanFile(_, _) => ScanFileOk(cfg, w, s);
    case EndScan => EndScanOk(cfg, w, s);
    case Post(_) => PostOk(cfg, w, s);
    case Spool(_, _) => SpoolOk(cfg, w, s);
    case SetOne(_) => CheckpointOk(cfg, w, s);
    case EndSet => CheckpointOk(cfg, w, s);
    case Save(_) => CheckpointOk(cfg, w, s);
    case Crash => CheckpointOk(cfg, w, s);
    case Other(_) => OtherOk(cfg, w, s);
  }

  lemma {:induction false} RunKeepsInv(cfg: Config, w: World, steps: seq<Step>, end: World)
    requires Valid(cfg) && Inv(cfg, w) && Excused(w) && Run(cfg, w, steps, end)
    ensures Inv(cfg, end) && Excused(end)
    decreases |steps|
  {
    if steps != [] {
      StepKeepsInv(cfg, w, steps[0]);
      StepKeepsExcused(cfg, w, steps[0]);
      RunKeepsInv(cfg, Do(cfg, w, steps[0]), steps[1..], end);
    }
  }

  /** No loss: in every reachable state, for the in-memory and the on-disk
      checkpoint alike, an entry for the current file never exceeds it, stands on
      a line boundary when the file is tailed, and every record below it is stored, spooled,
      or in a batch for which the server, asked again, answered with a status that marks the
      payload or the endpoint as unacceptable. */
  lemma NothingLost(cfg: Config, w: World, p: Path, onDisk: bool)
    requires Valid(cfg) && Reachable(cfg, w) && p in w.files
    ensures var st := Get(if onDisk then w.disk else w.mem, p);
            var f, src := w.files[p], cfg.source(p);
            st.inode == f.inode ==>
              && st.offset <= |f.bytes|
              && (src.Tailed? ==> AtBoundary(f.bytes[..st.offset]))
              && forall it | it in Yield(src, f.bytes[..st.offset]) && Keyed(it) ::
                   Stored(w.server, it) || InSpool(w.spool, it) || TurnedAway(w, it)
  {
    var steps :| Run(cfg, Start(cfg), steps, w);
    RunKeepsInv(cfg, Start(cfg), steps, w);
    var ckpt := if onDisk then w.disk else w.mem;
    if p in ckpt {
      assert StOk(cfg.source(p), w.files[p], w, {}, ckpt[p]);
    } else {
      EmptyYields(cfg, p);
      assert w.files[p].bytes[..0] == [];
    }
  }

  lemma EmptyYields(cfg: Config, p: Path)
    requires Valid(cfg)
    ensures Yield(cfg.source(p), []) == {}
  {
    assert Converges(cfg.source(p), cfg.legal(p));
    if cfg.source(p).Tailed? {
      assert Lines([]) == [];
    }
  }
}
