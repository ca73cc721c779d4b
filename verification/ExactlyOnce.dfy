/** Effectively-once accounting: once everything is scanned and the spool is
    drained, the server holds what one clean parse of the files would have put
    there, however often anything was sent, and the rollups agree with it. */
module ExactlyOnce {
  import opened Types
  import opened Dedup
  import opened GroupSum
  import opened Rollup
  import opened StoreSpec
  import opened TailScan
  import opened Delivery
  import opened NoLoss
  import Regroup

  ghost function UsageSet(cfg: Config, items: set<Item>): set<(UsageKey, UsageRow)> {
    set it | it in items && it.U? && Keyed(it) :: UsageRowOf(cfg.userId, cfg.machineId, it.rec)
  }

  ghost function EditSet(cfg: Config, items: set<Item>): set<(string, EditRow)> {
    set it | it in items && it.E? && Keyed(it) :: EditRowOf(cfg.userId, cfg.machineId, it.edit)
  }

  /** Every row of `t` that `base` did not have comes from `rows`. */
  ghost predicate Sourced<K, V>(base: map<K, V>, t: map<K, V>, rows: set<(K, V)>) {
    Within(base, t) && forall k | k in t && k !in base :: (k, t[k]) in rows
  }

  // ----- other watchers ---------------------------------------------------------

  /** The rows other watchers sent, in order. */
  function OtherUsage(others: seq<Request>): seq<(UsageKey, UsageRow)> {
    if others == [] then []
    else
      var last := others[|others| - 1];
      OtherUsage(others[..|others| - 1]) + UsageRows(last.userId, last.machineId, last.body.usage)
  }

  function OtherEdits(others: seq<Request>): seq<(string, EditRow)> {
    if others == [] then []
    else
      var last := others[|others| - 1];
      OtherEdits(others[..|others| - 1]) + EditRows(last.userId, last.machineId, last.body.edits)
  }

  /** The server after what it held before and what other watchers sent. */
  ghost function Shared(cfg: Config, others: seq<Request>): Tables {
    if others == [] then cfg.base else Received(Shared(cfg, others[..|others| - 1]), others[|others| - 1])
  }

  lemma OthersLast(cfg: Config, others: seq<Request>, req: Request)
    ensures OtherUsage(others + [req]) == OtherUsage(others) + UsageRows(req.userId, req.machineId, req.body.usage)
    ensures OtherEdits(others + [req]) == OtherEdits(others) + EditRows(req.userId, req.machineId, req.body.edits)
    ensures Shared(cfg, others + [req]) == Received(Shared(cfg, others), req)
  {
    var more := others + [req];
    assert more[..|more| - 1] == others && more[|more| - 1] == req;
  }

  lemma ReceivedRows(t: Tables, req: Request)
    ensures Received(t, req).usage == Absorb(t.usage, UsageRows(req.userId, req.machineId, req.body.usage))
    ensures Received(t, req).edits == Absorb(t.edits, EditRows(req.userId, req.machineId, req.body.edits))
  {
  }

  lemma ReceivedInView(t: Tables, req: Request)
    requires InView(t)
    ensures InView(Received(t, req))
  {
    InsertUsageKeepsView(t, req.userId, req.machineId, req.body.usage);
    InsertEditsKeepsView(InsertUsage(t, req.userId, req.machineId, req.body.usage), req.userId, req.machineId,
                         req.body.edits);
  }

  lemma {:induction false} SharedRows(cfg: Config, others: seq<Request>)
    requires InView(cfg.base)
    ensures InView(Shared(cfg, others))
    ensures Shared(cfg, others).usage == Absorb(cfg.base.usage, OtherUsage(others))
    ensures Shared(cfg, others).edits == Absorb(cfg.base.edits, OtherEdits(others))
    decreases |others|
  {
    if others != [] {
      var rest, last := others[..|others| - 1], others[|others| - 1];
      SharedRows(cfg, rest);
      ReceivedRows(Shared(cfg, rest), last);
      ReceivedInView(Shared(cfg, rest), last);
      AbsorbAppend(cfg.base.usage, OtherUsage(rest), UsageRows(last.userId, last.machineId, last.body.usage));
      AbsorbAppend(cfg.base.edits, OtherEdits(rest), EditRows(last.userId, last.machineId, last.body.edits));
    }
  }

  ghost function UsageSources(cfg: Config, items: set<Item>, others: seq<Request>): set<(UsageKey, UsageRow)> {
    UsageSet(cfg, items) + set p | p in OtherUsage(others)
  }

  ghost function EditSources(cfg: Config, items: set<Item>, others: seq<Request>): set<(string, EditRow)> {
    EditSet(cfg, items) + set p | p in OtherEdits(others)
  }

  ghost predicate ServerSound(cfg: Config, t: Tables, items: set<Item>, others: seq<Request>) {
    && InView(t)
    && Sourced(cfg.base.usage, t.usage, UsageSources(cfg, items, others))
    && Sourced(cfg.base.edits, t.edits, EditSources(cfg, items, others))
    && KeysOf(OtherUsage(others)) <= t.usage.Keys
    && KeysOf(OtherEdits(others)) <= t.edits.Keys
  }

  lemma ReceivedSound(cfg: Config, t: Tables, items: set<Item>, others: seq<Request>, req: Request)
    requires ServerSound(cfg, t, items, others)
    ensures ServerSound(cfg, Received(t, req), items, others + [req])
  {
    var us := UsageRows(req.userId, req.machineId, req.body.usage);
    var es := EditRows(req.userId, req.machineId, req.body.edits);
    OthersLast(cfg, others, req);
    ReceivedRows(t, req);
    ReceivedInView(t, req);
    RowsReceived(cfg.base.usage, t.usage, us, OtherUsage(others), UsageSet(cfg, items));
    RowsReceived(cfg.base.edits, t.edits, es, OtherEdits(others), EditSet(cfg, items));
  }

  lemma RowsReceived<K, V>(base: map<K, V>, t: map<K, V>, s: seq<(K, V)>, before: seq<(K, V)>, rows: set<(K, V)>)
    requires Sourced(base, t, rows + set p | p in before) && KeysOf(before) <= t.Keys
    ensures Sourced(base, Absorb(t, s), rows + set p | p in before + s)
    ensures KeysOf(before + s) <= Absorb(t, s).Keys
  {
    AbsorbGrows(t, s);
    KeysAppend(before, s);
  }

  /** What the files hold and what replaced ones held. */
  ghost predicate Held(w: World, c: Content) {
    c in w.retired || (c.path in w.files && w.files[c.path].bytes == c.bytes)
  }

  /** Some stretch of a content, from its start, yields `it`. */
  ghost predicate Stretch(cfg: Config, c: Content, n: nat, it: Item) {
    n <= |c.bytes| && it in Yield(cfg.source(c.path), c.bytes[..n])
  }

  ghost predicate Traced(cfg: Config, w: World, it: Item) {
    exists c, n: nat :: Held(w, c) && Stretch(cfg, c, n, it)
  }

  ghost predicate SpoolSound(w: World) { forall n | n in w.spool :: Items(w.spool[n]) <= w.written }

  ghost predicate AllLegal(cfg: Config, w: World) { forall c | Held(w, c) :: cfg.legal(c.path)(c.bytes) }

  ghost predicate AllTraced(cfg: Config, w: World) { forall it | it in w.written :: Traced(cfg, w, it) }

  ghost predicate Sound(cfg: Config, w: World) {
    && SpoolSound(w)
    && InFlight(w.phase) <= w.written
    && w.rejected <= w.written
    && ServerSound(cfg, w.server, w.written, w.others)
    && AllLegal(cfg, w)
    && AllTraced(cfg, w)
  }

  // ----- the server only ever holds what was written --------------------------

  lemma {:induction false} UsageRowsFrom(u: string, m: string, recs: seq<UsageRecord>, p: (UsageKey, UsageRow))
    requires p in UsageRows(u, m, recs)
    ensures exists r :: r in recs && r.messageId != "" && p == UsageRowOf(u, m, r)
    decreases |recs|
  {
    if recs[0].messageId != "" && p == UsageRowOf(u, m, recs[0]) {
      assert recs[0] in recs;
    } else {
      UsageRowsFrom(u, m, recs[1..], p);
      var r :| r in recs[1..] && r.messageId != "" && p == UsageRowOf(u, m, r);
      assert r in recs;
    }
  }

  lemma {:induction false} EditRowsFrom(u: string, m: string, edits: seq<EditRecord>, p: (string, EditRow))
    requires p in EditRows(u, m, edits)
    ensures exists e :: e in edits && e.eventId != "" && p == EditRowOf(u, m, e)
    decreases |edits|
  {
    if edits[0].eventId != "" && p == EditRowOf(u, m, edits[0]) {
      assert edits[0] in edits;
    } else {
      EditRowsFrom(u, m, edits[1..], p);
      var e :| e in edits[1..] && e.eventId != "" && p == EditRowOf(u, m, e);
      assert e in edits;
    }
  }

  /** The rows of a batch are the rows of its items. */
  lemma RowsOfItems(cfg: Config, body: Body)
    ensures forall p :: p in UsageRows(cfg.userId, cfg.machineId, body.usage) <==> p in UsageSet(cfg, Items(body))
    ensures forall p :: p in EditRows(cfg.userId, cfg.machineId, body.edits) <==> p in EditSet(cfg, Items(body))
  {
    forall p ensures p in UsageRows(cfg.userId, cfg.machineId, body.usage) <==> p in UsageSet(cfg, Items(body)) {
      UsageRowIff(cfg, body, p);
    }
    forall p ensures p in EditRows(cfg.userId, cfg.machineId, body.edits) <==> p in EditSet(cfg, Items(body)) {
      EditRowIff(cfg, body, p);
    }
  }

  lemma UsageRowIff(cfg: Config, body: Body, p: (UsageKey, UsageRow))
    ensures p in UsageRows(cfg.userId, cfg.machineId, body.usage) <==> p in UsageSet(cfg, Items(body))
  {
    if p in UsageRows(cfg.userId, cfg.machineId, body.usage) {
      UsageRowsFrom(cfg.userId, cfg.machineId, body.usage, p);
      var r :| r in body.usage && r.messageId != "" && p == UsageRowOf(cfg.userId, cfg.machineId, r);
      assert U(r) in Items(body) && Keyed(U(r));
    }
    if p in UsageSet(cfg, Items(body)) {
      var it :| it in Items(body) && it.U? && Keyed(it) && p == UsageRowOf(cfg.userId, cfg.machineId, it.rec);
      UsageRowsHave(cfg.userId, cfg.machineId, body.usage, it.rec);
    }
  }

  lemma EditRowIff(cfg: Config, body: Body, p: (string, EditRow))
    ensures p in EditRows(cfg.userId, cfg.machineId, body.edits) <==> p in EditSet(cfg, Items(body))
  {
    if p in EditRows(cfg.userId, cfg.machineId, body.edits) {
      EditRowsFrom(cfg.userId, cfg.machineId, body.edits, p);
      var e :| e in body.edits && e.eventId != "" && p == EditRowOf(cfg.userId, cfg.machineId, e);
      assert E(e) in Items(body) && Keyed(E(e));
    }
    if p in EditSet(cfg, Items(body)) {
      var it :| it in Items(body) && it.E? && Keyed(it) && p == EditRowOf(cfg.userId, cfg.machineId, it.edit);
      EditRowsHave(cfg.userId, cfg.machineId, body.edits, it.edit);
    }
  }

  lemma AbsorbSourced<K, V>(base: map<K, V>, t: map<K, V>, s: seq<(K, V)>, rows: set<(K, V)>)
    requires Sourced(base, t, rows) && forall p | p in s :: p in rows
    ensures Sourced(base, Absorb(t, s), rows) && t.Keys <= Absorb(t, s).Keys
  {
    AbsorbGrows(t, s);
  }

  lemma LandSound(cfg: Config, t: Tables, body: Body, landed: Landed, items: set<Item>, others: seq<Request>)
    requires ServerSound(cfg, t, items, others) && Items(body) <= items
    ensures ServerSound(cfg, Land(cfg, t, body, landed), items, others)
  {
    var u, m := cfg.userId, cfg.machineId;
    RowsOfItems(cfg, body);
    AbsorbSourced(cfg.base.usage, t.usage, UsageRows(u, m, body.usage), UsageSources(cfg, items, others));
    AbsorbSourced(cfg.base.edits, t.edits, EditRows(u, m, body.edits), EditSources(cfg, items, others));
    InsertUsageKeepsView(t, u, m, body.usage);
    InsertEditsKeepsView(InsertUsage(t, u, m, body.usage), u, m, body.edits);
  }

  lemma ServerSoundMore(cfg: Config, t: Tables, items: set<Item>, more: set<Item>, others: seq<Request>)
    requires ServerSound(cfg, t, items, others) && items <= more
    ensures ServerSound(cfg, t, more, others)
  {
    assert UsageSet(cfg, items) <= UsageSet(cfg, more);
    assert EditSet(cfg, items) <= EditSet(cfg, more);
  }

  // ----- the steps --------------------------------------------------------------

  /** `w'` is `w` after one file was written, or replaced and the old content retired. */
  ghost predicate Wrote(cfg: Config, w: World, w': World, p: Path) {
    && p in w'.files && cfg.legal(p)(w'.files[p].bytes)
    && w' == w.(files := w.files[p := w'.files[p]], written := w.written + Yield(cfg.source(p), w'.files[p].bytes),
                retired := w'.retired, torn := w'.torn)
    && ((w'.retired == w.retired && (p in w.files ==> w.files[p].bytes <= w'.files[p].bytes))
        || (p in w.files && w'.retired == w.retired + [Content(p, w.files[p].bytes)]))
  }

  /** Writing a file adds its items to what was written, and loses no trace. */
  lemma WriteSound(cfg: Config, w: World, w': World, p: Path)
    requires Sound(cfg, w) && Wrote(cfg, w, w', p)
    ensures Sound(cfg, w')
  {
    ServerSoundMore(cfg, w.server, w.written, w'.written, w.others);
    forall it | it in w'.written ensures Traced(cfg, w', it) {
      if it in w.written {
        TraceGrows(cfg, w, w', p, it);
      } else {
        WrittenTraced(cfg, w', p, it);
      }
    }
    forall c | Held(w', c) ensures cfg.legal(c.path)(c.bytes) {
      assert Held(w, c) || c == Content(p, w'.files[p].bytes);
    }
  }

  lemma WrittenTraced(cfg: Config, w: World, p: Path, it: Item)
    requires p in w.files && it in Yield(cfg.source(p), w.files[p].bytes)
    ensures Traced(cfg, w, it)
  {
    var b := w.files[p].bytes;
    assert b[..|b|] == b;
    assert Held(w, Content(p, b)) && Stretch(cfg, Content(p, b), |b|, it);
  }

  lemma TraceGrows(cfg: Config, w: World, w': World, p: Path, it: Item)
    requires Traced(cfg, w, it) && Wrote(cfg, w, w', p)
    ensures Traced(cfg, w', it)
  {
    var c, n: nat :| Held(w, c) && Stretch(cfg, c, n, it);
    assert c in w.retired ==> c in w'.retired;
    if c.path == p && c !in w.retired && w'.retired == w.retired {
      var b := w'.files[p].bytes;
      assert b[..n] == c.bytes[..n];
      assert Held(w', Content(p, b)) && Stretch(cfg, Content(p, b), n, it);
    } else {
      assert c.path == p && c !in w.retired ==> c == Content(p, w.files[p].bytes) && c in w'.retired;
      assert Held(w', c);
    }
  }

  lemma ScanSound(cfg: Config, w: World, s: Step)
    requires Valid(cfg) && Inv(cfg, w) && Sound(cfg, w) && Enabled(cfg, w, s) && s.ScanFile?
    ensures Sound(cfg, Do(cfg, w, s))
  {
    var f := w.files[s.p];
    var w1 := Delivery.Write(cfg, w, s.p, File(f.inode, f.bytes + s.more));
    WriteSound(cfg, w, w1, s.p);
    var found := ScanOne(cfg.source(s.p), Get(w.mem, s.p), Glimpse(f.inode, |f.bytes|, f.bytes + s.more));
    if found.Some? {
      FoundWritten(cfg, w, s.p, s.more);
      ItemsThen(w.phase.got, found.value.0);
      PhaseSound(cfg, w1, Scanning(w.phase.got.Then(found.value.0), w.phase.pending[s.p := found.value.1]));
    }
  }

  /** A scan yields nothing that a whole reading of the file would not. */
  lemma FoundWritten(cfg: Config, w: World, p: Path, more: Bytes)
    requires Inv(cfg, w) && p in w.files
    ensures var f := w.files[p];
            var found := ScanOne(cfg.source(p), Get(w.mem, p), Glimpse(f.inode, |f.bytes|, f.bytes + more));
            found.Some? ==> Items(found.value.0) <= Yield(cfg.source(p), f.bytes + more)
  {
    var f, st := w.files[p], Get(w.mem, p);
    match cfg.source(p)
    case Reparsed(_) =>
    case Tailed(x) =>
      StartClaims(x, f.bytes, more, f.inode, w, st);
      TailWithin(x, f.bytes + more, StartOffset(st, f.inode, |f.bytes|));
  }

  lemma TailWithin(x: Extract, c: Bytes, o: nat)
    requires o <= |c| && AtBoundary(c[..o])
    ensures Items(ScanLines(x, c[o..])) <= Yield(Tailed(x), c)
  {
    Cut(c, o);
    ScanAppend(x, c[..o], c[o..]);
    YieldThen(x, ScanLines(x, c[..o]), ScanLines(x, c[o..]), c);
  }

  lemma PostSound(cfg: Config, w: World, s: Step)
    requires Sound(cfg, w) && Enabled(cfg, w, s) && s.Post?
    ensures Sound(cfg, Do(cfg, w, s))
  {
    var q := w.phase.queue;
    assert QueueItems(q) == Items(q[0]) + QueueItems(q[1..]);
    RestPhase(q[1..], w.phase.pending);
    LandSound(cfg, w.server, q[0], s.o.landed, w.written, w.others);
  }

  /** A step that only moves the control point. */
  lemma PhaseSound(cfg: Config, w: World, ph: Phase)
    requires Sound(cfg, w) && InFlight(ph) <= w.written
    ensures Sound(cfg, w.(phase := ph))
  {
  }

  lemma SpooledSound(cfg: Config, w: World, n: nat, body: Body)
    requires Sound(cfg, w) && Items(body) <= w.written
    ensures Sound(cfg, w.(spool := w.spool[n := body]))
  {
  }

  lemma SpoolKeepsSound(cfg: Config, w: World, s: Step)
    requires Sound(cfg, w) && Enabled(cfg, w, s) && s.Spool?
    ensures Sound(cfg, Do(cfg, w, s))
  {
    var rest := Rest(w.phase.queue, w.phase.pending);
    RestPhase(w.phase.queue, w.phase.pending);
    if s.ok {
      SpooledSound(cfg, w, s.name, w.phase.body);
      PhaseSound(cfg, w.(spool := w.spool[s.name := w.phase.body]), rest);
    } else {
      PhaseSound(cfg, w, Idle);
    }
  }

  lemma FlushSound(cfg: Config, w: World, s: Step)
    requires Inv(cfg, w) && Sound(cfg, w) && Enabled(cfg, w, s) && (s.FlushPost? || s.FlushRemove?)
    ensures Sound(cfg, Do(cfg, w, s))
  {
    if s.FlushPost? {
      LandSound(cfg, w.server, w.spool[s.name], s.o.landed, w.written, w.others);
    }
  }

  lemma EndScanSound(cfg: Config, w: World, s: Step)
    requires Sound(cfg, w) && Enabled(cfg, w, s) && s.EndScan?
    ensures Sound(cfg, Do(cfg, w, s))
  {
    var batches := Batches(w.phase.got, cfg.batch);
    BatchesItems(w.phase.got, cfg.batch);
    RestPhase(batches, w.phase.pending);
    PhaseSound(cfg, w, Idle);
    PhaseSound(cfg, w, Rest(batches, w.phase.pending));
  }

  lemma OtherSound(cfg: Config, w: World, s: Step)
    requires Sound(cfg, w) && Enabled(cfg, w, s) && s.Other?
    ensures Sound(cfg, Do(cfg, w, s))
  {
    var w' := Do(cfg, w, s);
    ReceivedSound(cfg, w.server, w.written, w.others, s.req);
    assert forall c :: Held(w', c) <==> Held(w, c);
    forall it | it in w'.written ensures Traced(cfg, w', it) {
      var c, n: nat :| Held(w, c) && Stretch(cfg, c, n, it);
      assert Held(w', c);
    }
  }

  /** The steps that move only checkpoints and the control point. */
  lemma InnerSound(cfg: Config, w: World, s: Step)
    requires Sound(cfg, w) && Enabled(cfg, w, s)
    requires s.StartTick? || s.FlushSkip? || s.EndFlush? || s.SetOne? || s.EndSet? || s.Save? || s.Crash?
    ensures Sound(cfg, Do(cfg, w, s))
  {
    var w' := Do(cfg, w, s);
    assert w' == w.(mem := w'.mem, disk := w'.disk, phase := w'.phase) && InFlight(w'.phase) == {};
  }

  lemma StepKeepsSound(cfg: Config, w: World, s: Step)
    requires Valid(cfg) && Inv(cfg, w) && Sound(cfg, w) && Enabled(cfg, w, s)
    ensures Sound(cfg, Do(cfg, w, s))
  {
    match s
    case Create(p, _) => WriteSound(cfg, w, Do(cfg, w, s), p);
    case Append(p, _) => WriteSound(cfg, w, Do(cfg, w, s), p);
    case Rotate(p, _) => WriteSound(cfg, w, Do(cfg, w, s), p);
    case ScanFile(_, _) => ScanSound(cfg, w, s);
    case EndScan => EndScanSound(cfg, w, s);
    case Post(_) => PostSound(cfg, w, s);
    case Spool(_, _) => SpoolKeepsSound(cfg, w, s);
    case FlushPost(_, _) => FlushSound(cfg, w, s);
    case FlushRemove(_) => FlushSound(cfg, w, s);
    case Other(_) => OtherSound(cfg, w, s);
    case _ => InnerSound(cfg, w, s);
  }

  // ----- replaced files --------------------------------------------------------------

  /** A content that was read to its end before it was replaced: all of it is safe. */
  ghost predicate PutAway(cfg: Config, w: World, c: Content) {
    && (cfg.source(c.path).Reparsed? ==> cfg.source(c.path).parse(c.bytes).Some?)
    && AllSafe(w, {}, Yield(cfg.source(c.path), c.bytes))
  }

  ghost predicate RetiredSafe(cfg: Config, w: World) {
    !w.torn ==> forall c | c in w.retired :: PutAway(cfg, w, c)
  }

  /** A file replaced while its in-memory entry stood at its end loses nothing, then or
      later. */
  lemma StepKeepsRetired(cfg: Config, w: World, s: Step)
    requires Valid(cfg) && Inv(cfg, w) && RetiredSafe(cfg, w) && Enabled(cfg, w, s)
    ensures RetiredSafe(cfg, Do(cfg, w, s))
  {
    var w' := Do(cfg, w, s);
    StaysSafe(cfg, w, s);
    if !w'.torn {
      forall c | c in w'.retired ensures PutAway(cfg, w', c) {
        if c !in w.retired {
          NewlyRetired(cfg, w, s);
        }
        PutAwayStays(cfg, w, w', c);
      }
    }
  }

  lemma NewlyRetired(cfg: Config, w: World, s: Step)
    requires Valid(cfg) && Inv(cfg, w) && Enabled(cfg, w, s) && s.Rotate? && !Do(cfg, w, s).torn
    ensures PutAway(cfg, w, Content(s.p, w.files[s.p].bytes))
  {
    FinishedSafe(cfg, w, s.p);
  }

  lemma PutAwayStays(cfg: Config, w: World, w': World, c: Content)
    requires PutAway(cfg, w, c) && Keeps(w, {}, w', {})
    ensures PutAway(cfg, w', c)
  {
  }

  lemma {:induction false} RunKeepsSound(cfg: Config, w: World, steps: seq<Step>, end: World)
    requires Valid(cfg) && Inv(cfg, w) && Sound(cfg, w) && RetiredSafe(cfg, w) && Run(cfg, w, steps, end)
    ensures Inv(cfg, end) && Sound(cfg, end) && RetiredSafe(cfg, end)
    decreases |steps|
  {
    if steps != [] {
      StepKeepsInv(cfg, w, steps[0]);
      StepKeepsSound(cfg, w, steps[0]);
      StepKeepsRetired(cfg, w, steps[0]);
      RunKeepsSound(cfg, Do(cfg, w, steps[0]), steps[1..], end);
    }
  }

  lemma ReachableSound(cfg: Config, w: World)
    requires Valid(cfg) && Reachable(cfg, w)
    ensures Inv(cfg, w) && Sound(cfg, w) && RetiredSafe(cfg, w)
  {
    var steps :| Run(cfg, Start(cfg), steps, w);
    RunKeepsSound(cfg, Start(cfg), steps, w);
  }

  // ----- main results -------------------------------------------------------------

  /** What one clean parse of everything the files held yields. */
  ghost predicate InFiles(cfg: Config, w: World, it: Item) {
    exists c :: Held(w, c) && it in Yield(cfg.source(c.path), c.bytes)
  }

  /** One clean reading of one content. */
  ghost function ReadWhole(src: Source, b: Bytes): ScanResult {
    match src
    case Tailed(x) => ScanLines(x, b)
    case Reparsed(parse) => if parse(b).Some? then parse(b).value else NOTHING
  }

  /** One clean reading of every content, one after the other. */
  ghost function CleanParse(cfg: Config, contents: seq<Content>): ScanResult {
    if contents == [] then NOTHING
    else ReadWhole(cfg.source(contents[0].path), contents[0].bytes).Then(CleanParse(cfg, contents[1..]))
  }

  lemma {:induction false} CleanParseItems(cfg: Config, contents: seq<Content>, it: Item)
    ensures it in Items(CleanParse(cfg, contents))
      <==> exists c :: c in contents && it in Yield(cfg.source(c.path), c.bytes)
    decreases |contents|
  {
    assert Items(NOTHING) == {};
    if contents != [] {
      var head, rest := ReadWhole(cfg.source(contents[0].path), contents[0].bytes), CleanParse(cfg, contents[1..]);
      ItemsThen(head, rest);
      CleanParseItems(cfg, contents[1..], it);
      assert Items(head) == Yield(cfg.source(contents[0].path), contents[0].bytes);
      assert forall c :: c in contents <==> c == contents[0] || c in contents[1..];
    }
  }

  /** The watcher has caught up: every file is scanned to its last complete line,
      the spool is empty and nothing was permanently rejected. */
  ghost predicate CaughtUp(cfg: Config, w: World) {
    && w.spool == map[] && w.rejected == {}
    && forall p | p in w.files :: Finished(cfg.source(p), w.files[p], Get(w.mem, p))
  }

  lemma CaughtUpStores(cfg: Config, w: World, it: Item)
    requires Valid(cfg) && Reachable(cfg, w) && CaughtUp(cfg, w) && !w.torn && InFiles(cfg, w, it) && Keyed(it)
    ensures Stored(w.server, it)
  {
    ReachableSound(cfg, w);
    var c :| Held(w, c) && it in Yield(cfg.source(c.path), c.bytes);
    if c in w.retired {
      assert PutAway(cfg, w, c);
    } else {
      FinishedSafe(cfg, w, c.path);
    }
    assert Safe(w, {}, it);
  }

  lemma WrittenInFiles(cfg: Config, w: World, it: Item)
    requires Valid(cfg) && CaughtUp(cfg, w) && !w.torn && RetiredSafe(cfg, w) && AllLegal(cfg, w) && Traced(cfg, w, it)
    ensures InFiles(cfg, w, it)
  {
    var c, n: nat :| Held(w, c) && Stretch(cfg, c, n, it);
    if c in w.retired {
      assert PutAway(cfg, w, c);
    }
    PrefixYields(cfg, c.path, c.bytes, n);
  }

  lemma PrefixYields(cfg: Config, p: Path, b: Bytes, n: nat)
    requires Valid(cfg) && n <= |b|
    requires cfg.source(p).Reparsed? ==> cfg.source(p).parse(b).Some? && cfg.legal(p)(b)
    ensures Yield(cfg.source(p), b[..n]) <= Yield(cfg.source(p), b)
  {
    match cfg.source(p)
    case Tailed(x) => TailPrefix(x, b, n);
    case Reparsed(_) =>
      assert Converges(cfg.source(p), cfg.legal(p));
      Cut(b, n);
  }

  /** A tailed file's prefix yields nothing the file does not. */
  lemma TailPrefix(x: Extract, b: Bytes, n: nat)
    requires n <= |b|
    ensures Yield(Tailed(x), b[..n]) <= Yield(Tailed(x), b)
  {
    var a := b[..n];
    var c := Complete(a);
    CompleteIsBoundary(a);
    LinesComplete(a);
    assert a[..c] == b[..c];
    Cut(b, c);
    ScanAppend(x, b[..c], b[c..]);
    YieldThen(x, ScanLines(x, b[..c]), ScanLines(x, b[c..]), b);
  }

  /** Whatever the schedule: the caught-up server holds exactly the keys of a clean parse
      and of what other watchers sent, on top of what it held before, each with a row that
      was sent, and its rollups are exact. */
  lemma CaughtUpKeys(cfg: Config, w: World, whole: ScanResult)
    requires Valid(cfg) && Reachable(cfg, w) && CaughtUp(cfg, w) && !w.torn
    requires forall it :: it in Items(whole) <==> InFiles(cfg, w, it)
    ensures InView(w.server)
    ensures var rows := SentUsage(cfg, w.others, whole);
            w.server.usage.Keys == cfg.base.usage.Keys + KeysOf(rows)
            && Sourced(cfg.base.usage, w.server.usage, set p | p in rows)
    ensures var rows := SentEdits(cfg, w.others, whole);
            w.server.edits.Keys == cfg.base.edits.Keys + KeysOf(rows)
            && Sourced(cfg.base.edits, w.server.edits, set p | p in rows)
  {
    ReachableSound(cfg, w);
    forall it | it in w.written ensures it in Items(whole) {
      WrittenInFiles(cfg, w, it);
    }
    ServerSoundMore(cfg, w.server, w.written, Items(whole), w.others);
    RowsOfItems(cfg, whole);
    forall it | it in Items(whole) && Keyed(it) ensures Stored(w.server, it) {
      CaughtUpStores(cfg, w, it);
    }
    UsageKeysStored(cfg, w.server, whole);
    EditKeysStored(cfg, w.server, whole);
    KeysAppend(OtherUsage(w.others), UsageRows(cfg.userId, cfg.machineId, whole.usage));
    KeysAppend(OtherEdits(w.others), EditRows(cfg.userId, cfg.machineId, whole.edits));
    SourcesAre(cfg, w.others, whole);
    SourcedKeys(cfg.base.usage, w.server.usage, SentUsage(cfg, w.others, whole));
    SourcedKeys(cfg.base.edits, w.server.edits, SentEdits(cfg, w.others, whole));
  }

  /** Everything sent: what others sent, and a clean parse behind it. */
  function SentUsage(cfg: Config, others: seq<Request>, whole: ScanResult): seq<(UsageKey, UsageRow)> {
    OtherUsage(others) + UsageRows(cfg.userId, cfg.machineId, whole.usage)
  }

  function SentEdits(cfg: Config, others: seq<Request>, whole: ScanResult): seq<(string, EditRow)> {
    OtherEdits(others) + EditRows(cfg.userId, cfg.machineId, whole.edits)
  }

  lemma SourcesAre(cfg: Config, others: seq<Request>, whole: ScanResult)
    ensures UsageSources(cfg, Items(whole), others) == set p | p in SentUsage(cfg, others, whole)
    ensures EditSources(cfg, Items(whole), others) == set p | p in SentEdits(cfg, others, whole)
  {
    RowsOfItems(cfg, whole);
  }

  lemma SourcedKeys<K, V>(base: map<K, V>, t: map<K, V>, s: seq<(K, V)>)
    requires Sourced(base, t, set p | p in s) && KeysOf(s) <= t.Keys
    ensures t.Keys == base.Keys + KeysOf(s)
  {
    forall k | k in t && k !in base ensures k in KeysOf(s) { assert (k, t[k]) in s; }
  }

  /** The one state that a single clean send leads to, after the sends of others. */
  ghost function CleanState(cfg: Config, others: seq<Request>, whole: ScanResult): Tables {
    Land(cfg, Shared(cfg, others), whole, All)
  }

  lemma CleanRows(cfg: Config, others: seq<Request>, whole: ScanResult)
    requires InView(cfg.base)
    ensures InView(CleanState(cfg, others, whole))
    ensures CleanState(cfg, others, whole).usage == Absorb(cfg.base.usage, SentUsage(cfg, others, whole))
    ensures CleanState(cfg, others, whole).edits == Absorb(cfg.base.edits, SentEdits(cfg, others, whole))
  {
    var u, m, t := cfg.userId, cfg.machineId, Shared(cfg, others);
    SharedRows(cfg, others);
    AbsorbAppend(cfg.base.usage, OtherUsage(others), UsageRows(u, m, whole.usage));
    AbsorbAppend(cfg.base.edits, OtherEdits(others), EditRows(u, m, whole.edits));
    InsertUsageKeepsView(t, u, m, whole.usage);
    InsertEditsKeepsView(InsertUsage(t, u, m, whole.usage), u, m, whole.edits);
  }

  lemma UsageKeysStored(cfg: Config, t: Tables, whole: ScanResult)
    requires forall it | it in Items(whole) && Keyed(it) :: Stored(t, it)
    ensures KeysOf(UsageRows(cfg.userId, cfg.machineId, whole.usage)) <= t.usage.Keys
  {
    forall p | p in UsageRows(cfg.userId, cfg.machineId, whole.usage) ensures p.0 in t.usage {
      UsageRowsFrom(cfg.userId, cfg.machineId, whole.usage, p);
      var r :| r in whole.usage && r.messageId != "" && p == UsageRowOf(cfg.userId, cfg.machineId, r);
      assert U(r) in Items(whole) && Stored(t, U(r));
    }
  }

  lemma EditKeysStored(cfg: Config, t: Tables, whole: ScanResult)
    requires forall it | it in Items(whole) && Keyed(it) :: Stored(t, it)
    ensures KeysOf(EditRows(cfg.userId, cfg.machineId, whole.edits)) <= t.edits.Keys
  {
    forall p | p in EditRows(cfg.userId, cfg.machineId, whole.edits) ensures p.0 in t.edits {
      EditRowsFrom(cfg.userId, cfg.machineId, whole.edits, p);
      var e :| e in whole.edits && e.eventId != "" && p == EditRowOf(cfg.userId, cfg.machineId, e);
      assert E(e) in Items(whole) && Stored(t, E(e));
    }
  }

  /** Among the rows others sent and those of a clean parse, `f` and `g` cannot tell apart
      those of an equal key the server did not hold before. */
  ghost predicate Agreeing<T, S>(cfg: Config, others: seq<Request>, whole: ScanResult, f: UsageRow -> T,
                                 g: EditRow -> S)
  {
    && AgreeUnder(f, SentUsage(cfg, others, whole), cfg.base.usage)
    && AgreeUnder(g, SentEdits(cfg, others, whole), cfg.base.edits)
  }

  /** The server holds, as far as `f` and `g` read it, what one clean send leads to. */
  ghost predicate ReadsClean<T, S>(cfg: Config, w: World, whole: ScanResult, f: UsageRow -> T, g: EditRow -> S) {
    var t, clean := w.server, CleanState(cfg, w.others, whole);
    SameUnder(f, t.usage, clean.usage) && SameUnder(g, t.edits, clean.edits)
  }

  /** End to end, for any reading of the rows: where records of an equal new key read
      alike, the caught-up server reads like the one state a single clean send of
      everything the files held leads to, after what other watchers sent, under every
      schedule of growth, replacement, crashes, lost replies, half-landed requests, replays
      and requests of others in between. */
  lemma OnceUnder<T, S>(cfg: Config, w: World, whole: ScanResult, f: UsageRow -> T, g: EditRow -> S)
    requires Valid(cfg) && Reachable(cfg, w) && CaughtUp(cfg, w) && !w.torn
    requires forall it :: it in Items(whole) <==> InFiles(cfg, w, it)
    requires Agreeing(cfg, w.others, whole, f, g)
    ensures ReadsClean(cfg, w, whole, f, g)
  {
    CaughtUpKeys(cfg, w, whole);
    CleanRows(cfg, w.others, whole);
    AgreeDetermines(f, cfg.base.usage, w.server.usage, SentUsage(cfg, w.others, whole));
    AgreeDetermines(g, cfg.base.edits, w.server.edits, SentEdits(cfg, w.others, whole));
  }

  function Whole<V>(): V -> V { row => row }

  lemma SameWhole<K, V>(a: map<K, V>, b: map<K, V>)
    ensures SameUnder(Whole<V>(), a, b) <==> a == b
  {
  }

  /** Where they are equal in every column, the tables are that state. */
  lemma EffectivelyOnce(cfg: Config, w: World, whole: ScanResult)
    requires Valid(cfg) && Reachable(cfg, w) && CaughtUp(cfg, w) && !w.torn
    requires forall it :: it in Items(whole) <==> InFiles(cfg, w, it)
    requires Agreeing(cfg, w.others, whole, Whole(), Whole())
    ensures w.server == CleanState(cfg, w.others, whole)
  {
    CaughtUpKeys(cfg, w, whole);
    OnceUnder(cfg, w, whole, Whole(), Whole());
    SameWhole(w.server.usage, CleanState(cfg, w.others, whole).usage);
    SameWhole(w.server.edits, CleanState(cfg, w.others, whole).edits);
    CleanRows(cfg, w.others, whole);
  }

  // ----- aggregates ---------------------------------------------------------------------

  /** What an aggregate reads of a row. */
  function Read<V, G, R>(v: View<V, G, R>): V -> (G, R) { row => (v.group(row), v.unit(row)) }

  /** Tables that an aggregate reads alike aggregate alike. */
  lemma GroupsAlikeUnder<K, V, G(!new), R(!new)>(v: View<V, G, R>, a: map<K, V>, b: map<K, V>)
    requires GroupSum.Lawful(v) && SameUnder(Read(v), a, b)
    ensures GroupBy(v, a) == GroupBy(v, b)
  {
    forall k | k in a ensures v.group(a[k]) == v.group(b[k]) && v.unit(a[k]) == v.unit(b[k]) {
      assert Read(v)(a[k]) == Read(v)(b[k]);
    }
    Regroup.GroupByAlike(v, a, v, b);
  }

  /** Any aggregate over the detail, for records that agree in the columns it reads. */
  lemma AggregateOnce<G(!new), R(!new)>(cfg: Config, w: World, whole: ScanResult, v: View<UsageRow, G, R>)
    requires Valid(cfg) && Reachable(cfg, w) && CaughtUp(cfg, w) && !w.torn
    requires forall it :: it in Items(whole) <==> InFiles(cfg, w, it)
    requires GroupSum.Lawful(v) && AgreeUnder(Read(v), SentUsage(cfg, w.others, whole), cfg.base.usage)
    ensures GroupBy(v, w.server.usage) == GroupBy(v, CleanState(cfg, w.others, whole).usage)
  {
    var nothing := (row: EditRow) => 0;
    OnceUnder(cfg, w, whole, Read(v), nothing);
    GroupsAlikeUnder(v, w.server.usage, CleanState(cfg, w.others, whole).usage);
  }

  /** Both rollups are those of the clean parse already where records of an equal new key
      agree in the columns the rollups read; session id and project path are not among
      them. */
  lemma RollupsOnce(cfg: Config, w: World, whole: ScanResult)
    requires Valid(cfg) && Reachable(cfg, w) && CaughtUp(cfg, w) && !w.torn
    requires forall it :: it in Items(whole) <==> InFiles(cfg, w, it)
    requires Agreeing(cfg, w.others, whole, Read(UsageView()), Read(EditView()))
    ensures w.server.daily == CleanState(cfg, w.others, whole).daily
    ensures w.server.editDaily == CleanState(cfg, w.others, whole).editDaily
  {
    var clean := CleanState(cfg, w.others, whole);
    CaughtUpKeys(cfg, w, whole);
    CleanRows(cfg, w.others, whole);
    OnceUnder(cfg, w, whole, Read(UsageView()), Read(EditView()));
    UsageLawful();
    EditLawful();
    GroupsAlikeUnder(UsageView(), w.server.usage, clean.usage);
    GroupsAlikeUnder(EditView(), w.server.edits, clean.edits);
  }
}
