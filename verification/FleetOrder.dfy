/** A fleet without a spool: a key that only one tailed file has keeps the first row that
    file gave it, so only keys that several files or watchers share have to agree. */
module FleetOrder {
  import opened Types
  import opened Dedup
  import opened GroupSum
  import opened Rollup
  import opened StoreSpec
  import opened TailScan
  import opened Delivery
  import opened ExactlyOnce
  import opened Feeding
  import opened InOrder
  import opened NoLoss

  // ----- everything the files held, in order -----------------------------------------------

  /** What the path ever held. */
  function HeldAt(w: World, p: Path): seq<Content> {
    Past(w, p) + if p in w.files then [Content(p, w.files[p].bytes)] else []
  }

  /** The contents of each file in the order it had them, whatever the order between files. */
  ghost predicate Chronicle(w: World, contents: seq<Content>) {
    forall p :: Only(KeepPath(p), contents) == HeldAt(w, p)
  }

  lemma {:induction false} InOnly(cs: seq<Content>, c: Content)
    ensures c in Only(KeepPath(c.path), cs) <==> c in cs
    decreases |cs|
  {
    if cs != [] {
      InOnly(cs[1..], c);
      assert c in cs <==> c == cs[0] || c in cs[1..];
    }
  }

  lemma ChronicleHolds(w: World, contents: seq<Content>)
    requires Chronicle(w, contents)
    ensures forall c :: c in contents <==> Held(w, c)
  {
    forall c ensures c in contents <==> Held(w, c) {
      InOnly(contents, c);
      InOnly(w.retired, c);
      assert Only(KeepPath(c.path), contents) == HeldAt(w, c.path);
    }
  }

  lemma ChronicleItems(cfg: Config, w: World, contents: seq<Content>)
    requires Chronicle(w, contents)
    ensures forall it :: it in Items(CleanParse(cfg, contents)) <==> InFiles(cfg, w, it)
  {
    ChronicleHolds(w, contents);
    forall it ensures it in Items(CleanParse(cfg, contents)) <==> InFiles(cfg, w, it) {
      CleanParseItems(cfg, contents, it);
    }
  }

  // ----- keys of one file ------------------------------------------------------------------

  /** Only the tailed file at `p` has such a key. */
  ghost predicate Alone(cfg: Config, w: World, own: Own, p: Path) {
    && p in w.files && cfg.source(p).Tailed? && OthersApart(own, w.others)
    && forall c | Held(w, c) && c.path != p :: NoneOwn(own, Yield(cfg.source(c.path), c.bytes))
  }

  lemma HeldReadable(cfg: Config, w: World, c: Content)
    requires Valid(cfg) && Reachable(cfg, w) && CaughtUp(cfg, w) && !w.torn && Held(w, c)
    ensures cfg.source(c.path).Reparsed? ==> cfg.source(c.path).parse(c.bytes).Some? && cfg.legal(c.path)(c.bytes)
  {
    ReachableSound(cfg, w);
    if c in w.retired {
      assert PutAway(cfg, w, c);
    } else {
      assert Finished(cfg.source(c.path), w.files[c.path], Get(w.mem, c.path));
    }
  }

  /** Then no earlier state of another file had one either. */
  lemma AloneIsApart(cfg: Config, lane: Lane, w: World)
    requires Valid(cfg) && Reachable(cfg, w) && CaughtUp(cfg, w) && !w.torn && Alone(cfg, w, lane.own, lane.p)
    ensures Apart(cfg, lane, w)
  {
    forall c | Held(w, c) && c.path != lane.p ensures Foreign(cfg, lane.own, c) {
      HeldReadable(cfg, w, c);
      forall n: nat | n <= |c.bytes| ensures NoneOwn(lane.own, Yield(cfg.source(c.path), c.bytes[..n])) {
        PrefixYields(cfg, c.path, c.bytes, n);
      }
    }
  }

  lemma {:induction false} MineClean(cfg: Config, lane: Lane, contents: seq<Content>)
    requires cfg.source(lane.p) == Tailed(lane.x)
    requires forall c | c in contents && c.path != lane.p :: NoneOwn(lane.own, Yield(cfg.source(c.path), c.bytes))
    ensures Mine(lane.own, CleanParse(cfg, contents)) == ReadAll(Reads(lane), Only(KeepPath(lane.p), contents))
    decreases |contents|
  {
    if contents != [] {
      var c, rest := contents[0], contents[1..];
      MineClean(cfg, lane, rest);
      MineThen(lane.own, ReadWhole(cfg.source(c.path), c.bytes), CleanParse(cfg, rest));
      MineOne(cfg, lane, c);
      ReadAllHead(Reads(lane), if c.path == lane.p then [c] else [], Only(KeepPath(lane.p), rest));
    }
  }

  lemma MineOne(cfg: Config, lane: Lane, c: Content)
    requires cfg.source(lane.p) == Tailed(lane.x)
    requires c.path != lane.p ==> NoneOwn(lane.own, Yield(cfg.source(c.path), c.bytes))
    ensures Mine(lane.own, ReadWhole(cfg.source(c.path), c.bytes))
         == if c.path == lane.p then ScanLines(Reads(lane), c.bytes) else NOTHING
  {
    if c.path == lane.p {
      MineLines(lane, c.bytes);
    } else {
      assert Items(ReadWhole(cfg.source(c.path), c.bytes)) == Yield(cfg.source(c.path), c.bytes) by {
        assert Items(NOTHING) == {};
      }
      NoneMine(lane.own, ReadWhole(cfg.source(c.path), c.bytes));
    }
  }

  lemma ReadAllHead(x: Extract, head: seq<Content>, rest: seq<Content>)
    requires |head| <= 1
    ensures ReadAll(x, head + rest)
         == (if head == [] then NOTHING else ScanLines(x, head[0].bytes)).Then(ReadAll(x, rest))
  {
    ThenLaws(ReadAll(x, rest), NOTHING, NOTHING);
    if head == [] {
      assert head + rest == rest;
    } else {
      assert (head + rest)[1..] == rest;
    }
  }

  lemma StreamIsHeld(lane: Lane, w: World)
    requires lane.p in w.files
    ensures LaneStream(lane, w) == ReadAll(Reads(lane), HeldAt(w, lane.p))
  {
    ReadAllAppend(Reads(lane), Past(w, lane.p), Content(lane.p, w.files[lane.p].bytes));
  }

  /** Rows of other keys in front do not show. */
  lemma OwnOfSent<K(!new), V>(own: K -> bool, base: map<K, V>, others: seq<(K, V)>, rows: seq<(K, V)>)
    requires forall row | row in others :: !own(row.0)
    ensures SameOn(own, Absorb(base, others + rows), Absorb(base, Only(OfKey(own), rows)))
  {
    OnlyAppend(OfKey(own), others, rows);
    OnlyNone(OfKey(own), others);
    assert [] + Only(OfKey(own), rows) == Only(OfKey(own), rows);
    forall k | own(k) ensures SameAt(base, base, k) { }
    OnlyAbsorbs(own, base, base, others + rows);
  }

  /** Under the keys of one file the caught-up server is the clean parse, whatever the
      file's records say. */
  lemma AloneIsClean(cfg: Config, w: World, contents: seq<Content>, own: Own, p: Path)
    requires Valid(cfg) && !cfg.buffered && Reachable(cfg, w) && CaughtUp(cfg, w) && !w.torn
    requires Chronicle(w, contents) && Alone(cfg, w, own, p)
    ensures var clean := CleanState(cfg, w.others, CleanParse(cfg, contents));
            SameOn(own.usage, w.server.usage, clean.usage) && SameOn(own.edits, w.server.edits, clean.edits)
  {
    var lane, whole := Lane(own, cfg.source(p).x, p), CleanParse(cfg, contents);
    var u, m := cfg.userId, cfg.machineId;
    AloneIsApart(cfg, lane, w);
    LaneIsClean(cfg, lane, w);
    LaneOfClean(cfg, lane, w, contents);
    CleanRows(cfg, w.others, whole);
    UsageRowsMine(own, u, m, whole.usage);
    EditRowsMine(own, u, m, whole.edits);
    OwnOfSent(own.usage, cfg.base.usage, OtherUsage(w.others), UsageRows(u, m, whole.usage));
    OwnOfSent(own.edits, cfg.base.edits, OtherEdits(w.others), EditRows(u, m, whole.edits));
    var s := LaneStream(lane, w);
    SameOnTrans(own.usage, w.server.usage, Absorb(cfg.base.usage, Usage(cfg)(s.usage)),
                Absorb(cfg.base.usage, SentUsage(cfg, w.others, whole)));
    SameOnTrans(own.edits, w.server.edits, Absorb(cfg.base.edits, Edits(cfg)(s.edits)),
                Absorb(cfg.base.edits, SentEdits(cfg, w.others, whole)));
  }

  lemma LaneOfClean(cfg: Config, lane: Lane, w: World, contents: seq<Content>)
    requires Chronicle(w, contents) && Alone(cfg, w, lane.own, lane.p) && cfg.source(lane.p) == Tailed(lane.x)
    ensures Mine(lane.own, CleanParse(cfg, contents)) == LaneStream(lane, w)
  {
    ChronicleHolds(w, contents);
    MineClean(cfg, lane, contents);
    StreamIsHeld(lane, w);
    assert Only(KeepPath(lane.p), contents) == HeldAt(w, lane.p);
  }

  // ----- the fleet ---------------------------------------------------------------------------

  function UsageKeyOnly(k: UsageKey): Own { Own((j: UsageKey) => j == k, (id: string) => false) }

  function EditKeyOnly(k: string): Own { Own((j: UsageKey) => false, (id: string) => id == k) }

  /** The rows of one key read alike. */
  ghost predicate AgreeAt<K, V, T>(f: V -> T, s: seq<(K, V)>, k: K) {
    forall a, b | a in s && b in s && a.0 == k && b.0 == k :: f(a.1) == f(b.1)
  }

  ghost predicate UsageDecided<T>(cfg: Config, w: World, whole: ScanResult, f: UsageRow -> T, k: UsageKey) {
    AgreeAt(f, SentUsage(cfg, w.others, whole), k) || exists p :: Alone(cfg, w, UsageKeyOnly(k), p)
  }

  ghost predicate EditDecided<S>(cfg: Config, w: World, whole: ScanResult, g: EditRow -> S, k: string) {
    AgreeAt(g, SentEdits(cfg, w.others, whole), k) || exists p :: Alone(cfg, w, EditKeyOnly(k), p)
  }

  /** Every new key either has rows that read alike or is the affair of one tailed file. */
  ghost predicate Decided<T, S>(cfg: Config, w: World, whole: ScanResult, f: UsageRow -> T, g: EditRow -> S) {
    && (forall k | k in w.server.usage && k !in cfg.base.usage :: UsageDecided(cfg, w, whole, f, k))
    && (forall k | k in w.server.edits && k !in cfg.base.edits :: EditDecided(cfg, w, whole, g, k))
  }

  /** One key of two tables made of the same sends. */
  lemma AgreeingKey<K, V, T>(f: V -> T, base: map<K, V>, t: map<K, V>, s: seq<(K, V)>, k: K)
    requires Sourced(base, t, set p | p in s) && t.Keys == base.Keys + KeysOf(s) && k in t
    requires k !in base ==> AgreeAt(f, s, k)
    ensures k in Absorb(base, s) && f(t[k]) == f(Absorb(base, s)[k])
  {
    AbsorbGrows(base, s);
    if k !in base {
      assert (k, t[k]) in s && (k, Absorb(base, s)[k]) in s;
    }
  }

  lemma UsageKeyClean<T>(cfg: Config, w: World, contents: seq<Content>, f: UsageRow -> T, k: UsageKey)
    requires Valid(cfg) && !cfg.buffered && Reachable(cfg, w) && CaughtUp(cfg, w) && !w.torn && Chronicle(w, contents)
    requires k in w.server.usage && (k !in cfg.base.usage ==> UsageDecided(cfg, w, CleanParse(cfg, contents), f, k))
    ensures var clean := CleanState(cfg, w.others, CleanParse(cfg, contents)).usage;
            k in clean && f(w.server.usage[k]) == f(clean[k])
  {
    var whole := CleanParse(cfg, contents);
    if k !in cfg.base.usage && !AgreeAt(f, SentUsage(cfg, w.others, whole), k) {
      var p :| Alone(cfg, w, UsageKeyOnly(k), p);
      AloneIsClean(cfg, w, contents, UsageKeyOnly(k), p);
      assert SameAt(w.server.usage, CleanState(cfg, w.others, whole).usage, k);
    } else {
      ChronicleItems(cfg, w, contents);
      CaughtUpKeys(cfg, w, whole);
      CleanRows(cfg, w.others, whole);
      AgreeingKey(f, cfg.base.usage, w.server.usage, SentUsage(cfg, w.others, whole), k);
    }
  }

  lemma EditKeyClean<S>(cfg: Config, w: World, contents: seq<Content>, g: EditRow -> S, k: string)
    requires Valid(cfg) && !cfg.buffered && Reachable(cfg, w) && CaughtUp(cfg, w) && !w.torn && Chronicle(w, contents)
    requires k in w.server.edits && (k !in cfg.base.edits ==> EditDecided(cfg, w, CleanParse(cfg, contents), g, k))
    ensures var clean := CleanState(cfg, w.others, CleanParse(cfg, contents)).edits;
            k in clean && g(w.server.edits[k]) == g(clean[k])
  {
    var whole := CleanParse(cfg, contents);
    if k !in cfg.base.edits && !AgreeAt(g, SentEdits(cfg, w.others, whole), k) {
      var p :| Alone(cfg, w, EditKeyOnly(k), p);
      AloneIsClean(cfg, w, contents, EditKeyOnly(k), p);
      assert SameAt(w.server.edits, CleanState(cfg, w.others, whole).edits, k);
    } else {
      ChronicleItems(cfg, w, contents);
      CaughtUpKeys(cfg, w, whole);
      CleanRows(cfg, w.others, whole);
      AgreeingKey(g, cfg.base.edits, w.server.edits, SentEdits(cfg, w.others, whole), k);
    }
  }

  /** Without a spool, for any fleet, any batch size and any reading of the rows: the
      caught-up server reads like the clean parse if rows of a key that several files or
      watchers have read alike; what one tailed file says twice may differ. */
  lemma SpoollessFleet<T, S>(cfg: Config, w: World, contents: seq<Content>, f: UsageRow -> T, g: EditRow -> S)
    requires Valid(cfg) && !cfg.buffered && Reachable(cfg, w) && CaughtUp(cfg, w) && !w.torn && Chronicle(w, contents)
    requires Decided(cfg, w, CleanParse(cfg, contents), f, g)
    ensures InView(w.server) && ReadsClean(cfg, w, CleanParse(cfg, contents), f, g)
  {
    var whole := CleanParse(cfg, contents);
    ChronicleItems(cfg, w, contents);
    CaughtUpKeys(cfg, w, whole);
    CleanRows(cfg, w.others, whole);
    AbsorbGrows(cfg.base.usage, SentUsage(cfg, w.others, whole));
    AbsorbGrows(cfg.base.edits, SentEdits(cfg, w.others, whole));
    var clean := CleanState(cfg, w.others, whole);
    forall k | k in w.server.usage ensures f(w.server.usage[k]) == f(clean.usage[k]) {
      UsageKeyClean(cfg, w, contents, f, k);
    }
    forall k | k in w.server.edits ensures g(w.server.edits[k]) == g(clean.edits[k]) {
      EditKeyClean(cfg, w, contents, g, k);
    }
  }

  // ----- one file alone ------------------------------------------------------------------------

  lemma RetiredStep(cfg: Config, w: World, s: Step)
    requires Enabled(cfg, w, s) && forall c | c in w.retired :: c.path in w.files
    ensures forall c | c in Do(cfg, w, s).retired :: c.path in Do(cfg, w, s).files
  {
    assert s.Rotate? || Do(cfg, w, s).retired == w.retired;
  }

  /** Every replaced content was one of a file that is there. */
  lemma {:induction false} RetiredThere(cfg: Config, w: World, steps: seq<Step>, end: World)
    requires Run(cfg, w, steps, end) && forall c | c in w.retired :: c.path in w.files
    ensures forall c | c in end.retired :: c.path in end.files
    decreases |steps|
  {
    if steps != [] {
      RetiredStep(cfg, w, steps[0]);
      RetiredThere(cfg, Do(cfg, w, steps[0]), steps[1..], end);
    }
  }

  /** Without a spool one tailed file, with no other watcher in between, is stored as its
      clean parse for every batch size and whatever its records say. */
  lemma SpoollessIsClean(cfg: Config, p: Path, w: World)
    requires Valid(cfg) && !cfg.buffered && Reachable(cfg, w) && CaughtUp(cfg, w) && !w.torn
    requires cfg.source(p).Tailed? && w.files.Keys == {p} && w.others == []
    ensures w.server == Land(cfg, cfg.base, CleanParse(cfg, w.retired + [Content(p, w.files[p].bytes)]), All)
  {
    assert p in w.files;
    var contents := w.retired + [Content(p, w.files[p].bytes)];
    var steps :| Run(cfg, Start(cfg), steps, w);
    RetiredThere(cfg, Start(cfg), steps, w);
    OneChronicle(w, p);
    SoleDecided(cfg, w, CleanParse(cfg, contents), p, Whole(), Whole());
    SpoollessFleet(cfg, w, contents, Whole(), Whole());
    var clean := CleanState(cfg, w.others, CleanParse(cfg, contents));
    SameWhole(w.server.usage, clean.usage);
    SameWhole(w.server.edits, clean.edits);
    CleanRows(cfg, w.others, CleanParse(cfg, contents));
  }

  ghost predicate Sole(cfg: Config, w: World, p: Path) {
    && cfg.source(p).Tailed? && w.files.Keys == {p} && w.others == []
    && forall c | c in w.retired :: c.path in w.files
  }

  lemma SoleAlone(cfg: Config, w: World, p: Path, own: Own)
    requires Sole(cfg, w, p)
    ensures Alone(cfg, w, own, p)
  {
    assert p in w.files;
    forall c | Held(w, c) ensures c.path == p { assert c.path in w.files.Keys; }
  }

  lemma SoleDecided<T, S>(cfg: Config, w: World, whole: ScanResult, p: Path, f: UsageRow -> T, g: EditRow -> S)
    requires Sole(cfg, w, p)
    ensures Decided(cfg, w, whole, f, g)
  {
    forall k | k in w.server.usage && k !in cfg.base.usage ensures UsageDecided(cfg, w, whole, f, k) {
      SoleAlone(cfg, w, p, UsageKeyOnly(k));
    }
    forall k | k in w.server.edits && k !in cfg.base.edits ensures EditDecided(cfg, w, whole, g, k) {
      SoleAlone(cfg, w, p, EditKeyOnly(k));
    }
  }

  lemma OneChronicle(w: World, p: Path)
    requires p in w.files && w.files.Keys == {p} && forall c | c in w.retired :: c.path in w.files
    ensures Chronicle(w, w.retired + [Content(p, w.files[p].bytes)])
  {
    var c := Content(p, w.files[p].bytes);
    forall q ensures Only(KeepPath(q), w.retired + [c]) == HeldAt(w, q) {
      OnlyAppend(KeepPath(q), w.retired, [c]);
      assert [c][1..] == [];
      if q != p { OnlyNone(KeepPath(q), [c]); }
    }
  }
}
