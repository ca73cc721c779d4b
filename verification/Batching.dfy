/** Cutting a scan into windows: nothing is lost, doubled or reordered, and the batch
    size does not show at the server. */
module Batching {
  import opened Types
  import opened Dedup
  import opened GroupSum
  import opened Rollup
  import opened StoreSpec
  import opened Delivery

  function UsageOf(q: seq<Body>): seq<UsageRecord> { if q == [] then [] else q[0].usage + UsageOf(q[1..]) }

  function EditsOf(q: seq<Body>): seq<EditRecord> { if q == [] then [] else q[0].edits + EditsOf(q[1..]) }

  /** Each window holds between one record and a full batch, of one kind. */
  ghost predicate Windows(q: seq<Body>, n: nat) {
    forall i | 0 <= i < |q| :: 0 < |q[i].usage| + |q[i].edits| <= n && (q[i].usage == [] || q[i].edits == [])
  }

  lemma {:induction false} UsageWindows(s: seq<UsageRecord>, n: nat)
    requires n > 0
    ensures UsageOf(UsageBatches(s, n)) == s && EditsOf(UsageBatches(s, n)) == [] && Windows(UsageBatches(s, n), n)
    decreases |s|
  {
    if s != [] {
      var k := Min(n, |s|);
      UsageWindows(s[k..], n);
      assert s[..k] + s[k..] == s;
    }
  }

  lemma {:induction false} EditWindows(s: seq<EditRecord>, n: nat)
    requires n > 0
    ensures UsageOf(EditBatches(s, n)) == [] && EditsOf(EditBatches(s, n)) == s && Windows(EditBatches(s, n), n)
    decreases |s|
  {
    if s != [] {
      var k := Min(n, |s|);
      EditWindows(s[k..], n);
      assert s[..k] + s[k..] == s;
    }
  }

  lemma {:induction false} OfAppend(a: seq<Body>, b: seq<Body>)
    ensures UsageOf(a + b) == UsageOf(a) + UsageOf(b) && EditsOf(a + b) == EditsOf(a) + EditsOf(b)
    decreases |a|
  {
    if a == [] {
      assert a + b == b;
    } else {
      assert (a + b)[1..] == a[1..] + b;
      OfAppend(a[1..], b);
    }
  }

  /** The windows of a scan are its records, all of them, in order. */
  lemma BatchesPartition(r: ScanResult, n: nat)
    requires n > 0
    ensures UsageOf(Batches(r, n)) == r.usage && EditsOf(Batches(r, n)) == r.edits && Windows(Batches(r, n), n)
  {
    UsageWindows(r.usage, n);
    EditWindows(r.edits, n);
    OfAppend(UsageBatches(r.usage, n), EditBatches(r.edits, n));
  }

  /** Every batch delivered in full, in order. */
  ghost function LandAll(cfg: Config, t: Tables, q: seq<Body>): Tables
    decreases |q|
  {
    if q == [] then t else LandAll(cfg, Land(cfg, t, q[0], All), q[1..])
  }

  lemma LandsRows(cfg: Config, t: Tables, body: Body)
    requires InView(t)
    ensures InView(Land(cfg, t, body, All))
    ensures Land(cfg, t, body, All).usage == Absorb(t.usage, UsageRows(cfg.userId, cfg.machineId, body.usage))
    ensures Land(cfg, t, body, All).edits == Absorb(t.edits, EditRows(cfg.userId, cfg.machineId, body.edits))
  {
    InsertUsageKeepsView(t, cfg.userId, cfg.machineId, body.usage);
    InsertEditsKeepsView(InsertUsage(t, cfg.userId, cfg.machineId, body.usage), cfg.userId, cfg.machineId, body.edits);
  }

  lemma {:induction false} LandAllIs(cfg: Config, t: Tables, q: seq<Body>)
    requires InView(t)
    ensures InView(LandAll(cfg, t, q))
    ensures LandAll(cfg, t, q).usage == Absorb(t.usage, UsageRows(cfg.userId, cfg.machineId, UsageOf(q)))
    ensures LandAll(cfg, t, q).edits == Absorb(t.edits, EditRows(cfg.userId, cfg.machineId, EditsOf(q)))
    decreases |q|
  {
    if q != [] {
      var u, m := cfg.userId, cfg.machineId;
      LandsRows(cfg, t, q[0]);
      LandAllIs(cfg, Land(cfg, t, q[0], All), q[1..]);
      UsageRowsAppend(u, m, q[0].usage, UsageOf(q[1..]));
      EditRowsAppend(u, m, q[0].edits, EditsOf(q[1..]));
      AbsorbAppend(t.usage, UsageRows(u, m, q[0].usage), UsageRows(u, m, UsageOf(q[1..])));
      AbsorbAppend(t.edits, EditRows(u, m, q[0].edits), EditRows(u, m, EditsOf(q[1..])));
    }
  }

  /** Whatever the batch size, the server ends as if the scan had been one request. */
  lemma BatchSizeInvisible(cfg: Config, t: Tables, r: ScanResult, n: nat)
    requires InView(t) && n > 0
    ensures LandAll(cfg, t, Batches(r, n)) == Land(cfg, t, r, All)
  {
    BatchesPartition(r, n);
    LandAllIs(cfg, t, Batches(r, n));
    LandsRows(cfg, t, r);
  }
}
