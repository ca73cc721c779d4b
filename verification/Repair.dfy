/** Reconciliation of stored Codex rows with records replayed from the original
    session files: a dry run, or an update of the four token columns followed by
    a rebuild of just the affected days. */
module Repair {
  import opened Types
  import opened Dedup
  import opened GroupSum
  import opened Rollup
  import opened StoreSpec
  import Store

  /** The columns a repair may write. */
  datatype Quad = Quad(input: int, output: int, cacheCreation: int, cacheRead: int)

  type Stage = map<UsageKey, Quad>

  datatype Stats = Stats(
    parsed: nat, databaseRows: nat, matched: nat, changed: nat,
    missingSource: nat, missingDb: nat,
    oldInput: int, newInput: int, oldOutput: int, newOutput: int, cacheRead: int,
    from: Option<int>, to: Option<int>)

  datatype RepairError = MissingScope | IncompleteSource | NoRange

  datatype Outcome = Outcome(stats: Option<Stats>, error: Option<RepairError>, applied: bool)

  function QuadOf(t: Tokens): Quad { Quad(t.input, t.output, t.cacheCreation, t.cacheRead) }

  function WithQuad(row: UsageRow, q: Quad): UsageRow {
    row.(tokens := Tokens(q.input, q.output, q.cacheCreation, row.tokens.cacheCreation1h, q.cacheRead))
  }

  function StageRows(records: seq<UsageRecord>): seq<(UsageKey, Quad)> {
    if records == [] then []
    else
      var r := records[0];
      (if r.messageId == "" then []
       else [(UsageKey(r.messageId, r.requestId),
              Quad(r.inputTokens, r.outputTokens, r.cacheCreationTokens, r.cacheReadTokens))])
      + StageRows(records[1..])
  }

  /** The staged table: the first record of each key in ordinal order. */
  function Staged(records: seq<UsageRecord>): Stage { First(StageRows(records)) }

  predicate InScope(row: UsageRow, userId: string, machineId: string) {
    row.tool == "codex" && row.userId == userId && row.machineId == machineId
  }

  function Scoped(d: Detail, u: string, m: string): set<UsageKey> { set k | k in d && InScope(d[k], u, m) }

  function Matched(d: Detail, s: Stage, u: string, m: string): set<UsageKey> { Scoped(d, u, m) * s.Keys }

  /** IS DISTINCT FROM on any of the four columns. */
  function Changed(d: Detail, s: Stage, u: string, m: string): set<UsageKey> {
    set k | k in Matched(d, s, u, m) && QuadOf(d[k].tokens) != s[k]
  }

  ghost predicate IsMin(d: Detail, keys: set<UsageKey>, t: Option<int>) {
    && (t.None? <==> keys == {})
    && (t.Some? ==> (exists k :: k in keys && k in d && d[k].ts == t.value)
                    && forall k | k in keys && k in d :: t.value <= d[k].ts)
  }

  ghost predicate IsMax(d: Detail, keys: set<UsageKey>, t: Option<int>) {
    && (t.None? <==> keys == {})
    && (t.Some? ==> (exists k :: k in keys && k in d && d[k].ts == t.value)
                    && forall k | k in keys && k in d :: d[k].ts <= t.value)
  }

  function Ints(): View<int, bool, int> { View((n: int) => true, (n: int) => n, (a: int, b: int) => a + b, 0) }

  ghost function Sum<K>(m: map<K, int>): int { Total(Ints(), m, true) }

  function StoredOf(d: Detail, keys: set<UsageKey>, column: Quad -> int): map<UsageKey, int> {
    map k | k in keys && k in d :: column(QuadOf(d[k].tokens))
  }

  function SourceOf(s: Stage, keys: set<UsageKey>, column: Quad -> int): map<UsageKey, int> {
    map k | k in keys && k in s :: column(s[k])
  }

  /** The sums over the matched rows, before and after. */
  ghost predicate Sums(d: Detail, s: Stage, matched: set<UsageKey>, st: Stats) {
    && st.oldInput == Sum(StoredOf(d, matched, (q: Quad) => q.input))
    && st.newInput == Sum(SourceOf(s, matched, (q: Quad) => q.input))
    && st.oldOutput == Sum(StoredOf(d, matched, (q: Quad) => q.output))
    && st.newOutput == Sum(SourceOf(s, matched, (q: Quad) => q.output))
    && st.cacheRead == Sum(SourceOf(s, matched, (q: Quad) => q.cacheRead))
  }

  /** codexRepairStatsSQL. */
  ghost predicate Reports(d: Detail, s: Stage, u: string, m: string, st: Stats) {
    && st.parsed == |s| && st.databaseRows == |Scoped(d, u, m)|
    && st.matched == |Matched(d, s, u, m)| && st.changed == |Changed(d, s, u, m)|
    && st.missingSource == |Scoped(d, u, m) - s.Keys|
    && st.missingDb == |s.Keys - Scoped(d, u, m)|
    && IsMin(d, Changed(d, s, u, m), st.from) && IsMax(d, Changed(d, s, u, m), st.to)
  }

  /** updateCodexRepairSQL. */
  function Updated(d: Detail, s: Stage, u: string, m: string): Detail {
    map k | k in d :: if k in s && InScope(d[k], u, m) then WithQuad(d[k], s[k]) else d[k]
  }

  /** The tables after an applied repair. */
  ghost function Repaired(t: Tables, s: Stage, u: string, m: string, st: Stats): Tables
    requires st.from.Some? && st.to.Some?
  {
    var usage := Updated(t.usage, s, u, m);
    t.(usage := usage, daily := Rebuilt(usage, t.daily, DayOf(st.from.value), DayOf(st.to.value)))
  }

  /** The coverage identities of every report. */
  lemma ReportIdentities(d: Detail, s: Stage, u: string, m: string, st: Stats)
    requires Reports(d, s, u, m, st)
    ensures st.parsed == st.matched + st.missingDb
    ensures st.databaseRows == st.matched + st.missingSource
    ensures st.changed <= st.matched
    ensures st.changed > 0 <==> st.from.Some?
    ensures st.changed > 0 <==> st.to.Some?
  {
    assert |s| == |s.Keys|;
    Partition(Scoped(d, u, m), s.Keys);
    Partition(s.Keys, Scoped(d, u, m));
    assert s.Keys * Scoped(d, u, m) == Matched(d, s, u, m);
    SubsetSize(Changed(d, s, u, m), Matched(d, s, u, m));
  }

  lemma Partition<T>(a: set<T>, b: set<T>)
    ensures |a| == |a * b| + |a - b|
  {
    assert a == (a * b) + (a - b);
  }

  /** An update touches exactly the changed rows, and of those only the four
      token columns. */
  lemma UpdateTouches(d: Detail, s: Stage, u: string, m: string, k: UsageKey)
    requires k in d
    ensures k in Updated(d, s, u, m)
    ensures Updated(d, s, u, m)[k] != d[k] <==> k in Changed(d, s, u, m)
    ensures k in Changed(d, s, u, m) ==>
      InScope(d[k], u, m) && Updated(d, s, u, m)[k] == WithQuad(d[k], s[k])
  {
  }

  /** Rebuilding from the first to the last changed day is enough: outside those
      days no group saw a changed row, so the whole rollup is exact again. */
  lemma RepairKeepsView(t: Tables, s: Stage, u: string, m: string, st: Stats)
    requires InView(t) && Reports(t.usage, s, u, m, st) && st.from.Some? && st.to.Some?
    ensures InView(Repaired(t, s, u, m, st))
  {
    var usage := Updated(t.usage, s, u, m);
    var from, to := DayOf(st.from.value), DayOf(st.to.value);
    forall k: DayKey | !(from <= k.day <= to)
      ensures k in t.daily <==> k in DailyOf(usage)
      ensures k in t.daily ==> t.daily[k] == DailyOf(usage)[k]
    {
      OutsideUntouched(t.usage, s, u, m, st, k);
    }
    RebuiltRestores(usage, t.daily, from, to);
  }

  lemma OutsideUntouched(d: Detail, s: Stage, u: string, m: string, st: Stats, k: DayKey)
    requires Reports(d, s, u, m, st) && st.from.Some? && st.to.Some?
    requires !(DayOf(st.from.value) <= k.day <= DayOf(st.to.value))
    ensures k in DailyOf(d) <==> k in DailyOf(Updated(d, s, u, m))
    ensures k in DailyOf(d) ==> DailyOf(d)[k] == DailyOf(Updated(d, s, u, m))[k]
  {
    var e, v := Updated(d, s, u, m), UsageView();
    forall key | key in d && (v.group(d[key]) == k || v.group(e[key]) == k)
      ensures e[key] == d[key]
    {
      OutsideRow(d, s, u, m, st, k, key);
    }
    UsageLawful();
    TotalLocal(v, d, e, k);
    GroupsLocal(v, d, e, k);
  }

  lemma OutsideRow(d: Detail, s: Stage, u: string, m: string, st: Stats, k: DayKey, key: UsageKey)
    requires Reports(d, s, u, m, st) && st.from.Some? && st.to.Some?
    requires !(DayOf(st.from.value) <= k.day <= DayOf(st.to.value))
    requires key in d && (KeyOf(d[key]) == k || KeyOf(Updated(d, s, u, m)[key]) == k)
    ensures Updated(d, s, u, m)[key] == d[key]
  {
    UpdateTouches(d, s, u, m, key);
    ChangedInRange(d, s, u, m, st, key);
  }

  lemma ChangedInRange(d: Detail, s: Stage, u: string, m: string, st: Stats, key: UsageKey)
    requires Reports(d, s, u, m, st) && st.from.Some? && st.to.Some? && key in d
    ensures key in Changed(d, s, u, m) ==>
      DayOf(st.from.value) <= DayOf(d[key].ts) <= DayOf(st.to.value)
  {
  }

  /** After an update the same source reports no change: a second repair is a
      no-op. */
  lemma RepairIdempotent(d: Detail, s: Stage, u: string, m: string, st: Stats)
    requires Reports(Updated(d, s, u, m), s, u, m, st)
    ensures st.changed == 0 && st.from.None? && st.to.None?
    ensures Updated(Updated(d, s, u, m), s, u, m) == Updated(d, s, u, m)
  {
    forall k | k in Updated(d, s, u, m) ensures k !in Changed(Updated(d, s, u, m), s, u, m) {
      UpdatedSettles(d, s, u, m, k);
    }
    assert Changed(Updated(d, s, u, m), s, u, m) == {};
    UnchangedFixed(Updated(d, s, u, m), s, u, m);
  }

  lemma UnchangedFixed(d: Detail, s: Stage, u: string, m: string)
    requires Changed(d, s, u, m) == {}
    ensures Updated(d, s, u, m) == d
  {
    forall k | k in d ensures Updated(d, s, u, m)[k] == d[k] {
      UpdateTouches(d, s, u, m, k);
    }
  }

  lemma UpdatedSettles(d: Detail, s: Stage, u: string, m: string, k: UsageKey)
    requires k in d
    ensures k !in Changed(Updated(d, s, u, m), s, u, m)
  {
    var row := Updated(d, s, u, m)[k];
    if k in s && InScope(d[k], u, m) {
      assert QuadOf(row.tokens) == s[k];
    }
  }

  /** SELECT MIN(ts), MAX(ts) FROM changed. */
  method Bounds(d: Detail, keys: set<UsageKey>) returns (from: Option<int>, to: Option<int>)
    requires keys <= d.Keys
    ensures IsMin(d, keys, from) && IsMax(d, keys, to)
  {
    from, to := None, None;
    var todo := keys;
    while todo != {}
      invariant todo <= keys
      invariant IsMin(d, keys - todo, from) && IsMax(d, keys - todo, to)
      decreases todo
    {
      var k :| k in todo;
      assert keys - (todo - {k}) == (keys - todo) + {k};
      from, to := Least(from, Some(d[k].ts)), Greatest(to, Some(d[k].ts));
      todo := todo - {k};
    }
    assert keys - {} == keys;
  }

  lemma SumRemove<K>(m: map<K, int>, k: K)
    requires k in m
    ensures Sum(m) == Sum(m - {k}) + m[k]
  {
    TotalRemove(Ints(), m, k, true);
  }

  lemma OneFewer<K, V>(m: map<K, V>, k: K)
    requires k in m
    ensures |m - {k}| < |m|
  {
    assert m == (m - {k})[k := m[k]];
  }

  /** SELECT SUM over one column. */
  method SumOf(m: map<UsageKey, int>) returns (n: int)
    ensures n == Sum(m)
  {
    var rest := m;
    n := 0;
    while rest != map[]
      invariant n + Sum(rest) == Sum(m)
      decreases |rest|
    {
      var k :| k in rest;
      SumRemove(rest, k);
      OneFewer(rest, k);
      n, rest := n + rest[k], rest - {k};
    }
  }

  method QuerySums(d: Detail, s: Stage, matched: set<UsageKey>)
    returns (oldInput: int, newInput: int, oldOutput: int, newOutput: int, cacheRead: int)
    ensures oldInput == Sum(StoredOf(d, matched, (q: Quad) => q.input))
    ensures newInput == Sum(SourceOf(s, matched, (q: Quad) => q.input))
    ensures oldOutput == Sum(StoredOf(d, matched, (q: Quad) => q.output))
    ensures newOutput == Sum(SourceOf(s, matched, (q: Quad) => q.output))
    ensures cacheRead == Sum(SourceOf(s, matched, (q: Quad) => q.cacheRead))
  {
    oldInput := SumOf(StoredOf(d, matched, (q: Quad) => q.input));
    newInput := SumOf(SourceOf(s, matched, (q: Quad) => q.input));
    oldOutput := SumOf(StoredOf(d, matched, (q: Quad) => q.output));
    newOutput := SumOf(SourceOf(s, matched, (q: Quad) => q.output));
    cacheRead := SumOf(SourceOf(s, matched, (q: Quad) => q.cacheRead));
  }

  /** What the reported sums say of a complete source: every scoped row is in them, and a
      report made after the repair has the new sums for its old ones. */
  lemma SumsForetell(d: Detail, s: Stage, u: string, m: string, st: Stats, again: Stats)
    requires Scoped(d, u, m) <= s.Keys
    requires Sums(d, s, Matched(d, s, u, m), st)
    requires Sums(Updated(d, s, u, m), s, Matched(Updated(d, s, u, m), s, u, m), again)
    ensures again.oldInput == again.newInput == st.newInput
    ensures again.oldOutput == again.newOutput == st.newOutput
    ensures again.cacheRead == st.cacheRead
    ensures Sums(d, s, Scoped(d, u, m), st)
  {
    var after, scoped := Updated(d, s, u, m), Scoped(d, u, m);
    assert Matched(d, s, u, m) == scoped;
    assert Scoped(after, u, m) == scoped;
    assert Matched(after, s, u, m) == scoped;
    TakenOver(d, s, u, m, (q: Quad) => q.input);
    TakenOver(d, s, u, m, (q: Quad) => q.output);
  }

  lemma TakenOver(d: Detail, s: Stage, u: string, m: string, column: Quad -> int)
    requires Scoped(d, u, m) <= s.Keys
    ensures StoredOf(Updated(d, s, u, m), Scoped(d, u, m), column) == SourceOf(s, Scoped(d, u, m), column)
  {
    var after, scoped := Updated(d, s, u, m), Scoped(d, u, m);
    forall k ensures SameAt(StoredOf(after, scoped, column), SourceOf(s, scoped, column), k) {
      if k in scoped { assert QuadOf(after[k].tokens) == s[k]; }
    }
    SameMaps(StoredOf(after, scoped, column), SourceOf(s, scoped, column));
  }

  method QueryStats(d: Detail, s: Stage, u: string, m: string) returns (st: Stats)
    ensures Reports(d, s, u, m, st) && Sums(d, s, Matched(d, s, u, m), st)
  {
    var scoped, matched, changed := Scoped(d, u, m), Matched(d, s, u, m), Changed(d, s, u, m);
    var from, to := Bounds(d, changed);
    var oldInput, newInput, oldOutput, newOutput, cacheRead := QuerySums(d, s, matched);
    st := Stats(|s|, |scoped|, |matched|, |changed|, |scoped - s.Keys|, |s.Keys - scoped|,
                oldInput, newInput, oldOutput, newOutput, cacheRead, from, to);
  }

  function Validate(st: Stats): Option<RepairError> {
    if st.missingSource > 0 then Some(IncompleteSource)
    else if st.changed > 0 && (st.from.None? || st.to.None?) then Some(NoRange)
    else None
  }

  /** The error a run reports, and whether it writes. */
  function Verdict(st: Stats, apply: bool): (Option<RepairError>, bool) {
    if !apply then (None, false)
    else if Validate(st).Some? then (Validate(st), false)
    else (None, st.changed > 0)
  }

  /** A dry run never fails; an applied run fails exactly on incomplete source
      and writes exactly when some row differs. */
  lemma VerdictMeans(d: Detail, s: Stage, u: string, m: string, st: Stats, apply: bool)
    requires Reports(d, s, u, m, st)
    ensures Verdict(st, apply).0 == Some(IncompleteSource) <==> apply && !(Scoped(d, u, m) <= s.Keys)
    ensures Verdict(st, apply).0 == None || Verdict(st, apply).0 == Some(IncompleteSource)
    ensures Verdict(st, apply).1 <==> apply && Scoped(d, u, m) <= s.Keys && Changed(d, s, u, m) != {}
    ensures Verdict(st, apply).1 ==> st.from.Some? && st.to.Some?
  {
    ReportIdentities(d, s, u, m, st);
    DifferenceEmpty(Scoped(d, u, m), s.Keys);
  }

  lemma DifferenceEmpty<T>(a: set<T>, b: set<T>)
    ensures a <= b <==> |a - b| == 0
  {
    forall x | x in a ensures x in b || x in a - b { }
  }

  /** Nothing is written unless the verdict says so; a write is the whole repair. */
  method RepairCodexUsage(store: Store.Store, userId: string, machineId: string, records: seq<UsageRecord>, apply: bool)
    returns (out: Outcome)
    modifies store
    ensures userId == "" || machineId == "" ==> out == Outcome(None, Some(MissingScope), false)
    ensures !(userId == "" || machineId == "") ==>
      && out.stats.Some?
      && Reports(old(store.usageDetail), Staged(records), userId, machineId, out.stats.value)
      && Sums(old(store.usageDetail), Staged(records),
              Matched(old(store.usageDetail), Staged(records), userId, machineId), out.stats.value)
      && (out.error, out.applied) == Verdict(out.stats.value, apply)
    ensures !out.applied ==> store.Contents() == old(store.Contents())
    ensures out.applied ==>
      && out.stats.Some? && out.stats.value.from.Some? && out.stats.value.to.Some?
      && store.Contents() == Repaired(old(store.Contents()), Staged(records), userId, machineId, out.stats.value)
  {
    if userId == "" || machineId == "" {
      return Outcome(None, Some(MissingScope), false);
    }
    var st := QueryStats(store.usageDetail, Staged(records), userId, machineId);
    if !apply {
      return Outcome(Some(st), None, false);
    }
    var err := Validate(st);
    if err.Some? || st.changed == 0 {
      return Outcome(Some(st), err, false);
    }
    VerdictMeans(store.usageDetail, Staged(records), userId, machineId, st, apply);
    Apply(store, Staged(records), userId, machineId, st);
    return Outcome(Some(st), None, true);
  }

  method Apply(store: Store.Store, stage: Stage, userId: string, machineId: string, st: Stats)
    requires st.from.Some? && st.to.Some?
    modifies store
    ensures store.Contents() == Repaired(old(store.Contents()), stage, userId, machineId, st)
  {
    store.usageDetail := Updated(store.usageDetail, stage, userId, machineId);
    var _ := store.RebuildDaily(st.from.value, st.to.value);
  }

  // ----- whole histories of the store -------------------------------------

  /** One committed write, whoever issued it. */
  datatype Write =
    | Usage(userId: string, machineId: string, recs: seq<UsageRecord>)
    | Edits(userId: string, machineId: string, edits: seq<EditRecord>)
    | Rebuild(from: int, to: int)
    | CodexRepair(userId: string, machineId: string, records: seq<UsageRecord>, stats: Stats)

  ghost predicate Admits(t: Tables, w: Write)
  {
    w.CodexRepair? ==>
      Reports(t.usage, Staged(w.records), w.userId, w.machineId, w.stats) && w.stats.from.Some? && w.stats.to.Some?
  }

  ghost function After(t: Tables, w: Write): Tables
    requires Admits(t, w)
  {
    match w
    case Usage(u, m, recs) => InsertUsage(t, u, m, recs)
    case Edits(u, m, edits) => InsertEdits(t, u, m, edits)
    case Rebuild(from, to) => t.(daily := Rebuilt(t.usage, t.daily, DayOf(from), DayOf(to)))
    case CodexRepair(u, m, records, st) => Repaired(t, Staged(records), u, m, st)
  }

  ghost predicate History(t: Tables, ws: seq<Write>, end: Tables)
    decreases |ws|
  {
    if ws == [] then end == t
    else Admits(t, ws[0]) && History(After(t, ws[0]), ws[1..], end)
  }

  /** After any sequence of inserts, rebuilds and applied repairs, each rollup is
      the group-by of its detail table in every column. */
  lemma {:induction false} HistoryKeepsView(t: Tables, ws: seq<Write>, end: Tables)
    requires InView(t) && History(t, ws, end)
    ensures InView(end)
    decreases |ws|
  {
    if ws != [] {
      WriteKeepsView(t, ws[0]);
      HistoryKeepsView(After(t, ws[0]), ws[1..], end);
    }
  }

  lemma WriteKeepsView(t: Tables, w: Write)
    requires InView(t) && Admits(t, w)
    ensures InView(After(t, w))
  {
    match w
    case Usage(u, m, recs) => InsertUsageKeepsView(t, u, m, recs);
    case Edits(u, m, edits) => InsertEditsKeepsView(t, u, m, edits);
    case Rebuild(from, to) => RebuiltRestores(t.usage, t.daily, DayOf(from), DayOf(to));
    case CodexRepair(u, m, records, st) => RepairKeepsView(t, Staged(records), u, m, st);
  }
}
