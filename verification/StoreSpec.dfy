/** The server's tables as values, and what each writing statement does to them. */
module StoreSpec {
  import opened Types
  import opened Dedup
  import opened GroupSum
  import opened Rollup

  datatype Tables = Tables(usage: Detail, daily: Daily, edits: EditDetail, editDaily: EditDaily)

  const NO_TABLES := Tables(map[], map[], map[], map[])

  /** The invariant of the store: each rollup is the group-by of its detail. */
  ghost predicate InView(t: Tables)
  {
    t.daily == DailyOf(t.usage) && t.editDaily == EditDailyOf(t.edits)
  }

  const DEFAULT_TOOL := "claude-code"

  function OrElse(s: string, fallback: string): string { if s == "" then fallback else s }

  /** One element of the unpacked JSON payload as a typed row. */
  function UsageRowOf(userId: string, machineId: string, r: UsageRecord): (UsageKey, UsageRow) {
    (UsageKey(r.messageId, r.requestId),
     UsageRow(r.sessionId, userId, machineId, OrElse(r.tool, DEFAULT_TOOL), r.model, r.timestamp,
              Tokens(r.inputTokens, r.outputTokens, r.cacheCreationTokens,
                     Min(r.cacheCreation1hTokens, r.cacheCreationTokens), r.cacheReadTokens),
              r.projectPath))
  }

  function EditRowOf(userId: string, machineId: string, e: EditRecord): (string, EditRow) {
    (e.eventId,
     EditRow(e.sessionId, userId, machineId, OrElse(e.tool, DEFAULT_TOOL), OrElse(e.lang, "other"),
             e.timestamp, e.linesAdded, e.linesRemoved, e.projectPath))
  }

  /** The `input` rowset: records without an id are left out. */
  function UsageRows(userId: string, machineId: string, recs: seq<UsageRecord>): seq<(UsageKey, UsageRow)> {
    if recs == [] then []
    else
      (if recs[0].messageId == "" then [] else [UsageRowOf(userId, machineId, recs[0])])
      + UsageRows(userId, machineId, recs[1..])
  }

  function EditRows(userId: string, machineId: string, edits: seq<EditRecord>): seq<(string, EditRow)> {
    if edits == [] then []
    else
      (if edits[0].eventId == "" then [] else [EditRowOf(userId, machineId, edits[0])])
      + EditRows(userId, machineId, edits[1..])
  }

  /** The rows of `after` that were not in `before`: what RETURNING yields. */
  function New<K(==), V>(before: map<K, V>, after: map<K, V>): map<K, V> { after - before.Keys }

  /** insertSQL on unpacked rows: dedup into the detail table, roll only the new
      rows up. */
  ghost function InsertRows(t: Tables, rows: seq<(UsageKey, UsageRow)>): Tables {
    var usage := Absorb(t.usage, rows);
    t.(usage := usage, daily := Merge(UsageView(), t.daily, DailyOf(New(t.usage, usage))))
  }

  ghost function InsertUsage(t: Tables, userId: string, machineId: string, recs: seq<UsageRecord>): Tables {
    InsertRows(t, UsageRows(userId, machineId, recs))
  }

  /** editInsertSQL. */
  ghost function InsertEdits(t: Tables, userId: string, machineId: string, edits: seq<EditRecord>): Tables {
    var rows := Absorb(t.edits, EditRows(userId, machineId, edits));
    t.(edits := rows, editDaily := Merge(EditView(), t.editDaily, EditDailyOf(New(t.edits, rows))))
  }

  lemma NewSplits<K, V>(before: map<K, V>, after: map<K, V>)
    requires Within(before, after)
    ensures Splits(after, before, New(before, after))
  {
  }

  /** Rolling only the accepted rows up keeps the rollups exact, with duplicates
      inside the batch, across batches, or none. */
  lemma InsertUsageKeepsView(t: Tables, userId: string, machineId: string, recs: seq<UsageRecord>)
    requires InView(t)
    ensures InView(InsertUsage(t, userId, machineId, recs))
  {
    var rows := UsageRows(userId, machineId, recs);
    var usage := Absorb(t.usage, rows);
    AbsorbGrows(t.usage, rows);
    NewSplits(t.usage, usage);
    UsageLawful();
    GroupByUnion(UsageView(), usage, t.usage, New(t.usage, usage));
  }

  lemma InsertEditsKeepsView(t: Tables, userId: string, machineId: string, edits: seq<EditRecord>)
    requires InView(t)
    ensures InView(InsertEdits(t, userId, machineId, edits))
  {
    var rows := EditRows(userId, machineId, edits);
    var after := Absorb(t.edits, rows);
    AbsorbGrows(t.edits, rows);
    NewSplits(t.edits, after);
    EditLawful();
    GroupByUnion(EditView(), after, t.edits, New(t.edits, after));
  }

  lemma {:induction false} UsageRowsAppend(u: string, m: string, a: seq<UsageRecord>, b: seq<UsageRecord>)
    ensures UsageRows(u, m, a + b) == UsageRows(u, m, a) + UsageRows(u, m, b)
  {
    if a == [] {
      assert a + b == b;
    } else {
      assert (a + b)[1..] == a[1..] + b;
      UsageRowsAppend(u, m, a[1..], b);
    }
  }

  lemma {:induction false} EditRowsAppend(u: string, m: string, a: seq<EditRecord>, b: seq<EditRecord>)
    ensures EditRows(u, m, a + b) == EditRows(u, m, a) + EditRows(u, m, b)
  {
    if a == [] {
      assert a + b == b;
    } else {
      assert (a + b)[1..] == a[1..] + b;
      EditRowsAppend(u, m, a[1..], b);
    }
  }

  /** Batch homomorphism: two requests are one, in every table. */
  lemma InsertUsageAppend(t: Tables, u: string, m: string, a: seq<UsageRecord>, b: seq<UsageRecord>)
    requires InView(t)
    ensures InsertUsage(t, u, m, a + b) == InsertUsage(InsertUsage(t, u, m, a), u, m, b)
  {
    UsageRowsAppend(u, m, a, b);
    AbsorbAppend(t.usage, UsageRows(u, m, a), UsageRows(u, m, b));
    InsertUsageKeepsView(t, u, m, a + b);
    InsertUsageKeepsView(t, u, m, a);
    InsertUsageKeepsView(InsertUsage(t, u, m, a), u, m, b);
  }

  lemma InsertEditsAppend(t: Tables, u: string, m: string, a: seq<EditRecord>, b: seq<EditRecord>)
    requires InView(t)
    ensures InsertEdits(t, u, m, a + b) == InsertEdits(InsertEdits(t, u, m, a), u, m, b)
  {
    EditRowsAppend(u, m, a, b);
    AbsorbAppend(t.edits, EditRows(u, m, a), EditRows(u, m, b));
    InsertEditsKeepsView(t, u, m, a + b);
    InsertEditsKeepsView(t, u, m, a);
    InsertEditsKeepsView(InsertEdits(t, u, m, a), u, m, b);
  }

  /** Re-sending a batch that was stored already changes no table at all. */
  lemma InsertTwice(t: Tables, u: string, m: string, recs: seq<UsageRecord>)
    requires InView(t)
    ensures InsertUsage(InsertUsage(t, u, m, recs), u, m, recs) == InsertUsage(t, u, m, recs)
  {
    var rows := UsageRows(u, m, recs);
    ResendConverges(t.usage, rows, rows);
    InsertUsageKeepsView(t, u, m, recs);
    InsertUsageKeepsView(InsertUsage(t, u, m, recs), u, m, recs);
  }
}
