/** Ingest statements and daily rebuilds running against each other.

    Isolation rules modelled (READ COMMITTED): every statement reads the tables
    as committed when it starts; a row a transaction wrote stays locked until it
    ends; ON CONFLICT arms and DELETE wait for a row another open transaction
    wrote and then act on its newest committed version, also when the statement's
    snapshot is older; a plain INSERT that meets a live row is a unique violation
    and aborts its transaction; DELETE follows updates of a row it saw but not its
    replacement by a new row. A transaction may abort at any step. The repair
    takes table locks that conflict with both writers, so it runs alone. */
module Concurrent {
  import opened Types
  import opened Dedup
  import opened GroupSum
  import opened Rollup
  import opened StoreSpec
  import Repair

  /** A physical row of usage_daily; an update keeps the id, a new row gets its own. */
  datatype DailyRow = DailyRow(id: nat, roll: Roll)

  datatype Write = Deleted | Put(row: DailyRow)

  type Rows = seq<(UsageKey, UsageRow)>

  /** Open transactions, by the statement they are in. A rebuild remembers the rows its
      DELETE saw, by their ids. */
  datatype Tx =
    | Loading(rows: Rows, next: nat, ins: Detail)
    | Rolling(rows: Rows, ins: Detail, todo: set<DayKey>, writes: map<DayKey, Write>)
    | Deleting(from: int, to: int, snapshot: map<DayKey, nat>, seen: map<DayKey, nat>, writes: map<DayKey, Write>)
    | Filling(from: int, to: int, snapshot: map<DayKey, nat>, aggregate: Daily, todo: set<DayKey>,
              writes: map<DayKey, Write>)

  /** The committed tables and the open transactions. */
  datatype Db = Db(detail: Detail, daily: map<DayKey, DailyRow>, nextId: nat, txs: map<nat, Tx>)

  datatype Step =
    | StartInsert(t: nat, rows: Rows)
    | LoadRow(t: nat)
    | StartRoll(t: nat)
    | UpsertRow(t: nat, k: DayKey)
    | CommitInsert(t: nat)
    | StartRebuild(t: nat, from: int, to: int)
    | DeleteRow(t: nat, k: DayKey)
    | TakeAggregate(t: nat)
    | FillRow(t: nat, k: DayKey)
    | CommitRebuild(t: nat)
    | Abort(t: nat)
    | CodexRepair(userId: string, machineId: string, stage: Repair.Stage, stats: Repair.Stats)

  function Locks(tx: Tx): set<DayKey> { if tx.Loading? then {} else tx.writes.Keys }

  function Reserved(tx: Tx): set<UsageKey> { if tx.Loading? || tx.Rolling? then tx.ins.Keys else {} }

  ghost predicate Unlocked(db: Db, t: nat, k: DayKey) {
    forall o | o in db.txs && o != t :: k !in Locks(db.txs[o])
  }

  ghost predicate Unreserved(db: Db, t: nat, key: UsageKey) {
    forall o | o in db.txs && o != t :: key !in Reserved(db.txs[o])
  }

  function Rolls(daily: map<DayKey, DailyRow>): Daily { map k | k in daily :: daily[k].roll }

  function AsRows(id: nat, daily: Daily): map<DayKey, DailyRow> { map k | k in daily :: DailyRow(id, daily[k]) }

  /** Committing a set of writes. */
  function Committed(daily: map<DayKey, DailyRow>, writes: map<DayKey, Write>): map<DayKey, DailyRow> {
    map k | k in daily.Keys + writes.Keys && (k in writes ==> writes[k].Put?) ::
      if k in writes then writes[k].row else daily[k]
  }

  ghost predicate Enabled(db: Db, s: Step) {
    match s
    case StartInsert(t, _) => t !in db.txs
    case StartRebuild(t, _, _) => t !in db.txs
    case Abort(t) => t in db.txs
    case LoadRow(t) =>
      && t in db.txs && db.txs[t].Loading? && db.txs[t].next < |db.txs[t].rows|
      && Unreserved(db, t, db.txs[t].rows[db.txs[t].next].0)
    case StartRoll(t) => t in db.txs && db.txs[t].Loading? && db.txs[t].next == |db.txs[t].rows|
    case UpsertRow(t, k) => t in db.txs && db.txs[t].Rolling? && k in db.txs[t].todo && Unlocked(db, t, k)
    case CommitInsert(t) => t in db.txs && db.txs[t].Rolling? && db.txs[t].todo == {}
    case DeleteRow(t, k) => t in db.txs && db.txs[t].Deleting? && k in db.txs[t].seen && Unlocked(db, t, k)
    case TakeAggregate(t) => t in db.txs && db.txs[t].Deleting? && db.txs[t].seen == map[]
    case FillRow(t, k) =>
      t in db.txs && db.txs[t].Filling? && k in db.txs[t].todo && k in db.txs[t].aggregate && Unlocked(db, t, k)
    case CommitRebuild(t) => t in db.txs && db.txs[t].Filling? && db.txs[t].todo == {}
    case CodexRepair(u, m, stage, st) =>
      db.txs == map[] && Repair.Reports(db.detail, stage, u, m, st) && st.from.Some? && st.to.Some?
  }

  /** What an upsert of `delta` leaves at `k`. */
  function RollAfter(daily: map<DayKey, DailyRow>, k: DayKey, delta: Roll): Roll {
    if k in daily then AddRoll(daily[k].roll, delta) else delta
  }

  function Upserted(db: Db, k: DayKey, delta: Roll): DailyRow {
    DailyRow(if k in db.daily then db.daily[k].id else db.nextId, RollAfter(db.daily, k, delta))
  }

  ghost function NextTx(db: Db, s: Step): Tx
    requires Enabled(db, s)
    requires !(s.CommitInsert? || s.CommitRebuild? || s.Abort? || s.CodexRepair?)
    requires !Violates(db, s)
  {
    match s
    case StartInsert(_, rows) => Loading(rows, 0, map[])
    case LoadRow(t) =>
      var tx := db.txs[t];
      var (key, row) := tx.rows[tx.next];
      Loading(tx.rows, tx.next + 1, if key in db.detail || key in tx.ins then tx.ins else tx.ins[key := row])
    case StartRoll(t) =>
      var tx := db.txs[t];
      Rolling(tx.rows, tx.ins, DayGroups(tx.ins), map[])
    case UpsertRow(t, k) =>
      var tx := db.txs[t];
      Rolling(tx.rows, tx.ins, tx.todo - {k}, tx.writes[k := Put(Upserted(db, k, Roll0(tx.ins, k)))])
    case StartRebuild(_, from, to) =>
      var snapshot := map k | k in db.daily && from <= k.day <= to :: db.daily[k].id;
      Deleting(from, to, snapshot, snapshot, map[])
    case DeleteRow(t, k) =>
      var tx := db.txs[t];
      Deleting(tx.from, tx.to, tx.snapshot, tx.seen - {k},
               if k in db.daily && db.daily[k].id == tx.seen[k] then tx.writes[k := Deleted] else tx.writes)
    case TakeAggregate(t) =>
      var tx := db.txs[t];
      var aggregate := DailyOf(InDays(db.detail, tx.from, tx.to));
      Filling(tx.from, tx.to, tx.snapshot, aggregate, aggregate.Keys, tx.writes)
    case FillRow(t, k) =>
      var tx := db.txs[t];
      Filling(tx.from, tx.to, tx.snapshot, tx.aggregate, tx.todo - {k},
              tx.writes[k := Put(DailyRow(db.nextId, tx.aggregate[k]))])
  }

  /** A rebuild's INSERT meets a live row: one it did not delete itself. */
  ghost predicate Violates(db: Db, s: Step)
    requires Enabled(db, s)
  {
    s.FillRow? && s.k in db.daily && (s.k in db.txs[s.t].writes ==> db.txs[s.t].writes[s.k].Put?)
  }

  ghost function Do(db: Db, s: Step): Db
    requires Enabled(db, s)
  {
    if s.Abort? || Violates(db, s) then db.(txs := db.txs - {s.t})
    else if s.CommitInsert? then
      Db(db.detail + db.txs[s.t].ins, Committed(db.daily, db.txs[s.t].writes), db.nextId, db.txs - {s.t})
    else if s.CommitRebuild? then
      db.(daily := Committed(db.daily, db.txs[s.t].writes), txs := db.txs - {s.t})
    else if s.CodexRepair? then
      var after := Repair.Repaired(Abs(db, map[], map[]), s.stage, s.userId, s.machineId, s.stats);
      db.(detail := after.usage, daily := AsRows(db.nextId, after.daily),
          nextId := db.nextId + 1)
    else db.(txs := db.txs[s.t := NextTx(db, s)], nextId := db.nextId + 1)
  }

  /** What a reader of the committed tables sees. */
  function Abs(db: Db, edits: EditDetail, editDaily: EditDaily): Tables {
    Tables(db.detail, Rolls(db.daily), edits, editDaily)
  }

  // ----- the invariant ----------------------------------------------------

  ghost predicate TxOk(detail: Detail, daily: map<DayKey, DailyRow>, tx: Tx) {
    match tx
    case Loading(rows, next, ins) => next <= |rows| && ins == New(detail, First(rows[..next]))
    case Rolling(rows, ins, todo, writes) => RollingOk(detail, daily, rows, ins, todo, writes)
    case Deleting(from, to, _, seen, writes) => DeletingOk(daily, from, to, seen, writes)
    case Filling(_, _, _, aggregate, todo, writes) => FillingOk(detail, daily, aggregate, todo, writes)
  }

  ghost predicate RollingOk(detail: Detail, daily: map<DayKey, DailyRow>, rows: Rows, ins: Detail,
                            todo: set<DayKey>, writes: map<DayKey, Write>) {
    && ins == New(detail, First(rows))
    && (forall k :: k in DayGroups(ins) <==> k in todo || k in writes)
    && (forall k | k in writes :: writes[k].Put? && RolledUp(daily, ins, k, writes[k].row.roll))
  }

  ghost predicate DeletingOk(daily: map<DayKey, DailyRow>, from: int, to: int, seen: map<DayKey, nat>,
                             writes: map<DayKey, Write>)
  {
    && (forall k | k in seen :: from <= k.day <= to)
    && (forall k | k in writes :: writes[k].Deleted? && k in daily && from <= k.day <= to)
  }

  ghost predicate FillingOk(detail: Detail, daily: map<DayKey, DailyRow>, aggregate: Daily,
                            todo: set<DayKey>, writes: map<DayKey, Write>) {
    && (forall k | k in todo :: k in aggregate && k in daily)
    && (forall k | k in writes :: Refilled(detail, daily, aggregate, todo, k, writes[k]))
  }

  ghost predicate RolledUp(daily: map<DayKey, DailyRow>, ins: Detail, k: DayKey, r: Roll) {
    r == RollAfter(daily, k, Roll0(ins, k))
  }

  /** A deleted row waits to be filled, a filled one carries its exact group. */
  ghost predicate Refilled(detail: Detail, daily: map<DayKey, DailyRow>, aggregate: Daily, todo: set<DayKey>,
                           k: DayKey, w: Write)
  {
    && k in daily && k in aggregate && aggregate[k] == Roll0(detail, k)
    && (w.Deleted? <==> k in todo)
    && (w.Put? ==> w.row.roll == aggregate[k])
  }

  ghost predicate Apart(a: Tx, b: Tx) {
    && (forall k | k in Locks(a) :: k !in Locks(b))
    && (forall key | key in Reserved(a) :: key !in Reserved(b))
  }

  ghost predicate Inv(db: Db) {
    && Rolls(db.daily) == DailyOf(db.detail)
    && (forall t | t in db.txs :: TxOk(db.detail, db.daily, db.txs[t]))
    && (forall t, o | t in db.txs && o in db.txs && t != o :: Apart(db.txs[t], db.txs[o]))
  }

  // ----- steps that only touch their own transaction ------------------------

  /** `tx` can stand in the place of transaction `t`. */
  ghost predicate Fits(db: Db, t: nat, tx: Tx) {
    && TxOk(db.detail, db.daily, tx)
    && (forall o | o in db.txs && o != t :: Apart(tx, db.txs[o]))
  }

  lemma OwnStep(db: Db, s: Step)
    requires Inv(db) && Enabled(db, s)
    requires !(s.CommitInsert? || s.CommitRebuild? || s.Abort? || s.CodexRepair?) && !Violates(db, s)
    requires Fits(db, s.t, NextTx(db, s))
    ensures Inv(Do(db, s))
  {
  }

  /** A transaction that locks or reserves at most what it waited for stays apart. */
  lemma StaysApart(db: Db, t: nat, tx': Tx, locks: set<DayKey>, keys: set<UsageKey>)
    requires Inv(db) && t in db.txs && TxOk(db.detail, db.daily, tx')
    requires Locks(tx') <= Locks(db.txs[t]) + locks && Reserved(tx') <= Reserved(db.txs[t]) + keys
    requires forall k | k in locks :: Unlocked(db, t, k)
    requires forall key | key in keys :: Unreserved(db, t, key)
    ensures Fits(db, t, tx')
  {
    forall o | o in db.txs && o != t ensures Apart(tx', db.txs[o]) {
      assert Apart(db.txs[t], db.txs[o]);
    }
  }

  lemma LoadRowOk(db: Db, s: Step)
    requires Inv(db) && Enabled(db, s) && s.LoadRow?
    ensures Inv(Do(db, s))
  {
    var tx, tx' := db.txs[s.t], NextTx(db, s);
    LoadOne(db.detail, tx.rows, tx.next, tx.ins);
    StaysApart(db, s.t, tx', {}, {tx.rows[tx.next].0});
    OwnStep(db, s);
  }

  lemma LoadOne(detail: Detail, rows: Rows, next: nat, ins: Detail)
    requires next < |rows| && ins == New(detail, First(rows[..next]))
    ensures var (key, row) := rows[next];
            New(detail, First(rows[..next + 1])) == if key in detail || key in ins then ins else ins[key := row]
  {
    var (key, row) := rows[next];
    assert rows[..next + 1] == rows[..next] + [(key, row)];
    AbsorbAppend(map[], rows[..next], [(key, row)]);
  }

  lemma StartRollOk(db: Db, s: Step)
    requires Inv(db) && Enabled(db, s) && s.StartRoll?
    ensures Inv(Do(db, s))
  {
    var tx := db.txs[s.t];
    assert tx.rows[..tx.next] == tx.rows;
    StaysApart(db, s.t, NextTx(db, s), {}, {});
    OwnStep(db, s);
  }

  lemma UpsertRowOk(db: Db, s: Step)
    requires Inv(db) && Enabled(db, s) && s.UpsertRow?
    ensures Inv(Do(db, s))
  {
    UpsertFits(db, s);
    OwnStep(db, s);
  }

  lemma UpsertFits(db: Db, s: Step)
    requires Inv(db) && Enabled(db, s) && s.UpsertRow?
    ensures Fits(db, s.t, NextTx(db, s))
  {
    var tx := db.txs[s.t];
    var row := Upserted(db, s.k, Roll0(tx.ins, s.k));
    UpsertTx(db, s.k, tx);
    UpsertLocks(tx, s.k, row);
    StaysApart(db, s.t, Rolling(tx.rows, tx.ins, tx.todo - {s.k}, tx.writes[s.k := Put(row)]), {s.k}, {});
  }

  lemma UpsertLocks(tx: Tx, k: DayKey, row: DailyRow)
    requires tx.Rolling?
    ensures var tx' := Rolling(tx.rows, tx.ins, tx.todo - {k}, tx.writes[k := Put(row)]);
            Locks(tx') == Locks(tx) + {k} && Reserved(tx') == Reserved(tx)
  {
  }

  lemma UpsertTx(db: Db, k: DayKey, tx: Tx)
    requires tx.Rolling? && TxOk(db.detail, db.daily, tx) && k in tx.todo
    ensures TxOk(db.detail, db.daily,
                 Rolling(tx.rows, tx.ins, tx.todo - {k}, tx.writes[k := Put(Upserted(db, k, Roll0(tx.ins, k)))]))
  {
    Upserts(db.detail, db.daily, tx, k, Upserted(db, k, Roll0(tx.ins, k)));
  }

  lemma Upserts(detail: Detail, daily: map<DayKey, DailyRow>, tx: Tx, k: DayKey, row: DailyRow)
    requires tx.Rolling? && TxOk(detail, daily, tx) && k in tx.todo && RolledUp(daily, tx.ins, k, row.roll)
    ensures TxOk(detail, daily, Rolling(tx.rows, tx.ins, tx.todo - {k}, tx.writes[k := Put(row)]))
  {
    var todo', writes', groups := tx.todo - {k}, tx.writes[k := Put(row)], DayGroups(tx.ins);
    forall j ensures j in groups <==> j in todo' || j in writes' {
      assert j in groups <==> j in tx.todo || j in tx.writes;
    }
    forall j | j in writes' ensures writes'[j].Put? && RolledUp(daily, tx.ins, j, writes'[j].row.roll) {
      if j != k {
        assert writes'[j] == tx.writes[j];
      }
    }
  }

  lemma DeleteRowOk(db: Db, s: Step)
    requires Inv(db) && Enabled(db, s) && s.DeleteRow?
    ensures Inv(Do(db, s))
  {
    StaysApart(db, s.t, NextTx(db, s), {s.k}, {});
    OwnStep(db, s);
  }

  lemma TakeAggregateOk(db: Db, s: Step)
    requires Inv(db) && Enabled(db, s) && s.TakeAggregate?
    ensures Inv(Do(db, s))
  {
    var tx, tx' := db.txs[s.t], NextTx(db, s);
    forall k | k in tx'.writes
      ensures Refilled(db.detail, db.daily, tx'.aggregate, tx'.todo, k, tx'.writes[k])
    {
      assert k in Rolls(db.daily);
      FreshIsExact(db.detail, tx.from, tx.to, k);
    }
    forall k | k in tx'.todo ensures k in db.daily {
      FreshIsExact(db.detail, tx.from, tx.to, k);
      assert k in Rolls(db.daily);
    }
    StaysApart(db, s.t, tx', {}, {});
    OwnStep(db, s);
  }

  lemma FillRowOk(db: Db, s: Step)
    requires Inv(db) && Enabled(db, s) && s.FillRow? && !Violates(db, s)
    ensures Inv(Do(db, s))
  {
    var tx, tx' := db.txs[s.t], NextTx(db, s);
    assert TxOk(db.detail, db.daily, tx);
    assert Refilled(db.detail, db.daily, tx.aggregate, tx.todo, s.k, tx.writes[s.k]);
    FillTx(db.detail, db.daily, tx, s.k, db.nextId);
    StaysApart(db, s.t, tx', {s.k}, {});
    OwnStep(db, s);
  }

  lemma FillTx(detail: Detail, daily: map<DayKey, DailyRow>, tx: Tx, k: DayKey, id: nat)
    requires tx.Filling? && TxOk(detail, daily, tx) && k in tx.todo && k in tx.writes
    ensures TxOk(detail, daily, Filling(tx.from, tx.to, tx.snapshot, tx.aggregate, tx.todo - {k},
                                        tx.writes[k := Put(DailyRow(id, tx.aggregate[k]))]))
  {
    var writes' := tx.writes[k := Put(DailyRow(id, tx.aggregate[k]))];
    forall j | j in writes'
      ensures Refilled(detail, daily, tx.aggregate, tx.todo - {k}, j, writes'[j])
    {
      assert Refilled(detail, daily, tx.aggregate, tx.todo, j, tx.writes[j]);
    }
  }

  lemma StartFits(db: Db, s: Step)
    requires Inv(db) && Enabled(db, s) && (s.StartInsert? || s.StartRebuild?)
    ensures Fits(db, s.t, NextTx(db, s))
  {
    assert First<UsageKey, UsageRow>([]) == map[];
  }

  lemma StartOk(db: Db, s: Step)
    requires Inv(db) && Enabled(db, s) && (s.StartInsert? || s.StartRebuild?)
    ensures Inv(Do(db, s))
  {
    StartFits(db, s);
    OwnStep(db, s);
  }

  // ----- steps that change the committed tables -----------------------------

  lemma AbortOk(db: Db, t: nat)
    requires Inv(db) && t in db.txs
    ensures Inv(db.(txs := db.txs - {t}))
  {
  }

  /** A commit of the tables that every other transaction can live with. */
  lemma CommitStep(db: Db, t: nat, detail: Detail, daily: map<DayKey, DailyRow>)
    requires Inv(db) && t in db.txs
    requires Rolls(daily) == DailyOf(detail)
    requires forall o | o in db.txs && o != t :: TxOk(detail, daily, db.txs[o])
    ensures Inv(Db(detail, daily, db.nextId, db.txs - {t}))
  {
  }

  /** A commit does not disturb what another transaction computed, because the
      rows and keys it depends on are locked. */
  lemma OthersKeep(detail: Detail, daily: map<DayKey, DailyRow>, detail': Detail, daily': map<DayKey, DailyRow>, tx: Tx)
    requires TxOk(detail, daily, tx)
    requires Within(detail, detail')
    requires forall key | key in detail' && key !in detail :: key !in Reserved(tx)
    requires forall key | key in detail' && key !in detail :: KeyOf(detail'[key]) !in Locks(tx)
    requires forall k | k in daily :: k in daily'
    requires forall k | k in Locks(tx) :: (k in daily' ==> k in daily) && (k in daily ==> daily'[k] == daily[k])
    ensures TxOk(detail', daily', tx)
  {
    match tx
    case Loading(rows, next, ins) => StillNew(detail, detail', First(rows[..next]));
    case Rolling(rows, ins, todo, writes) =>
      StillNew(detail, detail', First(rows));
      forall k | k in writes ensures RolledUp(daily', ins, k, writes[k].row.roll) {
        assert RolledUp(daily, ins, k, writes[k].row.roll);
      }
    case Deleting(from, to, _, seen, writes) =>
    case Filling(from, to, _, aggregate, todo, writes) =>
      forall k | k in writes ensures Refilled(detail', daily', aggregate, todo, k, writes[k]) {
        GroupKeeps(detail, detail', k);
        assert Refilled(detail, daily, aggregate, todo, k, writes[k]);
      }
  }

  lemma GroupKeeps(detail: Detail, detail': Detail, k: DayKey)
    requires Within(detail, detail')
    requires forall key | key in detail' && key !in detail :: KeyOf(detail'[key]) != k
    ensures Roll0(detail, k) == Roll0(detail', k)
  {
    UsageLawful();
    TotalLocal(UsageView(), detail, detail', k);
  }

  lemma StillNew(detail: Detail, detail': Detail, f: Detail)
    requires Within(detail, detail')
    requires forall key | key in detail' && key !in detail :: key !in New(detail, f)
    ensures New(detail', f) == New(detail, f)
  {
  }

  /** Committing an insert adds exactly its rows and its deltas. */
  lemma InsertCommits(detail: Detail, daily: map<DayKey, DailyRow>, tx: Tx)
    requires TxOk(detail, daily, tx) && tx.Rolling? && tx.todo == {} && Rolls(daily) == DailyOf(detail)
    ensures detail + tx.ins == Absorb(detail, tx.rows)
    ensures New(detail, detail + tx.ins) == tx.ins
    ensures Rolls(Committed(daily, tx.writes)) == Merge(UsageView(), Rolls(daily), DailyOf(tx.ins))
    ensures Rolls(Committed(daily, tx.writes)) == DailyOf(detail + tx.ins)
  {
    AbsorbIsFirst(detail, tx.rows);
    UnionNew(detail, First(tx.rows));
    DeltasCommit(detail, daily, tx);
    UsageLawful();
    GroupByUnion(UsageView(), detail + tx.ins, detail, tx.ins);
  }

  lemma UnionNew(detail: Detail, f: Detail)
    ensures detail + New(detail, f) == f + detail
    ensures Splits(detail + New(detail, f), detail, New(detail, f))
    ensures New(detail, detail + New(detail, f)) == New(detail, f)
  {
  }

  lemma DeltasCommit(detail: Detail, daily: map<DayKey, DailyRow>, tx: Tx)
    requires TxOk(detail, daily, tx) && tx.Rolling? && tx.todo == {}
    ensures Rolls(Committed(daily, tx.writes)) == Merge(UsageView(), Rolls(daily), DailyOf(tx.ins))
  {
    var l, r := Rolls(Committed(daily, tx.writes)), Merge(UsageView(), Rolls(daily), DailyOf(tx.ins));
    forall k ensures SameAt(l, r, k) {
      DeltaAt(detail, daily, tx, k);
    }
    SameMaps(l, r);
  }

  lemma DeltaAt(detail: Detail, daily: map<DayKey, DailyRow>, tx: Tx, k: DayKey)
    requires TxOk(detail, daily, tx) && tx.Rolling? && tx.todo == {}
    ensures SameAt(Rolls(Committed(daily, tx.writes)), Merge(UsageView(), Rolls(daily), DailyOf(tx.ins)), k)
  {
    assert k in DayGroups(tx.ins) <==> k in tx.writes;
    if k in tx.writes {
      assert RolledUp(daily, tx.ins, k, tx.writes[k].row.roll);
    }
  }

  lemma CommitInsertOk(db: Db, s: Step)
    requires Inv(db) && Enabled(db, s) && s.CommitInsert?
    ensures Inv(Do(db, s))
  {
    var tx := db.txs[s.t];
    var detail', daily' := db.detail + tx.ins, Committed(db.daily, tx.writes);
    InsertCommits(db.detail, db.daily, tx);
    forall o | o in db.txs && o != s.t ensures TxOk(detail', daily', db.txs[o]) {
      assert Apart(tx, db.txs[o]);
      InsertSpares(db.detail, db.daily, tx, db.txs[o]);
    }
    CommitStep(db, s.t, detail', daily');
  }

  lemma InsertSpares(detail: Detail, daily: map<DayKey, DailyRow>, tx: Tx, other: Tx)
    requires TxOk(detail, daily, tx) && tx.Rolling? && tx.todo == {}
    requires TxOk(detail, daily, other) && Apart(tx, other)
    ensures TxOk(detail + tx.ins, Committed(daily, tx.writes), other)
  {
    forall key | key in tx.ins ensures KeyOf(tx.ins[key]) in tx.writes {
      assert KeyOf(tx.ins[key]) in DayGroups(tx.ins);
    }
    OthersKeep(detail, daily, detail + tx.ins, Committed(daily, tx.writes), other);
  }

  /** Committing a rebuild changes no aggregate: its rows were exact already and
      nobody could move them since it deleted them. */
  lemma RebuildCommits(detail: Detail, daily: map<DayKey, DailyRow>, tx: Tx)
    requires TxOk(detail, daily, tx) && tx.Filling? && tx.todo == {} && Rolls(daily) == DailyOf(detail)
    ensures Rolls(Committed(daily, tx.writes)) == Rolls(daily)
  {
    var l := Rolls(Committed(daily, tx.writes));
    forall k
      ensures k in l <==> k in daily
      ensures k in l ==> l[k] == daily[k].roll
    {
      if k in tx.writes {
        assert Refilled(detail, daily, tx.aggregate, tx.todo, k, tx.writes[k]);
        assert k in Rolls(daily) && Rolls(daily)[k] == Roll0(detail, k);
      }
    }
  }

  lemma CommitRebuildOk(db: Db, s: Step)
    requires Inv(db) && Enabled(db, s) && s.CommitRebuild?
    ensures Inv(Do(db, s))
  {
    var tx := db.txs[s.t];
    var daily' := Committed(db.daily, tx.writes);
    RebuildCommits(db.detail, db.daily, tx);
    assert daily'.Keys == Rolls(daily').Keys == Rolls(db.daily).Keys == db.daily.Keys;
    forall o | o in db.txs && o != s.t ensures TxOk(db.detail, daily', db.txs[o]) {
      assert Apart(tx, db.txs[o]);
      OthersKeep(db.detail, db.daily, db.detail, daily', db.txs[o]);
    }
    CommitStep(db, s.t, db.detail, daily');
  }

  lemma RepairOk(db: Db, s: Step)
    requires Inv(db) && Enabled(db, s) && s.CodexRepair?
    ensures Inv(Do(db, s))
    ensures Abs(Do(db, s), map[], map[])
         == Repair.Repaired(Abs(db, map[], map[]), s.stage, s.userId, s.machineId, s.stats)
  {
    var t := Abs(db, map[], map[]);
    assert InView(t);
    Repair.RepairKeepsView(t, s.stage, s.userId, s.machineId, s.stats);
    var after := Repair.Repaired(t, s.stage, s.userId, s.machineId, s.stats);
    RollsOfRows(db.nextId, after.daily);
  }

  lemma RollsOfRows(id: nat, daily: Daily)
    ensures Rolls(AsRows(id, daily)) == daily
  {
  }

  // ----- main results -------------------------------------------------------

  lemma StepKeepsInv(db: Db, s: Step)
    requires Inv(db) && Enabled(db, s)
    ensures Inv(Do(db, s))
  {
    if s.Abort? || Violates(db, s) { AbortOk(db, s.t); } else {
      match s
      case StartInsert(_, _) => StartOk(db, s);
      case StartRebuild(_, _, _) => StartOk(db, s);
      case LoadRow(_) => LoadRowOk(db, s);
      case StartRoll(_) => StartRollOk(db, s);
      case UpsertRow(_, _) => UpsertRowOk(db, s);
      case CommitInsert(_) => CommitInsertOk(db, s);
      case DeleteRow(_, _) => DeleteRowOk(db, s);
      case TakeAggregate(_) => TakeAggregateOk(db, s);
      case FillRow(_, _) => FillRowOk(db, s);
      case CommitRebuild(_) => CommitRebuildOk(db, s);
      case CodexRepair(_, _, _, _) => RepairOk(db, s);
      case Abort(_) =>
    }
  }

  /** Every step is invisible to readers, except that committing an insert has
      the effect of the whole batch inserted at that instant into the tables as
      they then are, and a repair that of a repair. A rebuild, committed or
      aborted on a unique violation, changes no aggregate. */
  lemma StepRefines(db: Db, s: Step, edits: EditDetail, editDaily: EditDaily)
    requires Inv(db) && Enabled(db, s)
    ensures
      var t, t' := Abs(db, edits, editDaily), Abs(Do(db, s), edits, editDaily);
      if s.CommitInsert? then t' == InsertRows(t, db.txs[s.t].rows)
      else if s.CodexRepair? then
        t' == Repair.Repaired(t, s.stage, s.userId, s.machineId, s.stats)
      else t' == t
  {
    if s.CommitInsert? {
      InsertCommits(db.detail, db.daily, db.txs[s.t]);
    } else if s.CommitRebuild? {
      RebuildCommits(db.detail, db.daily, db.txs[s.t]);
    } else if s.CodexRepair? {
      RepairOk(db, s);
    } else {
      Unseen(db, s);
    }
  }

  lemma Unseen(db: Db, s: Step)
    requires Enabled(db, s) && !s.CommitInsert? && !s.CommitRebuild? && !s.CodexRepair?
    ensures Do(db, s).detail == db.detail && Do(db, s).daily == db.daily
  {
  }

  ghost predicate Run(db: Db, steps: seq<Step>, end: Db)
    decreases |steps|
  {
    if steps == [] then end == db
    else Enabled(db, steps[0]) && Run(Do(db, steps[0]), steps[1..], end)
  }

  /** No interleaving of inserts, rebuilds, aborts and repairs ever shows a
      rollup that is not the group-by of the committed detail: no double count,
      no lost delta. */
  lemma {:induction false} AlwaysExact(db: Db, steps: seq<Step>, end: Db)
    requires Inv(db) && Run(db, steps, end)
    ensures Inv(end) && Rolls(end.daily) == DailyOf(end.detail)
    decreases |steps|
  {
    if steps != [] {
      StepKeepsInv(db, steps[0]);
      AlwaysExact(Do(db, steps[0]), steps[1..], end);
    }
  }
}
