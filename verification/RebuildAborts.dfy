/** When a daily rebuild fails: exactly when a group it is about to insert has a row that
    its DELETE did not see, because the row is new since then or took the place of one it
    saw. */
module RebuildAborts {
  import opened Types
  import opened GroupSum
  import opened Rollup
  import opened Concurrent

  // ----- what happened to the rows a rebuild saw ----------------------------------------------

  function Snapshot(tx: Tx): map<DayKey, nat> { if tx.Deleting? || tx.Filling? then tx.snapshot else map[] }

  function Puts(tx: Tx): map<DayKey, DailyRow> {
    if tx.Loading? then map[] else map k | k in tx.writes && tx.writes[k].Put? :: tx.writes[k].row
  }

  /** Of the rows seen, those passed by the DELETE are either locked as they were seen, or
      gone, or replaced by a row of another id. */
  ghost predicate Tracked(daily: map<DayKey, DailyRow>, nextId: nat, snapshot: map<DayKey, nat>, unseen: set<DayKey>,
                          writes: map<DayKey, Write>)
  {
    && (forall k | k in snapshot :: snapshot[k] < nextId)
    && (forall k | k in writes :: k in snapshot && k in daily && daily[k].id == snapshot[k])
    && (forall k | k in snapshot && k !in unseen && k !in writes && k in daily :: daily[k].id != snapshot[k])
  }

  ghost predicate TxTracked(daily: map<DayKey, DailyRow>, nextId: nat, tx: Tx) {
    && (forall k | k in Puts(tx) :: Puts(tx)[k].id < nextId)
    && match tx
       case Deleting(_, _, snapshot, seen, writes) =>
         && Tracked(daily, nextId, snapshot, seen.Keys, writes)
         && forall k | k in seen :: k in snapshot && seen[k] == snapshot[k]
       case Filling(from, to, snapshot, aggregate, _, writes) =>
         Tracked(daily, nextId, snapshot, {}, writes) && forall k | k in aggregate :: from <= k.day <= to
       case _ => true
  }

  /** A row about to be committed either keeps the id of the row it updates or has an id no
      rebuild has seen under its key. */
  ghost predicate NewIds(daily: map<DayKey, DailyRow>, puts: map<DayKey, DailyRow>, snapshot: map<DayKey, nat>) {
    forall k | k in puts && k in snapshot :: puts[k].id != snapshot[k] || (k in daily && puts[k].id == daily[k].id)
  }

  ghost predicate Ids(db: Db) {
    && (forall k | k in db.daily :: db.daily[k].id < db.nextId)
    && (forall t | t in db.txs :: TxTracked(db.daily, db.nextId, db.txs[t]))
    && (forall t, o | t in db.txs && o in db.txs && t != o :: NewIds(db.daily, Puts(db.txs[t]), Snapshot(db.txs[o])))
  }

  // ----- every step keeps track -------------------------------------------------------------------

  /** `tx` beside the other open transactions. */
  ghost predicate Beside(db: Db, t: nat, tx: Tx) {
    forall o | o in db.txs && o != t ::
      NewIds(db.daily, Puts(tx), Snapshot(db.txs[o])) && NewIds(db.daily, Puts(db.txs[o]), Snapshot(tx))
  }

  lemma TrackedLater(daily: map<DayKey, DailyRow>, nextId: nat, tx: Tx)
    requires TxTracked(daily, nextId, tx)
    ensures TxTracked(daily, nextId + 1, tx)
  {
  }

  lemma Assemble(db: Db)
    requires forall k | k in db.daily :: db.daily[k].id < db.nextId
    requires forall t | t in db.txs :: TxTracked(db.daily, db.nextId, db.txs[t])
    requires forall t, o | t in db.txs && o in db.txs && t != o ::
               NewIds(db.daily, Puts(db.txs[t]), Snapshot(db.txs[o]))
    ensures Ids(db)
  {
  }

  /** A transaction moved on by itself. */
  lemma OwnTracked(db: Db, t: nat, tx: Tx)
    requires Ids(db) && TxTracked(db.daily, db.nextId + 1, tx) && Beside(db, t, tx)
    ensures Ids(db.(txs := db.txs[t := tx], nextId := db.nextId + 1))
  {
    var db' := db.(txs := db.txs[t := tx], nextId := db.nextId + 1);
    forall o | o in db'.txs ensures TxTracked(db'.daily, db'.nextId, db'.txs[o]) {
      if o != t { TrackedLater(db.daily, db.nextId, db.txs[o]); }
    }
    forall o, q | o in db'.txs && q in db'.txs && o != q
      ensures NewIds(db'.daily, Puts(db'.txs[o]), Snapshot(db'.txs[q]))
    {
      assert o != t && q != t ==> NewIds(db.daily, Puts(db.txs[o]), Snapshot(db.txs[q]));
    }
    Assemble(db');
  }

  /** It wrote no new row and remembers what it did. */
  lemma SameBeside(db: Db, t: nat, tx: Tx)
    requires Ids(db) && t in db.txs && Puts(tx) == Puts(db.txs[t]) && Snapshot(tx) == Snapshot(db.txs[t])
    ensures Beside(db, t, tx)
  {
  }

  /** It wrote one row. */
  lemma PutBeside(db: Db, t: nat, tx: Tx, k: DayKey, row: DailyRow)
    requires Ids(db) && t in db.txs && Puts(tx) == Puts(db.txs[t])[k := row] && Snapshot(tx) == Snapshot(db.txs[t])
    requires row.id == db.nextId || (k in db.daily && row.id == db.daily[k].id)
    ensures Beside(db, t, tx)
  {
    forall o | o in db.txs && o != t ensures NewIds(db.daily, Puts(tx), Snapshot(db.txs[o])) {
      assert TxTracked(db.daily, db.nextId, db.txs[o]);
      PutNewIds(db.daily, db.nextId, Puts(db.txs[t]), db.txs[o], k, row);
    }
  }

  lemma PutNewIds(daily: map<DayKey, DailyRow>, nextId: nat, puts: map<DayKey, DailyRow>, other: Tx, k: DayKey,
                  row: DailyRow)
    requires NewIds(daily, puts, Snapshot(other)) && TxTracked(daily, nextId, other)
    requires row.id == nextId || (k in daily && row.id == daily[k].id)
    ensures NewIds(daily, puts[k := row], Snapshot(other))
  {
  }

  lemma PutOne(tx: Tx, tx': Tx, k: DayKey, row: DailyRow)
    requires !tx.Loading? && !tx'.Loading? && tx'.writes == tx.writes[k := Put(row)]
    ensures Puts(tx') == Puts(tx)[k := row]
  {
  }

  lemma StartInsertTracked(db: Db, t: nat, rows: Rows)
    requires Ids(db) && t !in db.txs
    ensures Ids(db.(txs := db.txs[t := Loading(rows, 0, map[])], nextId := db.nextId + 1))
  {
    OwnTracked(db, t, Loading(rows, 0, map[]));
  }

  lemma StartRebuildTracked(db: Db, t: nat, from: int, to: int, snapshot: map<DayKey, nat>)
    requires Ids(db) && t !in db.txs
    requires forall k | k in snapshot :: k in db.daily && snapshot[k] == db.daily[k].id
    ensures Ids(db.(txs := db.txs[t := Deleting(from, to, snapshot, snapshot, map[])], nextId := db.nextId + 1))
  {
    var tx := Deleting(from, to, snapshot, snapshot, map[]);
    assert Puts(tx) == map[];
    OwnTracked(db, t, tx);
  }

  /** A transaction that has no row to show yet. */
  lemma LoadTracked(db: Db, t: nat, tx: Tx)
    requires Ids(db) && t in db.txs && db.txs[t].Loading? && (tx.Loading? || (tx.Rolling? && tx.writes == map[]))
    ensures Ids(db.(txs := db.txs[t := tx], nextId := db.nextId + 1))
  {
    assert Puts(tx) == map[];
    SameBeside(db, t, tx);
    OwnTracked(db, t, tx);
  }

  /** An upsert keeps the row's id or takes a fresh one. */
  lemma UpsertTx(daily: map<DayKey, DailyRow>, nextId: nat, tx: Tx, tx': Tx, k: DayKey, row: DailyRow)
    requires TxTracked(daily, nextId, tx) && tx.Rolling? && tx'.Rolling? && Puts(tx') == Puts(tx)[k := row]
             && row.id <= nextId
    ensures TxTracked(daily, nextId + 1, tx')
  {
  }

  lemma UpsertTracked(db: Db, t: nat, tx': Tx, k: DayKey, row: DailyRow)
    requires Ids(db) && t in db.txs && db.txs[t].Rolling? && tx'.Rolling?
             && tx'.writes == db.txs[t].writes[k := Put(row)]
    requires if k in db.daily then row.id == db.daily[k].id else row.id == db.nextId
    ensures Ids(db.(txs := db.txs[t := tx'], nextId := db.nextId + 1))
  {
    PutOne(db.txs[t], tx', k, row);
    assert TxTracked(db.daily, db.nextId, db.txs[t]);
    UpsertTx(db.daily, db.nextId, db.txs[t], tx', k, row);
    PutBeside(db, t, tx', k, row);
    OwnTracked(db, t, tx');
  }

  /** The DELETE passes one row: it takes it if it is still the one seen. */
  lemma DeleteTx(daily: map<DayKey, DailyRow>, nextId: nat, tx: Tx, tx': Tx, k: DayKey)
    requires TxTracked(daily, nextId, tx) && tx.Deleting? && k in tx.seen
    requires forall j | j in tx.writes :: tx.writes[j].Deleted?
    requires tx' == Deleting(tx.from, tx.to, tx.snapshot, tx.seen - {k},
                             if k in daily && daily[k].id == tx.seen[k] then tx.writes[k := Deleted] else tx.writes)
    ensures TxTracked(daily, nextId, tx') && Puts(tx') == map[] && Puts(tx) == map[]
  {
    assert tx'.seen.Keys == tx.seen.Keys - {k};
  }

  lemma DeleteTracked(db: Db, t: nat, k: DayKey, tx': Tx)
    requires Inv(db) && Ids(db) && t in db.txs && db.txs[t].Deleting? && k in db.txs[t].seen
    requires var tx := db.txs[t];
             tx' == Deleting(tx.from, tx.to, tx.snapshot, tx.seen - {k},
                             if k in db.daily && db.daily[k].id == tx.seen[k]
                             then tx.writes[k := Deleted] else tx.writes)
    ensures Ids(db.(txs := db.txs[t := tx'], nextId := db.nextId + 1))
  {
    var tx := db.txs[t];
    assert TxOk(db.detail, db.daily, tx) && TxTracked(db.daily, db.nextId, tx);
    DeleteTx(db.daily, db.nextId, tx, tx', k);
    TrackedLater(db.daily, db.nextId, tx');
    SameBeside(db, t, tx');
    OwnTracked(db, t, tx');
  }

  lemma TakeTx(daily: map<DayKey, DailyRow>, nextId: nat, tx: Tx, aggregate: Daily, tx': Tx)
    requires TxTracked(daily, nextId, tx) && tx.Deleting? && tx.seen == map[]
    requires tx' == Filling(tx.from, tx.to, tx.snapshot, aggregate, aggregate.Keys, tx.writes)
    requires forall k | k in aggregate :: tx.from <= k.day <= tx.to
    ensures TxTracked(daily, nextId, tx') && Puts(tx') == Puts(tx)
  {
    assert tx.seen.Keys == {};
    assert Puts(tx') == Puts(tx);
  }

  lemma TakeTracked(db: Db, t: nat)
    requires Ids(db) && t in db.txs && db.txs[t].Deleting? && db.txs[t].seen == map[]
    ensures var tx := db.txs[t]; var aggregate := DailyOf(InDays(db.detail, tx.from, tx.to));
            Ids(db.(txs := db.txs[t := Filling(tx.from, tx.to, tx.snapshot, aggregate, aggregate.Keys, tx.writes)],
                    nextId := db.nextId + 1))
  {
    var tx := db.txs[t];
    var aggregate := DailyOf(InDays(db.detail, tx.from, tx.to));
    forall k | k in aggregate ensures tx.from <= k.day <= tx.to { FreshIsExact(db.detail, tx.from, tx.to, k); }
    var tx' := Filling(tx.from, tx.to, tx.snapshot, aggregate, aggregate.Keys, tx.writes);
    assert TxTracked(db.daily, db.nextId, tx);
    TakeTx(db.daily, db.nextId, tx, aggregate, tx');
    TrackedLater(db.daily, db.nextId, tx');
    SameBeside(db, t, tx');
    OwnTracked(db, t, tx');
  }

  /** The insert fills a row the DELETE took. */
  lemma FillTx(daily: map<DayKey, DailyRow>, nextId: nat, tx: Tx, tx': Tx, k: DayKey, row: DailyRow)
    requires TxTracked(daily, nextId, tx) && tx.Filling? && k in tx.writes && row.id == nextId
    requires tx' == Filling(tx.from, tx.to, tx.snapshot, tx.aggregate, tx.todo - {k}, tx.writes[k := Put(row)])
    ensures TxTracked(daily, nextId + 1, tx') && Puts(tx') == Puts(tx)[k := row]
  {
    PutOne(tx, tx', k, row);
  }

  lemma FillTracked(db: Db, t: nat, k: DayKey, roll: Roll)
    requires Ids(db) && t in db.txs && db.txs[t].Filling? && k in db.txs[t].writes
    ensures var tx := db.txs[t];
            Ids(db.(txs := db.txs[t := Filling(tx.from, tx.to, tx.snapshot, tx.aggregate, tx.todo - {k},
                                               tx.writes[k := Put(DailyRow(db.nextId, roll))])],
                    nextId := db.nextId + 1))
  {
    var tx, row := db.txs[t], DailyRow(db.nextId, roll);
    var tx' := Filling(tx.from, tx.to, tx.snapshot, tx.aggregate, tx.todo - {k}, tx.writes[k := Put(row)]);
    assert TxTracked(db.daily, db.nextId, tx);
    FillTx(db.daily, db.nextId, tx, tx', k, row);
    PutBeside(db, t, tx', k, row);
    OwnTracked(db, t, tx');
  }

  lemma EndTracked(db: Db, t: nat)
    requires Ids(db) && t in db.txs
    ensures Ids(db.(txs := db.txs - {t}))
  {
  }

  ghost predicate AllPut(tx: Tx) { !tx.Loading? && forall k | k in tx.writes :: tx.writes[k].Put? }

  /** What a commit leaves under a key. */
  lemma CommittedAt(daily: map<DayKey, DailyRow>, tx: Tx, k: DayKey)
    requires AllPut(tx)
    ensures k in tx.writes ==>
              && k in Puts(tx) && k in Committed(daily, tx.writes)
              && Committed(daily, tx.writes)[k] == Puts(tx)[k]
    ensures k !in tx.writes ==> SameAt(Committed(daily, tx.writes), daily, k)
  {
  }

  lemma CommitRows(daily: map<DayKey, DailyRow>, nextId: nat, tx: Tx, snapshot: map<DayKey, nat>, unseen: set<DayKey>,
                   writes: map<DayKey, Write>)
    requires AllPut(tx) && (forall k | k in writes :: k !in tx.writes)
    requires Tracked(daily, nextId, snapshot, unseen, writes) && NewIds(daily, Puts(tx), snapshot)
    ensures Tracked(Committed(daily, tx.writes), nextId, snapshot, unseen, writes)
  {
    var daily' := Committed(daily, tx.writes);
    forall k | k in writes ensures k in daily' && daily'[k].id == snapshot[k] { CommittedAt(daily, tx, k); }
    forall k | k in snapshot && k !in unseen && k !in writes && k in daily' ensures daily'[k].id != snapshot[k] {
      CommittedAt(daily, tx, k);
    }
  }

  /** What a commit does to the rows another rebuild saw. */
  lemma CommitSpares(daily: map<DayKey, DailyRow>, nextId: nat, tx: Tx, other: Tx)
    requires AllPut(tx) && Apart(tx, other)
    requires TxTracked(daily, nextId, other) && NewIds(daily, Puts(tx), Snapshot(other))
    ensures TxTracked(Committed(daily, tx.writes), nextId, other)
  {
    assert forall k | k in Locks(other) :: k !in tx.writes by {
      forall k | k in Locks(other) ensures k !in Locks(tx) { }
    }
    match other
    case Deleting(_, _, snapshot, seen, writes) => CommitRows(daily, nextId, tx, snapshot, seen.Keys, writes);
    case Filling(_, _, snapshot, _, _, writes) => CommitRows(daily, nextId, tx, snapshot, {}, writes);
    case _ =>
  }

  lemma CommitIds(daily: map<DayKey, DailyRow>, tx: Tx, a: Tx, b: Tx)
    requires AllPut(tx) && Apart(tx, a) && NewIds(daily, Puts(a), Snapshot(b))
    ensures NewIds(Committed(daily, tx.writes), Puts(a), Snapshot(b))
  {
    var daily' := Committed(daily, tx.writes);
    forall k | k in Puts(a) && k in Snapshot(b)
      ensures Puts(a)[k].id != Snapshot(b)[k] || (k in daily' && Puts(a)[k].id == daily'[k].id)
    {
      assert k in Locks(a);
      assert k !in Locks(tx);
      CommittedAt(daily, tx, k);
    }
  }

  lemma CommitBelow(db: Db, t: nat)
    requires Ids(db) && t in db.txs && AllPut(db.txs[t])
    ensures forall k | k in Committed(db.daily, db.txs[t].writes) ::
              Committed(db.daily, db.txs[t].writes)[k].id < db.nextId
  {
    var tx := db.txs[t];
    assert TxTracked(db.daily, db.nextId, tx);
    forall k | k in Committed(db.daily, tx.writes) ensures Committed(db.daily, tx.writes)[k].id < db.nextId {
      CommittedAt(db.daily, tx, k);
    }
  }

  lemma CommitAll(db: Db, t: nat)
    requires Inv(db) && Ids(db) && t in db.txs && AllPut(db.txs[t])
    ensures forall o | o in db.txs && o != t :: TxTracked(Committed(db.daily, db.txs[t].writes), db.nextId, db.txs[o])
  {
    forall o | o in db.txs && o != t ensures TxTracked(Committed(db.daily, db.txs[t].writes), db.nextId, db.txs[o]) {
      CommitOther(db, t, o);
    }
  }

  lemma CommitPairs(db: Db, t: nat)
    requires Inv(db) && Ids(db) && t in db.txs && AllPut(db.txs[t])
    ensures forall o, q | o in db.txs && q in db.txs && o != t && q != t && o != q ::
      NewIds(Committed(db.daily, db.txs[t].writes), Puts(db.txs[o]), Snapshot(db.txs[q]))
  {
    forall o, q | o in db.txs && q in db.txs && o != t && q != t && o != q
      ensures NewIds(Committed(db.daily, db.txs[t].writes), Puts(db.txs[o]), Snapshot(db.txs[q]))
    {
      CommitPair(db, t, o, q);
    }
  }

  lemma CommitTracked(db: Db, t: nat, detail: Detail)
    requires Inv(db) && Ids(db) && t in db.txs && AllPut(db.txs[t])
    ensures Ids(Db(detail, Committed(db.daily, db.txs[t].writes), db.nextId, db.txs - {t}))
  {
    CommitBelow(db, t);
    CommitAll(db, t);
    CommitPairs(db, t);
    Assemble(Db(detail, Committed(db.daily, db.txs[t].writes), db.nextId, db.txs - {t}));
  }


  lemma CommitPair(db: Db, t: nat, o: nat, q: nat)
    requires Inv(db) && Ids(db) && t in db.txs && AllPut(db.txs[t]) && o in db.txs && q in db.txs && o != t && q != t
             && o != q
    ensures NewIds(Committed(db.daily, db.txs[t].writes), Puts(db.txs[o]), Snapshot(db.txs[q]))
  {
    assert Apart(db.txs[t], db.txs[o]) && NewIds(db.daily, Puts(db.txs[o]), Snapshot(db.txs[q]));
    CommitIds(db.daily, db.txs[t], db.txs[o], db.txs[q]);
  }

  lemma CommitOther(db: Db, t: nat, o: nat)
    requires Inv(db) && Ids(db) && t in db.txs && AllPut(db.txs[t]) && o in db.txs && o != t
    ensures TxTracked(Committed(db.daily, db.txs[t].writes), db.nextId, db.txs[o])
  {
    assert TxTracked(db.daily, db.nextId, db.txs[o]) && Apart(db.txs[t], db.txs[o]);
    CommitSpares(db.daily, db.nextId, db.txs[t], db.txs[o]);
  }

  lemma RepairTracked(db: Db, s: Step)
    requires Ids(db) && Enabled(db, s) && s.CodexRepair?
    ensures Ids(Do(db, s))
  {
  }

  lemma OwnShape(db: Db, s: Step, tx: Tx)
    requires Enabled(db, s) && !Violates(db, s)
    requires !(s.CommitInsert? || s.CommitRebuild? || s.Abort? || s.CodexRepair?) && NextTx(db, s) == tx
    ensures Do(db, s) == db.(txs := db.txs[s.t := tx], nextId := db.nextId + 1)
  {
  }

  lemma StartStep(db: Db, s: Step)
    requires Ids(db) && Enabled(db, s) && (s.StartInsert? || s.StartRebuild?)
    ensures Ids(Do(db, s))
  {
    if s.StartInsert? {
      StartInsertTracked(db, s.t, s.rows);
    } else {
      StartRebuildTracked(db, s.t, s.from, s.to, NextTx(db, s).snapshot);
    }
  }

  lemma LoadStep(db: Db, s: Step)
    requires Ids(db) && Enabled(db, s) && (s.LoadRow? || s.StartRoll?)
    ensures Ids(Do(db, s))
  {
    var tx := NextTx(db, s);
    assert tx.Loading? || (tx.Rolling? && tx.writes == map[]);
    OwnShape(db, s, tx);
    LoadTracked(db, s.t, tx);
  }

  lemma UpsertStep(db: Db, s: Step)
    requires Ids(db) && Enabled(db, s) && s.UpsertRow?
    ensures Ids(Do(db, s))
  {
    var tx, row := db.txs[s.t], Upserted(db, s.k, Roll0(db.txs[s.t].ins, s.k));
    OwnShape(db, s, Rolling(tx.rows, tx.ins, tx.todo - {s.k}, tx.writes[s.k := Put(row)]));
    UpsertTracked(db, s.t, Rolling(tx.rows, tx.ins, tx.todo - {s.k}, tx.writes[s.k := Put(row)]), s.k, row);
  }

  lemma DeleteStep(db: Db, s: Step)
    requires Inv(db) && Ids(db) && Enabled(db, s) && s.DeleteRow?
    ensures Ids(Do(db, s))
  {
    var tx := db.txs[s.t];
    var tx' := Deleting(tx.from, tx.to, tx.snapshot, tx.seen - {s.k},
                        if s.k in db.daily && db.daily[s.k].id == tx.seen[s.k]
                        then tx.writes[s.k := Deleted] else tx.writes);
    OwnShape(db, s, tx');
    DeleteTracked(db, s.t, s.k, tx');
  }

  lemma TakeStep(db: Db, s: Step)
    requires Ids(db) && Enabled(db, s) && s.TakeAggregate?
    ensures Ids(Do(db, s))
  {
    var tx := db.txs[s.t];
    var aggregate := DailyOf(InDays(db.detail, tx.from, tx.to));
    OwnShape(db, s, Filling(tx.from, tx.to, tx.snapshot, aggregate, aggregate.Keys, tx.writes));
    TakeTracked(db, s.t);
  }

  lemma FillStep(db: Db, s: Step)
    requires Inv(db) && Ids(db) && Enabled(db, s) && s.FillRow? && !Violates(db, s)
    ensures Ids(Do(db, s))
  {
    assert TxOk(db.detail, db.daily, db.txs[s.t]);
    FillTracked(db, s.t, s.k, db.txs[s.t].aggregate[s.k]);
  }

  lemma CommitsStep(db: Db, s: Step)
    requires Inv(db) && Ids(db) && Enabled(db, s) && (s.CommitInsert? || s.CommitRebuild?)
    ensures Ids(Do(db, s))
  {
    if s.CommitInsert? {
      RolledAll(db, s.t);
      CommitTracked(db, s.t, db.detail + db.txs[s.t].ins);
    } else {
      FilledAll(db, s.t);
      CommitTracked(db, s.t, db.detail);
    }
  }

  lemma StepKeepsIds(db: Db, s: Step)
    requires Inv(db) && Ids(db) && Enabled(db, s)
    ensures Ids(Do(db, s))
  {
    if s.Abort? || Violates(db, s) { EndTracked(db, s.t); } else {
      match s
      case StartInsert(_, _) => StartStep(db, s);
      case StartRebuild(_, _, _) => StartStep(db, s);
      case LoadRow(_) => LoadStep(db, s);
      case StartRoll(_) => LoadStep(db, s);
      case UpsertRow(_, _) => UpsertStep(db, s);
      case CommitInsert(_) => CommitsStep(db, s);
      case DeleteRow(_, _) => DeleteStep(db, s);
      case TakeAggregate(_) => TakeStep(db, s);
      case FillRow(_, _) => FillStep(db, s);
      case CommitRebuild(_) => CommitsStep(db, s);
      case CodexRepair(_, _, _, _) => RepairTracked(db, s);
      case Abort(_) =>
    }
  }

  lemma RolledAll(db: Db, t: nat)
    requires Inv(db) && t in db.txs && db.txs[t].Rolling?
    ensures AllPut(db.txs[t])
  {
    assert TxOk(db.detail, db.daily, db.txs[t]);
  }

  lemma FilledAll(db: Db, t: nat)
    requires Inv(db) && t in db.txs && db.txs[t].Filling? && db.txs[t].todo == {}
    ensures AllPut(db.txs[t])
  {
    var tx := db.txs[t];
    assert TxOk(db.detail, db.daily, tx);
    forall k | k in tx.writes ensures tx.writes[k].Put? {
      assert Refilled(db.detail, db.daily, tx.aggregate, tx.todo, k, tx.writes[k]);
    }
  }

  // ----- exactly when a rebuild fails ------------------------------------------------------------

  /** The insert of a group fails if and only if the group's row is not the one the DELETE
      saw: it is new since, or stands in the place of the one seen. */
  lemma ViolatesIff(db: Db, s: Step)
    requires Inv(db) && Ids(db) && Enabled(db, s) && s.FillRow?
    ensures s.k in db.daily
    ensures var snapshot := db.txs[s.t].snapshot;
            Violates(db, s) <==> s.k !in snapshot || db.daily[s.k].id != snapshot[s.k]
  {
    var tx := db.txs[s.t];
    assert TxOk(db.detail, db.daily, tx) && TxTracked(db.daily, db.nextId, tx);
    if s.k in tx.writes {
      assert Refilled(db.detail, db.daily, tx.aggregate, tx.todo, s.k, tx.writes[s.k]);
    }
  }

  /** The step brings no row of a new id into the days. */
  ghost predicate Quiet(db: Db, s: Step, from: int, to: int)
    requires Enabled(db, s)
  {
    forall k | k in Do(db, s).daily && from <= k.day <= to :: k in db.daily && Do(db, s).daily[k].id == db.daily[k].id
  }

  /** A run of quiet steps through which transaction `t` stays open. */
  ghost predicate QuietRun(db: Db, steps: seq<Step>, end: Db, t: nat, from: int, to: int)
    decreases |steps|
  {
    if steps == [] then end == db
    else
      && Enabled(db, steps[0]) && Quiet(db, steps[0], from, to) && t in Do(db, steps[0]).txs
      && QuietRun(Do(db, steps[0]), steps[1..], end, t, from, to)
  }

  /** The rebuild saw every row its days have now. */
  ghost predicate SawAll(db: Db, t: nat, from: int, to: int) {
    && t in db.txs && (db.txs[t].Deleting? || db.txs[t].Filling?) && db.txs[t].from == from && db.txs[t].to == to
    && forall k | k in db.daily && from <= k.day <= to ::
         k in db.txs[t].snapshot && db.txs[t].snapshot[k] == db.daily[k].id
  }

  lemma QuietSawAll(db: Db, s: Step, t: nat, from: int, to: int)
    requires SawAll(db, t, from, to) && Enabled(db, s) && Quiet(db, s, from, to) && t in Do(db, s).txs
    ensures SawAll(Do(db, s), t, from, to)
  {
  }

  lemma {:induction false} QuietSafe(db: Db, steps: seq<Step>, end: Db, t: nat, from: int, to: int, s: Step)
    requires Inv(db) && Ids(db) && SawAll(db, t, from, to) && QuietRun(db, steps, end, t, from, to)
    requires Enabled(end, s) && s.FillRow? && s.t == t
    ensures !Violates(end, s)
    decreases |steps|
  {
    if steps == [] {
      ViolatesIff(db, s);
      assert TxOk(db.detail, db.daily, db.txs[t]) && TxTracked(db.daily, db.nextId, db.txs[t]);
    } else {
      StepKeepsInv(db, steps[0]);
      StepKeepsIds(db, steps[0]);
      QuietSawAll(db, steps[0], t, from, to);
      QuietSafe(Do(db, steps[0]), steps[1..], end, t, from, to, s);
    }
  }

  /** A rebuild never fails if, from its DELETE on, no other transaction commits a row of a
      new id into its days: updates of the rows it saw may come and go. */
  lemma UndisturbedRebuild(db: Db, t: nat, from: int, to: int, steps: seq<Step>, end: Db, s: Step)
    requires Inv(db) && Ids(db) && Enabled(db, StartRebuild(t, from, to))
    requires QuietRun(Do(db, StartRebuild(t, from, to)), steps, end, t, from, to)
    requires Enabled(end, s) && s.FillRow? && s.t == t
    ensures !Violates(end, s)
  {
    var start := StartRebuild(t, from, to);
    StepKeepsInv(db, start);
    StepKeepsIds(db, start);
    QuietSafe(Do(db, start), steps, end, t, from, to, s);
  }

  /** All of this holds in every state the server can reach. */
  lemma {:induction false} AlwaysTracked(db: Db, steps: seq<Step>, end: Db)
    requires Inv(db) && Ids(db) && Run(db, steps, end)
    ensures Inv(end) && Ids(end)
    decreases |steps|
  {
    if steps != [] {
      StepKeepsInv(db, steps[0]);
      StepKeepsIds(db, steps[0]);
      AlwaysTracked(Do(db, steps[0]), steps[1..], end);
    }
  }

  // ----- both ways it happens ----------------------------------------------------------------------

  const FRESH := Db(map[], map[], 0, map[])

  ghost predicate Reaches(db: Db) { exists steps :: Run(FRESH, steps, db) }

  lemma {:induction false} RunAppend(db: Db, steps: seq<Step>, mid: Db, s: Step)
    requires Run(db, steps, mid) && Enabled(mid, s)
    ensures Run(db, steps + [s], Do(mid, s))
    decreases |steps|
  {
    if steps == [] {
      assert (steps + [s])[1..] == [];
      assert Run(Do(mid, s), [], Do(mid, s));
    } else {
      assert (steps + [s])[1..] == steps[1..] + [s];
      RunAppend(Do(db, steps[0]), steps[1..], mid, s);
    }
  }

  lemma ReachStep(db: Db, s: Step)
    requires Reaches(db) && Enabled(db, s)
    ensures Reaches(Do(db, s))
  {
    var steps :| Run(FRESH, steps, db);
    RunAppend(FRESH, steps, db, s);
  }

  /** The first way: an insert that creates the day's first row of a group between a
      rebuild's DELETE and its INSERT is not blocked by the rebuild's locks, and fails it. */
  lemma ViolationReachable(key: UsageKey, row: UsageRow)
    ensures exists db, s :: Reaches(db) && Enabled(db, s) && Violates(db, s)
  {
    var d2 := BothStarted(key, row);
    var d4 := InsertLoaded(d2, key, row);
    var d6 := InsertCommitted(d4, key, row);
    LateGroup(d6, key, row);
  }

  function EmptyRebuild(day: int): Tx { Deleting(day, day, map[], map[], map[]) }

  lemma BothStarted(key: UsageKey, row: UsageRow) returns (d2: Db)
    ensures Reaches(d2)
    ensures d2 == Db(map[], map[], 2, map[0 := EmptyRebuild(DayOf(row.ts)), 1 := Loading([(key, row)], 0, map[])])
  {
    var day := DayOf(row.ts);
    assert Run(FRESH, [], FRESH);
    var d1 := Do(FRESH, StartRebuild(0, day, day));
    ReachStep(FRESH, StartRebuild(0, day, day));
    assert d1 == Db(map[], map[], 1, map[0 := EmptyRebuild(day)]);
    ReachStep(d1, StartInsert(1, [(key, row)]));
    d2 := Do(d1, StartInsert(1, [(key, row)]));
  }

  lemma InsertLoaded(d2: Db, key: UsageKey, row: UsageRow) returns (d4: Db)
    requires Reaches(d2)
    requires d2 == Db(map[], map[], 2, map[0 := EmptyRebuild(DayOf(row.ts)), 1 := Loading([(key, row)], 0, map[])])
    ensures Reaches(d4)
    ensures d4 == Db(map[], map[], 4, map[0 := EmptyRebuild(DayOf(row.ts)),
                                          1 := Rolling([(key, row)], map[key := row], {KeyOf(row)}, map[])])
  {
    ReachStep(d2, LoadRow(1));
    var d3 := Do(d2, LoadRow(1));
    assert d3.txs[1] == Loading([(key, row)], 1, map[key := row]);
    ReachStep(d3, StartRoll(1));
    SingleGroup(key, row);
    d4 := Do(d3, StartRoll(1));
  }

  lemma SingleGroup(key: UsageKey, row: UsageRow)
    ensures DayGroups(map[key := row]) == {KeyOf(row)}
    ensures KeyOf(row) in DailyOf(InDays(map[key := row], DayOf(row.ts), DayOf(row.ts)))
  {
    var ins := map[key := row];
    assert ins[key] == row;
    assert InDays(ins, DayOf(row.ts), DayOf(row.ts)) == ins;
  }

  lemma InsertCommitted(d4: Db, key: UsageKey, row: UsageRow) returns (d6: Db)
    requires Reaches(d4)
    requires d4 == Db(map[], map[], 4, map[0 := EmptyRebuild(DayOf(row.ts)),
                                           1 := Rolling([(key, row)], map[key := row], {KeyOf(row)}, map[])])
    ensures Reaches(d6) && d6.detail == map[key := row] && KeyOf(row) in d6.daily
    ensures d6.txs == map[0 := EmptyRebuild(DayOf(row.ts))]
  {
    var d5 := RowUpserted(d4, key, row);
    ReachStep(d5, CommitInsert(1));
    d6 := Do(d5, CommitInsert(1));
    assert d6.detail == map[key := row];
  }

  lemma RowUpserted(d4: Db, key: UsageKey, row: UsageRow) returns (d5: Db)
    requires Reaches(d4)
    requires d4 == Db(map[], map[], 4, map[0 := EmptyRebuild(DayOf(row.ts)),
                                           1 := Rolling([(key, row)], map[key := row], {KeyOf(row)}, map[])])
    ensures Reaches(d5) && d5.detail == map[] && d5.daily == map[]
    ensures exists w :: d5.txs == map[0 := EmptyRebuild(DayOf(row.ts)),
                                      1 := Rolling([(key, row)], map[key := row], {}, map[KeyOf(row) := Put(w)])]
  {
    var k := KeyOf(row);
    var w := Upserted(d4, k, Roll0(map[key := row], k));
    ReachStep(d4, UpsertRow(1, k));
    d5 := Do(d4, UpsertRow(1, k));
    assert {k} - {k} == {};
    assert d5.txs == map[0 := EmptyRebuild(DayOf(row.ts)),
                         1 := Rolling([(key, row)], map[key := row], {}, map[k := Put(w)])];
  }

  lemma LateGroup(d6: Db, key: UsageKey, row: UsageRow)
    requires Reaches(d6) && d6.detail == map[key := row] && KeyOf(row) in d6.daily
    requires d6.txs == map[0 := EmptyRebuild(DayOf(row.ts))]
    ensures exists db, s :: Reaches(db) && Enabled(db, s) && Violates(db, s)
  {
    SingleGroup(key, row);
    ReachStep(d6, TakeAggregate(0));
    var d7 := Do(d6, TakeAggregate(0));
    assert Violates(d7, FillRow(0, KeyOf(row)));
  }

  /** A rebuild of a one-group day that saw the group's row. */
  function OneGroup(k: DayKey, id: nat): Tx { Deleting(k.day, k.day, map[k := id], map[k := id], map[]) }

  /** A database of one group, reached without a rebuild. */
  lemma OneInserted(key: UsageKey, row: UsageRow) returns (d: Db)
    ensures Reaches(d) && d.detail == map[key := row] && d.daily.Keys == {KeyOf(row)} && d.txs == map[]
  {
    var k := KeyOf(row);
    var rows := [(key, row)];
    assert Run(FRESH, [], FRESH);
    ReachStep(FRESH, StartInsert(0, rows));
    var d1 := Do(FRESH, StartInsert(0, rows));
    ReachStep(d1, LoadRow(0));
    var d2 := Do(d1, LoadRow(0));
    assert d2.txs == map[0 := Loading(rows, 1, map[key := row])];
    d := InsertFinishes(d2, key, row);
  }

  lemma InsertFinishes(d2: Db, key: UsageKey, row: UsageRow) returns (d: Db)
    requires Reaches(d2) && d2.detail == map[] && d2.daily == map[]
    requires d2.txs == map[0 := Loading([(key, row)], 1, map[key := row])]
    ensures Reaches(d) && d.detail == map[key := row] && d.daily.Keys == {KeyOf(row)} && d.txs == map[]
  {
    var k := KeyOf(row);
    SingleGroup(key, row);
    ReachStep(d2, StartRoll(0));
    var d3 := Do(d2, StartRoll(0));
    assert d3.txs == map[0 := Rolling([(key, row)], map[key := row], {k}, map[])];
    var w := Upserted(d3, k, Roll0(map[key := row], k));
    ReachStep(d3, UpsertRow(0, k));
    var d4 := Do(d3, UpsertRow(0, k));
    assert {k} - {k} == {};
    assert d4.txs == map[0 := Rolling([(key, row)], map[key := row], {}, map[k := Put(w)])];
    d := InsertEnds(d4, key, row, w);
  }

  lemma InsertEnds(d4: Db, key: UsageKey, row: UsageRow, w: DailyRow) returns (d: Db)
    requires Reaches(d4) && d4.detail == map[] && d4.daily == map[]
    requires d4.txs == map[0 := Rolling([(key, row)], map[key := row], {}, map[KeyOf(row) := Put(w)])]
    ensures Reaches(d) && d.detail == map[key := row] && d.daily.Keys == {KeyOf(row)} && d.txs == map[]
  {
    ReachStep(d4, CommitInsert(0));
    d := Do(d4, CommitInsert(0));
    assert d.detail == map[key := row] && d.daily == map[KeyOf(row) := w];
  }

  /** Two rebuilds of the day start side by side. */
  lemma BothSee(d: Db, key: UsageKey, row: UsageRow) returns (d2: Db, id: nat)
    requires Reaches(d) && d.detail == map[key := row] && d.daily.Keys == {KeyOf(row)} && d.txs == map[]
    ensures Reaches(d2) && d2.detail == d.detail && d2.daily == d.daily && id == d.daily[KeyOf(row)].id
    ensures d2.txs == map[1 := OneGroup(KeyOf(row), id), 2 := OneGroup(KeyOf(row), id)]
  {
    var k := KeyOf(row);
    id := d.daily[k].id;
    var d1 := OneSees(d, 1, k);
    d2 := OneSees(d1, 2, k);
  }

  lemma OneSees(d: Db, t: nat, k: DayKey) returns (d': Db)
    requires Reaches(d) && d.daily.Keys == {k} && t !in d.txs
    ensures Reaches(d') && d' == d.(txs := d.txs[t := OneGroup(k, d.daily[k].id)], nextId := d.nextId + 1)
  {
    var id := d.daily[k].id;
    var s := StartRebuild(t, k.day, k.day);
    ReachStep(d, s);
    d' := Do(d, s);
    var seen := NextTx(d, s).snapshot;
    assert k in d.daily && k in seen && seen[k] == id;
    assert forall j :: j in seen ==> j in d.daily.Keys;
    assert seen == map[k := id];
  }

  /** The first takes the row and has the aggregate. */
  lemma FirstTakes(d2: Db, key: UsageKey, row: UsageRow, id: nat) returns (d4: Db)
    requires Reaches(d2) && d2.detail == map[key := row] && d2.daily.Keys == {KeyOf(row)}
             && d2.daily[KeyOf(row)].id == id
    requires d2.txs == map[1 := OneGroup(KeyOf(row), id), 2 := OneGroup(KeyOf(row), id)]
    ensures Reaches(d4) && d4.detail == d2.detail && d4.daily == d2.daily && d4.nextId > d2.nextId
    ensures d4.txs.Keys == {1, 2} && d4.txs[2] == OneGroup(KeyOf(row), id)
    ensures var a := d4.txs[1];
            a.Filling? && a.todo == {KeyOf(row)} == a.aggregate.Keys && a.writes == map[KeyOf(row) := Deleted]
  {
    var k := KeyOf(row);
    ReachStep(d2, DeleteRow(1, k));
    var d3 := Do(d2, DeleteRow(1, k));
    assert map[k := id] - {k} == map[];
    assert d3.txs[1] == Deleting(k.day, k.day, map[k := id], map[], map[k := Deleted]);
    ReachStep(d3, TakeAggregate(1));
    d4 := Do(d3, TakeAggregate(1));
    OneAggregate(key, row);
  }

  lemma OneAggregate(key: UsageKey, row: UsageRow)
    ensures DailyOf(InDays(map[key := row], KeyOf(row).day, KeyOf(row).day)).Keys == {KeyOf(row)}
  {
    var d := map[key := row];
    SingleGroup(key, row);
    assert d[key] == row;
    assert InDays(d, DayOf(row.ts), DayOf(row.ts)) == d;
  }

  /** The first replaces the row under a new id. */
  lemma FirstReplaces(d4: Db, k: DayKey, id: nat) returns (d6: Db)
    requires Reaches(d4) && d4.daily.Keys == {k} && d4.nextId > id && d4.txs.Keys == {1, 2}
             && d4.txs[2] == OneGroup(k, id)
    requires var a := d4.txs[1]; a.Filling? && a.todo == {k} == a.aggregate.Keys && a.writes == map[k := Deleted]
    ensures Reaches(d6) && d6.detail == d4.detail && d6.daily.Keys == {k} && d6.daily[k].id != id
    ensures d6.txs == map[2 := OneGroup(k, id)]
  {
    ReachStep(d4, FillRow(1, k));
    var d5 := Do(d4, FillRow(1, k));
    assert {k} - {k} == {};
    assert d5.txs[1].writes == map[k := Put(DailyRow(d4.nextId, d4.txs[1].aggregate[k]))] && d5.txs[1].todo == {};
    ReachStep(d5, CommitRebuild(1));
    d6 := Do(d5, CommitRebuild(1));
    assert d6.txs == map[2 := OneGroup(k, id)];
  }

  /** The second passes the row it saw, which is gone, and fails on its successor. */
  lemma SecondFails(d6: Db, key: UsageKey, row: UsageRow, id: nat)
    requires Reaches(d6) && d6.detail == map[key := row] && d6.daily.Keys == {KeyOf(row)}
             && d6.daily[KeyOf(row)].id != id
    requires d6.txs == map[2 := OneGroup(KeyOf(row), id)]
    ensures exists db, s :: Reaches(db) && Enabled(db, s) && Violates(db, s) && s.k in db.txs[s.t].snapshot
  {
    var k := KeyOf(row);
    ReachStep(d6, DeleteRow(2, k));
    var d7 := Do(d6, DeleteRow(2, k));
    assert map[k := id] - {k} == map[];
    assert d7.txs == map[2 := Deleting(k.day, k.day, map[k := id], map[], map[])];
    ReachStep(d7, TakeAggregate(2));
    var d8 := Do(d7, TakeAggregate(2));
    OneAggregate(key, row);
    assert Violates(d8, FillRow(2, k)) && k in d8.txs[2].snapshot;
  }

  /** The second way, without any insert: of two overlapping rebuilds of one day whose only
      group is there all the time, the later one fails. */
  lemma OverlapReachable(key: UsageKey, row: UsageRow)
    ensures exists db, s :: Reaches(db) && Enabled(db, s) && Violates(db, s) && s.k in db.txs[s.t].snapshot
  {
    var d := OneInserted(key, row);
    ReachedIds(d);
    var d2, id := BothSee(d, key, row);
    ReachedIds(d2);
    var d4 := FirstTakes(d2, key, row, id);
    var d6 := FirstReplaces(d4, KeyOf(row), id);
    SecondFails(d6, key, row, id);
  }

  lemma ReachedIds(db: Db)
    requires Reaches(db)
    ensures Inv(db) && Ids(db)
  {
    var steps :| Run(FRESH, steps, db);
    NothingYet();
    AlwaysTracked(FRESH, steps, db);
  }

  /** In every state the server can reach: the insert of a group fails if and only if its
      live row is not the one the DELETE saw. */
  lemma AbortsIff(db: Db, s: Step)
    requires Reaches(db) && Enabled(db, s) && s.FillRow?
    ensures Violates(db, s) <==>
              s.k !in db.txs[s.t].snapshot || (s.k in db.daily && db.daily[s.k].id != db.txs[s.t].snapshot[s.k])
  {
    ReachedIds(db);
    ViolatesIff(db, s);
  }

  lemma NothingYet()
    ensures Inv(FRESH) && Ids(FRESH)
  {
    var none: Detail := FRESH.detail;
    assert Groups(UsageView(), none) == {};
    assert GroupBy(UsageView(), none).Keys == {};
    assert Rolls(FRESH.daily).Keys == {};
  }
}
