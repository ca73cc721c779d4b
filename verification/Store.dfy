/** The store's writing operations as the statements they run, over mutable
    tables, proved against the value-level specification. */
module Store {
  import opened Types
  import opened Dedup
  import opened GroupSum
  import opened Rollup
  import opened StoreSpec

  ghost predicate DistinctKeys<K, V>(s: seq<(K, V)>)
  {
    forall i, j | 0 <= i < j < |s| :: s[i].0 != s[j].0
  }

  /** INSERT ... ON CONFLICT DO NOTHING RETURNING. */
  method InsertNew<K(==), V>(t: map<K, V>, rows: seq<(K, V)>) returns (after: map<K, V>, ins: seq<(K, V)>)
    ensures after == Absorb(t, rows)
    ensures DistinctKeys(ins) && First(ins) == New(t, after)
    ensures |after| == |t| + |ins|
  {
    after, ins := t, [];
    for i := 0 to |rows|
      invariant Absorb(after, rows[i..]) == Absorb(t, rows)
      invariant Inserted(t, after, ins)
    {
      var (k, row) := rows[i];
      assert rows[i..][0] == (k, row) && rows[i..][1..] == rows[i + 1..];
      if k !in after {
        InsertedPush(t, after, ins, k, row);
        after := after[k := row];
        ins := ins + [(k, row)];
      }
    }
  }

  /** `after` is `t` plus exactly the rows listed in `ins`. */
  ghost predicate Inserted<K, V>(t: map<K, V>, after: map<K, V>, ins: seq<(K, V)>)
  {
    && Within(t, after)
    && DistinctKeys(ins)
    && First(ins) == New(t, after)
    && |after| == |t| + |ins|
  }

  lemma InsertedPush<K, V>(t: map<K, V>, after: map<K, V>, ins: seq<(K, V)>, k: K, row: V)
    requires Inserted(t, after, ins) && k !in after
    ensures Inserted(t, after[k := row], ins + [(k, row)])
  {
    FirstPush(ins, k, row);
    NewPush(t, after, k, row);
    assert k !in New(t, after);
    DistinctPush(ins, k, row);
  }

  lemma NewPush<K, V>(t: map<K, V>, after: map<K, V>, k: K, row: V)
    requires Within(t, after) && k !in after
    ensures New(t, after[k := row]) == New(t, after)[k := row]
    ensures Within(t, after[k := row])
  {
  }

  lemma DistinctPush<K, V>(s: seq<(K, V)>, k: K, row: V)
    requires DistinctKeys(s) && k !in KeysOf(s)
    ensures DistinctKeys(s + [(k, row)])
  {
    assert forall i | 0 <= i < |s| :: s[i] in s && s[i].0 in KeysOf(s);
  }

  lemma FirstPush<K, V>(s: seq<(K, V)>, k: K, row: V)
    ensures First(s + [(k, row)]) == if k in First(s) then First(s) else First(s)[k := row]
    ensures KeysOf(s + [(k, row)]) == KeysOf(s) + {k}
    ensures First(s).Keys == KeysOf(s)
  {
    AbsorbAppend(map[], s, [(k, row)]);
    AbsorbGrows(map[], s);
    AbsorbGrows(map[], s + [(k, row)]);
  }

  /** GROUP BY over the returned rows. */
  method GroupRows<K(==), V, G(==), R(!new)>(v: View<V, G, R>, ins: seq<(K, V)>) returns (agg: map<G, R>)
    requires Lawful(v) && DistinctKeys(ins)
    ensures agg == GroupBy(v, First(ins))
  {
    agg := map[];
    for i := 0 to |ins|
      invariant agg == GroupBy(v, First(ins[..i]))
    {
      var (k, row) := ins[i];
      assert ins[..i + 1] == ins[..i] + [(k, row)];
      FirstPush(ins[..i], k, row);
      GroupByInsert(v, First(ins[..i]), k, row);
      agg := Bump(v.add, agg, v.group(row), v.unit(row));
    }
    assert ins[..|ins|] == ins;
  }

  /** INSERT ... ON CONFLICT DO UPDATE SET column = table.column + EXCLUDED.column. */
  method UpsertRolls<V, G(==), R>(v: View<V, G, R>, t: map<G, R>, delta: map<G, R>) returns (after: map<G, R>)
    ensures after == Merge(v, t, delta)
  {
    after := t;
    var todo := delta.Keys;
    while todo != {}
      invariant todo <= delta.Keys
      invariant after == Merge(v, t, delta - todo)
      decreases todo
    {
      var g :| g in todo;
      after := Bump(v.add, after, g, delta[g]);
      todo := todo - {g};
    }
  }

  class Store {
    var usageDetail: Detail
    var usageDaily: Daily
    var editDetail: EditDetail
    var editDaily: EditDaily

    constructor ()
      ensures Contents() == NO_TABLES
    {
      usageDetail, usageDaily, editDetail, editDaily := map[], map[], map[], map[];
    }

    ghost function Contents(): Tables
      reads this
    {
      Tables(usageDetail, usageDaily, editDetail, editDaily)
    }

    /** Writes a batch of usage records: detail and rollup move together. */
    method Insert(machineId: string, userId: string, recs: seq<UsageRecord>) returns (accepted: nat, duplicates: nat)
      modifies this
      ensures Contents() == InsertUsage(old(Contents()), userId, machineId, recs)
      ensures accepted == |usageDetail| - |old(usageDetail)|
      ensures accepted + duplicates == |UsageRows(userId, machineId, recs)|
    {
      var rows := UsageRows(userId, machineId, recs);
      AbsorbSize(usageDetail, rows);
      var after, ins := InsertNew(usageDetail, rows);
      UsageLawful();
      var agg := GroupRows(UsageView(), ins);
      usageDetail := after;
      usageDaily := UpsertRolls(UsageView(), usageDaily, agg);
      accepted, duplicates := |ins|, |rows| - |ins|;
    }

    /** The same for file-edit events. */
    method InsertEdits(machineId: string, userId: string, edits: seq<EditRecord>)
      returns (accepted: nat, duplicates: nat)
      modifies this
      ensures Contents() == StoreSpec.InsertEdits(old(Contents()), userId, machineId, edits)
      ensures accepted == |editDetail| - |old(editDetail)|
      ensures accepted + duplicates == |EditRows(userId, machineId, edits)|
    {
      var rows := EditRows(userId, machineId, edits);
      AbsorbSize(editDetail, rows);
      var after, ins := InsertNew(editDetail, rows);
      EditLawful();
      var agg := GroupRows(EditView(), ins);
      editDetail := after;
      editDaily := UpsertRolls(EditView(), editDaily, agg);
      accepted, duplicates := |ins|, |rows| - |ins|;
    }

    /** Replaces the daily rows of the UTC days of `from` and `to`, inclusive, with
        the aggregate recomputed from the detail table. */
    method RebuildDaily(from: int, to: int) returns (rows: nat)
      modifies this`usageDaily
      ensures usageDaily == Rebuilt(usageDetail, old(usageDaily), DayOf(from), DayOf(to))
      ensures rows == |DailyOf(InDays(usageDetail, DayOf(from), DayOf(to)))|
    {
      var first, last := DayOf(from), DayOf(to);
      var kept := map k | k in usageDaily && !(first <= k.day <= last) :: usageDaily[k];
      var news := FreshDaily(first, last);
      usageDaily := kept + news;
      rows := |news|;
    }

    /** SELECT ... FROM usage_detail WHERE ts >= from AND ts < to + 1 day GROUP BY. */
    method FreshDaily(first: int, last: int) returns (news: Daily)
      ensures news == DailyOf(InDays(usageDetail, first, last))
    {
      news := map[];
      var todo := set key | key in usageDetail && first * DAY <= usageDetail[key].ts < (last + 1) * DAY;
      ghost var all := InDays(usageDetail, first, last);
      assert all.Keys == todo;
      UsageLawful();
      assert all - todo == map[];
      while todo != {}
        invariant todo <= all.Keys
        invariant news == DailyOf(all - todo)
        decreases todo
      {
        var key :| key in todo;
        var row := usageDetail[key];
        assert all - (todo - {key}) == (all - todo)[key := row];
        GroupByInsert(UsageView(), all - todo, key, row);
        news := Bump(AddRoll, news, UsageView().group(row), UsageView().unit(row));
        todo := todo - {key};
      }
      assert all - {} == all;
    }
  }

  lemma AbsorbSize<K, V>(t: map<K, V>, s: seq<(K, V)>)
    ensures |t| <= |Absorb(t, s)| <= |t| + |s|
    decreases |s|
  {
    if s != [] {
      AbsorbSize(if s[0].0 in t then t else t[s[0].0 := s[0].1], s[1..]);
    }
  }
}
