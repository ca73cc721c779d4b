/** What stands in the columns. The other modules show that the tables are the first rows
    per key and the group-by of those; here it is said column by column what such a row and
    such a group is, without the functions that make them. */
module Columns {
  import opened Types
  import opened Dedup
  import opened GroupSum
  import opened Rollup
  import opened StoreSpec
  import opened Repair

  // ----- sums over a group --------------------------------------------------------------

  /** One column, added up over the rows `keys`. */
  ghost function Summed<K, V>(d: map<K, V>, keys: set<K>, column: V -> int): int {
    Sum(map k | k in keys && k in d :: column(d[k]))
  }

  lemma SummedNone<K, V>(d: map<K, V>, column: V -> int)
    ensures Summed(d, {}, column) == 0
  {
    var none: set<K> := {};
    assert (map k | k in none && k in d :: column(d[k])) == map[];
  }

  lemma SummedMore<K, V>(d: map<K, V>, keys: set<K>, column: V -> int, key: K)
    requires key in d && key !in keys && keys <= d.Keys
    ensures Summed(d, keys + {key}, column) == Summed(d, keys, column) + column(d[key])
  {
    var m := map k | k in keys && k in d :: column(d[k]);
    var m' := map k | k in keys + {key} && k in d :: column(d[k]);
    SumRemove(m', key);
    assert m' - {key} == m;
  }

  lemma SummedSame<K, V>(d: map<K, V>, e: map<K, V>, keys: set<K>, column: V -> int)
    requires keys <= d.Keys && keys <= e.Keys && forall k | k in keys :: d[k] == e[k]
    ensures Summed(d, keys, column) == Summed(e, keys, column)
  {
    assert (map k | k in keys && k in d :: column(d[k])) == (map k | k in keys && k in e :: column(e[k]));
  }

  lemma SummedIs<K, V>(d: map<K, V>, keys: set<K>, column: V -> int, m: map<K, int>)
    requires forall k :: k in m <==> k in keys && k in d
    requires forall k | k in m :: m[k] == column(d[k])
    ensures Summed(d, keys, column) == Sum(m)
  {
    assert m == map k | k in keys && k in d :: column(d[k]);
  }

  ghost function Members<K, V, G>(v: V -> G, d: map<K, V>, g: G): set<K> { set k | k in d && v(d[k]) == g }

  lemma MembersStep<K, V, G>(v: V -> G, d: map<K, V>, g: G, key: K)
    requires key in d
    ensures key !in Members(v, d - {key}, g)
    ensures Members(v, d, g) == Members(v, d - {key}, g) + (if v(d[key]) == g then {key} else {})
  {
  }

  ghost predicate Additive<V, G, R(!new)>(v: View<V, G, R>, total: R -> int) {
    total(v.zero) == 0 && forall a, b :: total(v.add(a, b)) == total(a) + total(b)
  }

  /** An additive reading of the aggregate is the sum of its reading of the rows. */
  lemma {:induction false} ReadingSums<K, V, G, R(!new)>(v: View<V, G, R>, d: map<K, V>, g: G, column: R -> int)
    requires Additive(v, column)
    ensures column(Total(v, d, g)) == Summed(d, Members(v.group, d, g), (row: V) => column(v.unit(row)))
    decreases |d|
  {
    var col := (row: V) => column(v.unit(row));
    if |d| == 0 {
      assert Members(v.group, d, g) == {};
      SummedNone(d, col);
    } else {
      var key := Pick(d);
      var rest := d - {key};
      var inner := Members(v.group, rest, g);
      ReadingSums(v, rest, g, column);
      MembersStep(v.group, d, g, key);
      SummedSame(d, rest, inner, col);
      if v.group(d[key]) == g {
        SummedMore(d, inner, col, key);
      } else {
        assert inner + {} == inner;
      }
    }
  }

  lemma ColumnSums<K, V(!new), G, R(!new)>(v: View<V, G, R>, d: map<K, V>, g: G, total: R -> int, column: V -> int)
    requires Additive(v, total) && forall row :: column(row) == total(v.unit(row))
    ensures total(Total(v, d, g)) == Summed(d, Members(v.group, d, g), column)
  {
    ReadingSums(v, d, g, total);
    var keys := Members(v.group, d, g);
    var col := (row: V) => total(v.unit(row));
    assert (map k | k in keys && k in d :: column(d[k])) == (map k | k in keys && k in d :: col(d[k]));
  }

  lemma {:induction false} Ones<K, V>(d: map<K, V>, keys: set<K>)
    requires keys <= d.Keys
    ensures Summed(d, keys, (row: V) => 1) == |keys|
    decreases |keys|
  {
    if keys == {} {
      SummedNone(d, (row: V) => 1);
    } else {
      var k :| k in keys;
      Ones(d, keys - {k});
      SummedMore(d, keys - {k}, (row: V) => 1, k);
      assert keys - {k} + {k} == keys;
    }
  }

  // ----- a row of usage_daily -----------------------------------------------------------

  /** The rows of the group: their time stamps lie in the UTC day. */
  ghost function UsageOf(d: Detail, k: DayKey): set<UsageKey> {
    set key | key in d && k.day * 86_400_000_000 <= d[key].ts < (k.day + 1) * 86_400_000_000
              && d[key].userId == k.userId && d[key].machineId == k.machineId && d[key].tool == k.tool
              && d[key].model == k.family
  }

  lemma InGroup(row: UsageRow, k: DayKey)
    ensures UsageView().group(row) == k
            <==> k.day * 86_400_000_000 <= row.ts < (k.day + 1) * 86_400_000_000 && row.userId == k.userId
                 && row.machineId == k.machineId && row.tool == k.tool && row.model == k.family
  {
  }

  lemma UsageMembers(d: Detail, k: DayKey)
    ensures Members(UsageView().group, d, k) == UsageOf(d, k)
  {
    forall key | key in d ensures key in Members(UsageView().group, d, k) <==> key in UsageOf(d, k) {
      InGroup(d[key], k);
    }
  }

  lemma UsageAdditive()
    ensures Additive(UsageView(), (r: Roll) => r.messages)
    ensures Additive(UsageView(), (r: Roll) => r.sum.input)
    ensures Additive(UsageView(), (r: Roll) => r.sum.output)
    ensures Additive(UsageView(), (r: Roll) => r.sum.cacheCreation)
    ensures Additive(UsageView(), (r: Roll) => r.sum.cacheCreation1h)
    ensures Additive(UsageView(), (r: Roll) => r.sum.cacheRead)
  {
  }

  /** The count, the bounds and the five sums of the rows `keys`. */
  ghost predicate Tallies(d: Detail, keys: set<UsageKey>, r: Roll) {
    && r.messages == |keys|
    && IsMin(d, keys, r.firstTs) && IsMax(d, keys, r.lastTs)
    && r.sum.input == Summed(d, keys, (row: UsageRow) => row.tokens.input)
    && r.sum.output == Summed(d, keys, (row: UsageRow) => row.tokens.output)
    && r.sum.cacheCreation == Summed(d, keys, (row: UsageRow) => row.tokens.cacheCreation)
    && r.sum.cacheCreation1h == Summed(d, keys, (row: UsageRow) => row.tokens.cacheCreation1h)
    && r.sum.cacheRead == Summed(d, keys, (row: UsageRow) => row.tokens.cacheRead)
  }

  lemma UsageTallies(d: Detail, k: DayKey)
    ensures Tallies(d, UsageOf(d, k), Roll0(d, k))
  {
    var v := UsageView();
    UsageAdditive();
    UsageMembers(d, k);
    UsageBounds(d, k);
    Ones(d, UsageOf(d, k));
    ColumnSums(v, d, k, (r: Roll) => r.messages, (row: UsageRow) => 1);
    ColumnSums(v, d, k, (r: Roll) => r.sum.input, (row: UsageRow) => row.tokens.input);
    ColumnSums(v, d, k, (r: Roll) => r.sum.output, (row: UsageRow) => row.tokens.output);
    ColumnSums(v, d, k, (r: Roll) => r.sum.cacheCreation, (row: UsageRow) => row.tokens.cacheCreation);
    ColumnSums(v, d, k, (r: Roll) => r.sum.cacheCreation1h, (row: UsageRow) => row.tokens.cacheCreation1h);
    ColumnSums(v, d, k, (r: Roll) => r.sum.cacheRead, (row: UsageRow) => row.tokens.cacheRead);
  }

  lemma {:induction false} UsageBounds(d: Detail, k: DayKey)
    ensures IsMin(d, Members(UsageView().group, d, k), Roll0(d, k).firstTs)
    ensures IsMax(d, Members(UsageView().group, d, k), Roll0(d, k).lastTs)
    decreases |d|
  {
    var v := UsageView();
    if |d| == 0 {
      assert Members(v.group, d, k) == {};
    } else {
      var key := Pick(d);
      var rest := d - {key};
      UsageBounds(rest, k);
      MembersStep(v.group, d, k, key);
      BoundsStep(d, key, Members(v.group, rest, k), Roll0(rest, k), v.group(d[key]) == k);
    }
  }

  /** One more row in or beside the group. */
  lemma BoundsStep(d: Detail, key: UsageKey, keys: set<UsageKey>, r: Roll, joins: bool)
    requires key in d && key !in keys && keys <= d.Keys
    requires IsMin(d - {key}, keys, r.firstTs) && IsMax(d - {key}, keys, r.lastTs)
    ensures var r' := AddRoll(r, if joins then UsageView().unit(d[key]) else UsageView().zero);
            IsMin(d, keys + (if joins then {key} else {}), r'.firstTs)
            && IsMax(d, keys + (if joins then {key} else {}), r'.lastTs)
  {
    if !joins { assert keys + {} == keys; }
  }

  /** A row of usage_daily stands for the messages of its UTC day, user, machine, tool and
      model: it is there if and only if there is one, counts them, bounds their time stamps
      by the first and the last of them, and adds up their five token columns. */
  lemma DailyColumns(t: Tables, k: DayKey)
    requires InView(t)
    ensures k in t.daily <==> UsageOf(t.usage, k) != {}
    ensures k in t.daily ==> Tallies(t.usage, UsageOf(t.usage, k), t.daily[k])
  {
    UsageTallies(t.usage, k);
    UsageMembers(t.usage, k);
    SomeMember(UsageView(), t.usage, k);
  }

  lemma SomeMember<K, V, G, R>(v: View<V, G, R>, d: map<K, V>, g: G)
    ensures g in Groups(v, d) <==> Members(v.group, d, g) != {}
  {
    if g in Groups(v, d) {
      var k :| k in d && v.group(d[k]) == g;
      assert k in Members(v.group, d, g);
    }
    if Members(v.group, d, g) != {} {
      var k :| k in Members(v.group, d, g);
      assert v.group(d[k]) in Groups(v, d);
    }
  }

  // ----- a row of edit_daily ------------------------------------------------------------

  ghost function EditsOf(d: EditDetail, k: DayKey): set<string> {
    set id | id in d && k.day * 86_400_000_000 <= d[id].ts < (k.day + 1) * 86_400_000_000 && d[id].userId == k.userId
             && d[id].machineId == k.machineId && d[id].tool == k.tool && d[id].lang == k.family
  }

  lemma InEditGroup(row: EditRow, k: DayKey)
    ensures EditView().group(row) == k
            <==> k.day * 86_400_000_000 <= row.ts < (k.day + 1) * 86_400_000_000 && row.userId == k.userId
                 && row.machineId == k.machineId && row.tool == k.tool && row.lang == k.family
  {
  }

  lemma EditMembers(d: EditDetail, k: DayKey)
    ensures Members(EditView().group, d, k) == EditsOf(d, k)
  {
    forall id | id in d ensures id in Members(EditView().group, d, k) <==> id in EditsOf(d, k) {
      InEditGroup(d[id], k);
    }
  }

  lemma EditAdditive()
    ensures Additive(EditView(), (r: EditRoll) => r.added)
    ensures Additive(EditView(), (r: EditRoll) => r.removed)
    ensures Additive(EditView(), (r: EditRoll) => r.edits)
  {
  }

  /** The same for edit_daily: the number of edits, their added and their removed lines. */
  lemma EditDailyColumns(t: Tables, k: DayKey)
    requires InView(t)
    ensures k in t.editDaily <==> EditsOf(t.edits, k) != {}
    ensures k in t.editDaily ==>
      && t.editDaily[k].edits == |EditsOf(t.edits, k)|
      && t.editDaily[k].added == Summed(t.edits, EditsOf(t.edits, k), (row: EditRow) => row.added)
      && t.editDaily[k].removed == Summed(t.edits, EditsOf(t.edits, k), (row: EditRow) => row.removed)
  {
    var v := EditView();
    EditAdditive();
    EditMembers(t.edits, k);
    SomeMember(v, t.edits, k);
    Ones(t.edits, EditsOf(t.edits, k));
    ColumnSums(v, t.edits, k, (r: EditRoll) => r.edits, (row: EditRow) => 1);
    ColumnSums(v, t.edits, k, (r: EditRoll) => r.added, (row: EditRow) => row.added);
    ColumnSums(v, t.edits, k, (r: EditRoll) => r.removed, (row: EditRow) => row.removed);
  }

  // ----- a row of usage_detail ----------------------------------------------------------

  predicate Carries(r: UsageRecord, key: UsageKey) {
    r.messageId != "" && r.messageId == key.messageId && r.requestId == key.requestId
  }

  /** Record `i` is the first of the batch with that key. */
  ghost predicate FirstCarrier(recs: seq<UsageRecord>, key: UsageKey, i: nat) {
    i < |recs| && Carries(recs[i], key) && forall j | 0 <= j < i :: !Carries(recs[j], key)
  }

  /** The row is the record's, reported by user `u` on machine `m`. */
  ghost predicate Stores(row: UsageRow, r: UsageRecord, u: string, m: string) {
    && row.sessionId == r.sessionId && row.userId == u && row.machineId == m
    && row.tool == (if r.tool == "" then "claude-code" else r.tool)
    && row.model == r.model && row.ts == r.timestamp && row.projectPath == r.projectPath
    && row.tokens.input == r.inputTokens && row.tokens.output == r.outputTokens
    && row.tokens.cacheRead == r.cacheReadTokens && row.tokens.cacheCreation == r.cacheCreationTokens
    && row.tokens.cacheCreation1h
       == (if r.cacheCreation1hTokens < r.cacheCreationTokens then r.cacheCreation1hTokens else r.cacheCreationTokens)
  }

  ghost predicate FreshRow(row: UsageRow, recs: seq<UsageRecord>, key: UsageKey, u: string, m: string) {
    exists i: nat :: FirstCarrier(recs, key, i) && Stores(row, recs[i], u, m)
  }

  lemma {:induction false} AbsorbedUsage(d: Detail, u: string, m: string, recs: seq<UsageRecord>, key: UsageKey)
    ensures var after := Absorb(d, UsageRows(u, m, recs));
            && (key in d ==> key in after && after[key] == d[key])
            && (key !in d && key in after ==> FreshRow(after[key], recs, key, u, m))
            && (key !in after ==> forall r | r in recs :: !Carries(r, key))
    decreases |recs|
  {
    if recs != [] {
      var row := UsageRowOf(u, m, recs[0]);
      var d' := if recs[0].messageId == "" || row.0 in d then d else d[row.0 := row.1];
      AbsorbedUsage(d', u, m, recs[1..], key);
      AbsorbFirst(d, u, m, recs);
      var after := Absorb(d, UsageRows(u, m, recs));
      if key !in d && key in after {
        if key in d' {
          assert FirstCarrier(recs, key, 0);
        } else {
          var i: nat :| FirstCarrier(recs[1..], key, i) && Stores(after[key], recs[1..][i], u, m);
          assert FirstCarrier(recs, key, i + 1);
        }
      }
    }
  }

  lemma AbsorbFirst(d: Detail, u: string, m: string, recs: seq<UsageRecord>)
    requires recs != []
    ensures var row := UsageRowOf(u, m, recs[0]);
            Absorb(d, UsageRows(u, m, recs))
            == Absorb(if recs[0].messageId == "" || row.0 in d then d else d[row.0 := row.1],
                      UsageRows(u, m, recs[1..]))
  {
    var rest := UsageRows(u, m, recs[1..]);
    if recs[0].messageId == "" {
      assert UsageRows(u, m, recs) == rest;
    } else {
      var row := UsageRowOf(u, m, recs[0]);
      assert UsageRows(u, m, recs) == [row] + rest;
      assert ([row] + rest)[1..] == rest;
    }
  }

  /** What a usage request leaves in usage_detail: the rows it held, and for every other
      key of a record with a message id the columns of the first record with that key. */
  lemma InsertedUsage(t: Tables, u: string, m: string, recs: seq<UsageRecord>, key: UsageKey)
    ensures var after := InsertUsage(t, u, m, recs).usage;
            && (key in after <==> key in t.usage || exists r :: r in recs && Carries(r, key))
            && (key in t.usage ==> after[key] == t.usage[key])
            && (key !in t.usage && key in after ==> FreshRow(after[key], recs, key, u, m))
  {
    AbsorbedUsage(t.usage, u, m, recs, key);
    var after := InsertUsage(t, u, m, recs).usage;
    if key !in t.usage && key in after {
      var i: nat :| FirstCarrier(recs, key, i) && Stores(after[key], recs[i], u, m);
      assert recs[i] in recs;
    }
  }

  // ----- a row of edit_detail -----------------------------------------------------------

  ghost predicate FirstEdit(edits: seq<EditRecord>, id: string, i: nat) {
    i < |edits| && edits[i].eventId == id && forall j | 0 <= j < i :: edits[j].eventId != id
  }

  ghost predicate StoresEdit(row: EditRow, e: EditRecord, u: string, m: string) {
    && row.sessionId == e.sessionId && row.userId == u && row.machineId == m
    && row.tool == (if e.tool == "" then "claude-code" else e.tool)
    && row.lang == (if e.lang == "" then "other" else e.lang)
    && row.ts == e.timestamp && row.projectPath == e.projectPath
    && row.added == e.linesAdded && row.removed == e.linesRemoved
  }

  ghost predicate FreshEdit(row: EditRow, edits: seq<EditRecord>, id: string, u: string, m: string) {
    exists i: nat :: FirstEdit(edits, id, i) && StoresEdit(row, edits[i], u, m)
  }

  lemma {:induction false} AbsorbedEdits(d: EditDetail, u: string, m: string, edits: seq<EditRecord>, id: string)
    ensures var after := Absorb(d, EditRows(u, m, edits));
            && (id in d ==> id in after && after[id] == d[id])
            && (id !in d && id in after ==> id != "" && FreshEdit(after[id], edits, id, u, m))
            && (id != "" && id !in after ==> forall e | e in edits :: e.eventId != id)
    decreases |edits|
  {
    if edits != [] {
      var row := EditRowOf(u, m, edits[0]);
      var d' := if edits[0].eventId == "" || row.0 in d then d else d[row.0 := row.1];
      AbsorbedEdits(d', u, m, edits[1..], id);
      AbsorbFirstEdit(d, u, m, edits);
      var after := Absorb(d, EditRows(u, m, edits));
      if id !in d && id in after {
        if id in d' {
          assert FirstEdit(edits, id, 0);
        } else {
          var i: nat :| FirstEdit(edits[1..], id, i) && StoresEdit(after[id], edits[1..][i], u, m);
          assert FirstEdit(edits, id, i + 1);
        }
      }
    }
  }

  lemma AbsorbFirstEdit(d: EditDetail, u: string, m: string, edits: seq<EditRecord>)
    requires edits != []
    ensures var row := EditRowOf(u, m, edits[0]);
            Absorb(d, EditRows(u, m, edits))
            == Absorb(if edits[0].eventId == "" || row.0 in d then d else d[row.0 := row.1],
                      EditRows(u, m, edits[1..]))
  {
    var rest := EditRows(u, m, edits[1..]);
    if edits[0].eventId == "" {
      assert EditRows(u, m, edits) == rest;
    } else {
      var row := EditRowOf(u, m, edits[0]);
      assert EditRows(u, m, edits) == [row] + rest;
      assert ([row] + rest)[1..] == rest;
    }
  }

  /** The same for edit_detail and the event id. */
  lemma InsertedEdits(t: Tables, u: string, m: string, edits: seq<EditRecord>, id: string)
    ensures var after := InsertEdits(t, u, m, edits).edits;
            && (id in after <==> id in t.edits || (id != "" && exists e :: e in edits && e.eventId == id))
            && (id in t.edits ==> after[id] == t.edits[id])
            && (id !in t.edits && id in after ==> FreshEdit(after[id], edits, id, u, m))
  {
    AbsorbedEdits(t.edits, u, m, edits, id);
    var after := InsertEdits(t, u, m, edits).edits;
    if id !in t.edits && id in after {
      var i: nat :| FirstEdit(edits, id, i) && StoresEdit(after[id], edits[i], u, m);
      assert edits[i] in edits;
    }
  }

  // ----- a row after a repair -----------------------------------------------------------

  lemma {:induction false} StagedFirst(q: Stage, recs: seq<UsageRecord>, key: UsageKey)
    ensures var s := Absorb(q, StageRows(recs));
            && (key in q ==> key in s && s[key] == q[key])
            && (key !in q && key in s ==> FreshQuad(s[key], recs, key))
            && (key !in s ==> forall r | r in recs :: !Carries(r, key))
    decreases |recs|
  {
    if recs != [] {
      var r := recs[0];
      var k := UsageKey(r.messageId, r.requestId);
      var quad := Quad(r.inputTokens, r.outputTokens, r.cacheCreationTokens, r.cacheReadTokens);
      var q' := if r.messageId == "" || k in q then q else q[k := quad];
      StagedFirst(q', recs[1..], key);
      StageFirst(q, recs);
      var s := Absorb(q, StageRows(recs));
      if key !in q && key in s {
        if key in q' {
          assert FirstCarrier(recs, key, 0);
        } else {
          var i: nat :| FirstCarrier(recs[1..], key, i) && HasColumns(s[key], recs[1..][i]);
          assert FirstCarrier(recs, key, i + 1);
        }
      }
    }
  }

  lemma StageFirst(q: Stage, recs: seq<UsageRecord>)
    requires recs != []
    ensures var r := recs[0];
            var k := UsageKey(r.messageId, r.requestId);
            var quad := Quad(r.inputTokens, r.outputTokens, r.cacheCreationTokens, r.cacheReadTokens);
            Absorb(q, StageRows(recs))
            == Absorb(if r.messageId == "" || k in q then q else q[k := quad], StageRows(recs[1..]))
  {
    var r, rest := recs[0], StageRows(recs[1..]);
    if r.messageId == "" {
      assert StageRows(recs) == rest;
    } else {
      var row := (UsageKey(r.messageId, r.requestId),
                  Quad(r.inputTokens, r.outputTokens, r.cacheCreationTokens, r.cacheReadTokens));
      assert StageRows(recs) == [row] + rest;
      assert ([row] + rest)[1..] == rest;
    }
  }

  predicate HasColumns(q: Quad, r: UsageRecord) {
    && q.input == r.inputTokens && q.output == r.outputTokens
    && q.cacheCreation == r.cacheCreationTokens && q.cacheRead == r.cacheReadTokens
  }

  ghost predicate FreshQuad(q: Quad, recs: seq<UsageRecord>, key: UsageKey) {
    exists i: nat :: FirstCarrier(recs, key, i) && HasColumns(q, recs[i])
  }

  /** Only the four token columns of the row changed, to those of `r`. */
  predicate Corrects(was: UsageRow, row: UsageRow, r: UsageRecord) {
    && row.sessionId == was.sessionId && row.userId == was.userId && row.machineId == was.machineId
    && row.tool == was.tool && row.model == was.model && row.ts == was.ts && row.projectPath == was.projectPath
    && row.tokens.cacheCreation1h == was.tokens.cacheCreation1h
    && row.tokens.input == r.inputTokens && row.tokens.output == r.outputTokens
    && row.tokens.cacheCreation == r.cacheCreationTokens && row.tokens.cacheRead == r.cacheReadTokens
  }

  ghost predicate Corrected(was: UsageRow, row: UsageRow, recs: seq<UsageRecord>, key: UsageKey) {
    exists i: nat :: FirstCarrier(recs, key, i) && Corrects(was, row, recs[i])
  }

  /** A repair rewrites the Codex rows of its user and machine whose key a parsed record
      carries, with the token columns of the first such record; no row comes, goes or
      changes otherwise. */
  lemma RepairedColumns(d: Detail, recs: seq<UsageRecord>, u: string, m: string, key: UsageKey)
    ensures var after := Updated(d, Staged(recs), u, m);
            && (key in after <==> key in d)
            && (key in d ==>
                  var mine := d[key].tool == "codex" && d[key].userId == u && d[key].machineId == m;
                  if mine && exists r :: r in recs && Carries(r, key) then Corrected(d[key], after[key], recs, key)
                  else after[key] == d[key])
  {
    StagedFirst(map[], recs, key);
    var s := Staged(recs);
    if key in s {
      var i: nat :| FirstCarrier(recs, key, i) && HasColumns(s[key], recs[i]);
      assert recs[i] in recs;
      if key in d && InScope(d[key], u, m) {
        assert Corrects(d[key], Updated(d, s, u, m)[key], recs[i]);
      }
    }
  }

  /** The sums a report gives: of the matched rows as they are, and as the repair leaves
      them. */
  lemma ReportedSums(d: Detail, recs: seq<UsageRecord>, u: string, m: string, st: Stats)
    requires Sums(d, Staged(recs), Matched(d, Staged(recs), u, m), st)
    ensures var keys, after := Matched(d, Staged(recs), u, m), Updated(d, Staged(recs), u, m);
            && st.oldInput == Summed(d, keys, (row: UsageRow) => row.tokens.input)
            && st.oldOutput == Summed(d, keys, (row: UsageRow) => row.tokens.output)
            && st.newInput == Summed(after, keys, (row: UsageRow) => row.tokens.input)
            && st.newOutput == Summed(after, keys, (row: UsageRow) => row.tokens.output)
            && st.cacheRead == Summed(after, keys, (row: UsageRow) => row.tokens.cacheRead)
  {
    var s := Staged(recs);
    OldSum(d, Matched(d, s, u, m), (q: Quad) => q.input, (row: UsageRow) => row.tokens.input);
    OldSum(d, Matched(d, s, u, m), (q: Quad) => q.output, (row: UsageRow) => row.tokens.output);
    NewSum(d, s, u, m, (q: Quad) => q.input, (row: UsageRow) => row.tokens.input);
    NewSum(d, s, u, m, (q: Quad) => q.output, (row: UsageRow) => row.tokens.output);
    NewSum(d, s, u, m, (q: Quad) => q.cacheRead, (row: UsageRow) => row.tokens.cacheRead);
  }

  lemma OldSum(d: Detail, keys: set<UsageKey>, column: Quad -> int, of: UsageRow -> int)
    requires forall row :: of(row) == column(QuadOf(row.tokens))
    ensures Sum(StoredOf(d, keys, column)) == Summed(d, keys, of)
  {
    SummedIs(d, keys, of, StoredOf(d, keys, column));
  }

  lemma NewSum(d: Detail, s: Stage, u: string, m: string, column: Quad -> int, of: UsageRow -> int)
    requires forall row :: of(row) == column(QuadOf(row.tokens))
    ensures Sum(SourceOf(s, Matched(d, s, u, m), column)) == Summed(Updated(d, s, u, m), Matched(d, s, u, m), of)
  {
    var keys, after := Matched(d, s, u, m), Updated(d, s, u, m);
    forall k | k in keys ensures k in s && k in after && of(after[k]) == column(s[k]) {
      assert QuadOf(after[k].tokens) == s[k];
    }
    SummedIs(after, keys, of, SourceOf(s, keys, column));
  }
}
