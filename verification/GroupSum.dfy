/** Group-by with an aggregate over a keyed table, for any commutative aggregate:
    the meaning of `SELECT group, AGG(unit) FROM table GROUP BY group`. */
module GroupSum {

  /** How a row is grouped and what it contributes. */
  datatype View<!V, !G, !R> = View(group: V -> G, unit: V -> R, add: (R, R) -> R, zero: R)

  /** Extensional equality of maps, one key at a time. */
  ghost predicate SameAt<K, V>(l: map<K, V>, r: map<K, V>, k: K)
  {
    (k in l <==> k in r) && (k in l ==> l[k] == r[k])
  }

  lemma SameMaps<K(!new), V>(l: map<K, V>, r: map<K, V>)
    requires forall k :: SameAt(l, r, k)
    ensures l == r
  {
    forall k ensures k in l <==> k in r { assert SameAt(l, r, k); }
    forall k | k in l ensures l[k] == r[k] { assert SameAt(l, r, k); }
  }

  /** Names an instance of the aggregate laws; proofs mention it to use them. */
  ghost predicate At<R>(a: R, b: R, c: R) { true }

  ghost predicate Lawful<V, G, R(!new)>(v: View<V, G, R>)
  {
    forall a, b, c {:trigger At(a, b, c)} | At(a, b, c) ::
      && v.add(a, b) == v.add(b, a)
      && v.add(v.add(a, b), c) == v.add(a, v.add(b, c))
      && v.add(a, v.zero) == a
  }

  function Part<V, G(==), R>(v: View<V, G, R>, row: V, g: G): R
  {
    if v.group(row) == g then v.unit(row) else v.zero
  }

  ghost function Pick<K, V>(m: map<K, V>): K
    requires |m| > 0
  {
    var k :| k in m.Keys; k
  }

  /** The aggregate of the rows of `d` that fall in group `g`. */
  ghost function Total<K, V, G, R>(v: View<V, G, R>, d: map<K, V>, g: G): R
    decreases |d|
  {
    if |d| == 0 then v.zero
    else var k := Pick(d); v.add(Total(v, d - {k}, g), Part(v, d[k], g))
  }

  ghost function Groups<K, V, G, R>(v: View<V, G, R>, d: map<K, V>): set<G>
  {
    set k | k in d :: v.group(d[k])
  }

  ghost function GroupBy<K, V, G, R>(v: View<V, G, R>, d: map<K, V>): map<G, R>
  {
    map g | g in Groups(v, d) :: Total(v, d, g)
  }

  /** The total does not depend on the order rows are added in. */
  lemma {:induction false} TotalInsert<K, V, G, R(!new)>(v: View<V, G, R>, d: map<K, V>, k: K, row: V, g: G)
    requires Lawful(v) && k !in d
    ensures Total(v, d[k := row], g) == v.add(Total(v, d, g), Part(v, row, g))
    decreases |d|
  {
    var e := d[k := row];
    var p := Pick(e);
    if p == k {
      assert e - {k} == d;
    } else {
      var rest := d - {p};
      assert e - {p} == rest[k := row];
      assert d == rest[p := d[p]];
      TotalInsert(v, rest, k, row, g);
      TotalInsert(v, rest, p, d[p], g);
      var t, x, y := Total(v, rest, g), Part(v, row, g), Part(v, d[p], g);
      assert At(t, x, y) && At(t, y, x) && At(x, y, t);
    }
  }

  /** Removing the picked row first or last is the same. */
  lemma TotalRemove<K, V, G, R(!new)>(v: View<V, G, R>, d: map<K, V>, k: K, g: G)
    requires Lawful(v) && k in d
    ensures Total(v, d, g) == v.add(Total(v, d - {k}, g), Part(v, d[k], g))
  {
    assert (d - {k})[k := d[k]] == d;
    TotalInsert(v, d - {k}, k, d[k], g);
  }

  /** `c` is the disjoint union of `a` and `b`. */
  ghost predicate Splits<K, V>(c: map<K, V>, a: map<K, V>, b: map<K, V>)
  {
    && (forall k | k in a :: k !in b && k in c && c[k] == a[k])
    && (forall k | k in b :: k in c && c[k] == b[k])
    && (forall k | k in c :: k in a || k in b)
  }

  lemma SplitsRemove<K, V>(c: map<K, V>, a: map<K, V>, b: map<K, V>, p: K)
    requires Splits(c, a, b) && p in b
    ensures Splits(c - {p}, a, b - {p})
    ensures |b - {p}| == |b| - 1
    ensures p in c && c[p] == b[p]
  {
    assert b == (b - {p})[p := b[p]];
  }

  /** Disjoint tables add up group by group. */
  lemma {:induction false} TotalUnion<K, V, G, R(!new)>(v: View<V, G, R>, c: map<K, V>, a: map<K, V>, b: map<K, V>,
                                                        g: G)
    requires Lawful(v) && Splits(c, a, b)
    ensures Total(v, c, g) == v.add(Total(v, a, g), Total(v, b, g))
    decreases |b|
  {
    if |b| == 0 {
      assert c == a;
      assert At(Total(v, a, g), v.zero, v.zero);
    } else {
      var p := Pick(b);
      var c', b' := c - {p}, b - {p};
      SplitsRemove(c, a, b, p);
      TotalRemove(v, c, p, g);
      TotalUnion(v, c', a, b', g);
      assert At(Total(v, a, g), Total(v, b', g), Part(v, b[p], g));
    }
  }

  lemma {:induction false} TotalEmpty<K, V, G, R(!new)>(v: View<V, G, R>, d: map<K, V>, g: G)
    requires Lawful(v)
    requires g !in Groups(v, d)
    ensures Total(v, d, g) == v.zero
    decreases |d|
  {
    if |d| > 0 {
      var p := Pick(d);
      assert v.group(d[p]) in Groups(v, d);
      assert forall k | k in d - {p} :: (d - {p})[k] == d[k];
      assert Groups(v, d - {p}) <= Groups(v, d);
      TotalEmpty(v, d - {p}, g);
      assert At(v.zero, v.zero, v.zero);
    }
  }

  /** A group's total depends on the rows of that group only. */
  lemma {:induction false} TotalLocal<K, V, G, R(!new)>(v: View<V, G, R>, d: map<K, V>, e: map<K, V>, g: G)
    requires Lawful(v)
    requires forall k | k in d && v.group(d[k]) == g :: k in e && e[k] == d[k]
    requires forall k | k in e && v.group(e[k]) == g :: k in d && d[k] == e[k]
    ensures Total(v, d, g) == Total(v, e, g)
    decreases |d|
  {
    if |d| == 0 {
      TotalEmpty(v, e, g);
    } else {
      var p := Pick(d);
      if v.group(d[p]) == g {
        TotalRemove(v, e, p, g);
        TotalLocal(v, d - {p}, e - {p}, g);
      } else {
        var t := Total(v, d - {p}, g);
        assert At(t, v.zero, v.zero);
        TotalLocal(v, d - {p}, e, g);
      }
    }
  }

  /** The ON CONFLICT DO UPDATE upsert of a batch of aggregates. */
  function Merge<V, G(==), R>(v: View<V, G, R>, t: map<G, R>, delta: map<G, R>): map<G, R>
  {
    map g | g in t.Keys + delta.Keys ::
      if g !in delta then t[g] else if g !in t then delta[g] else v.add(t[g], delta[g])
  }

  /** Group-by is additive over disjoint row sets: the reason an incremental
      rollup can stay exact. */
  lemma GroupByUnion<K, V, G, R(!new)>(v: View<V, G, R>, c: map<K, V>, a: map<K, V>, b: map<K, V>)
    requires Lawful(v) && Splits(c, a, b)
    ensures GroupBy(v, c) == Merge(v, GroupBy(v, a), GroupBy(v, b))
  {
    var gc, m := GroupBy(v, c), Merge(v, GroupBy(v, a), GroupBy(v, b));
    forall g
      ensures g in gc <==> g in m
      ensures g in gc ==> gc[g] == m[g]
    {
      MergeAt(v, c, a, b, g);
    }
  }

  lemma MergeAt<K, V, G, R(!new)>(v: View<V, G, R>, c: map<K, V>, a: map<K, V>, b: map<K, V>, g: G)
    requires Lawful(v) && Splits(c, a, b)
    ensures var gc, m := GroupBy(v, c), Merge(v, GroupBy(v, a), GroupBy(v, b));
            && (g in gc <==> g in m)
            && (g in gc ==> gc[g] == m[g])
  {
    UnionAt(v, c, a, b, g);
  }

  lemma UnionAt<K, V, G, R(!new)>(v: View<V, G, R>, c: map<K, V>, a: map<K, V>, b: map<K, V>, g: G)
    requires Lawful(v) && Splits(c, a, b)
    ensures g in Groups(v, c) <==> g in Groups(v, a) || g in Groups(v, b)
    ensures Total(v, c, g) == v.add(Total(v, a, g), Total(v, b, g))
    ensures g !in Groups(v, a) ==> Total(v, c, g) == Total(v, b, g)
    ensures g !in Groups(v, b) ==> Total(v, c, g) == Total(v, a, g)
  {
    GroupsUnion(v, c, a, b);
    TotalUnion(v, c, a, b, g);
    if g !in Groups(v, a) {
      TotalEmpty(v, a, g);
      assert At(v.zero, Total(v, b, g), v.zero) && At(Total(v, b, g), v.zero, v.zero);
    }
    if g !in Groups(v, b) {
      TotalEmpty(v, b, g);
      assert At(Total(v, a, g), v.zero, v.zero);
    }
  }

  lemma GroupsUnion<K, V, G, R>(v: View<V, G, R>, c: map<K, V>, a: map<K, V>, b: map<K, V>)
    requires Splits(c, a, b)
    ensures Groups(v, c) == Groups(v, a) + Groups(v, b)
  {
    forall k | k in a ensures v.group(a[k]) in Groups(v, c) { assert c[k] == a[k]; }
    forall k | k in b ensures v.group(b[k]) in Groups(v, c) { assert c[k] == b[k]; }
  }

  /** One more row, one group bumped. */
  function Bump<G(==), R>(add: (R, R) -> R, t: map<G, R>, g: G, r: R): map<G, R>
  {
    t[g := if g in t then add(t[g], r) else r]
  }

  lemma GroupByInsert<K, V, G, R(!new)>(v: View<V, G, R>, d: map<K, V>, k: K, row: V)
    requires Lawful(v) && k !in d
    ensures GroupBy(v, d[k := row]) == Bump(v.add, GroupBy(v, d), v.group(row), v.unit(row))
  {
    var t, b := GroupBy(v, d[k := row]), Bump(v.add, GroupBy(v, d), v.group(row), v.unit(row));
    forall g
      ensures g in t <==> g in b
      ensures g in t ==> t[g] == b[g]
    {
      BumpAt(v, d, k, row, g);
    }
  }

  lemma BumpAt<K, V, G, R(!new)>(v: View<V, G, R>, d: map<K, V>, k: K, row: V, g: G)
    requires Lawful(v) && k !in d
    ensures var t, b := GroupBy(v, d[k := row]), Bump(v.add, GroupBy(v, d), v.group(row), v.unit(row));
            && (g in t <==> g in b)
            && (g in t ==> t[g] == b[g])
  {
    GroupsInsert(v, d, k, row);
    TotalInsert(v, d, k, row, g);
    assert At(Total(v, d, g), v.zero, v.zero);
    if g !in Groups(v, d) {
      TotalEmpty(v, d, g);
      assert At(v.zero, v.unit(row), v.zero) && At(v.unit(row), v.zero, v.zero);
    }
  }

  lemma GroupsInsert<K, V, G, R>(v: View<V, G, R>, d: map<K, V>, k: K, row: V)
    requires k !in d
    ensures Groups(v, d[k := row]) == Groups(v, d) + {v.group(row)}
  {
    var e := d[k := row];
    assert e[k] == row;
    assert forall j | j in d :: e[j] == d[j];
  }

  /** Two tables that agree on a group's rows agree on whether it exists. */
  lemma GroupsLocal<K, V, G, R>(v: View<V, G, R>, d: map<K, V>, e: map<K, V>, g: G)
    requires forall k | k in d && v.group(d[k]) == g :: k in e && e[k] == d[k]
    requires forall k | k in e && v.group(e[k]) == g :: k in d && d[k] == e[k]
    ensures g in Groups(v, d) <==> g in Groups(v, e)
  {
    if g in Groups(v, d) {
      var k :| k in d && v.group(d[k]) == g;
      assert e[k] == d[k];
    }
    if g in Groups(v, e) {
      var k :| k in e && v.group(e[k]) == g;
      assert d[k] == e[k];
    }
  }
}
