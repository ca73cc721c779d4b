/** Grouping what is already grouped. A query that first collapses rows into groups
    and then values and groups the groups gives what valuing every row would, as
    long as the value is additive. */
module Regroup {
  import opened GroupSum

  /** How a group is valued and which cell of the result it falls in. */
  datatype Pricing<!G, !R, !C, !S> = Pricing(cell: G -> C, price: (G, R) -> S, add: (S, S) -> S, zero: S)

  /** The groups as a table of their own. */
  ghost function Paired<G, R>(agg: map<G, R>): map<G, (G, R)> { map g | g in agg :: (g, agg[g]) }

  /** The outer query, over groups. */
  function Outer<G, R, C, S>(p: Pricing<G, R, C, S>): View<(G, R), C, S> {
    View((x: (G, R)) => p.cell(x.0), (x: (G, R)) => p.price(x.0, x.1), p.add, p.zero)
  }

  /** The same valuation, row by row. */
  function Direct<V, G, R, C, S>(v: View<V, G, R>, p: Pricing<G, R, C, S>): View<V, C, S> {
    View((row: V) => p.cell(v.group(row)), (row: V) => p.price(v.group(row), v.unit(row)), p.add, p.zero)
  }

  ghost predicate Pair<G, R>(g: G, a: R, b: R) { true }

  ghost predicate Additive<V, G(!new), R(!new), C, S>(v: View<V, G, R>, p: Pricing<G, R, C, S>) {
    forall g, a, b {:trigger Pair(g, a, b)} | Pair(g, a, b) ::
      p.price(g, v.add(a, b)) == p.add(p.price(g, a), p.price(g, b))
  }

  lemma PairedInsert<G, R>(agg: map<G, R>, g: G, r: R)
    ensures Paired(agg[g := r]) == Paired(agg)[g := (g, r)]
    ensures g !in agg ==> g !in Paired(agg)
  {
  }

  /** One more row in a group moves its cell by the row's own value. */
  lemma BumpTotal<V, G(!new), R(!new), C, S(!new)>(v: View<V, G, R>, p: Pricing<G, R, C, S>, agg: map<G, R>, g: G,
                                                   r: R, c: C)
    requires Lawful(Outer(p)) && Additive(v, p)
    ensures Total(Outer(p), Paired(Bump(v.add, agg, g, r)), c)
         == p.add(Total(Outer(p), Paired(agg), c), Part(Outer(p), (g, r), c))
  {
    var w := Outer(p);
    if g !in agg {
      PairedInsert(agg, g, r);
      TotalInsert(w, Paired(agg), g, (g, r), c);
    } else {
      var was := agg[g];
      var rest := agg - {g};
      assert agg == rest[g := was];
      assert agg[g := v.add(was, r)] == rest[g := v.add(was, r)];
      PairedInsert(rest, g, was);
      PairedInsert(rest, g, v.add(was, r));
      TotalInsert(w, Paired(rest), g, (g, was), c);
      TotalInsert(w, Paired(rest), g, (g, v.add(was, r)), c);
      PartAdds(v, p, g, was, r, c);
      assert At(Total(w, Paired(rest), c), Part(w, (g, was), c), Part(w, (g, r), c));
    }
  }

  lemma PartAdds<V, G(!new), R(!new), C, S(!new)>(v: View<V, G, R>, p: Pricing<G, R, C, S>, g: G, a: R, b: R, c: C)
    requires Lawful(Outer(p)) && Additive(v, p)
    ensures Part(Outer(p), (g, v.add(a, b)), c) == p.add(Part(Outer(p), (g, a), c), Part(Outer(p), (g, b), c))
  {
    assert Pair(g, a, b);
    assert At(p.zero, p.zero, p.zero);
  }

  /** Group, then value: the same as value, then add. */
  lemma {:induction false} Fibration<K, V, G(!new), R(!new), C, S(!new)>(
      v: View<V, G, R>, p: Pricing<G, R, C, S>, d: map<K, V>, c: C)
    requires Lawful(v) && Lawful(Outer(p)) && Additive(v, p)
    ensures Total(Outer(p), Paired(GroupBy(v, d)), c) == Total(Direct(v, p), d, c)
    decreases |d|
  {
    if |d| == 0 {
      assert GroupBy(v, d) == map[];
      assert Paired(GroupBy(v, d)) == map[];
    } else {
      var k := Pick(d);
      var rest, row := d - {k}, d[k];
      assert d == rest[k := row];
      Fibration(v, p, rest, c);
      GroupByInsert(v, rest, k, row);
      BumpTotal(v, p, GroupBy(v, rest), v.group(row), v.unit(row), c);
    }
  }

  lemma CellsOf<K, V, G, R, C, S>(v: View<V, G, R>, p: Pricing<G, R, C, S>, d: map<K, V>, c: C)
    ensures c in Groups(Outer(p), Paired(GroupBy(v, d))) <==> c in Groups(Direct(v, p), d)
  {
    var m := Paired(GroupBy(v, d));
    if c in Groups(Outer(p), m) {
      var g :| g in m && p.cell(m[g].0) == c;
      var k :| k in d && v.group(d[k]) == g;
    }
    if c in Groups(Direct(v, p), d) {
      var k :| k in d && p.cell(v.group(d[k])) == c;
      var g := v.group(d[k]);
      assert g in m && m[g].0 == g;
    }
  }

  /** Cell by cell, and with the same cells. */
  lemma GroupTwice<K, V, G(!new), R(!new), C(!new), S(!new)>(v: View<V, G, R>, p: Pricing<G, R, C, S>, d: map<K, V>)
    requires Lawful(v) && Lawful(Outer(p)) && Additive(v, p)
    ensures GroupBy(Outer(p), Paired(GroupBy(v, d))) == GroupBy(Direct(v, p), d)
  {
    var l, r := GroupBy(Outer(p), Paired(GroupBy(v, d))), GroupBy(Direct(v, p), d);
    forall c ensures SameAt(l, r, c) {
      CellsOf(v, p, d, c);
      Fibration(v, p, d, c);
    }
    SameMaps(l, r);
  }

  /** A group in a cell of its own. */
  lemma OwnCell<G, R, S(!new)>(p: Pricing<G, R, G, S>, agg: map<G, R>, g: G)
    requires Lawful(Outer(p)) && g in agg && forall h | h in agg :: p.cell(h) == h
    ensures Total(Outer(p), Paired(agg), g) == p.price(g, agg[g])
  {
    var w, m := Outer(p), Paired(agg);
    TotalRemove(w, m, g, g);
    TotalEmpty(w, m - {g}, g);
    assert At(w.zero, w.unit(m[g]), w.zero) && At(w.unit(m[g]), w.zero, w.zero);
  }

  /** Two views that read every row alike. */
  ghost predicate Alike<K, V, W, G, R>(v: View<V, G, R>, d: map<K, V>, w: View<W, G, R>, e: map<K, W>) {
    && v.add == w.add && v.zero == w.zero && d.Keys == e.Keys
    && forall k | k in d :: v.group(d[k]) == w.group(e[k]) && v.unit(d[k]) == w.unit(e[k])
  }

  lemma {:induction false} TotalAlike<K, V, W, G, R(!new)>(v: View<V, G, R>, d: map<K, V>, w: View<W, G, R>,
                                                           e: map<K, W>, g: G)
    requires Alike(v, d, w, e) && Lawful(w)
    ensures Total(v, d, g) == Total(w, e, g)
    decreases |d|
  {
    assert |d.Keys| == |e.Keys|;
    if |d| > 0 {
      var p := Pick(d);
      TotalRemove(w, e, p, g);
      TotalAlike(v, d - {p}, w, e - {p}, g);
    }
  }

  lemma GroupByAlike<K, V, W, G(!new), R(!new)>(v: View<V, G, R>, d: map<K, V>, w: View<W, G, R>, e: map<K, W>)
    requires Alike(v, d, w, e) && Lawful(w)
    ensures GroupBy(v, d) == GroupBy(w, e)
  {
    var l, r := GroupBy(v, d), GroupBy(w, e);
    forall g ensures SameAt(l, r, g) {
      TotalAlike(v, d, w, e, g);
      GroupsAlike(v, d, w, e, g);
    }
    SameMaps(l, r);
  }

  lemma GroupsAlike<K, V, W, G, R>(v: View<V, G, R>, d: map<K, V>, w: View<W, G, R>, e: map<K, W>, g: G)
    requires Alike(v, d, w, e)
    ensures g in Groups(v, d) <==> g in Groups(w, e)
  {
    if g in Groups(v, d) {
      var k :| k in d && v.group(d[k]) == g;
      assert k in e && w.group(e[k]) == g;
    }
    if g in Groups(w, e) {
      var k :| k in e && w.group(e[k]) == g;
      assert k in d && v.group(d[k]) == g;
    }
  }
}
