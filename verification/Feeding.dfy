/** Streams fed to a table again and again from an earlier point, but never with a gap,
    alone or among rows of other keys. */
module Feeding {
  import opened Types
  import opened Dedup
  import opened GroupSum

  // ----- feeding a stream with repetitions ------------------------------------------------

  ghost predicate At<T>(stream: seq<T>, i: nat, r: T) { i < |stream| && stream[i] == r }

  /** `recs` repeats records of the stream's first `m` or continues it without a gap, and
      brings the front from `m` to `n`. */
  ghost predicate Fed<T>(recs: seq<T>, stream: seq<T>, m: nat, n: nat)
    decreases |recs|
  {
    if recs == [] then n == m
    else exists i: nat :: i <= m && At(stream, i, recs[0]) && Fed(recs[1..], stream, Max(m, i + 1), n)
  }

  lemma {:induction false} FedBounds<T>(recs: seq<T>, stream: seq<T>, m: nat, n: nat)
    requires Fed(recs, stream, m, n) && m <= |stream|
    ensures m <= n <= |stream|
    decreases |recs|
  {
    if recs != [] {
      var i: nat :| i <= m && At(stream, i, recs[0]) && Fed(recs[1..], stream, Max(m, i + 1), n);
      FedBounds(recs[1..], stream, Max(m, i + 1), n);
    }
  }

  lemma {:induction false} FedAppend<T>(a: seq<T>, b: seq<T>, stream: seq<T>, m: nat, k: nat, n: nat)
    requires Fed(a, stream, m, k) && Fed(b, stream, k, n)
    ensures Fed(a + b, stream, m, n)
    decreases |a|
  {
    if a == [] {
      assert a + b == b;
    } else {
      var i: nat :| i <= m && At(stream, i, a[0]) && Fed(a[1..], stream, Max(m, i + 1), k);
      assert (a + b)[1..] == a[1..] + b && (a + b)[0] == a[0];
      FedAppend(a[1..], b, stream, Max(m, i + 1), k, n);
    }
  }

  lemma {:induction false} FedSplit<T>(a: seq<T>, b: seq<T>, stream: seq<T>, m: nat, n: nat) returns (k: nat)
    requires Fed(a + b, stream, m, n)
    ensures Fed(a, stream, m, k) && Fed(b, stream, k, n)
    decreases |a|
  {
    if a == [] {
      assert a + b == b;
      k := m;
    } else {
      assert (a + b)[1..] == a[1..] + b && (a + b)[0] == a[0];
      var i: nat :| i <= m && At(stream, i, a[0]) && Fed((a + b)[1..], stream, Max(m, i + 1), n);
      k := FedSplit(a[1..], b, stream, Max(m, i + 1), n);
    }
  }

  lemma {:induction false} FedLonger<T>(recs: seq<T>, stream: seq<T>, longer: seq<T>, m: nat, n: nat)
    requires Fed(recs, stream, m, n) && stream <= longer
    ensures Fed(recs, longer, m, n)
    decreases |recs|
  {
    if recs != [] {
      var i: nat :| i <= m && At(stream, i, recs[0]) && Fed(recs[1..], stream, Max(m, i + 1), n);
      assert At(longer, i, recs[0]);
      FedLonger(recs[1..], stream, longer, Max(m, i + 1), n);
    }
  }

  /** Reading on from behind the front. */
  lemma {:induction false} FedSegment<T>(stream: seq<T>, i: nat, j: nat, m: nat)
    requires i <= j <= |stream| && i <= m
    ensures Fed(stream[i..j], stream, m, Max(m, j))
    decreases j - i
  {
    var recs := stream[i..j];
    if i < j {
      assert recs[1..] == stream[i + 1..j];
      assert At(stream, i, recs[0]);
      FedSegment(stream, i + 1, j, Max(m, i + 1));
    }
  }

  ghost predicate Distributes<T(!new), K, V>(rows: seq<T> -> seq<(K, V)>) {
    forall a, b :: rows(a + b) == rows(a) + rows(b)
  }

  /** A table that holds the stream up to the front takes `recs` up to the new front. */
  lemma {:induction false} FedAbsorbs<T(!new), K, V>(base: map<K, V>, rows: seq<T> -> seq<(K, V)>, recs: seq<T>,
                                                     stream: seq<T>, m: nat, n: nat)
    requires Distributes(rows) && Fed(recs, stream, m, n) && m <= n <= |stream|
    ensures Absorb(Absorb(base, rows(stream[..m])), rows(recs)) == Absorb(base, rows(stream[..n]))
    decreases |recs|
  {
    if recs == [] {
      assert rows([] + []) == rows([]) + rows([]);
      assert [] + [] == recs;
      assert rows(recs) == [];
    } else {
      var i: nat :| i <= m && At(stream, i, recs[0]) && Fed(recs[1..], stream, Max(m, i + 1), n);
      var t := Absorb(base, rows(stream[..m]));
      assert recs == [recs[0]] + recs[1..];
      AbsorbAppend(t, rows([recs[0]]), rows(recs[1..]));
      OneAbsorbs(base, rows, stream, m, i);
      FedBounds(recs[1..], stream, Max(m, i + 1), n);
      FedAbsorbs(base, rows, recs[1..], stream, Max(m, i + 1), n);
    }
  }

  lemma OneAbsorbs<T(!new), K, V>(base: map<K, V>, rows: seq<T> -> seq<(K, V)>, stream: seq<T>, m: nat, i: nat)
    requires Distributes(rows) && i <= m <= |stream| && i < |stream|
    ensures Absorb(Absorb(base, rows(stream[..m])), rows([stream[i]])) == Absorb(base, rows(stream[..Max(m, i + 1)]))
  {
    if i == m {
      assert stream[..m + 1] == stream[..m] + [stream[m]];
      AbsorbAppend(base, rows(stream[..m]), rows([stream[m]]));
    } else {
      assert stream[..m] == stream[..i] + ([stream[i]] + stream[i + 1..m]);
      var one := rows([stream[i]]);
      assert rows(stream[..m]) == rows(stream[..i]) + (one + rows(stream[i + 1..m]));
      AbsorbGrows(base, rows(stream[..m]));
      AbsorbGrows(Absorb(base, rows(stream[..m])), one);
      assert forall p | p in one :: p in rows(stream[..m]);
      assert KeysOf(one) <= KeysOf(rows(stream[..m]));
    }
  }

  // ----- one stream among others --------------------------------------------------------------

  /** The elements that `keep` holds of, in order. */
  function Only<T>(keep: T -> bool, s: seq<T>): seq<T> {
    if s == [] then [] else (if keep(s[0]) then [s[0]] else []) + Only(keep, s[1..])
  }

  lemma {:induction false} OnlyAppend<T>(keep: T -> bool, a: seq<T>, b: seq<T>)
    ensures Only(keep, a + b) == Only(keep, a) + Only(keep, b)
    decreases |a|
  {
    if a == [] {
      assert a + b == b;
    } else {
      assert (a + b)[1..] == a[1..] + b && (a + b)[0] == a[0];
      OnlyAppend(keep, a[1..], b);
      var head := if keep(a[0]) then [a[0]] else [];
      assert Only(keep, a + b) == head + Only(keep, a[1..] + b);
      HeadFirst(head, Only(keep, a[1..]), Only(keep, b));
    }
  }

  lemma HeadFirst<T>(a: seq<T>, b: seq<T>, c: seq<T>)
    ensures a + (b + c) == a + b + c
  {
  }

  lemma {:induction false} OnlyNone<T>(keep: T -> bool, s: seq<T>)
    requires forall x | x in s :: !keep(x)
    ensures Only(keep, s) == []
    decreases |s|
  {
    if s != [] {
      OnlyNone(keep, s[1..]);
    }
  }

  function OfKey<K, V>(own: K -> bool): ((K, V)) -> bool { (row: (K, V)) => own(row.0) }

  /** The tables agree on the keys of `own`. */
  ghost predicate SameOn<K(!new), V>(own: K -> bool, a: map<K, V>, b: map<K, V>) {
    forall k | own(k) :: SameAt(a, b, k)
  }

  /** Rows of other keys do not show on these. */
  lemma {:induction false} OnlyAbsorbs<K(!new), V>(own: K -> bool, a: map<K, V>, b: map<K, V>, s: seq<(K, V)>)
    requires SameOn(own, a, b)
    ensures SameOn(own, Absorb(a, s), Absorb(b, Only(OfKey(own), s)))
    decreases |s|
  {
    if s != [] {
      var p, rest := s[0], Only(OfKey(own), s[1..]);
      var a' := if p.0 in a then a else a[p.0 := p.1];
      if own(p.0) {
        var b' := if p.0 in b then b else b[p.0 := p.1];
        assert SameAt(a, b, p.0);
        assert SameOn(own, a', b') by { forall k | own(k) ensures SameAt(a', b', k) { assert SameAt(a, b, k); } }
        OnlyAbsorbs(own, a', b', s[1..]);
        assert ([p] + rest)[1..] == rest;
      } else {
        assert SameOn(own, a', b) by { forall k | own(k) ensures SameAt(a', b, k) { assert SameAt(a, b, k); } }
        OnlyAbsorbs(own, a', b, s[1..]);
        assert [] + rest == rest;
      }
    }
  }

  lemma SameOnTrans<K(!new), V>(own: K -> bool, a: map<K, V>, b: map<K, V>, c: map<K, V>)
    requires SameOn(own, a, b) && SameOn(own, c, b)
    ensures SameOn(own, a, c)
  {
    forall k | own(k) ensures SameAt(a, c, k) { assert SameAt(a, b, k) && SameAt(c, b, k); }
  }
}
