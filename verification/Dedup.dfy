/** First-writer-wins tables: what `INSERT ... ON CONFLICT DO NOTHING` does to a
    table keyed by its primary key. */
module Dedup {

  /** Inserting the rows of `s` in order; a key that is present keeps its row. */
  function Absorb<K(==), V>(t: map<K, V>, s: seq<(K, V)>): map<K, V>
    decreases |s|
  {
    if s == [] then t
    else Absorb(if s[0].0 in t then t else t[s[0].0 := s[0].1], s[1..])
  }

  /** The first occurrence per key. */
  function First<K(==), V>(s: seq<(K, V)>): map<K, V> { Absorb(map[], s) }

  ghost function KeysOf<K, V>(s: seq<(K, V)>): set<K> { set p | p in s :: p.0 }

  lemma KeysAppend<K, V>(a: seq<(K, V)>, b: seq<(K, V)>)
    ensures KeysOf(a + b) == KeysOf(a) + KeysOf(b)
  {
    forall p | p in a + b ensures p in a || p in b { }
    forall p | p in a || p in b ensures p in a + b { }
  }

  ghost predicate Within<K, V>(a: map<K, V>, b: map<K, V>)
  {
    forall k | k in a :: k in b && a[k] == b[k]
  }

  /** Equal keys the table does not hold yet carry rows that `f` cannot tell apart. */
  ghost predicate AgreeUnder<K, V, T>(f: V -> T, s: seq<(K, V)>, t: map<K, V>)
  {
    forall p, q | p in s && q in s && p.0 == q.0 && p.0 !in t :: f(p.1) == f(q.1)
  }

  /** Tables of the same keys whose rows `f` cannot tell apart. */
  ghost predicate SameUnder<K, V, T>(f: V -> T, a: map<K, V>, b: map<K, V>)
  {
    a.Keys == b.Keys && forall k | k in a :: f(a[k]) == f(b[k])
  }

  /** A table only gains keys, never changes a stored row, and gains exactly the
      keys of the batch. */
  lemma {:induction false} AbsorbGrows<K, V>(t: map<K, V>, s: seq<(K, V)>)
    ensures Within(t, Absorb(t, s))
    ensures Absorb(t, s).Keys == t.Keys + KeysOf(s)
    ensures forall k | k in Absorb(t, s) && k !in t :: (k, Absorb(t, s)[k]) in s
    decreases |s|
  {
    if s == [] {
    } else {
      var t' := if s[0].0 in t then t else t[s[0].0 := s[0].1];
      AbsorbGrows(t', s[1..]);
      assert KeysOf(s) == {s[0].0} + KeysOf(s[1..]) by {
        forall p | p in s ensures p == s[0] || p in s[1..] { }
        forall p | p in s[1..] ensures p in s { }
      }
      forall k | k in Absorb(t, s) && k !in t
        ensures (k, Absorb(t, s)[k]) in s
      {
        if k in t' {
          assert (k, t'[k]) == s[0];
        } else {
          assert (k, Absorb(t, s)[k]) in s[1..];
        }
      }
    }
  }

  /** Splitting a batch changes nothing: sending `a` then `b` is sending `a + b`. */
  lemma {:induction false} AbsorbAppend<K, V>(t: map<K, V>, a: seq<(K, V)>, b: seq<(K, V)>)
    ensures Absorb(t, a + b) == Absorb(Absorb(t, a), b)
    decreases |a|
  {
    if a == [] {
      assert a + b == b;
    } else {
      assert (a + b)[0] == a[0] && (a + b)[1..] == a[1..] + b;
      AbsorbAppend(if a[0].0 in t then t else t[a[0].0 := a[0].1], a[1..], b);
    }
  }

  /** Closed form: the first occurrences of the batch, overridden by what the
      table already holds. */
  lemma {:induction false} AbsorbIsFirst<K, V>(t: map<K, V>, s: seq<(K, V)>)
    ensures Absorb(t, s) == First(s) + t
    decreases |s|
  {
    if s == [] {
      assert map[] + t == t;
    } else {
      var k, v := s[0].0, s[0].1;
      AbsorbIsFirst(if k in t then t else t[k := v], s[1..]);
      AbsorbIsFirst(map[k := v], s[1..]);
      assert First(s) == First(s[1..]) + map[k := v];
      if k in t {
        assert First(s[1..]) + t == First(s) + t;
      } else {
        assert First(s[1..]) + t[k := v] == First(s) + t;
      }
    }
  }

  /** Accepted counts of two sends add up to the accepted count of one. */
  lemma AcceptedAdds<K, V>(t: map<K, V>, a: seq<(K, V)>, b: seq<(K, V)>)
    ensures |Absorb(t, a + b)| - |t|
         == (|Absorb(t, a)| - |t|) + (|Absorb(Absorb(t, a), b)| - |Absorb(t, a)|)
    ensures |t| <= |Absorb(t, a)|
  {
    AbsorbAppend(t, a, b);
    AbsorbGrows(t, a);
    SubsetSize(t.Keys, Absorb(t, a).Keys);
  }

  lemma {:induction false} SubsetSize<T>(a: set<T>, b: set<T>)
    requires a <= b
    ensures |a| <= |b|
    ensures a < b ==> |a| < |b|
  {
    assert b == a + (b - a);
    assert |b| == |a| + |b - a|;
    if a < b {
      assert b - a != {};
    }
  }

  /** Re-sending is harmless: if everything first in `a` is first in `b` too, a
      table that saw `a` and then `b` is one that only saw `b`. */
  lemma ResendConverges<K, V>(t: map<K, V>, a: seq<(K, V)>, b: seq<(K, V)>)
    requires Within(First(a), First(b))
    ensures Absorb(Absorb(t, a), b) == Absorb(t, b)
  {
    AbsorbIsFirst(t, a);
    AbsorbIsFirst(t, b);
    AbsorbIsFirst(Absorb(t, a), b);
    assert First(b) + (First(a) + t) == First(b) + t;
  }

  /** A prefix has its first occurrences in common with every extension. */
  lemma PrefixWithin<K, V>(a: seq<(K, V)>, b: seq<(K, V)>)
    requires a <= b
    ensures Within(First(a), First(b))
  {
    assert b == a + b[|a|..];
    AbsorbAppend(map[], a, b[|a|..]);
    AbsorbGrows(First(a), b[|a|..]);
  }

  /** The exact condition under which two batches may arrive in either order:
      every key they share and the table lacks starts with the same row in both. */
  lemma OrderIrrelevantIff<K, V>(t: map<K, V>, a: seq<(K, V)>, b: seq<(K, V)>)
    ensures Absorb(Absorb(t, a), b) == Absorb(Absorb(t, b), a)
      <==> forall k | k in First(a) && k in First(b) && k !in t :: First(a)[k] == First(b)[k]
  {
    AbsorbIsFirst(t, a);
    AbsorbIsFirst(t, b);
    AbsorbIsFirst(Absorb(t, a), b);
    AbsorbIsFirst(Absorb(t, b), a);
    var ab, ba := Absorb(Absorb(t, a), b), Absorb(Absorb(t, b), a);
    assert ab.Keys == ba.Keys;
    forall k | k in First(a) && k in First(b) && k !in t
      ensures ab[k] == First(a)[k] && ba[k] == First(b)[k]
    {
    }
    if forall k | k in First(a) && k in First(b) && k !in t :: First(a)[k] == First(b)[k] {
      forall k | k in ab ensures ab[k] == ba[k] { }
    }
  }

  /** When `f` cannot tell rows of an equal new key apart, the outcome depends, as far as
      `f` reads it, on the set of rows alone: any table that keeps what `base` held and
      adds exactly the keys of `s`, each with a row of `s`, reads like the table one clean
      insert of `s` produces. */
  lemma AgreeDetermines<K, V, T>(f: V -> T, base: map<K, V>, t: map<K, V>, s: seq<(K, V)>)
    requires AgreeUnder(f, s, base) && Within(base, t)
    requires t.Keys == base.Keys + KeysOf(s)
    requires forall k | k in t && k !in base :: (k, t[k]) in s
    ensures SameUnder(f, t, Absorb(base, s))
  {
    AbsorbGrows(base, s);
    forall k | k in t ensures f(t[k]) == f(Absorb(base, s)[k]) {
      if k !in base {
        assert (k, Absorb(base, s)[k]) in s && (k, t[k]) in s;
      }
    }
  }
}
