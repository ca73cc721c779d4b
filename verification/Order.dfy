/** Byte-wise string order and sorted key lists: what makes a result computed from
    a map independent of the order the map is enumerated in. */
module Order {

  /** Strict lexicographic order, as Go compares strings. */
  predicate Below(a: string, b: string) {
    if b == "" then false
    else if a == "" then true
    else if a[0] != b[0] then a[0] < b[0]
    else Below(a[1..], b[1..])
  }

  /** The strings agree up to a place where the first ends or has the smaller character. */
  ghost predicate SmallerAt(a: string, b: string, n: nat) {
    n <= |a| && n < |b| && a[..n] == b[..n] && (n == |a| || a[n] < b[n])
  }

  lemma {:induction false} BelowIff(a: string, b: string)
    ensures Below(a, b) <==> exists n: nat :: SmallerAt(a, b, n)
    decreases |a|
  {
    if a != "" && b != "" && a[0] == b[0] {
      BelowIff(a[1..], b[1..]);
      if Below(a, b) {
        var n: nat :| SmallerAt(a[1..], b[1..], n);
        SmallerShift(a, b, n);
      }
      if exists n: nat :: SmallerAt(a, b, n) {
        var n: nat :| SmallerAt(a, b, n);
        SmallerShift(a, b, n - 1);
      }
    } else {
      if Below(a, b) { assert SmallerAt(a, b, 0); }
      if exists n: nat :: SmallerAt(a, b, n) {
        var n: nat :| SmallerAt(a, b, n);
        if n > 0 { SameHeads(a, b, n); }
      }
    }
  }

  lemma SameHeads(a: string, b: string, n: nat)
    requires SmallerAt(a, b, n) && n > 0
    ensures a != "" && b != "" && a[0] == b[0]
  {
    assert a[..n][0] == b[..n][0];
  }

  lemma SmallerShift(a: string, b: string, n: nat)
    requires a != "" && b != "" && a[0] == b[0]
    ensures SmallerAt(a[1..], b[1..], n) <==> SmallerAt(a, b, n + 1)
  {
    if n + 1 <= |a| && n + 1 <= |b| {
      assert a[..n + 1] == [a[0]] + a[1..][..n];
      assert b[..n + 1] == [b[0]] + b[1..][..n];
      assert a[1..][..n] == a[..n + 1][1..];
      assert b[1..][..n] == b[..n + 1][1..];
    }
  }

  lemma {:induction false} BelowTotal(a: string, b: string)
    ensures Below(a, b) || a == b || Below(b, a)
    decreases |a|
  {
    if a != "" && b != "" && a[0] == b[0] {
      BelowTotal(a[1..], b[1..]);
      assert a == [a[0]] + a[1..] && b == [b[0]] + b[1..];
    }
  }

  lemma {:induction false} BelowStrict(a: string, b: string)
    requires Below(a, b)
    ensures !Below(b, a) && a != b
    decreases |a|
  {
    if a != "" && a[0] == b[0] {
      BelowStrict(a[1..], b[1..]);
    }
  }

  lemma {:induction false} BelowTransitive(a: string, b: string, c: string)
    requires Below(a, b) && Below(b, c)
    ensures Below(a, c)
    decreases |a|
  {
    if a != "" && a[0] == b[0] && b[0] == c[0] {
      BelowTransitive(a[1..], b[1..], c[1..]);
    }
  }

  predicate Sorted(s: seq<string>) { forall i, j | 0 <= i < j < |s| :: Below(s[i], s[j]) }

  ghost function Elements<T>(s: seq<T>): set<T> { set x | x in s }

  /** The smallest key. */
  lemma {:induction false} Least(keys: set<string>) returns (m: string)
    requires keys != {}
    ensures m in keys && forall k | k in keys && k != m :: Below(m, k)
    decreases |keys|
  {
    m :| m in keys;
    var rest := keys - {m};
    if rest != {} {
      var n := Least(rest);
      BelowTotal(m, n);
      if Below(n, m) {
        m := n;
      } else {
        forall k | k in keys && k != m ensures Below(m, k) {
          if k != n { BelowTransitive(m, n, k); }
        }
      }
    }
  }

  /** A sorted list is determined by its elements. */
  lemma {:induction false} SortedUnique(a: seq<string>, b: seq<string>)
    requires Sorted(a) && Sorted(b) && Elements(a) == Elements(b)
    ensures a == b
    decreases |a|
  {
    if a == [] {
      NoElements(b);
    } else {
      HeadsAgree(a, b);
      TailElements(a);
      TailElements(b);
      SortedUnique(a[1..], b[1..]);
      assert a == [a[0]] + a[1..] && b == [b[0]] + b[1..];
    }
  }

  lemma HeadsAgree(a: seq<string>, b: seq<string>)
    requires Sorted(a) && Sorted(b) && Elements(a) == Elements(b) && a != []
    ensures b != [] && a[0] == b[0]
  {
    assert a[0] in Elements(b);
    SmallestFirst(a, b[0]);
    SmallestFirst(b, a[0]);
    NotBoth(a[0], b[0]);
  }

  lemma SmallestFirst(s: seq<string>, x: string)
    requires Sorted(s) && s != [] && x in Elements(s)
    ensures s[0] == x || Below(s[0], x)
  {
  }

  lemma NoElements(s: seq<string>)
    ensures Elements(s) == {} ==> s == []
  {
    if s != [] { assert s[0] in Elements(s); }
  }

  lemma NotBoth(a: string, b: string)
    ensures !(Below(a, b) && Below(b, a))
  {
    if Below(a, b) { BelowStrict(a, b); }
  }

  lemma TailElements(a: seq<string>)
    requires Sorted(a) && a != []
    ensures Sorted(a[1..]) && Elements(a[1..]) == Elements(a) - {a[0]}
  {
    forall i | 1 <= i < |a| ensures a[i] != a[0] { BelowStrict(a[0], a[i]); }
    forall x | x in Elements(a) - {a[0]} ensures x in a[1..] {
      var i :| 0 <= i < |a| && a[i] == x;
      assert a[1..][i - 1] == x;
    }
  }

  /** Where a new key goes. */
  method Place(s: seq<string>, k: string) returns (i: nat)
    requires Sorted(s) && k !in s
    ensures i <= |s|
    ensures forall j | 0 <= j < i :: Below(s[j], k)
    ensures forall j | i <= j < |s| :: Below(k, s[j])
  {
    i := 0;
    while i < |s| && Below(s[i], k)
      invariant 0 <= i <= |s|
      invariant forall j | 0 <= j < i :: Below(s[j], k)
    {
      i := i + 1;
    }
    forall j | i <= j < |s| ensures Below(k, s[j]) {
      BelowTotal(s[i], k);
      if j > i { BelowTransitive(k, s[i], s[j]); }
    }
  }

  lemma Placed(s: seq<string>, k: string, i: nat)
    requires Sorted(s) && i <= |s|
    requires forall j | 0 <= j < i :: Below(s[j], k)
    requires forall j | i <= j < |s| :: Below(k, s[j])
    ensures Sorted(s[..i] + [k] + s[i..])
    ensures Elements(s[..i] + [k] + s[i..]) == Elements(s) + {k}
  {
    var t := s[..i] + [k] + s[i..];
    assert s == s[..i] + s[i..];
    forall x ensures x in t <==> x in s || x == k {
      assert x in s <==> x in s[..i] || x in s[i..];
    }
  }

  /** The keys of a map in order, whatever order they are handed out in. */
  method SortKeys(keys: set<string>) returns (s: seq<string>)
    ensures Sorted(s) && Elements(s) == keys
  {
    s := [];
    var todo := keys;
    while todo != {}
      invariant todo <= keys && Sorted(s) && Elements(s) == keys - todo
      decreases todo
    {
      var k :| k in todo;
      assert k !in Elements(s);
      var i := Place(s, k);
      Placed(s, k, i);
      todo := todo - {k};
      s := s[..i] + [k] + s[i..];
    }
  }

  ghost predicate IsLeast(keys: set<string>, m: string) {
    m in keys && forall k | k in keys && k != m :: Below(m, k)
  }

  ghost function First(keys: set<string>): (m: string)
    requires keys != {}
    ensures IsLeast(keys, m)
  {
    assert exists k :: IsLeast(keys, k) by {
      var m := Least(keys);
      assert IsLeast(keys, m);
    }
    var m :| IsLeast(keys, m);
    m
  }

  lemma Prepend(m: string, keys: set<string>, rest: seq<string>)
    requires IsLeast(keys, m) && Sorted(rest) && Elements(rest) == keys - {m}
    ensures Sorted([m] + rest) && Elements([m] + rest) == keys
  {
    forall i | 0 <= i < |rest| ensures Below(m, rest[i]) { assert rest[i] in Elements(rest); }
    assert Elements([m] + rest) == {m} + Elements(rest);
  }

  /** The sorted list of a set. */
  ghost function Ordered(keys: set<string>): (s: seq<string>)
    ensures Sorted(s) && Elements(s) == keys
    decreases |keys|
  {
    if keys == {} then []
    else
      var m := First(keys);
      var rest := Ordered(keys - {m});
      Prepend(m, keys, rest);
      [m] + rest
  }

  /** Every sorted enumeration is that list: the map's order does not show. */
  lemma OrderFree(s: seq<string>, keys: set<string>)
    requires Sorted(s) && Elements(s) == keys
    ensures s == Ordered(keys)
  {
    SortedUnique(s, Ordered(keys));
  }
}
