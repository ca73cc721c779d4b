/** The in-memory fallback price table, and where it agrees with the database. */
module Pricer {
  import opened Types
  import opened Rollup
  import opened Prices

  predicate Starts(rates: map<string, Rates>, model: string, k: string) { k in rates && k <= model }

  /** The longest key that starts the model: what the table is for. */
  predicate IsLongest(rates: map<string, Rates>, model: string, k: string) {
    Starts(rates, model, k) && forall j | j in rates :: Starts(rates, model, j) ==> |j| <= |k|
  }

  lemma LongestUnique(rates: map<string, Rates>, model: string, a: string, b: string)
    requires IsLongest(rates, model, a) && IsLongest(rates, model, b)
    ensures a == b
  {
    assert a == model[..|a|] && b == model[..|b|];
  }

  ghost predicate Quotes(rates: map<string, Rates>, model: string, r: Option<Rates>) {
    match r
    case None => forall k | k in rates :: !Starts(rates, model, k)
    case Some(v) => exists k :: IsLongest(rates, model, k) && rates[k] == v
  }

  /** The 1h writes are part of the cache writes and pay their premium on top. */
  function CostOf(r: Rates, t: Tokens): real {
    var premium := if r.cacheCreation1h - r.cacheCreation < 0.0 then 0.0 else r.cacheCreation1h - r.cacheCreation;
    (t.input as real * r.input + t.output as real * r.output + t.cacheCreation as real * r.cacheCreation
     + t.cacheCreation1h as real * premium + t.cacheRead as real * r.cacheRead) / 1_000_000.0
  }

  /** The amount, column by column: every token at the rate of its own column, and of the
      cache writes those of one hour at the larger of the two write rates. */
  predicate Charges(r: Option<Rates>, t: Tokens, usd: real) {
    match r
    case None => usd == 0.0
    case Some(v) =>
      usd * 1_000_000.0
      == t.input as real * v.input + t.output as real * v.output + t.cacheRead as real * v.cacheRead
         + (t.cacheCreation - t.cacheCreation1h) as real * v.cacheCreation
         + t.cacheCreation1h as real * (if v.cacheCreation1h > v.cacheCreation then v.cacheCreation1h
                                        else v.cacheCreation)
  }

  lemma Distribute(v: Rates, t: Tokens)
    ensures (t.cacheCreation - t.cacheCreation1h) as real * v.cacheCreation
            == t.cacheCreation as real * v.cacheCreation - t.cacheCreation1h as real * v.cacheCreation
    ensures t.cacheCreation1h as real * (v.cacheCreation1h - v.cacheCreation)
            == t.cacheCreation1h as real * v.cacheCreation1h - t.cacheCreation1h as real * v.cacheCreation
  {
    assert (t.cacheCreation - t.cacheCreation1h) as real == t.cacheCreation as real - t.cacheCreation1h as real;
  }

  lemma CostCharges(v: Rates, t: Tokens)
    ensures Charges(Some(v), t, CostOf(v, t))
  {
    Distribute(v, t);
  }

  /** The tokens of one column pay that column's rate per million, whatever the other rates
      are; one-hour writes, being writes themselves, the larger of the two. */
  lemma ColumnCosts(v: Rates, n: int)
    ensures CostOf(v, Tokens(n, 0, 0, 0, 0)) == n as real * v.input / 1_000_000.0
    ensures CostOf(v, Tokens(0, n, 0, 0, 0)) == n as real * v.output / 1_000_000.0
    ensures CostOf(v, Tokens(0, 0, n, 0, 0)) == n as real * v.cacheCreation / 1_000_000.0
    ensures CostOf(v, Tokens(0, 0, 0, 0, n)) == n as real * v.cacheRead / 1_000_000.0
    ensures v.cacheCreation1h > v.cacheCreation ==>
      CostOf(v, Tokens(0, 0, n, n, 0)) == n as real * v.cacheCreation1h / 1_000_000.0
    ensures v.cacheCreation1h <= v.cacheCreation ==>
      CostOf(v, Tokens(0, 0, n, n, 0)) == n as real * v.cacheCreation / 1_000_000.0
  {
    Distribute(v, Tokens(0, 0, n, n, 0));
  }

  predicate Ranked(s: seq<string>) { forall i, j | 0 <= i < j < |s| :: |s[i]| >= |s[j]| }

  class Pricer {
    var rates: map<string, Rates>
    var prefixes: seq<string>

    ghost predicate Valid()
      reads this
    {
      Ranked(prefixes) && forall k :: k in prefixes <==> k in rates
    }

    /** Custom rates override the defaults key by key. */
    constructor (defaults: map<string, Rates>, custom: map<string, Rates>)
      ensures Valid() && rates == defaults + custom
    {
      rates, prefixes := defaults + custom, [];
      new;
      Reindex();
    }

    /** Keys in any order, sorted by length with ties left in any order. */
    method Reindex()
      modifies this`prefixes
      ensures Valid()
    {
      prefixes := [];
      var todo := rates.Keys;
      while todo != {}
        invariant todo <= rates.Keys && Ranked(prefixes)
        invariant forall k :: k in prefixes <==> k in rates && k !in todo
        decreases todo
      {
        var k :| k in todo;
        var at := RankOf(prefixes, k);
        assert prefixes == prefixes[..at] + prefixes[at..];
        todo := todo - {k};
        prefixes := prefixes[..at] + [k] + prefixes[at..];
      }
    }

    method Quote(model: string) returns (r: Option<Rates>)
      requires Valid()
      ensures Quotes(rates, model, r)
    {
      if model in rates {
        assert IsLongest(rates, model, model);
        return Some(rates[model]);
      }
      for i := 0 to |prefixes|
        invariant forall j | 0 <= j < i :: !(prefixes[j] <= model)
      {
        if prefixes[i] <= model {
          FirstIsLongest(rates, prefixes, model, i);
          return Some(rates[prefixes[i]]);
        }
      }
      r := None;
    }

    method Cost(model: string, t: Tokens) returns (usd: real)
      requires Valid()
      ensures exists r :: Quotes(rates, model, r) && Charges(r, t, usd)
    {
      var r := Quote(model);
      if r.None? {
        return 0.0;
      }
      Distribute(r.value, t);
      var per := 1_000_000.0;
      var v := r.value;
      var premium1h := v.cacheCreation1h - v.cacheCreation;
      if premium1h < 0.0 {
        premium1h := 0.0;
      }
      usd := t.input as real * v.input / per + t.output as real * v.output / per
           + t.cacheCreation as real * v.cacheCreation / per + t.cacheCreation1h as real * premium1h / per
           + t.cacheRead as real * v.cacheRead / per;
    }
  }

  /** Any place that keeps the lengths falling; among equal lengths the choice is free. */
  method RankOf(s: seq<string>, k: string) returns (at: nat)
    requires Ranked(s)
    ensures at <= |s| && Ranked(s[..at] + [k] + s[at..])
  {
    at := 0;
    while at < |s| && |s[at]| >= |k|
      invariant 0 <= at <= |s|
      invariant forall i | 0 <= i < at :: |s[i]| >= |k|
    {
      if |s[at]| == |k| {
        var stop: bool := *;
        if stop { break; }
      }
      at := at + 1;
    }
  }

  /** The first match in any length-ranked list is the longest match. */
  lemma FirstIsLongest(rates: map<string, Rates>, prefixes: seq<string>, model: string, i: nat)
    requires Ranked(prefixes) && forall k :: k in prefixes <==> k in rates
    requires i < |prefixes| && prefixes[i] <= model && forall j | 0 <= j < i :: !(prefixes[j] <= model)
    ensures IsLongest(rates, model, prefixes[i])
  {
    assert prefixes[i] in prefixes;
    forall k | k in rates && Starts(rates, model, k) ensures |k| <= |prefixes[i]| {
      assert k in prefixes;
      var j :| 0 <= j < |prefixes| && prefixes[j] == k;
    }
  }

  /** The quote does not depend on map order or on how ties were sorted. */
  lemma QuoteUnique(rates: map<string, Rates>, model: string, a: Option<Rates>, b: Option<Rates>)
    requires Quotes(rates, model, a) && Quotes(rates, model, b)
    ensures a == b
  {
    if a.Some? {
      var k :| IsLongest(rates, model, k) && rates[k] == a.value;
      if b.Some? {
        var j :| IsLongest(rates, model, j) && rates[j] == b.value;
        LongestUnique(rates, model, k, j);
      }
    }
  }

  // ----- agreement with the database ----------------------------------------------------

  lemma SeedMatching(defaults: map<string, Rates>, model: string, day: int, k: PriceKey)
    requires day >= -1
    ensures k in Matching(Seeded(defaults), model, day)
      <==> k.from == EPOCH && k.prefix != "" && Starts(defaults, model, k.prefix)
  {
    SeededAt(defaults, k);
  }

  /** On a table holding only the seed the two lookups give the same rates, for
      every model and every day from the epoch on. */
  lemma SeedAgrees(defaults: map<string, Rates>, model: string, day: int)
    requires "" !in defaults && day >= -1
    ensures Quotes(defaults, model, RatesOn(Seeded(defaults), model, day))
  {
    var t := Seeded(defaults);
    var r := Lookup(t, model, day);
    if r.None? {
      forall k | k in defaults ensures !Starts(defaults, model, k) {
        SeedMatching(defaults, model, day, PriceKey(k, EPOCH));
      }
    } else {
      SeedMatching(defaults, model, day, r.value);
      SeededAt(defaults, r.value);
      forall j | j in defaults && Starts(defaults, model, j) ensures |j| <= |r.value.prefix| {
        SeedMatching(defaults, model, day, PriceKey(j, EPOCH));
        assert !Before(PriceKey(j, EPOCH), r.value);
      }
      assert IsLongest(defaults, model, r.value.prefix);
    }
  }

  /** They agree on everything exactly when no rate is registered for the empty
      prefix, which only the in-memory table honours. */
  lemma SeedAgreesIff(defaults: map<string, Rates>)
    ensures (forall model: string, day | day >= -1 :: Quotes(defaults, model, RatesOn(Seeded(defaults), model, day)))
      <==> "" !in defaults
  {
    if "" !in defaults {
      forall model: string, day | day >= -1 ensures Quotes(defaults, model, RatesOn(Seeded(defaults), model, day)) {
        SeedAgrees(defaults, model, day);
      }
    } else {
      var r := Lookup(Seeded(defaults), "", 0);
      assert r.None?;
      assert Starts(defaults, "", "");
      assert !Quotes(defaults, "", RatesOn(Seeded(defaults), "", 0));
    }
  }
}
