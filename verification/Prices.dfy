/** The time-versioned price table: the lookup in its index-friendly form, and the
    writes that keep history. Rates are reals; days are UTC days since the epoch. */
module Prices {
  import opened Types
  import opened Rollup
  import opened GroupSum

  /** USD per million tokens. */
  datatype Rates = Rates(input: real, output: real, cacheCreation: real, cacheCreation1h: real, cacheRead: real)

  /** Primary key of model_prices. */
  datatype PriceKey = PriceKey(prefix: string, from: int)

  datatype Price = Price(validTo: Option<int>, rates: Rates, source: string)

  type Table = map<PriceKey, Price>

  const EPOCH := 0
  const SEED := "default-seed"

  // ----- the lookup -------------------------------------------------------------

  /** The row is in effect on the day: it starts by the next midnight (inclusive)
      and has not ended by this one. */
  predicate InEffect(k: PriceKey, p: Price, day: int) {
    k.from <= (day + 1) * DAY && (p.validTo.Some? ==> p.validTo.value > day * DAY)
  }

  /** What the lookup means: every row in effect whose nonempty prefix starts the model. */
  ghost function Matching(t: Table, model: string, day: int): set<PriceKey> {
    set k | k in t && k.prefix != "" && k.prefix <= model && InEffect(k, t[k], day)
  }

  /** `left(model, n)` for n from 1 to the model's length. */
  ghost function Lefts(model: string): set<string> { set n | 1 <= n <= |model| :: model[..n] }

  /** What the query scans: equality with one of the enumerated prefixes. */
  ghost function Probed(t: Table, model: string, day: int): set<PriceKey> {
    set k | k in t && k.prefix in Lefts(model) && InEffect(k, t[k], day)
  }

  /** ORDER BY length(prefix) DESC, valid_from DESC. */
  predicate Before(a: PriceKey, b: PriceKey) {
    |a.prefix| > |b.prefix| || (|a.prefix| == |b.prefix| && a.from > b.from)
  }

  /** LIMIT 1: some row with none before it; nothing only when there is none. */
  ghost predicate LimitOne(rows: set<PriceKey>, r: Option<PriceKey>) {
    match r
    case None => rows == {}
    case Some(k) => k in rows && forall c | c in rows :: !Before(c, k)
  }

  lemma {:induction false} HasBest(rows: set<PriceKey>) returns (r: Option<PriceKey>)
    ensures LimitOne(rows, r)
    decreases |rows|
  {
    if rows == {} {
      r := None;
    } else {
      var k :| k in rows;
      var rest := HasBest(rows - {k});
      r := if rest.None? || Before(k, rest.value) then Some(k) else rest;
      forall c | c in rows ensures !Before(c, r.value) {
        if c != k { assert c in rows - {k}; }
      }
    }
  }

  ghost function Lookup(t: Table, model: string, day: int): (r: Option<PriceKey>)
    ensures LimitOne(Matching(t, model, day), r)
  {
    assert exists o :: LimitOne(Matching(t, model, day), o) by {
      var o := HasBest(Matching(t, model, day));
      assert LimitOne(Matching(t, model, day), o);
    }
    var o :| LimitOne(Matching(t, model, day), o);
    o
  }

  /** Enumerating prefixes and probing for equality selects the rows a prefix scan
      of the whole table selects. */
  lemma ProbedIsMatching(t: Table, model: string, day: int)
    ensures Probed(t, model, day) == Matching(t, model, day)
  {
    forall k | k in t ensures k.prefix in Lefts(model) <==> k.prefix != "" && k.prefix <= model {
      if k.prefix != "" && k.prefix <= model {
        assert model[..|k.prefix|] == k.prefix;
      }
    }
  }

  /** Prefixes of one model of equal length are equal, so the primary key leaves
      LIMIT 1 no choice. */
  lemma OneWinner(t: Table, model: string, day: int, a: Option<PriceKey>, b: Option<PriceKey>)
    requires LimitOne(Matching(t, model, day), a) && LimitOne(Matching(t, model, day), b)
    ensures a == b
  {
    if a.Some? && b.Some? {
      assert !Before(a.value, b.value) && !Before(b.value, a.value);
      assert a.value.prefix == model[..|a.value.prefix|] == b.value.prefix;
    }
  }

  /** The fast query returns the one row the slow meaning names. */
  lemma FastLookupExact(t: Table, model: string, day: int, r: Option<PriceKey>)
    ensures LimitOne(Probed(t, model, day), r) <==> r == Lookup(t, model, day)
  {
    ProbedIsMatching(t, model, day);
    if LimitOne(Probed(t, model, day), r) {
      OneWinner(t, model, day, r, Lookup(t, model, day));
    }
  }

  ghost function RatesOn(t: Table, model: string, day: int): Option<Rates> {
    var r := Lookup(t, model, day);
    if r.None? then None else Some(t[r.value].rates)
  }

  // ----- writing a price ----------------------------------------------------------

  predicate Active(t: Table, k: PriceKey) { k in t && t[k].validTo.None? }

  /** At most one active row per prefix. */
  ghost predicate AtMostOne(t: Table) {
    forall a, b | Active(t, a) && Active(t, b) && a.prefix == b.prefix :: a == b
  }

  ghost predicate HasActive(t: Table, prefix: string) { exists k :: Active(t, k) && k.prefix == prefix }

  /** Every known prefix has exactly one active row. */
  ghost predicate Ready(t: Table) {
    AtMostOne(t) && forall k | k in t :: HasActive(t, k.prefix)
  }

  ghost function Current(t: Table, prefix: string): (k: PriceKey)
    requires HasActive(t, prefix)
    ensures Active(t, k) && k.prefix == prefix
  {
    var k :| Active(t, k) && k.prefix == prefix; k
  }

  /** A price to be written. `clock` is the program's now, `now` the database's. */
  datatype Offer = Offer(prefix: string, rates: Rates, source: string, validFrom: Option<int>, clock: int, now: int)

  function SourceOf(o: Offer): string { if o.source == "" then "manual" else o.source }

  ghost predicate Same(t: Table, o: Offer) { HasActive(t, o.prefix) && t[Current(t, o.prefix)].rates == o.rates }

  ghost predicate Placeholder(t: Table, o: Offer) { HasActive(t, o.prefix) && t[Current(t, o.prefix)].source == SEED }

  /** valid_from of the inserted row. */
  ghost function FromOf(t: Table, o: Offer): int {
    if !HasActive(t, o.prefix) then EPOCH else if o.validFrom.None? then o.clock else o.validFrom.value
  }

  function Closed(t: Table, k: PriceKey, now: int): Table
    requires k in t
  {
    t[k := Price(Some(now), t[k].rates, t[k].source)]
  }

  /** INSERT ... ON CONFLICT DO UPDATE, which leaves valid_to as it is. */
  function Put(t: Table, k: PriceKey, rates: Rates, source: string): Table {
    t[k := Price(if k in t then t[k].validTo else None, rates, source)]
  }

  ghost function Upserted(t: Table, o: Offer): Table {
    if Same(t, o) then t
    else if Placeholder(t, o) then
      var k := Current(t, o.prefix);
      t[k := Price(None, o.rates, SourceOf(o))]
    else
      var closed := if HasActive(t, o.prefix) then Closed(t, Current(t, o.prefix), o.now) else t;
      Put(closed, PriceKey(o.prefix, FromOf(t, o)), o.rates, SourceOf(o))
  }

  class PriceStore {
    var prices: Table

    constructor ()
      ensures prices == map[]
    {
      prices := map[];
    }

    /** SELECT ... WHERE model_prefix = $1 AND valid_to IS NULL. */
    method FindActive(prefix: string) returns (found: bool, k: PriceKey)
      requires AtMostOne(prices)
      ensures found <==> HasActive(prices, prefix)
      ensures found ==> Active(prices, k) && k == Current(prices, prefix)
    {
      found, k := false, PriceKey(prefix, EPOCH);
      var todo := prices.Keys;
      while todo != {}
        invariant todo <= prices.Keys && !found
        invariant forall j | Active(prices, j) && j.prefix == prefix :: j in todo
        decreases todo
      {
        var j :| j in todo;
        if j.prefix == prefix && prices[j].validTo.None? {
          return true, j;
        }
        todo := todo - {j};
      }
    }

    method UpsertPrice(o: Offer) returns (changed: bool)
      requires AtMostOne(prices)
      modifies this
      ensures prices == Upserted(old(prices), o) && AtMostOne(prices)
      ensures changed <==> !Same(old(prices), o)
    {
      UpsertKeepsAtMostOne(prices, o);
      var found, cur := FindActive(o.prefix);
      if found && prices[cur].rates == o.rates {
        return false;
      }
      var src := if o.source == "" then "manual" else o.source;
      if found && prices[cur].source == SEED {
        prices := prices[cur := Price(None, o.rates, src)];
        return true;
      }
      var from := EPOCH;
      if found {
        from := if o.validFrom.None? then o.clock else o.validFrom.value;
        prices := Closed(prices, cur, o.now);
      }
      prices := Put(prices, PriceKey(o.prefix, from), o.rates, src);
      changed := true;
    }

    /** Inserts the defaults, in whatever order, if the table is empty. */
    method SeedDefaultPrices(defaults: map<string, Rates>)
      modifies this
      ensures prices == if old(prices) == map[] then Seeded(defaults) else old(prices)
    {
      if |prices| > 0 {
        return;
      }
      assert prices == map[];
      var todo := defaults.Keys;
      while todo != {}
        invariant todo <= defaults.Keys
        invariant prices == Seeded(defaults - todo)
        decreases todo
      {
        var prefix :| prefix in todo;
        SeedOne(defaults, todo, prefix);
        prices := prices[PriceKey(prefix, EPOCH) := Price(None, defaults[prefix], SEED)];
        todo := todo - {prefix};
      }
      assert defaults - {} == defaults;
    }
  }

  function Seeded(defaults: map<string, Rates>): Table {
    map k | k in (set p | p in defaults :: PriceKey(p, EPOCH)) :: Price(None, defaults[k.prefix], SEED)
  }

  lemma SeedOne(defaults: map<string, Rates>, todo: set<string>, p: string)
    requires p in todo && p in defaults
    ensures Seeded(defaults - (todo - {p}))
         == Seeded(defaults - todo)[PriceKey(p, EPOCH) := Price(None, defaults[p], SEED)]
  {
    var l := Seeded(defaults - (todo - {p}));
    var r := Seeded(defaults - todo)[PriceKey(p, EPOCH) := Price(None, defaults[p], SEED)];
    forall k ensures SameAt(l, r, k) { SeededAt(defaults - (todo - {p}), k); SeededAt(defaults - todo, k); }
    SameMaps(l, r);
  }

  lemma SeededAt(defaults: map<string, Rates>, k: PriceKey)
    ensures k in Seeded(defaults) <==> k.prefix in defaults && k.from == EPOCH
    ensures k in Seeded(defaults) ==> Seeded(defaults)[k] == Price(None, defaults[k.prefix], SEED)
  {
  }

  // ----- what the writes keep -------------------------------------------------------

  lemma UpsertKeepsAtMostOne(t: Table, o: Offer)
    requires AtMostOne(t)
    ensures AtMostOne(Upserted(t, o))
  {
    var t' := Upserted(t, o);
    forall a, b | Active(t', a) && Active(t', b) && a.prefix == b.prefix ensures a == b {
      ActiveAfter(t, o, a);
      ActiveAfter(t, o, b);
    }
  }

  /** Where an active row of the new table comes from. */
  lemma ActiveAfter(t: Table, o: Offer, k: PriceKey)
    requires AtMostOne(t) && Active(Upserted(t, o), k)
    ensures k.prefix != o.prefix || Same(t, o) || Placeholder(t, o) ==> Active(t, k)
    ensures k.prefix == o.prefix && !Same(t, o) && !Placeholder(t, o) ==> k.from == FromOf(t, o)
  {
  }

  /** The insert lands on a row that is already there. */
  ghost predicate Collides(t: Table, o: Offer) {
    HasActive(t, o.prefix) && !Same(t, o) && !Placeholder(t, o) && PriceKey(o.prefix, FromOf(t, o)) in t
  }

  /** From a table where every known prefix has its active row, writing a price
      keeps it so if and only if the new valid_from is not one the prefix already
      has: the conflict clause would update a row that stays closed. */
  lemma StaysReadyIff(t: Table, o: Offer)
    requires Ready(t)
    ensures Ready(Upserted(t, o)) <==> !Collides(t, o)
  {
    UpsertKeepsAtMostOne(t, o);
    var t' := Upserted(t, o);
    if Collides(t, o) {
      var cur := Current(t, o.prefix);
      assert cur in t';
      if HasActive(t', o.prefix) {
        var k := Current(t', o.prefix);
        ActiveAfter(t, o, k);
        ClosedStays(t, o, k);
      }
    } else {
      forall k | k in t' ensures HasActive(t', k.prefix) { ReadyAt(t, o, k); }
    }
  }

  lemma ClosedStays(t: Table, o: Offer, k: PriceKey)
    requires Ready(t) && Collides(t, o) && k == PriceKey(o.prefix, FromOf(t, o))
    ensures !Active(Upserted(t, o), k)
  {
    var cur := Current(t, o.prefix);
    assert Active(t, k) ==> k == cur;
  }

  lemma ReadyAt(t: Table, o: Offer, k: PriceKey)
    requires Ready(t) && !Collides(t, o) && k in Upserted(t, o)
    ensures HasActive(Upserted(t, o), k.prefix)
  {
    var t' := Upserted(t, o);
    if k.prefix != o.prefix {
      assert k in t;
      var c := Current(t, k.prefix);
      assert Active(t', c);
    } else if Same(t, o) || Placeholder(t, o) {
      assert Active(t', Current(t, o.prefix));
    } else {
      var key := PriceKey(o.prefix, FromOf(t, o));
      assert key in t ==> HasActive(t, o.prefix);
      assert Active(t', key);
    }
  }

  /** It happens: a second price dated like the first one closes the first and
      updates the closed row. */
  lemma CollisionExample(was: Rates, offered: Rates)
    requires was != offered
    ensures var k := PriceKey("m", EPOCH);
            var t: Table := map[k := Price(None, was, "manual")];
            var o := Offer("m", offered, "manual", Some(EPOCH), 9, 9);
            && Ready(t) && Collides(t, o)
            && Upserted(t, o) == map[k := Price(Some(9), offered, "manual")]
            && !HasActive(Upserted(t, o), "m")
  {
    var k := PriceKey("m", EPOCH);
    var t: Table := map[k := Price(None, was, "manual")];
    assert Active(t, k);
  }

  /** And it does not heal: with no active row the next price goes to the epoch,
      where a closed row is waiting again. */
  lemma NeverHeals(t: Table, o: Offer)
    requires !HasActive(t, o.prefix) && PriceKey(o.prefix, EPOCH) in t
    ensures !HasActive(Upserted(t, o), o.prefix) && PriceKey(o.prefix, EPOCH) in Upserted(t, o)
  {
    var t', key := Upserted(t, o), PriceKey(o.prefix, EPOCH);
    assert !Active(t, key) && !Active(t', key);
  }

  ghost function Writes(t: Table, os: seq<Offer>): Table
    decreases |os|
  {
    if os == [] then t else Writes(Upserted(t, os[0]), os[1..])
  }

  /** Every write uses a valid_from the prefix does not have yet. */
  ghost predicate FreshWrites(t: Table, os: seq<Offer>)
    decreases |os|
  {
    os != [] ==> !Collides(t, os[0]) && FreshWrites(Upserted(t, os[0]), os[1..])
  }

  /** From a seeded table, writes with fresh times keep exactly one active row per
      known prefix, for every history. */
  lemma {:induction false} WritesStayReady(t: Table, os: seq<Offer>)
    requires Ready(t) && FreshWrites(t, os)
    ensures Ready(Writes(t, os))
    decreases |os|
  {
    if os != [] {
      StaysReadyIff(t, os[0]);
      WritesStayReady(Upserted(t, os[0]), os[1..]);
    }
  }

  lemma SeededReady(defaults: map<string, Rates>)
    ensures Ready(Seeded(defaults))
  {
    var t := Seeded(defaults);
    forall k | k in t ensures HasActive(t, k.prefix) { assert Active(t, k); }
  }

  // ----- history ----------------------------------------------------------------------

  /** The day ended before the change, on both clocks. */
  predicate Past(day: int, from: int, now: int) { (day + 1) * DAY < from && day * DAY < now }

  ghost predicate Replaces(t: Table, o: Offer) {
    AtMostOne(t) && HasActive(t, o.prefix) && !Same(t, o) && !Placeholder(t, o)
  }

  lemma MatchingKept(t: Table, o: Offer, model: string, day: int, k: PriceKey)
    requires Replaces(t, o) && Past(day, FromOf(t, o), o.now)
    ensures k in Matching(Upserted(t, o), model, day) <==> k in Matching(t, model, day)
    ensures k in Matching(t, model, day) ==> Upserted(t, o)[k].rates == t[k].rates
  {
    var key := PriceKey(o.prefix, FromOf(t, o));
    assert !InEffect(key, Upserted(t, o)[key], day);
    assert key in t ==> !InEffect(key, t[key], day);
  }

  /** A price change does not reprice the past: for every model and every day that
      ended before it, the lookup returns the same row with the same rates. */
  lemma HistoryKept(t: Table, o: Offer, model: string, day: int)
    requires Replaces(t, o) && Past(day, FromOf(t, o), o.now)
    ensures Lookup(Upserted(t, o), model, day) == Lookup(t, model, day)
    ensures RatesOn(Upserted(t, o), model, day) == RatesOn(t, model, day)
  {
    var t' := Upserted(t, o);
    forall k ensures k in Matching(t', model, day) <==> k in Matching(t, model, day) {
      MatchingKept(t, o, model, day, k);
    }
    assert Matching(t', model, day) == Matching(t, model, day);
    var r := Lookup(t, model, day);
    OneWinner(t', model, day, Lookup(t', model, day), r);
    if r.Some? {
      MatchingKept(t, o, model, day, r.value);
    }
  }

  /** The new price rules from the day whose end reaches its start, for every model
      that no longer prefix in effect covers. */
  lemma NewPriceRules(t: Table, o: Offer, model: string, day: int)
    requires Replaces(t, o) && !Collides(t, o) && o.prefix != "" && o.prefix <= model
    requires FromOf(t, o) <= (day + 1) * DAY
    requires forall k | k in t && k.prefix == o.prefix :: k.from < FromOf(t, o)
    requires forall k | k in Matching(t, model, day) :: |k.prefix| <= |o.prefix|
    ensures RatesOn(Upserted(t, o), model, day) == Some(o.rates)
  {
    var t', key := Upserted(t, o), PriceKey(o.prefix, FromOf(t, o));
    assert key in Matching(t', model, day);
    forall c | c in Matching(t', model, day) ensures !Before(c, key) {
      if c != key { NotBefore(t, o, model, day, c); }
    }
    OneWinner(t', model, day, Lookup(t', model, day), Some(key));
  }

  lemma NotBefore(t: Table, o: Offer, model: string, day: int, c: PriceKey)
    requires Replaces(t, o) && o.prefix <= model
    requires c in Matching(Upserted(t, o), model, day) && c != PriceKey(o.prefix, FromOf(t, o))
    requires forall k | k in t && k.prefix == o.prefix :: k.from < FromOf(t, o)
    requires forall k | k in Matching(t, model, day) :: |k.prefix| <= |o.prefix|
    ensures !Before(c, PriceKey(o.prefix, FromOf(t, o)))
  {
    assert c in t;
    if |c.prefix| == |o.prefix| {
      assert c.prefix == model[..|c.prefix|] == o.prefix;
    } else if c.prefix != o.prefix {
      assert t[c] == Upserted(t, o)[c];
      assert c in Matching(t, model, day);
    }
  }

  // ----- coverage -----------------------------------------------------------------------

  /** Some row of the prefix is in effect on every day from the epoch on. */
  ghost predicate Covered(t: Table, prefix: string) {
    forall day | day >= -1 :: CoveredOn(t, prefix, day)
  }

  ghost predicate CoveredOn(t: Table, prefix: string, day: int) {
    exists k :: k in t && k.prefix == prefix && InEffect(k, t[k], day)
  }

  /** The first day, from the epoch's eve on, that starts at or after `now`. */
  function FirstOpen(now: int): int { if now <= -DAY then -1 else (now + DAY - 1) / DAY }

  lemma FirstOpenIsFirst(now: int)
    ensures FirstOpen(now) >= -1 && now <= FirstOpen(now) * DAY
    ensures forall day | day >= -1 && now <= day * DAY :: FirstOpen(now) <= day
  {
  }

  /** A row that starts at `from` is in effect on every day the row closed at `now` is not. */
  predicate Timely(now: int, from: int) { from <= (FirstOpen(now) + 1) * DAY }

  /** Timely means that no day lies whole between the close and the start. */
  lemma TimelyIff(now: int, from: int)
    ensures Timely(now, from) <==> forall day | day >= -1 :: !(now <= day * DAY && (day + 1) * DAY < from)
  {
    FirstOpenIsFirst(now);
    var first := FirstOpen(now);
    if !Timely(now, from) {
      assert now <= first * DAY && (first + 1) * DAY < from;
    }
  }

  /** A replacement is in time; any other write closes nothing. */
  ghost predicate InTime(t: Table, o: Offer) { Replaces(t, o) ==> Timely(o.now, FromOf(t, o)) }

  /** The closed rows of the prefix ended by `now`, as they do when the database's clock
      never runs back. */
  ghost predicate EndedBy(t: Table, prefix: string, now: int) {
    forall k | k in t && k.prefix == prefix && t[k].validTo.Some? :: t[k].validTo.value <= now
  }

  lemma CoverageKeptOn(t: Table, o: Offer, prefix: string, day: int)
    requires Ready(t) && !Collides(t, o) && InTime(t, o) && day >= -1 && CoveredOn(t, prefix, day)
    ensures CoveredOn(Upserted(t, o), prefix, day)
  {
    var t' := Upserted(t, o);
    var k :| k in t && k.prefix == prefix && InEffect(k, t[k], day);
    if !(k in t' && InEffect(k, t'[k], day)) {
      var key := PriceKey(o.prefix, FromOf(t, o));
      assert k == Current(t, o.prefix) && o.now <= day * DAY;
      FirstOpenIsFirst(o.now);
      assert key in t' && key.prefix == prefix && InEffect(key, t'[key], day);
    }
  }

  /** No day is left without a price by a write in time. */
  lemma CoverageKept(t: Table, o: Offer, prefix: string)
    requires Ready(t) && !Collides(t, o) && InTime(t, o) && Covered(t, prefix)
    ensures Covered(Upserted(t, o), prefix)
  {
    forall day | day >= -1 ensures CoveredOn(Upserted(t, o), prefix, day) {
      CoverageKeptOn(t, o, prefix, day);
    }
  }

  /** The first whole day after the close is without a price if the new row starts later. */
  lemma LateLeavesGap(t: Table, o: Offer)
    requires Replaces(t, o) && !Collides(t, o) && EndedBy(t, o.prefix, o.now) && !Timely(o.now, FromOf(t, o))
    ensures !CoveredOn(Upserted(t, o), o.prefix, FirstOpen(o.now))
  {
    var t', day := Upserted(t, o), FirstOpen(o.now);
    FirstOpenIsFirst(o.now);
    forall k | k in t' && k.prefix == o.prefix ensures !InEffect(k, t'[k], day) {
      if k != PriceKey(o.prefix, FromOf(t, o)) {
        assert k in t && (Active(t, k) ==> k == Current(t, o.prefix));
      }
    }
  }

  /** A replacement leaves every day of its prefix priced if and only if it is in time. */
  lemma CoveredIff(t: Table, o: Offer)
    requires Ready(t) && Replaces(t, o) && !Collides(t, o)
    requires Covered(t, o.prefix) && EndedBy(t, o.prefix, o.now)
    ensures Covered(Upserted(t, o), o.prefix)
      <==> forall day | day >= -1 :: !(o.now <= day * DAY && (day + 1) * DAY < FromOf(t, o))
  {
    TimelyIff(o.now, FromOf(t, o));
    if Timely(o.now, FromOf(t, o)) {
      CoverageKept(t, o, o.prefix);
    } else {
      FirstOpenIsFirst(o.now);
      LateLeavesGap(t, o);
    }
  }

  /** It happens, for every start that is not in time. */
  lemma LateGap(was: Rates, offered: Rates, now: int, from: int)
    requires was != offered && !Timely(now, from)
    ensures var t: Table := map[PriceKey("m", EPOCH) := Price(None, was, "manual")];
            var o := Offer("m", offered, "manual", Some(from), 0, now);
            && Ready(t) && Replaces(t, o) && !Collides(t, o) && FromOf(t, o) == from
            && Covered(t, "m") && !CoveredOn(Upserted(t, o), "m", FirstOpen(now))
  {
    var k := PriceKey("m", EPOCH);
    var t: Table := map[k := Price(None, was, "manual")];
    var o := Offer("m", offered, "manual", Some(from), 0, now);
    assert Active(t, k);
    forall d | d >= -1 ensures CoveredOn(t, "m", d) { assert k in t && InEffect(k, t[k], d); }
    FirstOpenIsFirst(now);
    LateLeavesGap(t, o);
  }

  ghost predicate WritesInTime(t: Table, os: seq<Offer>, prefix: string)
    decreases |os|
  {
    os != [] ==> (os[0].prefix == prefix ==> InTime(t, os[0])) && WritesInTime(Upserted(t, os[0]), os[1..], prefix)
  }

  /** Every day is priced now and after each of the writes. */
  ghost predicate StaysCovered(t: Table, os: seq<Offer>, prefix: string)
    decreases |os|
  {
    Covered(t, prefix) && (os != [] ==> StaysCovered(Upserted(t, os[0]), os[1..], prefix))
  }

  /** The database's clock never runs back, from `now` on. */
  ghost predicate Clocked(now: int, os: seq<Offer>)
    decreases |os|
  {
    os != [] ==> now <= os[0].now && Clocked(os[0].now, os[1..])
  }

  lemma EndedByKept(t: Table, o: Offer, prefix: string, now: int)
    requires EndedBy(t, prefix, now) && now <= o.now
    ensures EndedBy(Upserted(t, o), prefix, o.now)
  {
  }

  lemma OthersCovered(t: Table, o: Offer, prefix: string)
    requires o.prefix != prefix
    ensures Covered(Upserted(t, o), prefix) <==> Covered(t, prefix)
  {
    var t' := Upserted(t, o);
    forall day ensures CoveredOn(t', prefix, day) <==> CoveredOn(t, prefix, day) {
      assert forall k: PriceKey | k.prefix == prefix :: (k in t <==> k in t') && (k in t ==> t[k] == t'[k]);
    }
  }

  /** One write of a history. */
  lemma WriteCoveredIff(t: Table, o: Offer, prefix: string)
    requires Ready(t) && !Collides(t, o) && Covered(t, prefix) && EndedBy(t, prefix, o.now)
    ensures Covered(Upserted(t, o), prefix) <==> (o.prefix == prefix ==> InTime(t, o))
  {
    if o.prefix != prefix {
      OthersCovered(t, o, prefix);
    } else if InTime(t, o) {
      CoverageKept(t, o, prefix);
    } else {
      CoveredIff(t, o);
      TimelyIff(o.now, FromOf(t, o));
    }
  }

  /** Over every history of fresh writes: a covered prefix stays covered throughout if and
      only if each of its replacements is in time. */
  lemma {:induction false} StaysCoveredIff(t: Table, os: seq<Offer>, prefix: string, now: int)
    requires Ready(t) && FreshWrites(t, os) && Covered(t, prefix) && EndedBy(t, prefix, now) && Clocked(now, os)
    ensures StaysCovered(t, os, prefix) <==> WritesInTime(t, os, prefix)
    decreases |os|
  {
    if os != [] {
      EndedByKept(t, os[0], prefix, os[0].now);
      WriteCoveredIff(t, os[0], prefix);
      StaysReadyIff(t, os[0]);
      if Covered(Upserted(t, os[0]), prefix) {
        StaysCoveredIff(Upserted(t, os[0]), os[1..], prefix, os[0].now);
      }
    }
  }

  /** Whatever the database's clock does, writes in time are enough. */
  lemma {:induction false} InTimeCovers(t: Table, os: seq<Offer>, prefix: string)
    requires Ready(t) && FreshWrites(t, os) && WritesInTime(t, os, prefix) && Covered(t, prefix)
    ensures Covered(Writes(t, os), prefix)
    decreases |os|
  {
    if os != [] {
      if os[0].prefix == prefix { CoverageKept(t, os[0], prefix); } else { OthersCovered(t, os[0], prefix); }
      StaysReadyIff(t, os[0]);
      InTimeCovers(Upserted(t, os[0]), os[1..], prefix);
    }
  }

  lemma SeedCovers(defaults: map<string, Rates>, prefix: string)
    requires prefix in defaults
    ensures Covered(Seeded(defaults), prefix)
  {
    var t, k := Seeded(defaults), PriceKey(prefix, EPOCH);
    SeededAt(defaults, k);
    forall day | day >= -1 ensures CoveredOn(t, prefix, day) { assert k in t && InEffect(k, t[k], day); }
  }

  /** The seed is a start for both. */
  lemma SeededCoveredIff(defaults: map<string, Rates>, os: seq<Offer>, prefix: string, now: int)
    requires prefix in defaults && FreshWrites(Seeded(defaults), os) && Clocked(now, os)
    ensures StaysCovered(Seeded(defaults), os, prefix) <==> WritesInTime(Seeded(defaults), os, prefix)
  {
    SeededReady(defaults);
    SeedCovers(defaults, prefix);
    StaysCoveredIff(Seeded(defaults), os, prefix, now);
  }

  /** The lookup always finds a price: after any history of fresh writes whose replacements
      of a seeded prefix are in time, every model that starts with the prefix is priced on
      every day from the epoch on. */
  lemma SeededIsPriced(defaults: map<string, Rates>, os: seq<Offer>, prefix: string, model: string, day: int)
    requires FreshWrites(Seeded(defaults), os) && WritesInTime(Seeded(defaults), os, prefix)
    requires prefix in defaults && prefix != "" && prefix <= model && day >= -1
    ensures RatesOn(Writes(Seeded(defaults), os), model, day).Some?
  {
    var t := Writes(Seeded(defaults), os);
    SeededReady(defaults);
    SeedCovers(defaults, prefix);
    InTimeCovers(Seeded(defaults), os, prefix);
    assert CoveredOn(t, prefix, day);
    var k :| k in t && k.prefix == prefix && InEffect(k, t[k], day);
    assert k in Matching(t, model, day);
  }

  // ----- one write, spelled out -------------------------------------------------------

  predicate Carries(t: Table, key: PriceKey, o: Offer) {
    key in t && t[key].rates == o.rates && t[key].source == (if o.source == "" then "manual" else o.source)
  }

  ghost predicate OthersKept(t: Table, t': Table, keys: set<PriceKey>) {
    t'.Keys == t.Keys + keys && forall j | j in t && j !in keys :: t'[j] == t[j]
  }

  /** A prefix without an active price gets one that holds since the epoch, unless it has a
      closed one of that date, which takes the rates and stays closed. */
  lemma FirstPrice(t: Table, o: Offer)
    requires forall k | k in t && k.prefix == o.prefix :: t[k].validTo.Some?
    ensures var t', key := Upserted(t, o), PriceKey(o.prefix, 0);
            && OthersKept(t, t', {key}) && Carries(t', key, o)
            && t'[key].validTo == (if key in t then t[key].validTo else None)
  {
    assert !HasActive(t, o.prefix);
  }

  /** What becomes of an active price: the same rates change nothing; a seeded placeholder
      takes the new ones in its place; any other price is kept and ends now, and the new one
      starts at the time given, or else at the program's. */
  lemma Repriced(t: Table, o: Offer, k: PriceKey)
    requires AtMostOne(t) && k in t && k.prefix == o.prefix && t[k].validTo.None?
    ensures t[k].rates == o.rates ==> Upserted(t, o) == t
    ensures t[k].rates != o.rates && t[k].source == "default-seed" ==>
      var t' := Upserted(t, o);
      OthersKept(t, t', {k}) && Carries(t', k, o) && t'[k].validTo.None?
    ensures t[k].rates != o.rates && t[k].source != "default-seed" ==>
      var t', key := Upserted(t, o), PriceKey(o.prefix, if o.validFrom.Some? then o.validFrom.value else o.clock);
      && OthersKept(t, t', {k, key}) && Carries(t', key, o)
      && (key !in t ==> t'[key].validTo.None?)
      && (key != k ==> t'[k] == Price(Some(o.now), t[k].rates, t[k].source))
  {
    assert Active(t, k);
    assert Current(t, o.prefix) == k;
  }
}
