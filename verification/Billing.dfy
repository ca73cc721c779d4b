/** The three usage queries. Each groups before it prices; each is shown to give what
    pricing every message on its own day would. */
module Billing {
  import opened Types
  import opened GroupSum
  import opened Regroup
  import opened Rollup
  import opened Prices
  import Pricer
  import StoreSpec

  /** Token sums and the number of messages of a group. */
  datatype Cell = Cell(tokens: Tokens, messages: nat)

  datatype Bill = Bill(tokens: int, messages: int, cost: real)

  const NO_CELL := Cell(NO_TOKENS, 0)
  const NO_BILL := Bill(0, 0, 0.0)

  function AddCell(a: Cell, b: Cell): Cell { Cell(Plus(a.tokens, b.tokens), a.messages + b.messages) }

  function AddBill(a: Bill, b: Bill): Bill { Bill(a.tokens + b.tokens, a.messages + b.messages, a.cost + b.cost) }

  /** input + output + cache_creation + cache_read; the 1h writes are inside the writes. */
  function AllTokens(t: Tokens): int { t.input + t.output + t.cacheCreation + t.cacheRead }

  /** The lateral lookup and the sum of products; an unknown model costs nothing. */
  ghost function CostOn(prices: Table, model: string, day: int, t: Tokens): real {
    var r := RatesOn(prices, model, day);
    if r.None? then 0.0 else Pricer.CostOf(r.value, t)
  }

  ghost function Priced(prices: Table, model: string, day: int, c: Cell): Bill {
    Bill(AllTokens(c.tokens), c.messages, CostOn(prices, model, day, c.tokens))
  }

  // ----- pricing is additive -----------------------------------------------------------

  lemma Distribute(a: int, b: int, r: real)
    ensures (a + b) as real * r == a as real * r + b as real * r
  {
    assert (a + b) as real == a as real + b as real;
  }

  lemma CostAdds(r: Rates, a: Tokens, b: Tokens)
    ensures Pricer.CostOf(r, Plus(a, b)) == Pricer.CostOf(r, a) + Pricer.CostOf(r, b)
  {
    var premium := if r.cacheCreation1h - r.cacheCreation < 0.0 then 0.0 else r.cacheCreation1h - r.cacheCreation;
    Distribute(a.input, b.input, r.input);
    Distribute(a.output, b.output, r.output);
    Distribute(a.cacheCreation, b.cacheCreation, r.cacheCreation);
    Distribute(a.cacheCreation1h, b.cacheCreation1h, premium);
    Distribute(a.cacheRead, b.cacheRead, r.cacheRead);
  }

  lemma PricedAdds(prices: Table, model: string, day: int, a: Cell, b: Cell)
    ensures Priced(prices, model, day, AddCell(a, b))
            == AddBill(Priced(prices, model, day, a), Priced(prices, model, day, b))
  {
    var r := RatesOn(prices, model, day);
    if r.Some? { CostAdds(r.value, a.tokens, b.tokens); }
  }

  lemma BillLaws(a: Bill, b: Bill, c: Bill)
    ensures AddBill(a, b) == AddBill(b, a)
    ensures AddBill(AddBill(a, b), c) == AddBill(a, AddBill(b, c))
    ensures AddBill(a, NO_BILL) == a
  {
  }

  lemma CellLaws(a: Cell, b: Cell, c: Cell)
    ensures AddCell(a, b) == AddCell(b, a)
    ensures AddCell(AddCell(a, b), c) == AddCell(a, AddCell(b, c))
    ensures AddCell(a, NO_CELL) == a
  {
  }

  lemma BillLawful<V, G>(v: View<V, G, Bill>)
    requires v.add == AddBill && v.zero == NO_BILL
    ensures Lawful(v)
  {
    forall a: Bill, b: Bill, c: Bill {:trigger At(a, b, c)}
      ensures v.add(a, b) == v.add(b, a) && v.add(v.add(a, b), c) == v.add(a, v.add(b, c)) && v.add(a, v.zero) == a
    {
      BillLaws(a, b, c);
    }
  }

  lemma CellLawful<V, G>(v: View<V, G, Cell>)
    requires v.add == AddCell && v.zero == NO_CELL
    ensures Lawful(v)
  {
    forall a: Cell, b: Cell, c: Cell {:trigger At(a, b, c)}
      ensures v.add(a, b) == v.add(b, a) && v.add(v.add(a, b), c) == v.add(a, v.add(b, c)) && v.add(a, v.zero) == a
    {
      CellLaws(a, b, c);
    }
  }

  // ----- per weekday and hour, in any time zone -------------------------------------------

  const HOUR := 3_600_000_000

  /** `ts AT TIME ZONE tz` in microseconds. */
  type Zone = int -> int

  function Utc(): Zone { (ts: int) => ts }

  datatype ClockKey = ClockKey(date: int, hour: int, model: string)

  datatype Slot = Slot(dow: int, hour: int)

  function HourOf(local: int): int { local % DAY / HOUR }

  /** 1970-01-01 was a Thursday; 0 is Sunday. */
  function DowOf(date: int): int { (date + 4) % 7 }

  function ClockGroups(zone: Zone): View<UsageRow, ClockKey, Cell> {
    View((row: UsageRow) => ClockKey(DayOf(zone(row.ts)), HourOf(zone(row.ts)), row.model),
         (row: UsageRow) => Cell(row.tokens, 1), AddCell, NO_CELL)
  }

  ghost function ClockPricing(prices: Table): Pricing<ClockKey, Cell, Slot, Bill> {
    Pricing((k: ClockKey) => Slot(DowOf(k.date), k.hour),
            (k: ClockKey, c: Cell) => Priced(prices, k.model, k.date, c), AddBill, NO_BILL)
  }

  /** Groups by local date, hour and model first, then prices each group and adds the
      groups of a slot. */
  ghost function ClockAggregate(prices: Table, d: Detail, zone: Zone): map<Slot, Bill> {
    GroupBy(Outer(ClockPricing(prices)), Paired(GroupBy(ClockGroups(zone), d)))
  }

  /** One message, priced on its own local date. */
  ghost function MessageBill(prices: Table, row: UsageRow, zone: Zone): Bill {
    Priced(prices, row.model, DayOf(zone(row.ts)), Cell(row.tokens, 1))
  }

  ghost function BySlot(prices: Table, zone: Zone): View<UsageRow, Slot, Bill> {
    View((row: UsageRow) => Slot(DowOf(DayOf(zone(row.ts))), HourOf(zone(row.ts))),
         (row: UsageRow) => MessageBill(prices, row, zone), AddBill, NO_BILL)
  }

  lemma ClockAdditive(prices: Table, zone: Zone)
    ensures Additive(ClockGroups(zone), ClockPricing(prices))
  {
    var v, p := ClockGroups(zone), ClockPricing(prices);
    forall g: ClockKey, a: Cell, b: Cell {:trigger Pair(g, a, b)}
      ensures p.price(g, v.add(a, b)) == p.add(p.price(g, a), p.price(g, b))
    {
      PricedAdds(prices, g.model, g.date, a, b);
    }
  }

  /** Pricing a group once gives, slot by slot, the sum of its messages priced one by
      one, for every time zone. */
  lemma ClockIsPerMessage(prices: Table, d: Detail, zone: Zone)
    ensures ClockAggregate(prices, d, zone) == GroupBy(BySlot(prices, zone), d)
  {
    var v, p := ClockGroups(zone), ClockPricing(prices);
    CellLawful(v);
    BillLawful(Outer(p));
    BillLawful(BySlot(prices, zone));
    ClockAdditive(prices, zone);
    GroupTwice(v, p, d);
    assert Alike(Direct(v, p), d, BySlot(prices, zone), d);
    GroupByAlike(Direct(v, p), d, BySlot(prices, zone), d);
  }

  // ----- per day, user, tool and model, from the rollup -------------------------------------

  datatype AggKey = AggKey(day: int, userId: string, tool: string, model: string)

  /** Collapses the machines of a rollup row's key. */
  function Machines(): Pricing<DayKey, Roll, AggKey, Cell> {
    Pricing((k: DayKey) => AggKey(k.day, k.userId, k.tool, k.family),
            (_: DayKey, r: Roll) => Cell(r.sum, r.messages), AddCell, NO_CELL)
  }

  ghost function Aggregated(daily: Daily): map<AggKey, Cell> { GroupBy(Outer(Machines()), Paired(daily)) }

  ghost function Aggregate(prices: Table, daily: Daily): map<AggKey, Bill> {
    var agg := Aggregated(daily);
    map k | k in agg :: Priced(prices, k.model, k.day, agg[k])
  }

  function ByKey(): View<UsageRow, AggKey, Cell> {
    View((row: UsageRow) => AggKey(DayOf(row.ts), row.userId, row.tool, row.model),
         (row: UsageRow) => Cell(row.tokens, 1), AddCell, NO_CELL)
  }

  lemma MachinesAdditive()
    ensures Additive(UsageView(), Machines())
  {
    var v, p := UsageView(), Machines();
    forall g: DayKey, a: Roll, b: Roll {:trigger Pair(g, a, b)}
      ensures p.price(g, v.add(a, b)) == p.add(p.price(g, a), p.price(g, b))
    {
    }
  }

  /** What the query reads from an exact rollup is what it would count in the detail. */
  lemma AggregatedIsDetail(d: Detail)
    ensures Aggregated(DailyOf(d)) == GroupBy(ByKey(), d)
  {
    var v, p := UsageView(), Machines();
    UsageLawful();
    CellLawful(Outer(p));
    CellLawful(ByKey());
    MachinesAdditive();
    GroupTwice(v, p, d);
    assert Alike(Direct(v, p), d, ByKey(), d);
    GroupByAlike(Direct(v, p), d, ByKey(), d);
  }

  /** The same key, valued. */
  ghost function RowPricing(prices: Table): Pricing<AggKey, Cell, AggKey, Bill> {
    Pricing((k: AggKey) => k, (k: AggKey, c: Cell) => Priced(prices, k.model, k.day, c), AddBill, NO_BILL)
  }

  ghost function ByKeyPriced(prices: Table): View<UsageRow, AggKey, Bill> {
    View((row: UsageRow) => AggKey(DayOf(row.ts), row.userId, row.tool, row.model),
         (row: UsageRow) => MessageBill(prices, row, Utc()), AddBill, NO_BILL)
  }

  lemma RowsAdditive(prices: Table)
    ensures Additive(ByKey(), RowPricing(prices))
  {
    var v, p := ByKey(), RowPricing(prices);
    forall g: AggKey, a: Cell, b: Cell {:trigger Pair(g, a, b)}
      ensures p.price(g, v.add(a, b)) == p.add(p.price(g, a), p.price(g, b))
    {
      PricedAdds(prices, g.model, g.day, a, b);
    }
  }

  /** Every row of the summary bills exactly its messages, each on its own day. */
  lemma AggregateIsPerMessage(prices: Table, d: Detail)
    ensures Aggregate(prices, DailyOf(d)) == GroupBy(ByKeyPriced(prices), d)
  {
    var v, p, w := ByKey(), RowPricing(prices), ByKeyPriced(prices);
    var agg, l, r := GroupBy(v, d), Aggregate(prices, DailyOf(d)), GroupBy(w, d);
    AggregatedIsDetail(d);
    CellLawful(v);
    BillLawful(Outer(p));
    BillLawful(w);
    RowsAdditive(prices);
    assert Alike(Direct(v, p), d, w, d);
    forall k ensures SameAt(l, r, k) {
      Fibration(v, p, d, k);
      TotalAlike(Direct(v, p), d, w, d, k);
      GroupsAlike(Direct(v, p), d, w, d, k);
      if k in agg { OwnCell(p, agg, k); }
      assert k in Groups(v, d) <==> k in Groups(w, d);
    }
    SameMaps(l, r);
  }

  // ----- grand totals --------------------------------------------------------------------

  function Everything(): View<Bill, (), Bill> { View((_: Bill) => (), (b: Bill) => b, AddBill, NO_BILL) }

  /** The sum of all rows of a result. */
  ghost function Grand<K>(result: map<K, Bill>): Bill { Total(Everything(), result, ()) }

  ghost function Messages(prices: Table, zone: Zone): View<UsageRow, (), Bill> {
    View((_: UsageRow) => (), (row: UsageRow) => MessageBill(prices, row, zone), AddBill, NO_BILL)
  }

  /** Every message priced on its own date, added up. */
  ghost function AllMessages(prices: Table, d: Detail, zone: Zone): Bill { Total(Messages(prices, zone), d, ()) }

  ghost function Collect<G>(): Pricing<G, Bill, (), Bill> {
    Pricing((_: G) => (), (_: G, b: Bill) => b, AddBill, NO_BILL)
  }

  lemma CollectAdditive<V, G(!new)>(v: View<V, G, Bill>)
    requires v.add == AddBill
    ensures Additive(v, Collect<G>())
  {
    var p := Collect<G>();
    forall g: G, a: Bill, b: Bill {:trigger Pair(g, a, b)}
      ensures p.price(g, v.add(a, b)) == p.add(p.price(g, a), p.price(g, b))
    {
    }
  }

  lemma CollectAlike<G(!new)>(result: map<G, Bill>)
    ensures Grand(result) == Total(Outer(Collect<G>()), Paired(result), ())
  {
    BillLawful(Everything());
    assert Alike(Outer(Collect<G>()), Paired(result), Everything(), result);
    TotalAlike(Outer(Collect<G>()), Paired(result), Everything(), result, ());
  }

  /** Adding up a group-by's rows adds up the table. */
  lemma GrandOfGroups<K, V, G(!new)>(v: View<V, G, Bill>, d: map<K, V>)
    requires v.add == AddBill && v.zero == NO_BILL
    ensures Grand(GroupBy(v, d)) == Total(Direct(v, Collect<G>()), d, ())
  {
    BillLawful(v);
    BillLawful(Outer(Collect<G>()));
    CollectAdditive(v);
    Fibration(v, Collect<G>(), d, ());
    CollectAlike(GroupBy(v, d));
  }

  lemma ClockGrand(prices: Table, d: Detail, zone: Zone)
    ensures Grand(ClockAggregate(prices, d, zone)) == AllMessages(prices, d, zone)
  {
    var v, w := BySlot(prices, zone), Messages(prices, zone);
    ClockIsPerMessage(prices, d, zone);
    GrandOfGroups(v, d);
    BillLawful(w);
    assert Alike(Direct(v, Collect<Slot>()), d, w, d);
    TotalAlike(Direct(v, Collect<Slot>()), d, w, d, ());
  }

  ghost function AggPricing(prices: Table): Pricing<AggKey, Cell, (), Bill> {
    Pricing((_: AggKey) => (), (k: AggKey, c: Cell) => Priced(prices, k.model, k.day, c), AddBill, NO_BILL)
  }

  lemma AggAdditive(prices: Table)
    ensures Additive(ByKey(), AggPricing(prices))
  {
    var v, p := ByKey(), AggPricing(prices);
    forall g: AggKey, a: Cell, b: Cell {:trigger Pair(g, a, b)}
      ensures p.price(g, v.add(a, b)) == p.add(p.price(g, a), p.price(g, b))
    {
      PricedAdds(prices, g.model, g.day, a, b);
    }
  }

  lemma AggregateGrand(prices: Table, d: Detail)
    ensures Grand(Aggregate(prices, DailyOf(d))) == AllMessages(prices, d, Utc())
  {
    var v, p, w := ByKey(), AggPricing(prices), Messages(prices, Utc());
    var agg, result := GroupBy(v, d), Aggregate(prices, DailyOf(d));
    AggregatedIsDetail(d);
    CellLawful(v);
    BillLawful(Outer(p));
    AggAdditive(prices);
    Fibration(v, p, d, ());
    BillLawful(Everything());
    assert Alike(Outer(p), Paired(agg), Everything(), result);
    TotalAlike(Outer(p), Paired(agg), Everything(), result, ());
    BillLawful(w);
    assert Alike(Direct(v, p), d, w, d);
    TotalAlike(Direct(v, p), d, w, d, ());
  }

  // ----- per day, for the heatmap ------------------------------------------------------------

  /** Tokens and messages of a rollup row; the query does not price. */
  function Activity(): Pricing<DayKey, Roll, int, Bill> {
    Pricing((k: DayKey) => k.day, (_: DayKey, r: Roll) => Bill(AllTokens(r.sum), r.messages, 0.0), AddBill, NO_BILL)
  }

  ghost function ActivityAggregate(daily: Daily): map<int, Bill> { GroupBy(Outer(Activity()), Paired(daily)) }

  function ByDay(): View<UsageRow, int, Bill> {
    View((row: UsageRow) => DayOf(row.ts), (row: UsageRow) => Bill(AllTokens(row.tokens), 1, 0.0), AddBill, NO_BILL)
  }

  lemma ActivityAdditive()
    ensures Additive(UsageView(), Activity())
  {
    var v, p := UsageView(), Activity();
    forall g: DayKey, a: Roll, b: Roll {:trigger Pair(g, a, b)}
      ensures p.price(g, v.add(a, b)) == p.add(p.price(g, a), p.price(g, b))
    {
    }
  }

  lemma ActivityIsDetail(d: Detail)
    ensures ActivityAggregate(DailyOf(d)) == GroupBy(ByDay(), d)
  {
    var v, p := UsageView(), Activity();
    UsageLawful();
    BillLawful(Outer(p));
    BillLawful(ByDay());
    ActivityAdditive();
    GroupTwice(v, p, d);
    assert Alike(Direct(v, p), d, ByDay(), d);
    GroupByAlike(Direct(v, p), d, ByDay(), d);
  }

  /** Counting needs no prices. */
  lemma {:induction false} SameCounts(d: Detail, a: View<UsageRow, (), Bill>, b: View<UsageRow, (), Bill>)
    requires a.add == AddBill && b.add == AddBill && a.zero == NO_BILL && b.zero == NO_BILL
    requires forall row :: a.unit(row).tokens == b.unit(row).tokens && a.unit(row).messages == b.unit(row).messages
    ensures Total(a, d, ()).tokens == Total(b, d, ()).tokens && Total(a, d, ()).messages == Total(b, d, ()).messages
    decreases |d|
  {
    if |d| > 0 {
      var k := Pick(d);
      SameCounts(d - {k}, a, b);
      assert a.group(d[k]) == () && b.group(d[k]) == ();
    }
  }

  lemma ActivityGrand(prices: Table, d: Detail)
    ensures var a, m := Grand(ActivityAggregate(DailyOf(d))), AllMessages(prices, d, Utc());
            a.tokens == m.tokens && a.messages == m.messages
  {
    ActivityIsDetail(d);
    GrandOfGroups(ByDay(), d);
    SameCounts(d, Direct(ByDay(), Collect<int>()), Messages(prices, Utc()));
  }

  // ----- the WHERE clauses ----------------------------------------------------------------------

  /** An empty user means everybody; a missing bound means unbounded. */
  ghost function DetailWhere(d: Detail, user: string, from: Option<int>, to: Option<int>): Detail {
    map key | key in d && (user == "" || d[key].userId == user)
      && (from.Some? ==> d[key].ts >= from.value) && (to.Some? ==> d[key].ts < to.value) :: d[key]
  }

  ghost predicate DayWhere(k: DayKey, user: string, from: Option<int>, to: Option<int>) {
    (user == "" || k.userId == user) && (from.Some? ==> k.day >= from.value) && (to.Some? ==> k.day < to.value)
  }

  ghost function DailyWhere(daily: Daily, user: string, from: Option<int>, to: Option<int>): Daily {
    map k | k in daily && DayWhere(k, user, from, to) :: daily[k]
  }

  function Midnight(day: Option<int>): Option<int> { if day.None? then None else Some(day.value * DAY) }

  lemma DayBound(ts: int, day: int)
    ensures DayOf(ts) >= day <==> ts >= day * DAY
  {
  }

  lemma WhereAt(d: Detail, user: string, from: Option<int>, to: Option<int>, k: DayKey)
    ensures SameAt(DailyWhere(DailyOf(d), user, from, to),
                   DailyOf(DetailWhere(d, user, Midnight(from), Midnight(to))), k)
  {
    var v, e := UsageView(), DetailWhere(d, user, Midnight(from), Midnight(to));
    forall key | key in d && v.group(d[key]) == k
      ensures key in e <==> DayWhere(k, user, from, to)
    {
      if from.Some? { DayBound(d[key].ts, from.value); }
      if to.Some? { DayBound(d[key].ts, to.value); }
    }
    if DayWhere(k, user, from, to) {
      UsageLawful();
      TotalLocal(v, d, e, k);
      GroupsLocal(v, d, e, k);
    }
  }

  /** Over midnight-aligned ranges, filtering an exact rollup is rolling up the
      filtered detail. */
  lemma WhereCommutes(d: Detail, user: string, from: Option<int>, to: Option<int>)
    ensures DailyWhere(DailyOf(d), user, from, to) == DailyOf(DetailWhere(d, user, Midnight(from), Midnight(to)))
  {
    forall k ensures SameAt(DailyWhere(DailyOf(d), user, from, to),
                            DailyOf(DetailWhere(d, user, Midnight(from), Midnight(to))), k) {
      WhereAt(d, user, from, to, k);
    }
    SameMaps(DailyWhere(DailyOf(d), user, from, to), DailyOf(DetailWhere(d, user, Midnight(from), Midnight(to))));
  }

  /** The three queries agree. On a store that keeps its rollup exact, for any user and
      any range of UTC days: what the summary bills, what the clock view bills in UTC and
      the messages priced one by one are the same total; the heatmap shows the same
      tokens and messages. */
  lemma QueriesAgree(t: StoreSpec.Tables, prices: Table, user: string, from: Option<int>, to: Option<int>)
    requires StoreSpec.InView(t)
    ensures var rows := DetailWhere(t.usage, user, Midnight(from), Midnight(to));
            var days := DailyWhere(t.daily, user, from, to);
            && Grand(Aggregate(prices, days)) == AllMessages(prices, rows, Utc())
            && Grand(ClockAggregate(prices, rows, Utc())) == AllMessages(prices, rows, Utc())
            && Grand(ActivityAggregate(days)).tokens == AllMessages(prices, rows, Utc()).tokens
            && Grand(ActivityAggregate(days)).messages == AllMessages(prices, rows, Utc()).messages
  {
    var rows := DetailWhere(t.usage, user, Midnight(from), Midnight(to));
    WhereCommutes(t.usage, user, from, to);
    AggregateGrand(prices, rows);
    ClockGrand(prices, rows, Utc());
    ActivityGrand(prices, rows);
  }

  // ----- one message ------------------------------------------------------------------------

  /** The bill of one message: its four token counts (one-hour writes are inside the
      writes) and the amount its columns come to under the price of its day. */
  ghost predicate Bills(prices: Table, row: UsageRow, day: int, b: Bill) {
    && b.tokens == row.tokens.input + row.tokens.output + row.tokens.cacheCreation + row.tokens.cacheRead
    && b.messages == 1 && Pricer.Charges(RatesOn(prices, row.model, day), row.tokens, b.cost)
  }

  lemma MessageBills(prices: Table, row: UsageRow, zone: Zone)
    ensures Bills(prices, row, DayOf(zone(row.ts)), MessageBill(prices, row, zone))
  {
    var r := RatesOn(prices, row.model, DayOf(zone(row.ts)));
    if r.Some? { Pricer.CostCharges(r.value, row.tokens); }
  }

  lemma OneRow<G>(v: View<UsageRow, G, Bill>, d: Detail, key: UsageKey)
    requires v.add == AddBill && v.zero == NO_BILL && d.Keys == {key}
    ensures GroupBy(v, d) == map[v.group(d[key]) := v.unit(d[key])]
  {
    var g := v.group(d[key]);
    assert Pick(d) in d.Keys;
    assert d - {key} == map[];
    assert Groups(v, d) == {g};
    assert Total(v, d - {key}, g) == v.zero;
  }

  /** The slot a local time falls in: `w` weeks, `dow` days from a Sunday and `hour` hours
      from midnight; the epoch was a Thursday. */
  ghost predicate FallsIn(local: int, slot: Slot) {
    && 0 <= slot.dow < 7 && 0 <= slot.hour < 24
    && exists w: int, rest: int :: InSlot(local, slot, w, rest)
  }

  ghost predicate InSlot(local: int, slot: Slot, w: int, rest: int) {
    && 0 <= rest < 3_600_000_000
    && local == (7 * w + slot.dow - 4) * 86_400_000_000 + slot.hour * 3_600_000_000 + rest
  }

  lemma SlotOf(local: int)
    ensures FallsIn(local, Slot(DowOf(DayOf(local)), HourOf(local)))
  {
    var date := DayOf(local);
    assert InSlot(local, Slot(DowOf(date), HourOf(local)), (date + 4) / 7, local % DAY % HOUR);
  }

  predicate OnDay(ts: int, day: int) { day * 86_400_000_000 <= ts < (day + 1) * 86_400_000_000 }

  predicate Summarizes(row: UsageRow, k: AggKey) {
    OnDay(row.ts, k.day) && k.userId == row.userId && k.tool == row.tool && k.model == row.model
  }

  ghost predicate Summary(prices: Table, row: UsageRow, k: AggKey, summary: map<AggKey, Bill>) {
    summary.Keys == {k} && Summarizes(row, k) && Bills(prices, row, k.day, summary[k])
  }

  /** A store of one message: the summary has one row, on the UTC day of the message and for
      its user, tool and model, and bills exactly the message. */
  lemma OneMessageSummary(prices: Table, d: Detail, key: UsageKey)
    requires d.Keys == {key}
    ensures exists k :: Summary(prices, d[key], k, Aggregate(prices, DailyOf(d)))
  {
    var row := d[key];
    AggregateIsPerMessage(prices, d);
    OneRow(ByKeyPriced(prices), d, key);
    MessageBills(prices, row, Utc());
    var k := ByKeyPriced(prices).group(row);
    assert Summarizes(row, k);
    assert Summary(prices, row, k, Aggregate(prices, DailyOf(d)));
  }

  ghost predicate Clocked(prices: Table, row: UsageRow, local: int, day: int, slot: Slot, clock: map<Slot, Bill>) {
    clock.Keys == {slot} && FallsIn(local, slot) && OnDay(local, day) && Bills(prices, row, day, clock[slot])
  }

  /** The clock view has one slot, that of the local time, and bills the message on its
      local date. */
  lemma OneMessageClock(prices: Table, d: Detail, key: UsageKey, zone: Zone)
    requires d.Keys == {key}
    ensures exists day, slot :: Clocked(prices, d[key], zone(d[key].ts), day, slot, ClockAggregate(prices, d, zone))
  {
    var row := d[key];
    var local := zone(row.ts);
    ClockIsPerMessage(prices, d, zone);
    OneRow(BySlot(prices, zone), d, key);
    MessageBills(prices, row, zone);
    SlotOf(local);
    var slot := BySlot(prices, zone).group(row);
    assert OnDay(local, DayOf(local));
    assert Clocked(prices, row, local, DayOf(local), slot, ClockAggregate(prices, d, zone));
  }

  // ----- what the WHERE clauses keep ------------------------------------------------------------

  /** Without a user or a bound everything is kept; a user keeps that user's rows; two ranges
      that meet split the range they make up, and the row on the seam is in the later. */
  lemma WhereSplits(d: Detail, user: string, from: Option<int>, mid: int, to: Option<int>)
    requires (from.Some? ==> from.value <= mid) && (to.Some? ==> mid <= to.value)
    ensures DetailWhere(d, "", None, None) == d
    ensures forall key | key in d :: key in DetailWhere(d, user, None, None) <==> user in ["", d[key].userId]
    ensures Splits(DetailWhere(d, user, from, to), DetailWhere(d, user, from, Some(mid)),
                   DetailWhere(d, user, Some(mid), to))
    ensures forall key | key in DetailWhere(d, user, from, Some(mid)) :: d[key].ts < mid
    ensures forall key | key in DetailWhere(d, user, Some(mid), to) :: mid <= d[key].ts
  {
  }
}
