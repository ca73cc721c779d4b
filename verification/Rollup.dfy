/** The two rollups: `usage_daily` is the group-by of `usage_detail` per (UTC day,
    user, machine, tool, model), `edit_daily` that of `edit_detail` per (UTC day,
    user, machine, tool, language). */
module Rollup {
  import opened Types
  import opened GroupSum

  /** Primary key of usage_detail. */
  datatype UsageKey = UsageKey(messageId: string, requestId: string)

  datatype Tokens = Tokens(input: int, output: int, cacheCreation: int, cacheCreation1h: int, cacheRead: int)

  datatype UsageRow = UsageRow(
    sessionId: string, userId: string, machineId: string, tool: string, model: string,
    ts: int, tokens: Tokens, projectPath: string)

  datatype EditRow = EditRow(
    sessionId: string, userId: string, machineId: string, tool: string, lang: string,
    ts: int, added: int, removed: int, projectPath: string)

  type Detail = map<UsageKey, UsageRow>
  type EditDetail = map<string, EditRow>

  /** Primary key of both rollups; `family` is the model or the language. */
  datatype DayKey = DayKey(day: int, userId: string, machineId: string, tool: string, family: string)

  /** The aggregated columns. A bound is absent only in the empty rollup. */
  datatype Roll = Roll(sum: Tokens, messages: nat, firstTs: Option<int>, lastTs: Option<int>)

  datatype EditRoll = EditRoll(added: int, removed: int, edits: nat)

  type Daily = map<DayKey, Roll>
  type EditDaily = map<DayKey, EditRoll>

  /** Microseconds per UTC day. */
  const DAY := 86_400_000_000

  /** `(ts AT TIME ZONE 'UTC')::date`, as days since the epoch (floor division). */
  function DayOf(ts: int): int { ts / DAY }

  const NO_TOKENS := Tokens(0, 0, 0, 0, 0)

  function Plus(a: Tokens, b: Tokens): Tokens {
    Tokens(a.input + b.input, a.output + b.output, a.cacheCreation + b.cacheCreation,
           a.cacheCreation1h + b.cacheCreation1h, a.cacheRead + b.cacheRead)
  }

  /** LEAST and GREATEST ignore NULL. */
  function Least(a: Option<int>, b: Option<int>): Option<int> {
    if a.None? then b else if b.None? then a else Some(Min(a.value, b.value))
  }

  function Greatest(a: Option<int>, b: Option<int>): Option<int> {
    if a.None? then b else if b.None? then a else Some(Max(a.value, b.value))
  }

  /** The DO UPDATE arm of the rollup upsert. */
  function AddRoll(a: Roll, b: Roll): Roll {
    Roll(Plus(a.sum, b.sum), a.messages + b.messages, Least(a.firstTs, b.firstTs), Greatest(a.lastTs, b.lastTs))
  }

  function AddEditRoll(a: EditRoll, b: EditRoll): EditRoll {
    EditRoll(a.added + b.added, a.removed + b.removed, a.edits + b.edits)
  }

  function UsageView(): View<UsageRow, DayKey, Roll> {
    View((r: UsageRow) => DayKey(DayOf(r.ts), r.userId, r.machineId, r.tool, r.model),
         (r: UsageRow) => Roll(r.tokens, 1, Some(r.ts), Some(r.ts)),
         AddRoll, Roll(NO_TOKENS, 0, None, None))
  }

  function EditView(): View<EditRow, DayKey, EditRoll> {
    View((r: EditRow) => DayKey(DayOf(r.ts), r.userId, r.machineId, r.tool, r.lang),
         (r: EditRow) => EditRoll(r.added, r.removed, 1),
         AddEditRoll, EditRoll(0, 0, 0))
  }

  /** Sums, counts and the NULL-ignoring bounds form a commutative aggregate. */
  lemma UsageLawful()
    ensures Lawful(UsageView())
  {
    var v := UsageView();
    forall a: Roll, b: Roll, c: Roll {:trigger At(a, b, c)}
      ensures v.add(a, b) == v.add(b, a)
      ensures v.add(v.add(a, b), c) == v.add(a, v.add(b, c))
      ensures v.add(a, v.zero) == a
    {
      RollLaws(a, b, c);
    }
  }

  lemma RollLaws(a: Roll, b: Roll, c: Roll)
    ensures AddRoll(a, b) == AddRoll(b, a)
    ensures AddRoll(AddRoll(a, b), c) == AddRoll(a, AddRoll(b, c))
    ensures AddRoll(a, UsageView().zero) == a
  {
  }

  lemma EditLawful()
    ensures Lawful(EditView())
  {
    var v := EditView();
    forall a: EditRoll, b: EditRoll, c: EditRoll {:trigger At(a, b, c)}
      ensures v.add(a, b) == v.add(b, a)
      ensures v.add(v.add(a, b), c) == v.add(a, v.add(b, c))
      ensures v.add(a, v.zero) == a
    {
    }
  }

  /** What usage_daily must always be. */
  ghost function DailyOf(d: Detail): Daily { GroupBy(UsageView(), d) }

  ghost function EditDailyOf(d: EditDetail): EditDaily { GroupBy(EditView(), d) }

  ghost function Roll0(d: Detail, k: DayKey): Roll { Total(UsageView(), d, k) }

  ghost function DayGroups(d: Detail): set<DayKey> { Groups(UsageView(), d) }

  function KeyOf(r: UsageRow): DayKey { UsageView().group(r) }

  /** `WHERE ts >= from AND ts < to + 1 day` with midnight-aligned bounds. */
  ghost function InDays(d: Detail, from: int, to: int): Detail {
    map key | key in d && from <= DayOf(d[key].ts) <= to :: d[key]
  }

  /** DELETE the days, then INSERT the fresh aggregate of the same days. */
  ghost function Rebuilt(d: Detail, daily: Daily, from: int, to: int): Daily {
    (map k | k in daily && !(from <= k.day <= to) :: daily[k]) + DailyOf(InDays(d, from, to))
  }

  /** The fresh aggregate over a day range is the full one cut to that range. */
  lemma FreshIsExact(d: Detail, from: int, to: int, k: DayKey)
    ensures k in DailyOf(InDays(d, from, to)) <==> from <= k.day <= to && k in DailyOf(d)
    ensures k in DailyOf(InDays(d, from, to)) ==> DailyOf(InDays(d, from, to))[k] == DailyOf(d)[k]
  {
    var e := InDays(d, from, to);
    var v := UsageView();
    if from <= k.day <= to {
      UsageLawful();
      TotalLocal(v, e, d, k);
      GroupsLocal(v, e, d, k);
    } else {
      assert k !in Groups(v, e);
    }
  }

  /** A rebuild makes the requested days exact whatever they held before, and
      leaves every other day as it was. */
  lemma RebuiltExact(d: Detail, daily: Daily, from: int, to: int, k: DayKey)
    ensures from <= k.day <= to ==>
      (k in Rebuilt(d, daily, from, to) <==> k in DailyOf(d))
      && (k in DailyOf(d) ==> Rebuilt(d, daily, from, to)[k] == DailyOf(d)[k])
    ensures !(from <= k.day <= to) ==>
      (k in Rebuilt(d, daily, from, to) <==> k in daily)
      && (k in daily ==> Rebuilt(d, daily, from, to)[k] == daily[k])
  {
    FreshIsExact(d, from, to, k);
  }

  /** A rollup that is exact outside the rebuilt days becomes exact everywhere. */
  lemma RebuiltRestores(d: Detail, daily: Daily, from: int, to: int)
    requires forall k: DayKey | !(from <= k.day <= to) ::
      (k in daily <==> k in DailyOf(d)) && (k in daily ==> daily[k] == DailyOf(d)[k])
    ensures Rebuilt(d, daily, from, to) == DailyOf(d)
  {
    var r, e := Rebuilt(d, daily, from, to), DailyOf(d);
    forall k: DayKey
      ensures k in r <==> k in e
      ensures k in r ==> r[k] == e[k]
    {
      RebuiltExact(d, daily, from, to, k);
    }
  }
}
