/** The whole pipeline: the parsers as sources of the delivery protocol, the protocol
    in front of the store. */
module EndToEnd {
  import opened Types
  import opened TailScan
  import opened Delivery
  import opened Dedup
  import opened StoreSpec
  import opened GroupSum
  import opened Rollup
  import Billing
  import opened ExactlyOnce
  import FleetOrder
  import Prices
  import Regroup
  import Codex
  import CodexReparse
  import Dsh

  /** What kind of transcript a file is. Claude Code and pi files are tailed, with
      any per-line extractor; Codex and dsh files are parsed whole. */
  datatype Transcript =
    | LineByLine(x: Extract)
    | CodexRollout(r: Codex.Rollout)
    | DshLog(g: Dsh.Log)

  type Fleet = Path -> Transcript

  ghost function SourceOf(t: Transcript): Source {
    match t
    case LineByLine(x) => Tailed(x)
    case CodexRollout(r) => Reparsed(b => Some(Codex.Parse(r, b)))
    case DshLog(g) => Reparsed(b => Dsh.Parse(g, b))
  }

  /** What a file of each kind yields. */
  lemma TranscriptYields(t: Transcript, b: Bytes)
    ensures t.LineByLine? && IsWholeLine(b) ==> Yield(SourceOf(t), b) == Items(t.x(b))
    ensures t.CodexRollout? ==>
      Yield(SourceOf(t), b) == Items(Codex.ResultOf(t.r, Codex.Final(t.r, Codex.Events(t.r, b))))
    ensures t.DshLog? && t.g.unzip(b).Some? ==>
      Yield(SourceOf(t), b) == Items(Dsh.ResultOf(Dsh.Run(t.g, Dsh.Events(t.g, t.g.unzip(b).value))))
    ensures t.DshLog? && t.g.unzip(b).None? ==> Yield(SourceOf(t), b) == {}
  {
    if t.LineByLine? && IsWholeLine(b) {
      ContentYields(t.x, b, []);
      assert b + [] == b;
    }
  }

  /** What its tool may write. */
  function LegalOf(t: Transcript): Bytes -> bool {
    match t
    case LineByLine(_) => (b => true)
    case CodexRollout(r) => (b => CodexReparse.WellWritten(r, b))
    case DshLog(g) => (b => Dsh.Appended(g, b))
  }

  /** Every Codex file name carries a session id; an empty dsh log is empty. */
  ghost predicate Named(t: Transcript) {
    && (t.CodexRollout? ==> t.r.session != "")
    && (t.DshLog? && t.g.unzip([]).Some? ==> t.g.unzip([]).value == [])
  }

  ghost function ConfigOf(fleet: Fleet, userId: string, machineId: string, batch: nat, buffered: bool,
                          base: Tables): Config
  {
    Config(p => SourceOf(fleet(p)), p => LegalOf(fleet(p)), userId, machineId, batch, buffered, base)
  }

  lemma TranscriptConverges(t: Transcript)
    requires Named(t)
    ensures Converges(SourceOf(t), LegalOf(t))
  {
    match t
    case LineByLine(_) =>
    case CodexRollout(r) =>
      CodexReparse.CodexSource(r);
      Transfer(Reparsed(b => Some(Codex.Parse(r, b))), b => CodexReparse.WellWritten(r, b), SourceOf(t), LegalOf(t));
    case DshLog(g) =>
      Dsh.DshSource(g);
      Transfer(Reparsed(b => Dsh.Parse(g, b)), b => Dsh.Appended(g, b), SourceOf(t), LegalOf(t));
  }

  /** Convergence depends on what the two functions return only. */
  lemma Transfer(s: Source, l: Bytes -> bool, s': Source, l': Bytes -> bool)
    requires s.Reparsed? && s'.Reparsed? && Converges(s, l)
    requires forall b :: s.parse(b) == s'.parse(b) && l(b) == l'(b)
    ensures Converges(s', l')
  {
    assert forall b :: s'.parse(b) == s.parse(b);
    assert s.parse([]) == s'.parse([]);
    forall b, c | l'(b + c) && s'.parse(b + c).Some? ensures Yield(s', b) <= Yield(s', b + c) {
      assert l(b + c) && s.parse(b + c) == s'.parse(b + c) && s.parse(b) == s'.parse(b);
      assert Yield(s, b) <= Yield(s, b + c);
    }
  }

  lemma FleetValid(fleet: Fleet, cfg: Config)
    requires cfg == ConfigOf(fleet, cfg.userId, cfg.machineId, cfg.batch, cfg.buffered, cfg.base)
    requires cfg.batch > 0 && InView(cfg.base) && forall p :: Named(fleet(p))
    ensures Delivery.Valid(cfg)
  {
    forall p ensures Converges(cfg.source(p), cfg.legal(p)) {
      TranscriptConverges(fleet(p));
    }
  }

  /** A watcher of the fleet that has caught up, and everything its files ever held, in any
      order; no file was replaced before it was read to its end. */
  ghost predicate Settled(fleet: Fleet, cfg: Config, w: World, contents: seq<Content>) {
    && cfg == ConfigOf(fleet, cfg.userId, cfg.machineId, cfg.batch, cfg.buffered, cfg.base)
    && cfg.batch > 0 && InView(cfg.base) && (forall p :: Named(fleet(p)))
    && Reachable(cfg, w) && CaughtUp(cfg, w) && !w.torn
    && forall c :: c in contents <==> Held(w, c)
  }

  lemma SettledItems(fleet: Fleet, cfg: Config, w: World, contents: seq<Content>)
    requires Settled(fleet, cfg, w, contents)
    ensures Delivery.Valid(cfg)
    ensures forall it :: it in Items(CleanParse(cfg, contents)) <==> InFiles(cfg, w, it)
  {
    FleetValid(fleet, cfg);
    forall it ensures it in Items(CleanParse(cfg, contents)) <==> InFiles(cfg, w, it) {
      CleanParseItems(cfg, contents, it);
    }
  }

  /** One clean send of the contents, behind what other watchers sent. */
  ghost function Clean(cfg: Config, w: World, contents: seq<Content>): Tables {
    CleanState(cfg, w.others, CleanParse(cfg, contents))
  }

  /** What the rollups read of a row. */
  function Paid(): UsageRow -> (DayKey, Roll) { Read(UsageView()) }

  function Changes(): EditRow -> (DayKey, EditRoll) { Read(EditView()) }

  // ----- every rollup ---------------------------------------------------------------------

  /** Count every message once, in every number the server reports. Tailed and re-parsed
      transcripts, growing and replaced while they are read; requests lost, half-landed,
      answered late or refused; a spool replayed and re-replayed; crashes at any point;
      requests of other watchers at any moment: once the watcher has caught up, both rollups
      are what one clean parse of everything the files held, sent once, would have made
      them. Of rows with an equal new key only the columns the rollups read have to agree: a
      resumed session may repeat a message under another session id or project path. */
  lemma EveryMessageOnce(fleet: Fleet, cfg: Config, w: World, contents: seq<Content>)
    requires Settled(fleet, cfg, w, contents)
    requires Agreeing(cfg, w.others, CleanParse(cfg, contents), Paid(), Changes())
    ensures InView(w.server)
    ensures w.server.daily == Clean(cfg, w, contents).daily
    ensures w.server.editDaily == Clean(cfg, w, contents).editDaily
  {
    SettledItems(fleet, cfg, w, contents);
    RollupsOnce(cfg, w, CleanParse(cfg, contents));
    CaughtUpKeys(cfg, w, CleanParse(cfg, contents));
  }

  /** Where they agree in every column, so do the detail tables. */
  lemma EveryRowOnce(fleet: Fleet, cfg: Config, w: World, contents: seq<Content>)
    requires Settled(fleet, cfg, w, contents)
    requires Agreeing(cfg, w.others, CleanParse(cfg, contents), Whole(), Whole())
    ensures w.server == Clean(cfg, w, contents)
  {
    SettledItems(fleet, cfg, w, contents);
    EffectivelyOnce(cfg, w, CleanParse(cfg, contents));
  }

  /** With the buffer directory left empty only keys that several files or watchers have need
      to agree; one tailed file may say what it likes under its own. */
  lemma EveryMessageUnbuffered(fleet: Fleet, cfg: Config, w: World, contents: seq<Content>)
    requires Settled(fleet, cfg, w, contents) && !cfg.buffered && FleetOrder.Chronicle(w, contents)
    requires FleetOrder.Decided(cfg, w, CleanParse(cfg, contents), Paid(), Changes())
    ensures w.server.daily == Clean(cfg, w, contents).daily
    ensures w.server.editDaily == Clean(cfg, w, contents).editDaily
  {
    SettledItems(fleet, cfg, w, contents);
    FleetOrder.SpoollessFleet(cfg, w, contents, Paid(), Changes());
    CleanRows(cfg, w.others, CleanParse(cfg, contents));
    UsageLawful();
    EditLawful();
    GroupsAlikeUnder(UsageView(), w.server.usage, Clean(cfg, w, contents).usage);
    GroupsAlikeUnder(EditView(), w.server.edits, Clean(cfg, w, contents).edits);
  }

  // ----- every bill -------------------------------------------------------------------------

  /** Rows that the rollup reads alike pass the same filters. */
  lemma WhereAlike(a: Detail, b: Detail, user: string, from: Option<int>, to: Option<int>)
    requires SameUnder(Paid(), a, b)
    ensures SameUnder(Paid(), Billing.DetailWhere(a, user, from, to), Billing.DetailWhere(b, user, from, to))
  {
    forall k | k in a ensures a[k].ts == b[k].ts && a[k].userId == b[k].userId {
      ReadsSame(a[k], b[k], Paid()(a[k]));
    }
    var x, y := Billing.DetailWhere(a, user, from, to), Billing.DetailWhere(b, user, from, to);
    assert x.Keys == y.Keys;
  }

  lemma ReadsSame(r: UsageRow, q: UsageRow, same: (DayKey, Roll))
    requires Paid()(r) == Paid()(q) == same
    ensures r.ts == q.ts && r.userId == q.userId && r.model == q.model && r.tokens == q.tokens
  {
    assert UsageView().group(r) == UsageView().group(q) && UsageView().unit(r) == UsageView().unit(q);
  }

  /** So is every bill: the summary, the heatmap, and the clock view in any time zone, for
      any user, range and price table, are those of the clean parse. */
  lemma EveryBillOnce(fleet: Fleet, cfg: Config, w: World, contents: seq<Content>,
                      prices: Prices.Table, user: string, from: Option<int>, to: Option<int>, zone: Billing.Zone)
    requires Settled(fleet, cfg, w, contents)
    requires AgreeUnder(Paid(), SentUsage(cfg, w.others, CleanParse(cfg, contents)), cfg.base.usage)
    ensures var days := Billing.DailyWhere(w.server.daily, user, from, to);
            var clean := Billing.DailyWhere(Clean(cfg, w, contents).daily, user, from, to);
            && Billing.Aggregate(prices, days) == Billing.Aggregate(prices, clean)
            && Billing.ActivityAggregate(days) == Billing.ActivityAggregate(clean)
    ensures Billing.ClockAggregate(prices, Billing.DetailWhere(w.server.usage, user, from, to), zone)
         == Billing.ClockAggregate(prices, Billing.DetailWhere(Clean(cfg, w, contents).usage, user, from, to), zone)
  {
    var whole, nothing := CleanParse(cfg, contents), (row: EditRow) => 0;
    SettledItems(fleet, cfg, w, contents);
    CaughtUpKeys(cfg, w, whole);
    OnceUnder(cfg, w, whole, Paid(), nothing);
    CleanRows(cfg, w.others, whole);
    UsageLawful();
    GroupsAlikeUnder(UsageView(), w.server.usage, Clean(cfg, w, contents).usage);
    ClockAlike(w.server.usage, Clean(cfg, w, contents).usage, user, from, to, zone);
  }

  lemma ClockAlike(a: Detail, b: Detail, user: string, from: Option<int>, to: Option<int>, zone: Billing.Zone)
    requires SameUnder(Paid(), a, b)
    ensures GroupBy(Billing.ClockGroups(zone), Billing.DetailWhere(a, user, from, to))
         == GroupBy(Billing.ClockGroups(zone), Billing.DetailWhere(b, user, from, to))
  {
    WhereAlike(a, b, user, from, to);
    var v := Billing.ClockGroups(zone);
    var x, y := Billing.DetailWhere(a, user, from, to), Billing.DetailWhere(b, user, from, to);
    forall k | k in x ensures v.group(x[k]) == v.group(y[k]) && v.unit(x[k]) == v.unit(y[k]) {
      ReadsSame(x[k], y[k], Paid()(x[k]));
    }
    Billing.CellLawful(v);
    Regroup.GroupByAlike(v, x, v, y);
  }
}
