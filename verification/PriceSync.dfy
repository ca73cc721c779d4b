/** Choosing one price per model family out of a table with many aliases, and what a
    sync leaves behind. Map order must not show: a winner that flips writes a new
    history row on every sync. */
module PriceSync {
  import opened Types
  import opened Prices
  import Order
  import Text

  /** One entry of the published table; absent costs are None. */
  datatype Entry = Entry(
    input: Option<real>, output: Option<real>, cacheCreation: Option<real>, cacheCreation1h: Option<real>,
    cacheRead: Option<real>, mode: string)

  type Raw = map<string, Entry>

  datatype PriceRow = PriceRow(prefix: string, rates: Rates, source: string)

  // ----- names -----------------------------------------------------------------------

  /** Everything after the last slash. */
  function LastSegment(s: string): string
    decreases |s|
  {
    var i := Text.Index(s, "/");
    if i < 0 then s else LastSegment(s[i + 1..])
  }

  predicate Digits(s: string) { forall i | 0 <= i < |s| :: '0' <= s[i] <= '9' }

  /** Ends in -YYYYMMDD. */
  predicate EndsCompact(s: string) {
    var n := |s|;
    n >= 9 && s[n - 9] == '-' && Digits(s[n - 8..])
  }

  /** Ends in -YYYY-MM-DD. */
  predicate EndsDashed(s: string) {
    var n := |s|;
    n >= 11 && s[n - 11] == '-' && Digits(s[n - 10..n - 6]) && s[n - 6] == '-' && Digits(s[n - 5..n - 3])
    && s[n - 3] == '-' && Digits(s[n - 2..])
  }

  function NormalizeModel(s: string): string {
    var t := LastSegment(s);
    if EndsDashed(t) then t[..|t| - 11] else if EndsCompact(t) then t[..|t| - 9] else t
  }

  /** At most one date form fits, so the order of the two tests does not matter. */
  lemma OneDateForm(s: string)
    ensures !(EndsDashed(s) && EndsCompact(s))
  {
    if EndsCompact(s) {
      assert s[|s| - 8..][5] == s[|s| - 3];
    }
  }

  /** No slash survives: an emitted model name, which has none, can match. */
  lemma {:induction false} NormalizedHasNoSlash(s: string)
    ensures Text.Free(NormalizeModel(s), '/')
  {
    SegmentHasNoSlash(s);
  }

  lemma {:induction false} SegmentHasNoSlash(s: string)
    ensures Text.Free(LastSegment(s), '/')
    decreases |s|
  {
    if Text.Index(s, "/") >= 0 {
      SegmentHasNoSlash(s[Text.Index(s, "/") + 1..]);
    } else {
      forall j | 0 <= j < |s| ensures s[j] != '/' {
        if s[j] == '/' {
          assert s[j..j + 1] == "/";
          Text.IndexIsFirst(s, "/", j);
        }
      }
    }
  }

  // ----- who wins -----------------------------------------------------------------------

  function Rank(name: string, e: Entry): nat {
    (if e.cacheCreation.Some? then 8 else 0) + (if e.cacheCreation1h.Some? then 4 else 0)
    + (if e.cacheRead.Some? then 2 else 0) + (if Text.Contains(name, "/") then 0 else 1)
  }

  predicate Eligible(raw: Raw, name: string) {
    && name in raw
    && (raw[name].mode == "" || raw[name].mode == "chat" || raw[name].mode == "completion")
    && raw[name].input.Some? && raw[name].output.Some?
    && NormalizeModel(name) != ""
  }

  predicate Competes(raw: Raw, prefix: string, name: string) { Eligible(raw, name) && NormalizeModel(name) == prefix }

  /** Higher rank, then the smaller key. */
  predicate Beats(raw: Raw, a: string, b: string)
    requires a in raw && b in raw
  {
    var x, y := Rank(a, raw[a]), Rank(b, raw[b]);
    x > y || (x == y && (a == b || Order.Below(a, b)))
  }

  /** The best of the competitors among `names`. */
  ghost predicate WinnerOf(raw: Raw, names: set<string>, prefix: string, w: string) {
    && w in names && Competes(raw, prefix, w)
    && forall n | n in names && Competes(raw, prefix, n) :: Beats(raw, w, n)
  }

  lemma WinnerUnique(raw: Raw, prefix: string, a: string, b: string)
    requires WinnerOf(raw, raw.Keys, prefix, a) && WinnerOf(raw, raw.Keys, prefix, b)
    ensures a == b
  {
    assert Beats(raw, a, b) && Beats(raw, b, a);
    Order.NotBoth(a, b);
  }

  function OrZero(o: Option<real>): real { if o.None? then 0.0 else o.value }

  function RowOf(raw: Raw, name: string): PriceRow
    requires Eligible(raw, name)
  {
    var e := raw[name];
    PriceRow(NormalizeModel(name),
             Rates(e.input.value * 1_000_000.0, e.output.value * 1_000_000.0, OrZero(e.cacheCreation) * 1_000_000.0,
                   OrZero(e.cacheCreation1h) * 1_000_000.0, OrZero(e.cacheRead) * 1_000_000.0),
             "litellm:" + name)
  }

  function Prefixes(rows: seq<PriceRow>): seq<string> { seq(|rows|, i requires 0 <= i < |rows| => rows[i].prefix) }

  ghost function Families(raw: Raw): set<string> { set n | n in raw && Eligible(raw, n) :: NormalizeModel(n) }

  /** One row per family, strictly sorted, each its family's winner. */
  ghost predicate Selected(raw: Raw, rows: seq<PriceRow>) {
    && Order.Sorted(Prefixes(rows))
    && Order.Elements(Prefixes(rows)) == Families(raw)
    && forall i | 0 <= i < |rows| :: IsWinnersRow(raw, rows[i])
  }

  ghost predicate IsWinnersRow(raw: Raw, row: PriceRow) {
    exists w :: WinnerOf(raw, raw.Keys, row.prefix, w) && row == RowOf(raw, w)
  }

  /** The selection is a function of the table: no enumeration order shows. */
  lemma SelectionOrderFree(raw: Raw, a: seq<PriceRow>, b: seq<PriceRow>)
    requires Selected(raw, a) && Selected(raw, b)
    ensures a == b
  {
    Order.SortedUnique(Prefixes(a), Prefixes(b));
    assert |Prefixes(a)| == |Prefixes(b)|;
    forall i | 0 <= i < |a| ensures a[i] == b[i] {
      assert Prefixes(a)[i] == Prefixes(b)[i];
      assert IsWinnersRow(raw, a[i]) && IsWinnersRow(raw, b[i]);
      var v :| WinnerOf(raw, raw.Keys, a[i].prefix, v) && a[i] == RowOf(raw, v);
      var w :| WinnerOf(raw, raw.Keys, b[i].prefix, w) && b[i] == RowOf(raw, w);
      WinnerUnique(raw, a[i].prefix, v, w);
    }
  }

  // ----- the loop ---------------------------------------------------------------------------

  ghost predicate Chosen(raw: Raw, names: set<string>, chosen: map<string, string>) {
    && (forall p | p in chosen :: WinnerOf(raw, names, p, chosen[p]))
    && (forall n | n in names && Eligible(raw, n) :: NormalizeModel(n) in chosen)
  }

  /** A later name takes the place only with a strictly higher rank. */
  lemma Challenge(raw: Raw, names: set<string>, chosen: map<string, string>, name: string)
    requires Chosen(raw, names, chosen) && Eligible(raw, name)
    requires forall n | n in names :: Order.Below(n, name)
    ensures var p := NormalizeModel(name);
            if p in chosen && Rank(chosen[p], raw[chosen[p]]) >= Rank(name, raw[name])
            then Chosen(raw, names + {name}, chosen)
            else Chosen(raw, names + {name}, chosen[p := name])
  {
    var p := NormalizeModel(name);
    var keeps := p in chosen && Rank(chosen[p], raw[chosen[p]]) >= Rank(name, raw[name]);
    var after := if keeps then chosen else chosen[p := name];
    forall q | q in after ensures WinnerOf(raw, names + {name}, q, after[q]) {
      if q != p {
        assert WinnerOf(raw, names, q, chosen[q]);
      } else if keeps {
        assert WinnerOf(raw, names, q, chosen[q]);
      } else if p in chosen {
        assert WinnerOf(raw, names, q, chosen[q]);
        forall n | n in names && Competes(raw, p, n) ensures Beats(raw, name, n) { assert Beats(raw, chosen[p], n); }
      }
    }
  }

  lemma Skipped(raw: Raw, names: set<string>, chosen: map<string, string>, name: string)
    requires Chosen(raw, names, chosen) && !Eligible(raw, name)
    ensures Chosen(raw, names + {name}, chosen)
  {
    forall p | p in chosen ensures WinnerOf(raw, names + {name}, p, chosen[p]) {
      assert WinnerOf(raw, names, p, chosen[p]);
    }
  }

  method PriceCandidateRank(key: string, e: Entry) returns (rank: nat)
    ensures rank == Rank(key, e)
  {
    rank := 0;
    if e.cacheCreation.Some? { rank := rank + 8; }
    if e.cacheCreation1h.Some? { rank := rank + 4; }
    if e.cacheRead.Some? { rank := rank + 2; }
    if !Text.Contains(key, "/") { rank := rank + 1; }
  }

  method Choose(raw: Raw) returns (chosen: map<string, string>)
    ensures Chosen(raw, raw.Keys, chosen)
  {
    chosen := map[];
    var names := Order.SortKeys(raw.Keys);
    ghost var seen: set<string> := {};
    for i := 0 to |names|
      invariant seen == Order.Elements(names[..i]) && Chosen(raw, seen, chosen)
    {
      var name := names[i];
      assert name in Order.Elements(names);
      assert names[..i + 1] == names[..i] + [name];
      ghost var before := seen;
      seen := seen + {name};
      var e := raw[name];
      if e.mode != "" && e.mode != "chat" && e.mode != "completion" {
        Skipped(raw, before, chosen, name);
        continue;
      }
      if e.input.None? || e.output.None? {
        Skipped(raw, before, chosen, name);
        continue;
      }
      var prefix := NormalizeModel(name);
      if prefix == "" {
        Skipped(raw, before, chosen, name);
        continue;
      }
      Challenge(raw, before, chosen, name);
      var rank := PriceCandidateRank(name, e);
      if prefix in chosen {
        var ex := PriceCandidateRank(chosen[prefix], raw[chosen[prefix]]);
        if ex >= rank {
          continue;
        }
      }
      chosen := chosen[prefix := name];
    }
    assert names[..|names|] == names;
  }

  lemma FamiliesAreChosen(raw: Raw, chosen: map<string, string>)
    requires Chosen(raw, raw.Keys, chosen)
    ensures chosen.Keys == Families(raw)
  {
    forall p | p in chosen ensures p in Families(raw) {
      assert WinnerOf(raw, raw.Keys, p, chosen[p]);
    }
  }

  lemma ChosenRow(raw: Raw, chosen: map<string, string>, p: string)
    requires Chosen(raw, raw.Keys, chosen) && p in chosen
    ensures Eligible(raw, chosen[p]) && NormalizeModel(chosen[p]) == p
    ensures IsWinnersRow(raw, RowOf(raw, chosen[p]))
  {
    assert WinnerOf(raw, raw.Keys, p, chosen[p]);
  }

  ghost predicate Fits(raw: Raw, prefix: string, row: PriceRow) { row.prefix == prefix && IsWinnersRow(raw, row) }

  lemma Assembled(raw: Raw, prefixes: seq<string>, out: seq<PriceRow>)
    requires Order.Sorted(prefixes) && Order.Elements(prefixes) == Families(raw) && |out| == |prefixes|
    requires forall k | 0 <= k < |out| :: Fits(raw, prefixes[k], out[k])
    ensures Selected(raw, out)
  {
    assert Prefixes(out) == prefixes;
  }

  /** A map's values, collected in map order and then sorted by key. */
  method SortedValues<R>(rows: map<string, R>) returns (keys: seq<string>, out: seq<R>)
    ensures Order.Sorted(keys) && Order.Elements(keys) == rows.Keys && |out| == |keys|
    ensures forall k | 0 <= k < |keys| :: keys[k] in rows && out[k] == rows[keys[k]]
  {
    keys := Order.SortKeys(rows.Keys);
    forall k | 0 <= k < |keys| ensures keys[k] in rows { assert keys[k] in Order.Elements(keys); }
    out := [];
    for i := 0 to |keys|
      invariant |out| == i && forall k | 0 <= k < i :: out[k] == rows[keys[k]]
    {
      out := out + [rows[keys[i]]];
    }
  }

  method SelectPriceRows(raw: Raw) returns (out: seq<PriceRow>)
    ensures Selected(raw, out)
  {
    var chosen := Choose(raw);
    FamiliesAreChosen(raw, chosen);
    forall p | p in chosen ensures Eligible(raw, chosen[p]) { ChosenRow(raw, chosen, p); }
    var rows := map p | p in chosen :: RowOf(raw, chosen[p]);
    var prefixes;
    prefixes, out := SortedValues(rows);
    forall k | 0 <= k < |out| ensures Fits(raw, prefixes[k], out[k]) { ChosenRow(raw, chosen, prefixes[k]); }
    Assembled(raw, prefixes, out);
  }

  // ----- a sync ---------------------------------------------------------------------------------

  /** After the write the offered rates are the active ones. */
  lemma UpsertSettles(t: Table, o: Offer)
    requires Ready(t) && !Collides(t, o)
    ensures Same(Upserted(t, o), o)
  {
    var t' := Upserted(t, o);
    UpsertKeepsAtMostOne(t, o);
    if !Same(t, o) {
      var key := if Placeholder(t, o) then Current(t, o.prefix) else PriceKey(o.prefix, FromOf(t, o));
      assert key in t ==> HasActive(t, o.prefix);
      assert Active(t', key);
    }
  }

  /** A write touches its own prefix only. */
  lemma UpsertElsewhere(t: Table, o: Offer, q: Offer)
    requires AtMostOne(t) && q.prefix != o.prefix && Same(t, q)
    ensures Same(Upserted(t, o), q)
  {
    UpsertKeepsAtMostOne(t, o);
    assert Active(Upserted(t, o), Current(t, q.prefix));
  }

  lemma {:induction false} WritesElsewhere(t: Table, os: seq<Offer>, q: Offer)
    requires AtMostOne(t) && Same(t, q) && forall i | 0 <= i < |os| :: os[i].prefix != q.prefix
    ensures Same(Writes(t, os), q)
    decreases |os|
  {
    if os != [] {
      UpsertElsewhere(t, os[0], q);
      UpsertKeepsAtMostOne(t, os[0]);
      WritesElsewhere(Upserted(t, os[0]), os[1..], q);
    }
  }

  ghost predicate DistinctPrefixes(os: seq<Offer>) {
    forall i, j | 0 <= i < j < |os| :: os[i].prefix != os[j].prefix
  }

  lemma {:induction false} WritesSettle(t: Table, os: seq<Offer>, i: nat)
    requires Ready(t) && FreshWrites(t, os) && DistinctPrefixes(os) && i < |os|
    ensures Same(Writes(t, os), os[i])
    decreases |os|
  {
    StaysReadyIff(t, os[0]);
    var t' := Upserted(t, os[0]);
    if i == 0 {
      UpsertSettles(t, os[0]);
      WritesElsewhere(t', os[1..], os[0]);
    } else {
      WritesSettle(t', os[1..], i - 1);
    }
  }

  lemma {:induction false} SameWritesNothing(t: Table, os: seq<Offer>)
    requires forall i | 0 <= i < |os| :: Same(t, os[i])
    ensures Writes(t, os) == t
    decreases |os|
  {
    if os != [] {
      assert Same(t, os[0]);
      SameWritesNothing(t, os[1..]);
    }
  }

  /** The offers of one sync: each row, dated when it is written. */
  ghost predicate OffersOf(rows: seq<PriceRow>, os: seq<Offer>) {
    |os| == |rows| && forall i | 0 <= i < |rows| ::
      os[i].prefix == rows[i].prefix && os[i].rates == rows[i].rates && os[i].source == rows[i].source
  }

  /** Syncing an unchanged table again writes nothing, at whatever times and in
      whatever order its map was enumerated: prices no longer flip. */
  lemma ResyncWritesNothing(t: Table, raw: Raw, rows: seq<PriceRow>, again: seq<PriceRow>, os: seq<Offer>,
                            os': seq<Offer>)
    requires Ready(t) && Selected(raw, rows) && Selected(raw, again)
    requires OffersOf(rows, os) && OffersOf(again, os') && FreshWrites(t, os)
    ensures Writes(Writes(t, os), os') == Writes(t, os)
  {
    SelectionOrderFree(raw, rows, again);
    forall i, j | 0 <= i < j < |os| ensures os[i].prefix != os[j].prefix {
      assert Order.Below(Prefixes(rows)[i], Prefixes(rows)[j]);
      Order.BelowStrict(os[i].prefix, os[j].prefix);
    }
    forall i | 0 <= i < |os'| ensures Same(Writes(t, os), os'[i]) {
      WritesSettle(t, os, i);
      assert os'[i].prefix == os[i].prefix && os'[i].rates == os[i].rates;
    }
    SameWritesNothing(Writes(t, os), os');
  }

  // ----- a selected row, spelled out ------------------------------------------------------------

  /** The entry can price tokens under a name. */
  predicate Usable(e: Entry) { e.mode in ["", "chat", "completion"] && e.input.Some? && e.output.Some? }

  /** The first entry publishes more of the cache prices, those of writes first, then those
      of one-hour writes, then those of reads; with the same, its name is a bare one. */
  predicate Outranks(a: string, x: Entry, b: string, y: Entry) {
    if x.cacheCreation.Some? != y.cacheCreation.Some? then x.cacheCreation.Some?
    else if x.cacheCreation1h.Some? != y.cacheCreation1h.Some? then x.cacheCreation1h.Some?
    else if x.cacheRead.Some? != y.cacheRead.Some? then x.cacheRead.Some?
    else if Text.Contains(a, "/") != Text.Contains(b, "/") then !Text.Contains(a, "/")
    else a == b || Order.Below(a, b)
  }

  lemma BeatsIs(raw: Raw, a: string, b: string)
    requires a in raw && b in raw
    ensures Beats(raw, a, b) <==> Outranks(a, raw[a], b, raw[b])
  {
  }

  /** Per token prices become prices per million, absent ones zero. */
  ghost predicate RowIs(row: PriceRow, name: string, e: Entry) {
    && Usable(e) && row.source == "litellm:" + name
    && row.rates.input == e.input.value * 1_000_000.0 && row.rates.output == e.output.value * 1_000_000.0
    && row.rates.cacheCreation == (if e.cacheCreation.Some? then e.cacheCreation.value * 1_000_000.0 else 0.0)
    && row.rates.cacheCreation1h == (if e.cacheCreation1h.Some? then e.cacheCreation1h.value * 1_000_000.0 else 0.0)
    && row.rates.cacheRead == (if e.cacheRead.Some? then e.cacheRead.value * 1_000_000.0 else 0.0)
  }

  ghost predicate Best(raw: Raw, row: PriceRow, w: string) {
    && w in raw && NormalizeModel(w) == row.prefix && RowIs(row, w, raw[w])
    && forall n | n in raw && NormalizeModel(n) == row.prefix && Usable(raw[n]) :: Outranks(w, raw[w], n, raw[n])
  }

  /** A selected row is that of the entry that outranks the others of its family. */
  lemma SelectedRow(raw: Raw, rows: seq<PriceRow>, i: nat)
    requires Selected(raw, rows) && i < |rows|
    ensures rows[i].prefix != "" && exists w :: Best(raw, rows[i], w)
  {
    assert IsWinnersRow(raw, rows[i]);
    var w :| WinnerOf(raw, raw.Keys, rows[i].prefix, w) && rows[i] == RowOf(raw, w);
    forall n | n in raw && NormalizeModel(n) == rows[i].prefix && Usable(raw[n])
      ensures Outranks(w, raw[w], n, raw[n])
    {
      assert Competes(raw, rows[i].prefix, n);
      BeatsIs(raw, w, n);
    }
    assert Best(raw, rows[i], w);
  }

  /** Every family with a name and an entry that can price tokens has one. */
  lemma FamilySelected(raw: Raw, rows: seq<PriceRow>, n: string) returns (i: nat)
    requires Selected(raw, rows) && n in raw && Usable(raw[n]) && NormalizeModel(n) != ""
    ensures i < |rows| && rows[i].prefix == NormalizeModel(n)
  {
    assert NormalizeModel(n) in Order.Elements(Prefixes(rows));
    i :| i < |rows| && Prefixes(rows)[i] == NormalizeModel(n);
  }

  // ----- names, spelled out -----------------------------------------------------------------------

  predicate Number(s: string, n: nat) { |s| == n && forall i | 0 <= i < n :: '0' <= s[i] <= '9' }

  /** The text is a date of either form. */
  predicate IsDate(date: string) {
    Number(date, 8)
    || (|date| == 10 && date[4] == '-' && date[7] == '-'
        && Number(date[..4], 4) && Number(date[5..7], 2) && Number(date[8..], 2))
  }

  /** Whatever path leads to a name is dropped. */
  lemma PathDropped(path: string, name: string)
    requires Text.Free(name, '/')
    ensures NormalizeModel(path + "/" + name) == NormalizeModel(name)
  {
    LastAfter(path, name);
    FreeSegment(name);
  }

  lemma FreeSegment(name: string)
    requires Text.Free(name, '/')
    ensures LastSegment(name) == name
  {
    if Text.Index(name, "/") >= 0 { SlashFound(name); }
  }

  lemma SlashFound(s: string)
    requires Text.Index(s, "/") >= 0
    ensures !Text.Free(s, '/')
  {
    var i := Text.Index(s, "/");
    assert s[i..i + 1][0] == s[i];
  }

  lemma {:induction false} LastAfter(path: string, name: string)
    requires Text.Free(name, '/')
    ensures LastSegment(path + "/" + name) == name
    decreases |path|
  {
    var s := path + "/" + name;
    assert s[|path|..|path| + 1] == "/";
    Text.IndexIsFirst(s, "/", |path|);
    var i := Text.Index(s, "/");
    if i == |path| {
      assert s[i + 1..] == name;
      FreeSegment(name);
    } else {
      assert s[i + 1..] == path[i + 1..] + "/" + name;
      LastAfter(path[i + 1..], name);
    }
  }

  lemma DateFree(date: string)
    requires IsDate(date)
    ensures Text.Free(date, '/')
  {
    forall i | 0 <= i < |date| ensures date[i] != '/' {
      if |date| == 10 {
        if i < 4 { assert date[..4][i] == date[i]; }
        if 5 <= i < 7 { assert date[5..7][i - 5] == date[i]; }
        if 8 <= i { assert date[8..][i - 8] == date[i]; }
      }
    }
  }

  /** A date after a dash is dropped. */
  lemma DateDropped(base: string, date: string)
    requires Text.Free(base, '/') && IsDate(date)
    ensures NormalizeModel(base + "-" + date) == base
  {
    var s := base + "-" + date;
    DateFree(date);
    FreeSegment(s);
    var n := |s|;
    if |date| == 8 {
      assert s[n - 6] == date[2] && '0' <= date[2] <= '9';
      assert s[n - 8..] == date && s[..n - 9] == base;
    } else {
      assert s[n - 10..n - 6] == date[..4] && s[n - 5..n - 3] == date[5..7] && s[n - 2..] == date[8..];
      assert s[..n - 11] == base;
    }
  }

  /** Nothing else is. */
  lemma OnlyDates(s: string)
    requires Text.Free(s, '/') && NormalizeModel(s) != s
    ensures exists date :: IsDate(date) && s == NormalizeModel(s) + "-" + date
  {
    FreeSegment(s);
    var n := |s|;
    var date := if EndsDashed(s) then s[n - 10..] else s[n - 8..];
    if EndsDashed(s) {
      assert date[..4] == s[n - 10..n - 6] && date[5..7] == s[n - 5..n - 3] && date[8..] == s[n - 2..];
      assert s == s[..n - 11] + "-" + date;
    } else {
      assert s == s[..n - 9] + "-" + date;
    }
    assert IsDate(date) && s == NormalizeModel(s) + "-" + date;
  }
}
