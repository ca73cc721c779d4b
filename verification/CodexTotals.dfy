/** Cumulative counters turned into per-event charges add back up: on any log the
    charges equal the final counters plus what the counters lost on the way, and
    the same holds of what the server stores. */
module CodexTotals {
  import opened Types
  import opened Codex
  import CodexPatch
  import opened CodexReparse
  import opened Dedup
  import opened GroupSum
  import opened Rollup
  import opened StoreSpec

  /** Sums of the three charged columns. */
  datatype Sums = Sums(input: int, output: int, cacheRead: int)

  function SumOf(recs: seq<UsageRecord>): Sums {
    if recs == [] then Sums(0, 0, 0)
    else
      var s := SumOf(recs[1..]);
      Sums(recs[0].inputTokens + s.input, recs[0].outputTokens + s.output, recs[0].cacheReadTokens + s.cacheRead)
  }

  /** What accepted totals fell by, per counter, and by how much cached input grew
      faster than input. */
  datatype Slack = Slack(input: nat, output: nat, cached: nat, excess: nat)

  function Fall(from: int, to: int): nat { Rise(to, from) }

  function Totals(es: seq<Line>): seq<Counters> {
    if es == [] then []
    else (if es[0].event.TokenCount? then [es[0].event.total] else []) + Totals(es[1..])
  }

  /** The last total the parser takes over. */
  function Settled(prev: Counters, totals: seq<Counters>): Counters
    decreases |totals|
  {
    if totals == [] then prev
    else Settled(if Advances(prev, totals[0]) then totals[0] else prev, totals[1..])
  }

  function SlackOf(prev: Counters, totals: seq<Counters>): Slack
    decreases |totals|
  {
    if totals == [] then Slack(0, 0, 0, 0)
    else
      var t := totals[0];
      if !Advances(prev, t) then SlackOf(prev, totals[1..])
      else
        var s := SlackOf(t, totals[1..]);
        Slack(s.input + Fall(prev.input, t.input), s.output + Fall(prev.output, t.output),
              s.cached + Fall(prev.cached, t.cached),
              s.excess + Rise(Rise(prev.input, t.input), Rise(prev.cached, t.cached)))
  }

  /** Counters that never fall, with cached input growing no faster than input:
      what an undisturbed session writes. */
  predicate Steady(prev: Counters, totals: seq<Counters>)
    decreases |totals|
  {
    totals != [] ==>
      && prev.input <= totals[0].input && prev.output <= totals[0].output
      && prev.cached <= totals[0].cached && prev.reasoning <= totals[0].reasoning
      && totals[0].cached - prev.cached <= totals[0].input - prev.input
      && Steady(totals[0], totals[1..])
  }

  lemma {:induction false} SumAppend(a: seq<UsageRecord>, b: seq<UsageRecord>)
    ensures SumOf(a + b) == Sums(SumOf(a).input + SumOf(b).input, SumOf(a).output + SumOf(b).output,
                                 SumOf(a).cacheRead + SumOf(b).cacheRead)
    decreases |a|
  {
    if a == [] {
      assert a + b == b;
    } else {
      assert (a + b)[1..] == a[1..] + b;
      SumAppend(a[1..], b);
    }
  }

  lemma SumOne(rec: UsageRecord)
    ensures SumOf([rec]) == Sums(rec.inputTokens, rec.outputTokens, rec.cacheReadTokens)
  {
    assert [rec][1..] == [];
  }

  /** One line moves the sums by what the counters moved plus what they lost. */
  lemma StepSums(r: Rollout, st: State, l: Line)
    ensures var st' := Step(r, st, l);
            var s := SlackOf(st.prev, Totals([l]));
            && st'.prev == Settled(st.prev, Totals([l]))
            && SumOf(st'.usage).output == SumOf(st.usage).output + st'.prev.output - st.prev.output + s.output
            && SumOf(st'.usage).cacheRead == SumOf(st.usage).cacheRead + st'.prev.cached - st.prev.cached + s.cached
            && SumOf(st'.usage).input + SumOf(st'.usage).cacheRead
               == SumOf(st.usage).input + SumOf(st.usage).cacheRead
                  + st'.prev.input - st.prev.input + s.input + s.excess
  {
    assert [l][1..] == [];
    if l.event.TokenCount? {
      var t := l.event.total;
      assert Totals([l]) == [t] && [t][1..] == [];
      if Advances(st.prev, t) {
        var rec := Charge(r, st.session, st.model, l.stamp, st.prev, t);
        SumAppend(st.usage, [rec]);
        SumOne(rec);
      }
    }
  }

  lemma {:induction false} SlackAppend(prev: Counters, a: seq<Counters>, b: seq<Counters>)
    ensures Settled(prev, a + b) == Settled(Settled(prev, a), b)
    ensures var x, y, z := SlackOf(prev, a), SlackOf(Settled(prev, a), b), SlackOf(prev, a + b);
            z == Slack(x.input + y.input, x.output + y.output, x.cached + y.cached, x.excess + y.excess)
    decreases |a|
  {
    if a == [] {
      assert a + b == b;
    } else {
      assert (a + b)[1..] == a[1..] + b;
      SlackAppend(if Advances(prev, a[0]) then a[0] else prev, a[1..], b);
    }
  }

  lemma TotalsHead(es: seq<Line>)
    requires es != []
    ensures Totals(es) == Totals([es[0]]) + Totals(es[1..])
  {
    assert [es[0]][1..] == [];
    assert Totals([]) == [];
  }

  /** Telescoping, for every log from every state. */
  lemma {:induction false} Telescopes(r: Rollout, st: State, es: seq<Line>)
    ensures var end, s := Run(r, st, es), SlackOf(st.prev, Totals(es));
            && end.prev == Settled(st.prev, Totals(es))
            && SumOf(end.usage).output == SumOf(st.usage).output + end.prev.output - st.prev.output + s.output
            && SumOf(end.usage).cacheRead == SumOf(st.usage).cacheRead + end.prev.cached - st.prev.cached + s.cached
            && SumOf(end.usage).input + SumOf(end.usage).cacheRead
               == SumOf(st.usage).input + SumOf(st.usage).cacheRead
                  + end.prev.input - st.prev.input + s.input + s.excess
    decreases |es|
  {
    if es != [] {
      StepSums(r, st, es[0]);
      Telescopes(r, Step(r, st, es[0]), es[1..]);
      TotalsHead(es);
      SlackAppend(st.prev, Totals([es[0]]), Totals(es[1..]));
    }
  }

  lemma {:induction false} SteadyHasNoSlack(prev: Counters, totals: seq<Counters>)
    requires Steady(prev, totals)
    ensures SlackOf(prev, totals) == Slack(0, 0, 0, 0)
    ensures totals != [] ==> Settled(prev, totals) == Last(totals)
    decreases |totals|
  {
    if totals != [] {
      assert !Advances(prev, totals[0]) ==> totals[0] == prev;
      SteadyHasNoSlack(totals[0], totals[1..]);
    }
  }

  /** An undisturbed session is charged exactly its final counters. */
  lemma SteadyIsExact(r: Rollout, es: seq<Line>)
    requires Steady(NO_COUNT, Totals(es)) && Totals(es) != []
    ensures var s, last := SumOf(Final(r, es).usage), Last(Totals(es));
            s.output == last.output && s.cacheRead == last.cached && s.input + s.cacheRead == last.input
  {
    Telescopes(r, Codex.Start(r), es);
    SteadyHasNoSlack(NO_COUNT, Totals(es));
  }

  /** The charges equal the last accepted counters exactly when no accepted total
      fell and cached input never outgrew input. */
  lemma ExactIff(r: Rollout, es: seq<Line>)
    ensures var st, s := Final(r, es), SumOf(Final(r, es).usage);
            (s == Sums(st.prev.input - st.prev.cached, st.prev.output, st.prev.cached))
            <==> SlackOf(NO_COUNT, Totals(es)) == Slack(0, 0, 0, 0)
  {
    Telescopes(r, Codex.Start(r), es);
  }

  ghost predicate Charged(rec: UsageRecord) {
    && rec.inputTokens >= 0 && rec.outputTokens >= 0 && rec.cacheReadTokens >= 0
    && rec.cacheCreationTokens == 0 && rec.cacheCreation1hTokens == 0
  }

  /** No charge is ever negative. */
  lemma {:induction false} NeverNegative(r: Rollout, st: State, es: seq<Line>)
    requires forall rec | rec in st.usage :: Charged(rec)
    ensures forall rec | rec in Run(r, st, es).usage :: Charged(rec)
    decreases |es|
  {
    if es != [] {
      var st' := Step(r, st, es[0]);
      forall rec | rec in st'.usage ensures Charged(rec) { }
      NeverNegative(r, st', es[1..]);
    }
  }

  // ----- totals written again --------------------------------------------------------------

  /** No total the parser takes over is below the one before it in any counter. */
  predicate Rising(prev: Counters, totals: seq<Counters>)
    decreases |totals|
  {
    totals != [] ==>
      var next := if Advances(prev, totals[0]) then totals[0] else prev;
      !Advances(next, prev) && Rising(next, totals[1..])
  }

  /** Then the last total taken over is above all that were written. */
  lemma {:induction false} AllBelow(prev: Counters, totals: seq<Counters>)
    requires Rising(prev, totals)
    ensures !Advances(Settled(prev, totals), prev)
    ensures forall t | t in totals :: !Advances(Settled(prev, totals), t)
    decreases |totals|
  {
    if totals != [] {
      AllBelow(if Advances(prev, totals[0]) then totals[0] else prev, totals[1..]);
      assert forall t :: t in totals <==> t == totals[0] || t in totals[1..];
    }
  }

  /** The line writes a total that is in the log already. */
  predicate Repeats(es: seq<Line>, l: Line) { l.event.TokenCount? && l.event.total in Totals(es) }

  lemma SettledTotal(r: Rollout, es: seq<Line>)
    ensures Final(r, es).prev == Settled(NO_COUNT, Totals(es))
  {
    Telescopes(r, Codex.Start(r), es);
  }

  /** Where no total taken over fell, any total written before, the last one or an older
      one, has no effect when it is written again, there or anywhere later. */
  lemma RepeatIgnored(r: Rollout, es: seq<Line>, l: Line, more: seq<Line>)
    requires Rising(NO_COUNT, Totals(es)) && Repeats(es, l)
    ensures Final(r, es + [l] + more) == Final(r, es + more)
  {
    var st := Codex.Start(r);
    AllBelow(NO_COUNT, Totals(es));
    SettledTotal(r, es);
    RunAppend(r, st, es, more);
    RunAppend(r, st, es, [l]);
    RunAppend(r, st, es + [l], more);
    RunOne(r, Final(r, es), l);
  }

  /** After a fall an older total is charged again: of 10 input tokens 5 are billed twice. */
  lemma RepeatCharged(r: Rollout, x: Line, y: Line, l: Line)
    requires x.event == l.event == TokenCount(Counters(10, 0, 0, 0)) && y.event == TokenCount(Counters(5, 0, 1, 0))
    ensures Repeats([x, y], l) && !Rising(NO_COUNT, Totals([x, y]))
    ensures SumOf(Final(r, [x, y]).usage).input == 10 && SumOf(Final(r, [x, y] + [l]).usage).input == 15
  {
    TwoTotals(x, y);
    assert [x.event.total, y.event.total][1..] == [y.event.total];
    TwoSteps(r, x, y, l);
    var st0 := Codex.Start(r);
    StepInput(r, st0, x);
    StepInput(r, Step(r, st0, x), y);
    StepInput(r, Final(r, [x, y]), l);
  }

  lemma TwoTotals(x: Line, y: Line)
    requires x.event.TokenCount? && y.event.TokenCount?
    ensures Totals([x, y]) == [x.event.total, y.event.total]
  {
    assert [x, y][1..] == [y] && [y][1..] == [];
    assert Totals([]) == [];
  }

  /** The input column of one step. */
  lemma StepInput(r: Rollout, st: State, l: Line)
    requires l.event.TokenCount? && Advances(st.prev, l.event.total)
    ensures Step(r, st, l).prev == l.event.total
    ensures SumOf(Step(r, st, l).usage).input
         == SumOf(st.usage).input
            + Max(0, Rise(st.prev.input, l.event.total.input) - Rise(st.prev.cached, l.event.total.cached))
  {
    var rec := Charge(r, st.session, st.model, l.stamp, st.prev, l.event.total);
    SumAppend(st.usage, [rec]);
    SumOne(rec);
  }

  lemma TwoSteps(r: Rollout, x: Line, y: Line, l: Line)
    ensures Final(r, [x, y]) == Step(r, Step(r, Codex.Start(r), x), y)
    ensures Final(r, [x, y] + [l]) == Step(r, Final(r, [x, y]), l)
  {
    var st := Codex.Start(r);
    assert [x] + [y] == [x, y];
    RunOne(r, st, x);
    RunOne(r, Step(r, st, x), y);
    RunAppend(r, st, [x], [y]);
    RunOne(r, Final(r, [x, y]), l);
    RunAppend(r, st, [x, y], [l]);
  }

  /** Whatever total of the log is written again, and wherever, it changes nothing. */
  ghost predicate RepeatsIgnored(r: Rollout, es: seq<Line>) {
    forall n, l | 0 <= n <= |es| && Repeats(es[..n], l) :: Step(r, Final(r, es[..n]), l) == Final(r, es[..n])
  }

  predicate IsCount(t: Counters) { t.input >= 0 && t.output >= 0 && t.cached >= 0 && t.reasoning >= 0 }

  /** Repeated totals are harmless exactly when no total taken over fell. */
  lemma RepeatsIgnoredIff(r: Rollout, es: seq<Line>)
    requires forall t | t in Totals(es) :: IsCount(t)
    ensures RepeatsIgnored(r, es) <==> Rising(NO_COUNT, Totals(es))
  {
    if Rising(NO_COUNT, Totals(es)) {
      forall n, l | 0 <= n <= |es| && Repeats(es[..n], l)
        ensures Step(r, Final(r, es[..n]), l) == Final(r, es[..n])
      {
        assert es[..n] + es[n..] == es;
        EarlyRepeat(r, es[..n], es[n..], l);
      }
    } else {
      var n, l := FallRepeated(es);
      SettledTotal(r, es[..n]);
      assert Step(r, Final(r, es[..n]), l).prev != Final(r, es[..n]).prev;
    }
  }

  lemma EarlyRepeat(r: Rollout, es: seq<Line>, more: seq<Line>, l: Line)
    requires Rising(NO_COUNT, Totals(es + more)) && Repeats(es, l)
    ensures !Advances(Final(r, es).prev, l.event.total)
  {
    TotalsAppend(es, more);
    RisingPrefix(NO_COUNT, Totals(es), Totals(more));
    AllBelow(NO_COUNT, Totals(es));
    SettledTotal(r, es);
  }

  lemma {:induction false} TotalsAppend(a: seq<Line>, b: seq<Line>)
    ensures Totals(a + b) == Totals(a) + Totals(b)
    decreases |a|
  {
    if a == [] {
      assert a + b == b;
    } else {
      assert (a + b)[1..] == a[1..] + b && (a + b)[0] == a[0];
      TotalsAppend(a[1..], b);
      TotalsHead(a);
      TotalsHead(a + b);
      CodexPatch.Assoc(Totals([a[0]]), Totals(a[1..]), Totals(b));
    }
  }

  lemma {:induction false} RisingPrefix(prev: Counters, a: seq<Counters>, b: seq<Counters>)
    ensures Rising(prev, a + b) <==> Rising(prev, a) && Rising(Settled(prev, a), b)
    decreases |a|
  {
    if a == [] {
      assert a + b == b;
    } else {
      assert (a + b)[1..] == a[1..] + b;
      RisingPrefix(if Advances(prev, a[0]) then a[0] else prev, a[1..], b);
    }
  }

  lemma {:induction false} SettledWritten(prev: Counters, totals: seq<Counters>)
    ensures Settled(prev, totals) == prev || Settled(prev, totals) in totals
    decreases |totals|
  {
    if totals != [] {
      SettledWritten(if Advances(prev, totals[0]) then totals[0] else prev, totals[1..]);
      assert totals[0] in totals && forall t | t in totals[1..] :: t in totals;
    }
  }

  /** Where a total fell, the one before it, written again behind it, is charged. */
  lemma {:induction false} FallRepeated(es: seq<Line>) returns (n: nat, l: Line)
    requires !Rising(NO_COUNT, Totals(es)) && forall t | t in Totals(es) :: IsCount(t)
    ensures n <= |es| && Repeats(es[..n], l) && Advances(Settled(NO_COUNT, Totals(es[..n])), l.event.total)
    decreases |es|
  {
    assert Totals([]) == [];
    assert es != [];
    var init, last := es[..|es| - 1], es[|es| - 1];
    assert init + [last] == es;
    TotalsAppend(init, [last]);
    RisingPrefix(NO_COUNT, Totals(init), Totals([last]));
    if Rising(NO_COUNT, Totals(init)) {
      n := |es|;
      l := LastFell(init, last);
      assert es[..n] == es;
    } else {
      n, l := FallRepeated(init);
      assert es[..n] == init[..n];
    }
  }

  lemma LastFell(init: seq<Line>, last: Line) returns (l: Line)
    requires !Rising(Settled(NO_COUNT, Totals(init)), Totals([last]))
    requires Totals(init + [last]) == Totals(init) + Totals([last])
    requires forall t | t in Totals(init + [last]) :: IsCount(t)
    ensures Repeats(init + [last], l) && Advances(Settled(NO_COUNT, Totals(init + [last])), l.event.total)
  {
    var prev := Settled(NO_COUNT, Totals(init));
    assert [last][1..] == [] && Totals([]) == [];
    assert last.event.TokenCount?;
    var t := last.event.total;
    assert Totals([last]) == [t] && [t][1..] == [];
    assert Advances(prev, t) && Advances(t, prev);
    SlackAppend(NO_COUNT, Totals(init), [t]);
    SettledWritten(NO_COUNT, Totals(init));
    assert t in Totals(init + [last]);
    l := Line("", TokenCount(prev));
  }

  // ----- the same sums at the server ------------------------------------------------------

  /** `SELECT session_id, SUM(...) FROM usage_detail GROUP BY session_id`. */
  function SessionView(): View<UsageRow, string, Tokens> {
    View((row: UsageRow) => row.sessionId, (row: UsageRow) => row.tokens, Plus, NO_TOKENS)
  }

  lemma SessionLawful()
    ensures Lawful(SessionView())
  {
    var v := SessionView();
    forall a: Tokens, b: Tokens, c: Tokens {:trigger At(a, b, c)}
      ensures v.add(a, b) == v.add(b, a)
      ensures v.add(v.add(a, b), c) == v.add(a, v.add(b, c))
      ensures v.add(a, v.zero) == a
    {
    }
  }

  predicate SameId(recs: seq<UsageRecord>, rec: UsageRecord) {
    exists i | 0 <= i < |recs| :: recs[i].messageId == rec.messageId
  }

  /** The records under an id that comes for the first time. */
  function Firsts(recs: seq<UsageRecord>): seq<UsageRecord> {
    if recs == [] then []
    else
      var rest, last := recs[..|recs| - 1], recs[|recs| - 1];
      Firsts(rest) + if SameId(rest, last) then [] else [last]
  }

  /** The others, which the primary key drops. */
  function Again(recs: seq<UsageRecord>): seq<UsageRecord> {
    if recs == [] then []
    else
      var rest, last := recs[..|recs| - 1], recs[|recs| - 1];
      Again(rest) + if SameId(rest, last) then [last] else []
  }

  lemma {:induction false} FirstsAndAgain(recs: seq<UsageRecord>)
    ensures var a, b, c := SumOf(Firsts(recs)), SumOf(Again(recs)), SumOf(recs);
            c == Sums(a.input + b.input, a.output + b.output, a.cacheRead + b.cacheRead)
    decreases |recs|
  {
    if recs != [] {
      var rest, last := recs[..|recs| - 1], recs[|recs| - 1];
      assert recs == rest + [last];
      FirstsAndAgain(rest);
      SumAppend(rest, [last]);
      if SameId(rest, last) {
        assert Firsts(rest) + [] == Firsts(rest);
        SumAppend(Again(rest), [last]);
      } else {
        assert Again(rest) + [] == Again(rest);
        SumAppend(Firsts(rest), [last]);
      }
    }
  }

  /** What the session's records of `recs` are stored as, added up. */
  ghost function StoredSum(recs: seq<UsageRecord>): Tokens {
    Tokens(SumOf(recs).input, SumOf(recs).output, 0, 0, SumOf(recs).cacheRead)
  }

  lemma OneRow(u: string, m: string, rec: UsageRecord)
    requires rec.messageId != ""
    ensures UsageRows(u, m, [rec]) == [UsageRowOf(u, m, rec)]
  {
    assert [rec][1..] == [];
    assert UsageRows(u, m, []) == [];
  }

  lemma {:induction false} RowKeys(u: string, m: string, recs: seq<UsageRecord>, k: UsageKey)
    requires k in KeysOf(UsageRows(u, m, recs))
    ensures exists i :: 0 <= i < |recs| && k.messageId == recs[i].messageId
    decreases |recs|
  {
    if recs != [] {
      var head := if recs[0].messageId == "" then [] else [UsageRowOf(u, m, recs[0])];
      KeysAppend(head, UsageRows(u, m, recs[1..]));
      if k in KeysOf(UsageRows(u, m, recs[1..])) {
        RowKeys(u, m, recs[1..], k);
        var i :| 0 <= i < |recs[1..]| && k.messageId == recs[1..][i].messageId;
        assert recs[i + 1] == recs[1..][i];
      } else {
        assert k == UsageRowOf(u, m, recs[0]).0;
      }
    }
  }

  lemma AbsorbOne<K, V>(t: map<K, V>, p: (K, V))
    requires p.0 !in t
    ensures Absorb(t, [p]) == t[p.0 := p.1]
  {
    assert [p][1..] == [];
  }

  /** The records are charges of one session unknown to the table. */
  ghost predicate NewCharges(t: Detail, recs: seq<UsageRecord>, session: string) {
    forall rec | rec in recs :: IsNewCharge(t, rec, session)
  }

  ghost predicate IsNewCharge(t: Detail, rec: UsageRecord, session: string) {
    && rec.messageId != "" && rec.requestId == "" && rec.sessionId == session && Charged(rec)
    && forall key | key in t :: rec.messageId != key.messageId
  }

  ghost predicate SumsUp(t: Detail, u: string, m: string, recs: seq<UsageRecord>, session: string) {
    Total(SessionView(), Absorb(t, UsageRows(u, m, recs)), session)
      == Plus(Total(SessionView(), t, session), StoredSum(Firsts(recs)))
  }

  /** Of the records of one session the first of each id are stored, and sum to their sums. */
  lemma {:induction false} StoredSums(t: Detail, u: string, m: string, recs: seq<UsageRecord>, session: string)
    requires NewCharges(t, recs, session)
    ensures SumsUp(t, u, m, recs, session)
    decreases |recs|
  {
    if recs == [] {
      NoneStored(t, u, m, session);
    } else {
      var rest, last := recs[..|recs| - 1], recs[|recs| - 1];
      NewChargesInit(t, recs, session);
      StoredSums(t, u, m, rest, session);
      OneMore(t, u, m, rest, last, session);
    }
  }

  lemma OneMore(t: Detail, u: string, m: string, rest: seq<UsageRecord>, last: UsageRecord, session: string)
    requires NewCharges(t, rest, session) && IsNewCharge(t, last, session) && SumsUp(t, u, m, rest, session)
    ensures SumsUp(t, u, m, rest + [last], session)
  {
    FirstsLast(rest, last);
    if SameId(rest, last) {
      LastDropped(t, u, m, rest, last, session);
    } else {
      OneMoreStored(t, u, m, rest, last, session);
    }
  }

  function ColumnsOf(rec: UsageRecord): Tokens { Tokens(rec.inputTokens, rec.outputTokens, 0, 0, rec.cacheReadTokens) }

  lemma OneMoreStored(t: Detail, u: string, m: string, rest: seq<UsageRecord>, last: UsageRecord, session: string)
    requires IsNewCharge(t, last, session) && !SameId(rest, last) && SumsUp(t, u, m, rest, session)
    ensures SumsUp(t, u, m, rest + [last], session)
  {
    var v, rows, rows' := SessionView(), UsageRows(u, m, rest), UsageRows(u, m, rest + [last]);
    LastStored(t, u, m, rest, last, session);
    SumLast(Firsts(rest), last);
    FirstsLast(rest, last);
    PlusMore(Total(v, t, session), StoredSum(Firsts(rest)), ColumnsOf(last),
             Total(v, Absorb(t, rows), session), Total(v, Absorb(t, rows'), session), StoredSum(Firsts(rest + [last])));
  }

  lemma PlusMore(base: Tokens, sum: Tokens, more: Tokens, before: Tokens, after: Tokens, sum': Tokens)
    requires before == Plus(base, sum) && after == Plus(before, more) && sum' == Plus(sum, more)
    ensures after == Plus(base, sum')
  {
  }

  lemma FirstsLast(rest: seq<UsageRecord>, last: UsageRecord)
    ensures Firsts(rest + [last]) == if SameId(rest, last) then Firsts(rest) else Firsts(rest) + [last]
  {
    var recs := rest + [last];
    assert recs[..|recs| - 1] == rest;
    assert Firsts(rest) + [] == Firsts(rest);
  }

  lemma NoneStored(t: Detail, u: string, m: string, session: string)
    ensures SumsUp(t, u, m, [], session)
  {
    assert UsageRows(u, m, []) == [];
    assert Absorb(t, UsageRows(u, m, [])) == t;
  }

  lemma NewChargesInit(t: Detail, recs: seq<UsageRecord>, session: string)
    requires NewCharges(t, recs, session) && recs != []
    ensures var rest, last := recs[..|recs| - 1], recs[|recs| - 1];
            && recs == rest + [last] && NewCharges(t, rest, session) && IsNewCharge(t, last, session)
  {
    var rest, last := recs[..|recs| - 1], recs[|recs| - 1];
    assert recs == rest + [last] && last in recs;
    forall rec | rec in rest ensures IsNewCharge(t, rec, session) { assert rec in recs; }
  }

  lemma SumLast(recs: seq<UsageRecord>, last: UsageRecord)
    ensures StoredSum(recs + [last])
         == Plus(StoredSum(recs), ColumnsOf(last))
  {
    SumAppend(recs, [last]);
    SumOne(last);
  }

  lemma LastDropped(t: Detail, u: string, m: string, rest: seq<UsageRecord>, last: UsageRecord, session: string)
    requires NewCharges(t, rest, session) && IsNewCharge(t, last, session) && SameId(rest, last)
    ensures Absorb(t, UsageRows(u, m, rest + [last])) == Absorb(t, UsageRows(u, m, rest))
  {
    var before, row := Absorb(t, UsageRows(u, m, rest)), UsageRowOf(u, m, last);
    var i :| 0 <= i < |rest| && rest[i].messageId == last.messageId;
    assert rest[i] in rest;
    KeyOfRecord(u, m, rest, i);
    UsageRowsAppend(u, m, rest, [last]);
    OneRow(u, m, last);
    AbsorbAppend(t, UsageRows(u, m, rest), [row]);
    AbsorbGrows(t, UsageRows(u, m, rest));
    assert row.0 in before && [row][1..] == [];
  }

  lemma {:induction false} KeyOfRecord(u: string, m: string, recs: seq<UsageRecord>, i: nat)
    requires i < |recs| && recs[i].messageId != ""
    ensures UsageKey(recs[i].messageId, recs[i].requestId) in KeysOf(UsageRows(u, m, recs))
    decreases |recs|
  {
    var head := if recs[0].messageId == "" then [] else [UsageRowOf(u, m, recs[0])];
    KeysAppend(head, UsageRows(u, m, recs[1..]));
    if i == 0 {
      assert head[0].0 in KeysOf(head);
    } else {
      assert recs[1..][i - 1] == recs[i];
      KeyOfRecord(u, m, recs[1..], i - 1);
    }
  }

  lemma LastStored(t: Detail, u: string, m: string, rest: seq<UsageRecord>, last: UsageRecord, session: string)
    requires IsNewCharge(t, last, session) && !SameId(rest, last)
    ensures var before, after := Absorb(t, UsageRows(u, m, rest)), Absorb(t, UsageRows(u, m, rest + [last]));
            Total(SessionView(), after, session)
            == Plus(Total(SessionView(), before, session), ColumnsOf(last))
  {
    var before, row := Absorb(t, UsageRows(u, m, rest)), UsageRowOf(u, m, last);
    UsageRowsAppend(u, m, rest, [last]);
    OneRow(u, m, last);
    AbsorbAppend(t, UsageRows(u, m, rest), [row]);
    AbsorbGrows(t, UsageRows(u, m, rest));
    if row.0 in KeysOf(UsageRows(u, m, rest)) {
      RowKeys(u, m, rest, row.0);
    }
    AbsorbOne(before, row);
    SessionLawful();
    TotalInsert(SessionView(), before, row.0, row.1, session);
  }

  // ----- stamps ----------------------------------------------------------------------------

  /** The stamps of the lines that are charged. */
  function Stamps(prev: Counters, es: seq<Line>): seq<string>
    decreases |es|
  {
    if es == [] then []
    else
      var e := es[0].event;
      if e.TokenCount? && Advances(prev, e.total) then [es[0].stamp] + Stamps(e.total, es[1..])
      else Stamps(prev, es[1..])
  }

  ghost predicate Distinct(stamps: seq<string>) { forall i, j | 0 <= i < j < |stamps| :: stamps[i] != stamps[j] }

  function IdOf(session: string, stamp: string): string { "cdx_" + session + "_" + stamp }

  lemma IdInjective(session: string, a: string, b: string)
    ensures IdOf(session, a) == IdOf(session, b) <==> a == b
    ensures "cdx_" <= IdOf(session, a)
  {
    var head := "cdx_" + session + "_";
    assert IdOf(session, a)[|head|..] == a && IdOf(session, b)[|head|..] == b;
    assert IdOf(session, a) == "cdx_" + (session + "_" + a);
  }

  /** The record was made from the stamp. */
  predicate Made(session: string, rec: UsageRecord, stamp: string) {
    rec.messageId == IdOf(session, stamp) && rec.requestId == "" && rec.sessionId == session
  }

  predicate AllMade(session: string, recs: seq<UsageRecord>, stamps: seq<string>) {
    |recs| == |stamps| && forall i | 0 <= i < |recs| :: Made(session, recs[i], stamps[i])
  }

  /** Every charge carries the session id and an id made of it and its stamp. */
  lemma {:induction false} ChargesMade(r: Rollout, st: State, es: seq<Line>, stamps: seq<string>)
    requires st.session == r.session != "" && AllMade(r.session, st.usage, stamps)
    ensures AllMade(r.session, Run(r, st, es).usage, stamps + Stamps(st.prev, es))
    decreases |es|
  {
    if es == [] {
      assert stamps + [] == stamps;
    } else {
      var e, st' := es[0].event, Step(r, st, es[0]);
      if e.TokenCount? && Advances(st.prev, e.total) {
        assert stamps + [es[0].stamp] + Stamps(e.total, es[1..]) == stamps + Stamps(st.prev, es);
        ChargesMade(r, st', es[1..], stamps + [es[0].stamp]);
      } else {
        ChargesMade(r, st', es[1..], stamps);
      }
    }
  }

  /** Distinct stamps make distinct ids. */
  lemma {:induction false} DistinctMeansFirst(session: string, recs: seq<UsageRecord>, stamps: seq<string>)
    requires AllMade(session, recs, stamps)
    ensures Again(recs) == [] <==> Distinct(stamps)
    decreases |recs|
  {
    if recs != [] {
      var n := |recs| - 1;
      var rest, last := recs[..n], recs[n];
      DistinctMeansFirst(session, rest, stamps[..n]);
      forall i | 0 <= i < n ensures recs[i].messageId == last.messageId <==> stamps[i] == stamps[n] {
        assert Made(session, recs[i], stamps[i]) && Made(session, last, stamps[n]);
        IdInjective(session, stamps[i], stamps[n]);
      }
      assert SameId(rest, last) <==> exists i | 0 <= i < n :: stamps[i] == stamps[n] by {
        assert forall i | 0 <= i < n :: rest[i] == recs[i];
      }
      assert Distinct(stamps) <==> Distinct(stamps[..n]) && !exists i | 0 <= i < n :: stamps[i] == stamps[n];
    }
  }

  /** For a session the server does not know, the totals it reports are those of the log
      less the charges under a stamp that was charged before. */
  lemma ServerTotals(r: Rollout, es: seq<Line>, t: Detail, u: string, m: string)
    requires r.session != ""
    requires forall key | key in t :: t[key].sessionId != r.session
    requires forall rec, key | rec in Final(r, es).usage && key in t :: rec.messageId != key.messageId
    ensures var end, s := Final(r, es), SlackOf(NO_COUNT, Totals(es));
            var total := Total(SessionView(), Absorb(t, UsageRows(u, m, end.usage)), r.session);
            var lost := SumOf(Again(end.usage));
            && total.output == end.prev.output + s.output - lost.output
            && total.cacheRead == end.prev.cached + s.cached - lost.cacheRead
            && total.input + total.cacheRead == end.prev.input + s.input + s.excess - lost.input - lost.cacheRead
            && total.cacheCreation == 0 && total.cacheCreation1h == 0
  {
    var end := Final(r, es);
    Telescopes(r, Codex.Start(r), es);
    FirstsAndAgain(end.usage);
    FinalCharges(r, es, t);
    StoredSums(t, u, m, end.usage, r.session);
    SessionLawful();
    TotalEmpty(SessionView(), t, r.session);
  }

  lemma FinalCharges(r: Rollout, es: seq<Line>, t: Detail)
    requires r.session != ""
    requires forall rec, key | rec in Final(r, es).usage && key in t :: rec.messageId != key.messageId
    ensures NewCharges(t, Final(r, es).usage, r.session)
    ensures AllMade(r.session, Final(r, es).usage, Stamps(NO_COUNT, es))
  {
    var recs, stamps := Final(r, es).usage, Stamps(NO_COUNT, es);
    NeverNegative(r, Codex.Start(r), es);
    ChargesMade(r, Codex.Start(r), es, []);
    assert [] + stamps == stamps;
    forall rec | rec in recs ensures IsNewCharge(t, rec, r.session) {
      var i :| 0 <= i < |recs| && recs[i] == rec;
      assert Made(r.session, recs[i], stamps[i]);
      IdInjective(r.session, stamps[i], stamps[i]);
    }
  }

  /** Nothing is lost that way if and only if no two charged lines carry one stamp. */
  lemma StampsKeepAllIff(r: Rollout, es: seq<Line>)
    requires r.session != ""
    ensures Again(Final(r, es).usage) == [] <==> Distinct(Stamps(NO_COUNT, es))
  {
    FinalCharges(r, es, map[]);
    DistinctMeansFirst(r.session, Final(r, es).usage, Stamps(NO_COUNT, es));
  }
}
