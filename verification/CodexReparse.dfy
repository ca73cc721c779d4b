/** Why sending the whole file again is harmless: a longer parse extends a shorter
    one, up to the server's dedup by key, and exactly when the session id does not
    change under way. */
module CodexReparse {
  import opened Types
  import opened TailScan
  import opened Text
  import opened CodexPatch
  import opened Codex
  import opened Dedup
  import opened Rollup
  import opened StoreSpec
  import Order
  import Delivery
  import Rescan

  // ----- the state only grows -----------------------------------------------------

  ghost predicate Grown(a: State, b: State) {
    && a.usage <= b.usage && a.patches <= b.patches && a.patchOk <= b.patchOk
    && (a.session != "" ==> b.session == a.session)
  }

  lemma GrownTransitive(a: State, b: State, c: State)
    requires Grown(a, b) && Grown(b, c)
    ensures Grown(a, c)
  {
  }

  lemma {:induction false} RunGrows(r: Rollout, st: State, es: seq<Line>)
    ensures Grown(st, Run(r, st, es))
    decreases |es|
  {
    if es != [] {
      RunGrows(r, Step(r, st, es[0]), es[1..]);
      GrownTransitive(st, Step(r, st, es[0]), Run(r, st, es));
    }
  }

  lemma PrefixGrows(r: Rollout, es: seq<Line>, fs: seq<Line>)
    requires es <= fs
    ensures Grown(Final(r, es), Final(r, fs))
  {
    assert fs == es + fs[|es|..];
    RunAppend(r, Codex.Start(r), es, fs[|es|..]);
    RunGrows(r, Final(r, es), fs[|es|..]);
  }

  // ----- event ids name one file of one call ----------------------------------------

  lemma {:induction false} ItoaDigits(n: nat)
    ensures Free(Itoa(n), '#') && Itoa(n) != ""
    decreases n
  {
    if n >= 10 { ItoaDigits(n / 10); }
  }

  lemma {:induction false} ItoaInjective(a: nat, b: nat)
    requires Itoa(a) == Itoa(b)
    ensures a == b
    decreases a
  {
    ItoaDigits(a / 10);
    ItoaDigits(b / 10);
    if a >= 10 && b >= 10 {
      var s := Itoa(a);
      assert s[..|s| - 1] == Itoa(a / 10) == Itoa(b / 10);
      ItoaInjective(a / 10, b / 10);
      assert s[|s| - 1] == (a % 10) as char + '0' == (b % 10) as char + '0';
    }
  }

  lemma EventIdInjective(c: string, i: nat, d: string, j: nat)
    requires EventId(c, i) == EventId(d, j)
    ensures c == d && i == j
  {
    ItoaDigits(i);
    ItoaDigits(j);
    SameLength(c, i, d, j);
    SameLength(d, j, c, i);
    var s := EventId(c, i);
    assert s[..|c|] == c && s[..|d|] == d;
    assert s[|c| + 1..] == Itoa(i) && s[|d| + 1..] == Itoa(j);
    ItoaInjective(i, j);
  }

  /** The last '#' is where the index starts. */
  lemma SameLength(c: string, i: nat, d: string, j: nat)
    requires EventId(c, i) == EventId(d, j) && Free(Itoa(i), '#')
    ensures |d| <= |c|
  {
    var s := EventId(c, i);
    assert s[|d|] == '#';
    assert forall k | |c| < k < |s| :: s[k] == Itoa(i)[k - |c| - 1];
  }

  // ----- edits under growth -----------------------------------------------------------

  ghost function Rows(u: string, m: string, edits: seq<EditRecord>): seq<(string, EditRow)> { EditRows(u, m, edits) }

  ghost predicate Owned(key: string, calls: set<string>) { exists c, i: nat :: c in calls && key == EventId(c, i) }

  lemma {:induction false} PatchKeys(r: Rollout, session: string, p: Patch, n: nat, u: string, m: string, k: string)
    requires n <= |p.files| && k in KeysOf(Rows(u, m, PatchEdits(r, session, p, n)))
    ensures exists i: nat :: k == EventId(p.callId, i)
    decreases n
  {
    if n > 0 {
      var last := [EditOf(r, session, p, n - 1)];
      EditRowsAppend(u, m, PatchEdits(r, session, p, n - 1), last);
      KeysAppend(Rows(u, m, PatchEdits(r, session, p, n - 1)), Rows(u, m, last));
      if k in KeysOf(Rows(u, m, PatchEdits(r, session, p, n - 1))) {
        PatchKeys(r, session, p, n - 1, u, m, k);
      } else {
        assert last[1..] == [];
        assert k == EventId(p.callId, n - 1);
      }
    }
  }

  /** The part of the edits that the first patch contributes. */
  function Head(r: Rollout, session: string, p: Patch, ok: set<string>): seq<EditRecord> {
    if p.callId in ok then PatchEdits(r, session, p, |p.files|) else []
  }

  lemma {:induction false} EditKeys(r: Rollout, session: string, patches: seq<Patch>, ok: set<string>, u: string,
                                    m: string, k: string)
    requires k in KeysOf(Rows(u, m, Edits(r, session, patches, ok)))
    ensures Owned(k, ok)
    decreases |patches|
  {
    if patches != [] {
      var head, rest := Head(r, session, patches[0], ok), Edits(r, session, patches[1..], ok);
      EditRowsAppend(u, m, head, rest);
      KeysAppend(Rows(u, m, head), Rows(u, m, rest));
      if k in KeysOf(Rows(u, m, rest)) {
        EditKeys(r, session, patches[1..], ok, u, m, k);
      } else {
        PatchKeys(r, session, patches[0], |patches[0].files|, u, m, k);
      }
    }
  }

  lemma FirstAppend<K, V>(a: seq<(K, V)>, b: seq<(K, V)>)
    ensures First(a + b) == First(b) + First(a)
    ensures First(a).Keys == KeysOf(a)
  {
    AbsorbAppend(map[], a, b);
    AbsorbIsFirst(First(a), b);
    AbsorbGrows(map[], a);
  }

  /** A call confirmed later adds events in the middle of the list, but under keys
      that no other call uses: what was first under a key stays first. */
  lemma {:induction false} MoreConfirmed(r: Rollout, session: string, patches: seq<Patch>, ok: set<string>,
                                         ok': set<string>, u: string, m: string)
    requires ok <= ok'
    ensures Within(First(Rows(u, m, Edits(r, session, patches, ok))),
                   First(Rows(u, m, Edits(r, session, patches, ok'))))
    decreases |patches|
  {
    if patches != [] {
      var p := patches[0];
      var a, b := Edits(r, session, patches[1..], ok), Edits(r, session, patches[1..], ok');
      var h, h' := Head(r, session, p, ok), Head(r, session, p, ok');
      MoreConfirmed(r, session, patches[1..], ok, ok', u, m);
      EditRowsAppend(u, m, h, a);
      EditRowsAppend(u, m, h', b);
      FirstAppend(Rows(u, m, h), Rows(u, m, a));
      FirstAppend(Rows(u, m, h'), Rows(u, m, b));
      if p.callId !in ok {
        forall k | k in First(Rows(u, m, a)) ensures k !in First(Rows(u, m, h')) {
          Foreign(r, session, patches, ok, ok', u, m, k);
        }
      }
    }
  }

  lemma Foreign(r: Rollout, session: string, patches: seq<Patch>, ok: set<string>, ok': set<string>, u: string,
                m: string, k: string)
    requires patches != [] && patches[0].callId !in ok
    requires k in First(Rows(u, m, Edits(r, session, patches[1..], ok)))
    ensures k !in First(Rows(u, m, Head(r, session, patches[0], ok')))
  {
    var p, a := patches[0], Edits(r, session, patches[1..], ok);
    var h := Head(r, session, p, ok');
    AbsorbGrows(map[], Rows(u, m, a));
    AbsorbGrows(map[], Rows(u, m, h));
    EditKeys(r, session, patches[1..], ok, u, m, k);
    var c, i: nat :| c in ok && k == EventId(c, i);
    if k in KeysOf(Rows(u, m, PatchEdits(r, session, p, |p.files|))) {
      PatchKeys(r, session, p, |p.files|, u, m, k);
      var j: nat :| k == EventId(p.callId, j);
      EventIdInjective(c, i, p.callId, j);
    }
  }

  lemma {:induction false} EditsAppend(r: Rollout, session: string, a: seq<Patch>, b: seq<Patch>, ok: set<string>)
    ensures Edits(r, session, a + b, ok) == Edits(r, session, a, ok) + Edits(r, session, b, ok)
    decreases |a|
  {
    if a == [] {
      assert a + b == b;
    } else {
      assert (a + b)[1..] == a[1..] + b;
      EditsAppend(r, session, a[1..], b, ok);
      Assoc(Head(r, session, a[0], ok), Edits(r, session, a[1..], ok), Edits(r, session, b, ok));
    }
  }

  /** The first edit under each event id never changes while the session id stays. */
  lemma EditsConverge(r: Rollout, a: State, b: State, u: string, m: string)
    requires Grown(a, b) && a.session == b.session
    ensures Within(First(Rows(u, m, ResultOf(r, a).edits)), First(Rows(u, m, ResultOf(r, b).edits)))
  {
    var more := b.patches[|a.patches|..];
    assert b.patches == a.patches + more;
    MoreConfirmed(r, a.session, a.patches, a.patchOk, b.patchOk, u, m);
    EditsAppend(r, a.session, a.patches, more, b.patchOk);
    var x, y := Edits(r, a.session, a.patches, b.patchOk), Edits(r, a.session, more, b.patchOk);
    EditRowsAppend(u, m, x, y);
    PrefixWithin(Rows(u, m, x), Rows(u, m, x) + Rows(u, m, y));
  }

  // ----- exactly when ----------------------------------------------------------------

  lemma {:induction false} EditsCarrySession(r: Rollout, session: string, patches: seq<Patch>, ok: set<string>,
                                             e: EditRecord)
    requires e in Edits(r, session, patches, ok)
    ensures e.sessionId == session && e.eventId != ""
    decreases |patches|
  {
    if patches != [] {
      if e in Edits(r, session, patches[1..], ok) {
        EditsCarrySession(r, session, patches[1..], ok, e);
      } else {
        PatchCarriesSession(r, session, patches[0], |patches[0].files|, e);
      }
    }
  }

  lemma {:induction false} PatchCarriesSession(r: Rollout, session: string, p: Patch, n: nat, e: EditRecord)
    requires n <= |p.files| && e in PatchEdits(r, session, p, n)
    ensures e.sessionId == session && e.eventId != ""
    decreases n
  {
    if n > 0 && e in PatchEdits(r, session, p, n - 1) {
      PatchCarriesSession(r, session, p, n - 1, e);
    }
  }

  lemma {:induction false} RowsCarrySession(u: string, m: string, edits: seq<EditRecord>, session: string,
                                            row: (string, EditRow))
    requires row in Rows(u, m, edits) && forall e | e in edits :: e.sessionId == session
    ensures row.1.sessionId == session
    decreases |edits|
  {
    assert edits != [];
    assert edits[0] in edits;
    if row in Rows(u, m, edits[1..]) {
      RowsCarrySession(u, m, edits[1..], session, row);
    }
  }

  lemma StoredSession(r: Rollout, st: State, u: string, m: string, k: string)
    requires k in First(Rows(u, m, ResultOf(r, st).edits))
    ensures First(Rows(u, m, ResultOf(r, st).edits))[k].sessionId == st.session
  {
    var edits := ResultOf(r, st).edits;
    AbsorbGrows(map[], Rows(u, m, edits));
    forall e | e in edits ensures e.sessionId == st.session {
      EditsCarrySession(r, st.session, st.patches, st.patchOk, e);
    }
    RowsCarrySession(u, m, edits, st.session, (k, First(Rows(u, m, edits))[k]));
  }

  /** Some edit is stored as soon as there is one. */
  lemma FirstEditStored(r: Rollout, st: State, u: string, m: string)
    requires ResultOf(r, st).edits != []
    ensures ResultOf(r, st).edits[0].eventId in First(Rows(u, m, ResultOf(r, st).edits))
  {
    var edits := ResultOf(r, st).edits;
    assert edits[0] in edits;
    EditsCarrySession(r, st.session, st.patches, st.patchOk, edits[0]);
    AbsorbGrows(map[], Rows(u, m, edits));
    assert EditRowOf(u, m, edits[0]) in Rows(u, m, edits);
  }

  /** Of two parses of a growing log the longer keeps the shorter one's stored
      edits if and only if there were none or the session id has not changed. */
  lemma EditsConvergeIff(r: Rollout, es: seq<Line>, fs: seq<Line>, u: string, m: string)
    requires es <= fs
    ensures var a, b := Final(r, es), Final(r, fs);
            Within(First(Rows(u, m, ResultOf(r, a).edits)), First(Rows(u, m, ResultOf(r, b).edits)))
            <==> (ResultOf(r, a).edits == [] || a.session == b.session)
  {
    PrefixGrows(r, es, fs);
    var a, b := Final(r, es), Final(r, fs);
    var x, y := First(Rows(u, m, ResultOf(r, a).edits)), First(Rows(u, m, ResultOf(r, b).edits));
    if a.session == b.session {
      EditsConverge(r, a, b, u, m);
    } else if ResultOf(r, a).edits != [] {
      FirstEditStored(r, a, u, m);
      var k := ResultOf(r, a).edits[0].eventId;
      StoredSession(r, a, u, m, k);
      if k in y { StoredSession(r, b, u, m, k); }
    }
  }

  /** A session id taken from the file name is never replaced. */
  lemma SessionStays(r: Rollout, es: seq<Line>)
    requires r.session != ""
    ensures Final(r, es).session == r.session
  {
    RunGrows(r, Codex.Start(r), es);
  }

  ghost predicate AlwaysConverges(r: Rollout, u: string, m: string) {
    forall es, fs | es <= fs ::
      Within(First(Rows(u, m, ResultOf(r, Final(r, es)).edits)), First(Rows(u, m, ResultOf(r, Final(r, fs)).edits)))
  }

  /** A log that shows the failure: a confirmed patch, then the session's own id. */
  const APPLIED := Codex.Line("", PatchApplied("c", true, map["f" := NewFile("x")]))
  const NAMED := Codex.Line("", SessionMeta("s"))

  lemma AppliedEdits(r: Rollout)
    requires r.session == ""
    ensures ResultOf(r, Final(r, [APPLIED])).edits != [] && Final(r, [APPLIED]).session == ""
    ensures Final(r, [APPLIED, NAMED]).session == "s"
  {
    var st, changes := Codex.Start(r), map["f" := NewFile("x")];
    AppliedFiles();
    var st1 := Step(r, st, APPLIED);
    RunOne(r, st, APPLIED);
    var p := Patch("c", "", [FilePatch("f", 1, 0)]);
    assert st1.patches == [p] && st1.patchOk == {"c"};
    assert PatchEdits(r, "", p, 1) == PatchEdits(r, "", p, 0) + [EditOf(r, "", p, 0)];
    assert Edits(r, "", [p], {"c"}) == PatchEdits(r, "", p, 1) + Edits(r, "", [], {"c"});
    RunAppend(r, st, [APPLIED], [NAMED]);
    RunOne(r, st1, NAMED);
  }

  lemma RunOne(r: Rollout, st: State, l: Codex.Line)
    ensures Run(r, st, [l]) == Step(r, st, l)
  {
    var es := [l];
    assert es[1..] == [];
    assert Run(r, Step(r, st, l), []) == Step(r, st, l);
  }

  lemma AppliedFiles()
    ensures AllChanged(map["f" := NewFile("x")]) == [FilePatch("f", 1, 0)]
  {
    var changes := map["f" := NewFile("x")];
    assert Order.Elements(["f"]) == changes.Keys;
    Order.OrderFree(["f"], changes.Keys);
    assert "x"[1..] == "" && TrimNewline("x") == "x" && Newlines("x") == 0;
    assert ["f"][1..] == [];
    assert ChangedFiles(changes, ["f"]) == ChangedFile("f", NewFile("x")) + ChangedFiles(changes, []);
  }

  /** Whole-file re-sends keep every stored edit, whatever the log says, exactly
      when the file name carries a session id. */
  lemma AlwaysConvergesIff(r: Rollout, u: string, m: string)
    ensures AlwaysConverges(r, u, m) <==> r.session != ""
  {
    if r.session != "" {
      forall es, fs | es <= fs
        ensures Within(First(Rows(u, m, ResultOf(r, Final(r, es)).edits)),
                       First(Rows(u, m, ResultOf(r, Final(r, fs)).edits)))
      {
        SessionStays(r, es);
        SessionStays(r, fs);
        EditsConvergeIff(r, es, fs, u, m);
      }
    } else {
      AppliedEdits(r);
      assert [APPLIED] <= [APPLIED, NAMED];
      EditsConvergeIff(r, [APPLIED], [APPLIED, NAMED], u, m);
    }
  }

  // ----- growing files --------------------------------------------------------------

  predicate WellWritten(r: Rollout, b: Bytes) { Rescan.WellWritten(r.decode, b) }

  // ----- what the server ends up with ---------------------------------------------------

  ghost function Ingest(t: Tables, u: string, m: string, res: ScanResult): Tables {
    StoreSpec.InsertEdits(InsertUsage(t, u, m, res.usage), u, m, res.edits)
  }

  lemma IngestInView(t: Tables, u: string, m: string, res: ScanResult)
    requires InView(t)
    ensures InView(Ingest(t, u, m, res))
  {
    InsertUsageKeepsView(t, u, m, res.usage);
    InsertEditsKeepsView(InsertUsage(t, u, m, res.usage), u, m, res.edits);
  }

  lemma {:induction false} UsageRowsPrefix(u: string, m: string, a: seq<UsageRecord>, b: seq<UsageRecord>)
    requires a <= b
    ensures UsageRows(u, m, a) <= UsageRows(u, m, b)
  {
    assert b == a + b[|a|..];
    UsageRowsAppend(u, m, a, b[|a|..]);
  }

  /** Sending a shorter parse first leaves no trace. */
  lemma ResendAbsorbs(r: Rollout, b: Bytes, more: Bytes, t: Tables, u: string, m: string)
    requires r.session != "" && WellWritten(r, b + more) && InView(t)
    ensures Ingest(Ingest(t, u, m, Parse(r, b)), u, m, Parse(r, b + more)) == Ingest(t, u, m, Parse(r, b + more))
  {
    Rescan.EventsPrefix(r.decode, b, more);
    var es, fs := Events(r, b), Events(r, b + more);
    PrefixGrows(r, es, fs);
    SessionStays(r, es);
    SessionStays(r, fs);
    var x, y := Parse(r, b), Parse(r, b + more);
    EditsConvergeIff(r, es, fs, u, m);
    UsageRowsPrefix(u, m, x.usage, y.usage);
    PrefixWithin(UsageRows(u, m, x.usage), UsageRows(u, m, y.usage));
    ResendConverges(t.usage, UsageRows(u, m, x.usage), UsageRows(u, m, y.usage));
    ResendConverges(t.edits, Rows(u, m, x.edits), Rows(u, m, y.edits));
    IngestInView(t, u, m, x);
    IngestInView(Ingest(t, u, m, x), u, m, y);
    IngestInView(t, u, m, y);
  }

  /** The file as it was at each scan. */
  ghost predicate Versions(r: Rollout, vs: seq<Bytes>) {
    && (forall i | 0 <= i < |vs| :: WellWritten(r, vs[i]))
    && (forall i | 0 < i < |vs| :: vs[i - 1] <= vs[i])
  }

  ghost function Resent(t: Tables, r: Rollout, vs: seq<Bytes>, u: string, m: string): Tables
    decreases |vs|
  {
    if vs == [] then t else Ingest(Resent(t, r, vs[..|vs| - 1], u, m), u, m, Parse(r, Last(vs)))
  }

  lemma ResendVersion(r: Rollout, b: Bytes, c: Bytes, t: Tables, u: string, m: string)
    requires r.session != "" && b <= c && WellWritten(r, c) && InView(t)
    ensures Ingest(Ingest(t, u, m, Parse(r, b)), u, m, Parse(r, c)) == Ingest(t, u, m, Parse(r, c))
  {
    assert c == b + c[|b|..];
    ResendAbsorbs(r, b, c[|b|..], t, u, m);
  }

  lemma VersionsInit(r: Rollout, vs: seq<Bytes>)
    requires Versions(r, vs) && vs != []
    ensures Versions(r, vs[..|vs| - 1]) && WellWritten(r, vs[|vs| - 1])
    ensures |vs| > 1 ==> Last(vs[..|vs| - 1]) <= vs[|vs| - 1]
  {
    var rest := vs[..|vs| - 1];
    forall i | 0 < i < |rest| ensures rest[i - 1] <= rest[i] {
      assert vs[i - 1] <= vs[i];
    }
  }

  /** However often and wherever the growing file was read and sent in full, the
      server ends with what one parse of the final file gives. */
  lemma {:induction false} ReparseConverges(t: Tables, r: Rollout, vs: seq<Bytes>, u: string, m: string)
    requires r.session != "" && InView(t) && Versions(r, vs) && vs != []
    ensures Resent(t, r, vs, u, m) == Ingest(t, u, m, Parse(r, Last(vs)))
    decreases |vs|
  {
    var rest := vs[..|vs| - 1];
    VersionsInit(r, vs);
    if rest != [] {
      ReparseConverges(t, r, rest, u, m);
      ResendVersion(r, Last(rest), Last(vs), t, u, m);
    }
  }

  // ----- a Codex file as a source of the delivery protocol ----------------------------------

  lemma {:induction false} MoreConfirmedItems(r: Rollout, session: string, patches: seq<Patch>, ok: set<string>,
                                              ok': set<string>, e: EditRecord)
    requires ok <= ok' && e in Edits(r, session, patches, ok)
    ensures e in Edits(r, session, patches, ok')
    decreases |patches|
  {
    if patches != [] && e in Edits(r, session, patches[1..], ok) {
      MoreConfirmedItems(r, session, patches[1..], ok, ok', e);
    }
  }

  /** A longer parse yields every record of a shorter one. */
  lemma ItemsGrow(r: Rollout, b: Bytes, more: Bytes)
    requires r.session != "" && WellWritten(r, b + more)
    ensures Delivery.Items(Parse(r, b)) <= Delivery.Items(Parse(r, b + more))
  {
    Rescan.EventsPrefix(r.decode, b, more);
    var a, c := Final(r, Events(r, b)), Final(r, Events(r, b + more));
    PrefixGrows(r, Events(r, b), Events(r, b + more));
    SessionStays(r, Events(r, b));
    SessionStays(r, Events(r, b + more));
    forall e | e in ResultOf(r, a).edits ensures e in ResultOf(r, c).edits {
      MoreConfirmedItems(r, a.session, a.patches, a.patchOk, c.patchOk, e);
      EditsAppend(r, a.session, a.patches, c.patches[|a.patches|..], c.patchOk);
      assert c.patches == a.patches + c.patches[|a.patches|..];
    }
  }

  /** What the delivery theorems ask of a parser holds of this one. */
  lemma CodexSource(r: Rollout)
    requires r.session != ""
    ensures Delivery.Converges(Delivery.Reparsed(b => Some(Parse(r, b))), b => WellWritten(r, b))
  {
    var src, legal := Delivery.Reparsed(b => Some(Parse(r, b))), (b: Bytes) => WellWritten(r, b);
    assert Parse(r, []) == NOTHING;
    assert Delivery.Items(NOTHING) == {};
    forall b, c | legal(b + c) && src.parse(b + c).Some?
      ensures Delivery.Yield(src, b) <= Delivery.Yield(src, b + c)
    {
      ItemsGrow(r, b, c);
    }
  }

  // ----- the session id in a file name ----------------------------------------------------

  /** sessionIDFromFilename: the last five dash-separated parts. */
  function SessionIdFromFilename(name: string): string {
    var base := if |name| >= 6 && name[|name| - 6..] == ".jsonl" then name[..|name| - 6] else name;
    var parts := Split(base, '-');
    if |parts| < 5 then base else Join(parts[|parts| - 5..], '-')
  }

  lemma {:induction false} JoinLength(pieces: seq<string>, c: char)
    requires pieces != []
    ensures |Join(pieces, c)| >= |pieces| - 1
    decreases |pieces|
  {
    if |pieces| > 1 { JoinLength(pieces[1..], c); }
  }

  /** The only names without one. */
  lemma NamelessIff(name: string)
    ensures SessionIdFromFilename(name) == "" <==> name == "" || name == ".jsonl"
  {
    var base := if |name| >= 6 && name[|name| - 6..] == ".jsonl" then name[..|name| - 6] else name;
    var parts := Split(base, '-');
    if |parts| >= 5 {
      JoinLength(parts[|parts| - 5..], '-');
      if base == "" { SplitFree(base, '-'); }
    }
    if |name| >= 6 {
      assert name == name[..|name| - 6] + name[|name| - 6..];
    }
  }

  lemma SplitAll(pieces: seq<string>, c: char)
    requires pieces != [] && forall i | 0 <= i < |pieces| :: Free(pieces[i], c)
    ensures Split(Join(pieces, c), c) == pieces
  {
    var n := |pieces| - 1;
    assert pieces == pieces[..n] + [pieces[n]];
    SplitJoined(pieces[..n], pieces[n], c, "");
    SplitFree(pieces[n], c);
    assert Join(pieces, c) + "" == Join(pieces, c) && pieces[n] + "" == pieces[n];
  }

  /** A rollout's name ends in its session id, five parts joined by dashes: whatever stands
      before it is cut off. A name of fewer parts is the id itself. */
  lemma NamedSession(prefix: string, id: seq<string>)
    requires forall i | 0 <= i < |id| :: Free(id[i], '-')
    ensures |id| == 5 ==> SessionIdFromFilename(prefix + "-" + Join(id, '-') + ".jsonl") == Join(id, '-')
    ensures 1 <= |id| <= 5 ==> SessionIdFromFilename(Join(id, '-') + ".jsonl") == Join(id, '-')
  {
    if 1 <= |id| <= 5 {
      var s := Join(id, '-');
      SplitAll(id, '-');
      Suffixed(s);
      if |id| == 5 {
        var long := prefix + "-" + s;
        Suffixed(long);
        SplitAt(prefix, '-', s);
        var parts := Split(long, '-');
        assert parts == Split(prefix, '-') + id;
        assert parts[|parts| - 5..] == id;
        assert id[0..] == id;
      }
    }
  }

  lemma Suffixed(base: string)
    ensures SessionIdFromFilename(base + ".jsonl")
            == var parts := Split(base, '-');
               if |parts| < 5 then base else Join(parts[|parts| - 5..], '-')
  {
    var name := base + ".jsonl";
    assert name[|name| - 6..] == ".jsonl" && name[..|name| - 6] == base;
  }
}
