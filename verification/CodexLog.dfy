/** What a Codex rollout says, read off its lines and not off the state machine that
    parses it: which calls it confirms, which patches it records, the edits and the
    charges that come of them, and whose session and model they carry. */
module CodexLog {
  import opened Types
  import opened Text
  import opened CodexPatch
  import opened Codex
  import Order

  // ----- one line -------------------------------------------------------------------

  /** A tool call whose input holds a patch. */
  ghost predicate Carries(l: Line, id: string) {
    l.event.ToolCall? && id != "" && l.event.callId == id && FilesOf(l.event.name, l.event.input) != []
  }

  /** The result of an applied patch. */
  ghost predicate Applies(l: Line, id: string) {
    l.event.PatchApplied? && l.event.success && id != "" && l.event.callId == id && AllChanged(l.event.changes) != []
  }

  ghost predicate Mentions(l: Line, id: string) { Carries(l, id) || Applies(l, id) }

  /** The files a recorded line names. */
  ghost function FilesAt(l: Line): seq<FilePatch> {
    match l.event
    case ToolCall(callId, name, input) => FilesOf(name, input)
    case PatchApplied(callId, success, changes) => AllChanged(changes)
    case _ => []
  }

  // ----- a log ------------------------------------------------------------------------

  ghost predicate Earlier(es: seq<Line>, i: nat, id: string) {
    exists j :: 0 <= j < i && j < |es| && Mentions(es[j], id)
  }

  /** Line `i` records a patch for the call: the result of an applied patch does so only
      when no earlier line named the call. */
  ghost predicate Records(es: seq<Line>, i: nat, id: string) {
    i < |es| && (Carries(es[i], id) || (Applies(es[i], id) && !Earlier(es, i, id)))
  }

  ghost predicate Confirms(es: seq<Line>, i: nat, id: string) {
    i < |es| && ((id != "" && es[i].event == ToolOutput(id, true)) || (Applies(es[i], id) && !Earlier(es, i, id)))
  }

  ghost predicate Confirmed(es: seq<Line>, id: string) { exists i: nat :: Confirms(es, i, id) }

  lemma LastStep(r: Rollout, es: seq<Line>)
    requires es != []
    ensures Final(r, es) == Step(r, Final(r, es[..|es| - 1]), es[|es| - 1])
  {
    var init, last := es[..|es| - 1], [es[|es| - 1]];
    assert es == init + last;
    RunAppend(r, Codex.Start(r), init, last);
    assert last[1..] == [];
  }

  /** Adding a line changes nothing about the ones before it. */
  lemma SamePrefix(es: seq<Line>, i: nat, id: string)
    requires es != [] && i < |es| - 1
    ensures Records(es, i, id) <==> Records(es[..|es| - 1], i, id)
    ensures Confirms(es, i, id) <==> Confirms(es[..|es| - 1], i, id)
  {
    EarlierPrefix(es, i, id);
  }

  lemma EarlierPrefix(es: seq<Line>, i: nat, id: string)
    requires es != [] && i <= |es| - 1
    ensures Earlier(es, i, id) <==> Earlier(es[..|es| - 1], i, id)
  {
    var init := es[..|es| - 1];
    if Earlier(es, i, id) {
      var j :| 0 <= j < i && j < |es| && Mentions(es[j], id);
      assert init[j] == es[j];
    }
    if Earlier(init, i, id) {
      var j :| 0 <= j < i && j < |init| && Mentions(init[j], id);
      assert init[j] == es[j];
    }
  }

  /** The state knows a call if and only if a line named it. */
  lemma {:induction false} KnownIff(r: Rollout, es: seq<Line>, id: string)
    ensures Known(Final(r, es).patches, id) <==> Earlier(es, |es|, id)
    decreases |es|
  {
    if es != [] {
      var init, n := es[..|es| - 1], |es| - 1;
      KnownIff(r, init, id);
      LastStep(r, es);
      EarlierPrefix(es, n, id);
      StepKnows(r, Final(r, init), es[n], id);
      MoreEarlier(es, id);
    }
  }

  lemma MoreEarlier(es: seq<Line>, id: string)
    requires es != []
    ensures Earlier(es, |es|, id) <==> Earlier(es, |es| - 1, id) || Mentions(es[|es| - 1], id)
  {
    if Earlier(es, |es| - 1, id) {
      var j :| 0 <= j < |es| - 1 && j < |es| && Mentions(es[j], id);
      assert Mentions(es[j], id);
    }
  }

  lemma StepKnows(r: Rollout, st: State, l: Line, id: string)
    ensures Known(Step(r, st, l).patches, id) <==> Known(st.patches, id) || Mentions(l, id)
  {
    var after := Step(r, st, l).patches;
    if |after| > |st.patches| {
      assert after == st.patches + [Last(after)];
      if Mentions(l, id) { assert after[|st.patches|].callId == id; }
    }
    forall i | 0 <= i < |st.patches| ensures after[i] == st.patches[i] { }
  }

  /** A call id is confirmed if and only if an output with that id succeeded, or an applied
      patch with files has it and no earlier line named the call. */
  lemma {:induction false} ConfirmedIff(r: Rollout, es: seq<Line>, id: string)
    ensures id in Final(r, es).patchOk <==> Confirmed(es, id)
    decreases |es|
  {
    if es != [] {
      var init, n := es[..|es| - 1], |es| - 1;
      ConfirmedIff(r, init, id);
      LastStep(r, es);
      KnownIff(r, init, id);
      EarlierPrefix(es, n, id);
      StepConfirms(r, Final(r, init), es[n], id);
      ConfirmedMore(es, id);
    }
  }

  lemma StepConfirms(r: Rollout, st: State, l: Line, id: string)
    ensures id in Step(r, st, l).patchOk
            <==> id in st.patchOk || (id != "" && l.event == ToolOutput(id, true))
                 || (Applies(l, id) && !Known(st.patches, id))
  {
  }

  lemma ConfirmedMore(es: seq<Line>, id: string)
    requires es != []
    ensures Confirmed(es, id) <==> Confirmed(es[..|es| - 1], id) || Confirms(es, |es| - 1, id)
  {
    if Confirmed(es, id) {
      var i: nat :| Confirms(es, i, id);
      if i < |es| - 1 { SamePrefix(es, i, id); }
    }
    if Confirmed(es[..|es| - 1], id) {
      var i: nat :| Confirms(es[..|es| - 1], i, id);
      SamePrefix(es, i, id);
    }
  }

  // ----- the recorded patches ---------------------------------------------------------

  ghost predicate Increasing(at: seq<nat>) { forall j, k | 0 <= j < k < |at| :: at[j] < at[k] }

  ghost predicate RecordedFrom(es: seq<Line>, i: nat, p: Patch) {
    Records(es, i, p.callId) && p.stamp == es[i].stamp && p.files == FilesAt(es[i])
  }

  /** The patches are those of the recording lines, `at[k]` that of patch `k`. */
  ghost predicate RecordedAt(es: seq<Line>, at: seq<nat>, patches: seq<Patch>) {
    && Increasing(at) && |at| == |patches|
    && (forall k | 0 <= k < |at| :: RecordedFrom(es, at[k], patches[k]))
    && (forall i: nat, id | Records(es, i, id) :: i in at)
  }

  /** The recorded patches are exactly the lines that record one, in log order, each with
      the call id, the stamp and the files of its line. */
  lemma {:induction false} RecordedPatches(r: Rollout, es: seq<Line>) returns (at: seq<nat>)
    ensures RecordedAt(es, at, Final(r, es).patches)
    decreases |es|
  {
    at := [];
    if es != [] {
      var init, n := es[..|es| - 1], |es| - 1;
      at := RecordedPatches(r, init);
      var st, st' := Final(r, init), Final(r, es);
      LastStep(r, es);
      StillRecorded(es, at, st.patches);
      if st'.patches != st.patches {
        var p := Last(st'.patches);
        StepRecords(r, es);
        OneRecorded(es, at, st.patches, n, p);
        at := at + [n];
      } else {
        StepRecordsNone(r, es, n);
        forall i: nat, id | Records(es, i, id) ensures i in at {
          if i == n { assert false; }
        }
      }
    }
  }

  ghost predicate RecordedBefore(es: seq<Line>, at: seq<nat>, patches: seq<Patch>) {
    && Increasing(at) && |at| == |patches|
    && (forall k | 0 <= k < |at| :: at[k] < |es| - 1 && RecordedFrom(es, at[k], patches[k]))
    && (forall i: nat, id | Records(es, i, id) && i < |es| - 1 :: i in at)
  }

  lemma StillRecorded(es: seq<Line>, at: seq<nat>, patches: seq<Patch>)
    requires es != [] && RecordedAt(es[..|es| - 1], at, patches)
    ensures RecordedBefore(es, at, patches)
  {
    var init := es[..|es| - 1];
    forall k | 0 <= k < |at| ensures at[k] < |es| - 1 && RecordedFrom(es, at[k], patches[k]) {
      assert RecordedFrom(init, at[k], patches[k]);
      SamePrefix(es, at[k], patches[k].callId);
    }
    forall i: nat, id | Records(es, i, id) && i < |es| - 1 ensures i in at {
      SamePrefix(es, i, id);
    }
  }

  lemma OneRecorded(es: seq<Line>, at: seq<nat>, patches: seq<Patch>, n: nat, p: Patch)
    requires n == |es| - 1 && RecordedBefore(es, at, patches) && RecordedFrom(es, n, p)
    ensures RecordedAt(es, at + [n], patches + [p])
  {
    var all, more := at + [n], patches + [p];
    forall k | 0 <= k < |all| ensures RecordedFrom(es, all[k], more[k]) {
      if k < |at| { assert all[k] == at[k] && more[k] == patches[k]; }
    }
    forall i: nat, id | Records(es, i, id) ensures i in all {
      if i < n { assert i in at; } else { assert all[|at|] == i; }
    }
  }

  lemma StepRecords(r: Rollout, es: seq<Line>)
    requires es != [] && Final(r, es).patches != Final(r, es[..|es| - 1]).patches
    ensures var st, st' := Final(r, es[..|es| - 1]), Final(r, es);
            st'.patches != [] && st'.patches == st.patches + [Last(st'.patches)]
            && RecordedFrom(es, |es| - 1, Last(st'.patches))
  {
    var init, n := es[..|es| - 1], |es| - 1;
    LastStep(r, es);
    var p := Last(Final(r, es).patches);
    KnownIff(r, init, p.callId);
    EarlierPrefix(es, n, p.callId);
  }

  lemma StepRecordsNone(r: Rollout, es: seq<Line>, n: nat)
    requires n == |es| - 1 && Final(r, es).patches == Final(r, es[..|es| - 1]).patches
    ensures forall id :: !Records(es, n, id)
  {
    var init := es[..|es| - 1];
    LastStep(r, es);
    forall id ensures !Records(es, n, id) {
      KnownIff(r, init, id);
      EarlierPrefix(es, n, id);
    }
  }

  // ----- the edits ----------------------------------------------------------------------

  /** One file of one line. */
  datatype Source = Source(line: nat, file: nat)

  predicate Before(a: Source, b: Source) { a.line < b.line || (a.line == b.line && a.file < b.file) }

  ghost predicate Ordered(from: seq<Source>) { forall j, k | 0 <= j < k < |from| :: Before(from[j], from[k]) }

  function CallOf(l: Line): string {
    match l.event
    case ToolCall(callId, name, input) => callId
    case PatchApplied(callId, success, changes) => callId
    case _ => ""
  }

  /** The file belongs to a recorded patch that the log confirms, earlier or later. */
  ghost predicate Counts(es: seq<Line>, s: Source) {
    && s.line < |es| && Records(es, s.line, CallOf(es[s.line])) && Confirmed(es, CallOf(es[s.line]))
    && s.file < |FilesAt(es[s.line])|
  }

  ghost predicate IsEdit(r: Rollout, es: seq<Line>, session: string, s: Source, e: EditRecord)
    requires Counts(es, s)
  {
    var l, file := es[s.line], FilesAt(es[s.line])[s.file];
    && e.eventId == CallOf(l) + "#" + Itoa(s.file)
    && e.sessionId == session && e.tool == r.tool && e.projectPath == r.project
    && e.timestamp == r.time(l.stamp) && e.lang == r.langOf(file.path)
    && e.linesAdded == file.added && e.linesRemoved == file.removed
  }

  /** `edits[k]` is that of the file `from[k]`. */
  ghost predicate EditsFrom(r: Rollout, es: seq<Line>, session: string, edits: seq<EditRecord>, from: seq<Source>) {
    && Ordered(from) && |from| == |edits|
    && forall k | 0 <= k < |from| :: Counts(es, from[k]) && IsEdit(r, es, session, from[k], edits[k])
  }

  ghost predicate FromLine(from: seq<Source>, at: seq<nat>, q: nat) {
    forall k | 0 <= k < |from| :: q < |at| && at[q] <= from[k].line
  }

  /** The same for the recorded patches from number `q` on, none left out. */
  ghost predicate TailEdits(r: Rollout, es: seq<Line>, session: string, edits: seq<EditRecord>, from: seq<Source>,
                            at: seq<nat>, q: nat) {
    && EditsFrom(r, es, session, edits, from)
    && FromLine(from, at, q)
    && (forall s | Counts(es, s) && q < |at| && at[q] <= s.line :: s in from)
  }

  lemma {:induction false} PatchEditsAre(r: Rollout, session: string, p: Patch, n: nat)
    requires n <= |p.files|
    ensures |PatchEdits(r, session, p, n)| == n
    ensures forall f: nat | f < n :: PatchEdits(r, session, p, n)[f] == EditOf(r, session, p, f)
    decreases n
  {
    if n > 0 { PatchEditsAre(r, session, p, n - 1); }
  }

  function FilesOfLine(i: nat, n: nat): seq<Source> { seq(n, (f: nat) => Source(i, f)) }

  lemma HeadEdits(r: Rollout, es: seq<Line>, session: string, i: nat, p: Patch)
    requires RecordedFrom(es, i, p) && Confirmed(es, p.callId)
    ensures EditsFrom(r, es, session, PatchEdits(r, session, p, |p.files|), FilesOfLine(i, |p.files|))
  {
    PatchEditsAre(r, session, p, |p.files|);
    assert CallOf(es[i]) == p.callId;
  }

  lemma NextLine(es: seq<Line>, at: seq<nat>, patches: seq<Patch>, q: nat, s: Source)
    requires RecordedAt(es, at, patches) && q < |at| && Counts(es, s) && at[q] <= s.line
    ensures s.line == at[q] || (q + 1 < |at| && at[q + 1] <= s.line)
    ensures s.line == at[q] ==> CallOf(es[s.line]) == patches[q].callId && FilesAt(es[s.line]) == patches[q].files
  {
    assert s.line in at;
    NextRecorded(at, q, s.line);
    assert RecordedFrom(es, at[q], patches[q]);
    CallIs(es, at[q], patches[q].callId);
  }

  lemma NextRecorded(at: seq<nat>, q: nat, line: nat)
    requires Increasing(at) && q < |at| && line in at && at[q] <= line
    ensures line == at[q] || (q + 1 < |at| && at[q + 1] <= line)
  {
    var k :| 0 <= k < |at| && at[k] == line;
  }

  lemma CallIs(es: seq<Line>, i: nat, id: string)
    requires Records(es, i, id)
    ensures CallOf(es[i]) == id
  {
  }

  lemma SkipEdits(r: Rollout, es: seq<Line>, session: string, tail: seq<EditRecord>, patches: seq<Patch>,
                  rest: seq<Source>, at: seq<nat>, q: nat)
    requires RecordedAt(es, at, patches) && q < |at| && !Confirmed(es, patches[q].callId)
    requires TailEdits(r, es, session, tail, rest, at, q + 1)
    ensures TailEdits(r, es, session, tail, rest, at, q)
  {
    forall s | Counts(es, s) && at[q] <= s.line ensures s in rest {
      NextLine(es, at, patches, q, s);
    }
  }

  lemma JoinEdits(r: Rollout, es: seq<Line>, session: string, head: seq<EditRecord>, tail: seq<EditRecord>,
                  patches: seq<Patch>, rest: seq<Source>, at: seq<nat>, q: nat)
    requires RecordedAt(es, at, patches) && q < |at|
    requires EditsFrom(r, es, session, head, FilesOfLine(at[q], |patches[q].files|))
    requires TailEdits(r, es, session, tail, rest, at, q + 1)
    ensures TailEdits(r, es, session, head + tail, FilesOfLine(at[q], |patches[q].files|) + rest, at, q)
  {
    var mine := FilesOfLine(at[q], |patches[q].files|);
    JoinLines(mine, rest, at, q);
    JoinFrom(r, es, session, head, tail, mine, rest);
    forall s | Counts(es, s) && at[q] <= s.line ensures s in mine + rest {
      NextLine(es, at, patches, q, s);
      InEither(mine, rest, s);
      if s.line == at[q] { assert mine[s.file] == s; }
    }
  }

  lemma InEither(a: seq<Source>, b: seq<Source>, s: Source)
    ensures s in a + b <==> s in a || s in b
  {
  }

  lemma JoinLines(mine: seq<Source>, rest: seq<Source>, at: seq<nat>, q: nat)
    requires Increasing(at) && q < |at| && Ordered(mine) && Ordered(rest) && FromLine(rest, at, q + 1)
    requires forall k | 0 <= k < |mine| :: mine[k].line == at[q]
    ensures Ordered(mine + rest) && FromLine(mine + rest, at, q)
  {
    var all := mine + rest;
    forall j | 0 <= j < |all|
      ensures if j < |mine| then all[j] == mine[j] else all[j] == rest[j - |mine|] && at[q] < all[j].line
    {
    }
  }

  lemma JoinFrom(r: Rollout, es: seq<Line>, session: string, head: seq<EditRecord>, tail: seq<EditRecord>,
                 mine: seq<Source>, rest: seq<Source>)
    requires EditsFrom(r, es, session, head, mine) && EditsFrom(r, es, session, tail, rest)
    requires Ordered(mine + rest)
    ensures EditsFrom(r, es, session, head + tail, mine + rest)
  {
    var from, edits := mine + rest, head + tail;
    forall k | 0 <= k < |from| ensures Counts(es, from[k]) && IsEdit(r, es, session, from[k], edits[k]) {
      if k < |mine| {
        assert from[k] == mine[k] && edits[k] == head[k];
      } else {
        assert from[k] == rest[k - |mine|] && edits[k] == tail[k - |mine|];
      }
    }
  }

  lemma {:induction false} EditsTail(r: Rollout, es: seq<Line>, session: string, patches: seq<Patch>,
                                     ok: set<string>, at: seq<nat>, q: nat)
    returns (from: seq<Source>)
    requires RecordedAt(es, at, patches) && q <= |at|
    requires forall id :: id in ok <==> Confirmed(es, id)
    ensures TailEdits(r, es, session, Edits(r, session, patches[q..], ok), from, at, q)
    decreases |at| - q
  {
    from := [];
    if q < |at| {
      var p := patches[q];
      assert patches[q..][0] == p && patches[q..][1..] == patches[q + 1..];
      assert RecordedFrom(es, at[q], p);
      var rest := EditsTail(r, es, session, patches, ok, at, q + 1);
      var tail := Edits(r, session, patches[q + 1..], ok);
      if p.callId in ok {
        from := FilesOfLine(at[q], |p.files|) + rest;
        HeadEdits(r, es, session, at[q], p);
        JoinEdits(r, es, session, PatchEdits(r, session, p, |p.files|), tail, patches, rest, at, q);
      } else {
        assert [] + tail == tail;
        from := rest;
        SkipEdits(r, es, session, tail, patches, rest, at, q);
      }
    }
  }

  /** The edits of a log: one for every file of every patch it records and confirms, in the
      order of the lines and of the files in a line, and no other. */
  lemma LogEdits(r: Rollout, es: seq<Line>) returns (from: seq<Source>)
    ensures EditsFrom(r, es, Final(r, es).session, ResultOf(r, Final(r, es)).edits, from)
    ensures forall s | Counts(es, s) :: s in from
    ensures SessionIs(r, es, |es|, Final(r, es).session)
  {
    var st := Final(r, es);
    SessionOf(r, es);
    var at := RecordedPatches(r, es);
    forall id ensures id in st.patchOk <==> Confirmed(es, id) { ConfirmedIff(r, es, id); }
    assert st.patches[0..] == st.patches;
    from := EditsTail(r, es, st.session, st.patches, st.patchOk, at, 0);
    forall s | Counts(es, s) ensures s in from {
      assert s.line in at;
      var k :| 0 <= k < |at| && at[k] == s.line;
    }
  }

  // ----- session and model ----------------------------------------------------------------

  /** The session of the first `n` lines: the id in the file's name, or else the first one a
      meta line gives. */
  ghost predicate SessionIs(r: Rollout, es: seq<Line>, n: nat, s: string) {
    if r.session != "" then s == r.session
    else if s == "" then forall i | 0 <= i < n && i < |es| && es[i].event.SessionMeta? :: es[i].event.id == ""
    else exists i: nat :: i < n && FirstMeta(es, i, s)
  }

  ghost predicate FirstMeta(es: seq<Line>, i: nat, s: string) {
    && i < |es| && es[i].event == SessionMeta(s)
    && forall j | 0 <= j < i && es[j].event.SessionMeta? :: es[j].event.id == ""
  }

  /** The model after the first `n` lines: that of the last turn that names one. */
  ghost predicate ModelIs(es: seq<Line>, n: nat, m: string) {
    if m == "" then forall i | 0 <= i < n && i < |es| && es[i].event.TurnContext? :: es[i].event.model == ""
    else exists i: nat :: LastTurn(es, n, i, m)
  }

  ghost predicate LastTurn(es: seq<Line>, n: nat, i: nat, m: string) {
    && i < n && i < |es| && es[i].event == TurnContext(m)
    && forall j | i < j < n && j < |es| && es[j].event.TurnContext? :: es[j].event.model == ""
  }

  lemma {:induction false} SessionOf(r: Rollout, es: seq<Line>)
    ensures SessionIs(r, es, |es|, Final(r, es).session)
    decreases |es|
  {
    if es != [] {
      var init, n := es[..|es| - 1], |es| - 1;
      SessionOf(r, init);
      LastStep(r, es);
      var s := Final(r, init).session;
      if r.session == "" && s != "" {
        var i: nat :| i < |init| && FirstMeta(init, i, s);
        assert FirstMeta(es, i, s);
      } else if r.session == "" && Final(r, es).session != "" {
        assert forall j | 0 <= j < n && es[j].event.SessionMeta? :: init[j].event.id == "";
        assert FirstMeta(es, n, Final(r, es).session);
      }
    }
  }

  lemma {:induction false} ModelOf(r: Rollout, es: seq<Line>)
    ensures ModelIs(es, |es|, Final(r, es).model)
    decreases |es|
  {
    if es != [] {
      var init, n := es[..|es| - 1], |es| - 1;
      ModelOf(r, init);
      LastStep(r, es);
      var m := Final(r, init).model;
      if es[n].event.TurnContext? && es[n].event.model != "" {
        assert LastTurn(es, |es|, n, es[n].event.model);
      } else if m != "" {
        var i: nat :| LastTurn(init, |init|, i, m);
        assert LastTurn(es, |es|, i, m);
      } else {
        assert forall i | 0 <= i < n :: init[i] == es[i];
      }
    }
  }

  // ----- the charges ------------------------------------------------------------------------

  /** The totals last charged before charge `k`. */
  ghost function TotalBefore(es: seq<Line>, at: seq<nat>, k: nat): Counters {
    if 0 < k <= |at| && at[k - 1] < |es| && es[at[k - 1]].event.TokenCount? then es[at[k - 1]].event.total
    else NO_COUNT
  }

  predicate Exceeds(t: Counters, prev: Counters) {
    t.input > prev.input || t.output > prev.output || t.cached > prev.cached || t.reasoning > prev.reasoning
  }

  /** What a counter grew by, if it did. */
  function Growth(from: int, to: int): int { if to > from then to - from else 0 }

  /** Input less its cached part, output, and the cached part as cache reads. */
  predicate Measures(rec: UsageRecord, prev: Counters, t: Counters) {
    && rec.inputTokens == Growth(Growth(prev.cached, t.cached), Growth(prev.input, t.input))
    && rec.outputTokens == Growth(prev.output, t.output) && rec.cacheReadTokens == Growth(prev.cached, t.cached)
    && rec.cacheCreationTokens == 0 && rec.cacheCreation1hTokens == 0
  }

  /** The record charges the growth of line `i` over `prev`, in the session and model of the
      lines before. */
  ghost predicate ChargedFrom(r: Rollout, es: seq<Line>, i: nat, prev: Counters, rec: UsageRecord) {
    && i < |es| && es[i].event.TokenCount? && Exceeds(es[i].event.total, prev)
    && Measures(rec, prev, es[i].event.total)
    && SessionIs(r, es, i, rec.sessionId) && ModelIs(es, i, rec.model)
    && rec.messageId == "cdx_" + rec.sessionId + "_" + es[i].stamp && rec.requestId == ""
    && rec.tool == r.tool && rec.projectPath == r.project && rec.timestamp == r.time(es[i].stamp)
  }

  /** Charge `k` is that of line `at[k]`; a count line between two charged ones, or after
      the last, exceeds the totals charged before it in no counter. */
  ghost predicate ChargedAt(r: Rollout, es: seq<Line>, at: seq<nat>, usage: seq<UsageRecord>) {
    && Increasing(at) && |at| == |usage|
    && (forall k: nat | k < |at| :: ChargedFrom(r, es, at[k], TotalBefore(es, at, k), usage[k]))
    && (forall i: nat, k: nat | Between(es, at, i, k) :: !Exceeds(es[i].event.total, TotalBefore(es, at, k)))
  }

  /** A count line after charge `k - 1` and before charge `k`. */
  ghost predicate Between(es: seq<Line>, at: seq<nat>, i: nat, k: nat) {
    && i < |es| && es[i].event.TokenCount? && k <= |at|
    && (k > 0 ==> at[k - 1] < i) && (k < |at| ==> i < at[k])
  }

  lemma StillNamed(r: Rollout, es: seq<Line>, i: nat, s: string, m: string)
    requires es != [] && i < |es|
    ensures SessionIs(r, es[..|es| - 1], i, s) <==> SessionIs(r, es, i, s)
    ensures ModelIs(es[..|es| - 1], i, m) <==> ModelIs(es, i, m)
  {
    SessionPrefix(r, es, i, s);
    ModelPrefix(es, i, m);
  }

  lemma SessionPrefix(r: Rollout, es: seq<Line>, i: nat, s: string)
    requires es != [] && i < |es|
    ensures SessionIs(r, es[..|es| - 1], i, s) <==> SessionIs(r, es, i, s)
  {
    var init := es[..|es| - 1];
    assert forall j | 0 <= j < i :: init[j] == es[j];
    forall j: nat | j < i ensures FirstMeta(init, j, s) <==> FirstMeta(es, j, s) { }
  }

  lemma ModelPrefix(es: seq<Line>, i: nat, m: string)
    requires es != [] && i < |es|
    ensures ModelIs(es[..|es| - 1], i, m) <==> ModelIs(es, i, m)
  {
    var init := es[..|es| - 1];
    assert forall j | 0 <= j < i :: init[j] == es[j];
    forall j: nat ensures LastTurn(init, i, j, m) <==> LastTurn(es, i, j, m) { }
  }

  /** The charges of a log, each from a count line that exceeds the totals charged last in
      some counter, in log order, and from every such line. */
  lemma {:induction false} LogCharges(r: Rollout, es: seq<Line>) returns (at: seq<nat>)
    ensures ChargedAt(r, es, at, ResultOf(r, Final(r, es)).usage)
    ensures Final(r, es).prev == TotalBefore(es, at, |at|)
    decreases |es|
  {
    at := [];
    if es != [] {
      var init, n := es[..|es| - 1], |es| - 1;
      at := LogCharges(r, init);
      var usage, prev := Final(r, init).usage, Final(r, init).prev;
      StillCharged(r, es, at, usage);
      SameTotal(es, at, |at|);
      if es[n].event.TokenCount? && Exceeds(es[n].event.total, prev) {
        var rec := ChargeLine(r, es, n);
        OneCharged(r, es, at, usage, n, rec);
        at := at + [n];
      } else {
        NoCharge(r, es, n);
        NoneCharged(r, es, at, usage, n);
      }
    }
  }

  lemma ChargeLine(r: Rollout, es: seq<Line>, n: nat) returns (rec: UsageRecord)
    requires n == |es| - 1 && es[n].event.TokenCount? && Exceeds(es[n].event.total, Final(r, es[..n]).prev)
    ensures Final(r, es).usage == Final(r, es[..n]).usage + [rec] && Final(r, es).prev == es[n].event.total
    ensures ChargedFrom(r, es, n, Final(r, es[..n]).prev, rec)
  {
    var st := Final(r, es[..n]);
    LastStep(r, es);
    rec := Charge(r, st.session, st.model, es[n].stamp, st.prev, es[n].event.total);
    SessionOf(r, es[..n]);
    ModelOf(r, es[..n]);
    SessionPrefix(r, es, n, st.session);
    ModelPrefix(es, n, st.model);
  }

  lemma NoCharge(r: Rollout, es: seq<Line>, n: nat)
    requires n == |es| - 1
    requires es[n].event.TokenCount? ==> !Exceeds(es[n].event.total, Final(r, es[..n]).prev)
    ensures Final(r, es).usage == Final(r, es[..n]).usage && Final(r, es).prev == Final(r, es[..n]).prev
  {
    LastStep(r, es);
  }

  ghost predicate ChargedBefore(r: Rollout, es: seq<Line>, at: seq<nat>, usage: seq<UsageRecord>) {
    && Increasing(at) && |at| == |usage|
    && (forall k: nat | k < |at| :: at[k] < |es| - 1 && ChargedFrom(r, es, at[k], TotalBefore(es, at, k), usage[k]))
    && (forall i: nat, k: nat | Between(es, at, i, k) && i < |es| - 1 ::
          !Exceeds(es[i].event.total, TotalBefore(es, at, k)))
  }

  lemma SameTotal(es: seq<Line>, at: seq<nat>, k: nat)
    requires es != [] && k <= |at| && forall j | 0 <= j < |at| :: at[j] < |es| - 1
    ensures TotalBefore(es[..|es| - 1], at, k) == TotalBefore(es, at, k)
  {
  }

  lemma StillCharged(r: Rollout, es: seq<Line>, at: seq<nat>, usage: seq<UsageRecord>)
    requires es != [] && ChargedAt(r, es[..|es| - 1], at, usage)
    ensures ChargedBefore(r, es, at, usage)
  {
    var init := es[..|es| - 1];
    forall k: nat | k < |at| ensures at[k] < |es| - 1 {
      assert ChargedFrom(r, init, at[k], TotalBefore(init, at, k), usage[k]);
    }
    forall k: nat | k < |at| ensures ChargedFrom(r, es, at[k], TotalBefore(es, at, k), usage[k]) {
      assert ChargedFrom(r, init, at[k], TotalBefore(init, at, k), usage[k]);
      SameTotal(es, at, k);
      StillFrom(r, es, at[k], TotalBefore(es, at, k), usage[k]);
    }
    forall i: nat, k: nat | Between(es, at, i, k) && i < |es| - 1
      ensures !Exceeds(es[i].event.total, TotalBefore(es, at, k))
    {
      assert Between(init, at, i, k);
      SameTotal(es, at, k);
    }
  }

  lemma StillFrom(r: Rollout, es: seq<Line>, i: nat, prev: Counters, rec: UsageRecord)
    requires es != [] && ChargedFrom(r, es[..|es| - 1], i, prev, rec)
    ensures ChargedFrom(r, es, i, prev, rec)
  {
    StillNamed(r, es, i, rec.sessionId, rec.model);
  }

  lemma OneCharged(r: Rollout, es: seq<Line>, at: seq<nat>, usage: seq<UsageRecord>, n: nat, rec: UsageRecord)
    requires n == |es| - 1 && ChargedBefore(r, es, at, usage)
    requires ChargedFrom(r, es, n, TotalBefore(es, at, |at|), rec)
    ensures ChargedAt(r, es, at + [n], usage + [rec])
  {
    var all, more := at + [n], usage + [rec];
    forall k: nat | k <= |at| ensures TotalBefore(es, all, k) == TotalBefore(es, at, k) { }
    forall k: nat | k < |all| ensures ChargedFrom(r, es, all[k], TotalBefore(es, all, k), more[k]) {
      if k < |at| { assert all[k] == at[k] && more[k] == usage[k]; }
    }
    forall i: nat, k: nat | Between(es, all, i, k)
      ensures !Exceeds(es[i].event.total, TotalBefore(es, all, k))
    {
      if k > |at| { assert false; }
      assert all[k] == if k < |at| then at[k] else n;
      assert Between(es, at, i, k);
    }
  }

  lemma NoneCharged(r: Rollout, es: seq<Line>, at: seq<nat>, usage: seq<UsageRecord>, n: nat)
    requires n == |es| - 1 && ChargedBefore(r, es, at, usage)
    requires es[n].event.TokenCount? ==> !Exceeds(es[n].event.total, TotalBefore(es, at, |at|))
    ensures ChargedAt(r, es, at, usage)
  {
    forall i: nat, k: nat | Between(es, at, i, k)
      ensures !Exceeds(es[i].event.total, TotalBefore(es, at, k))
    {
      if i == n && k < |at| { assert false; }
    }
  }

  // ----- the files of an applied patch --------------------------------------------------------

  /** The lines of a unified diff that add, its header aside. */
  function Pluses(lines: seq<string>): set<nat> { set i: nat | i < |lines| && Adds(lines[i]) }

  function Minuses(lines: seq<string>): set<nat> { set i: nat | i < |lines| && Removes(lines[i]) }

  predicate Adds(l: string) { l != "" && l[0] == '+' && !("+++" <= l) }

  predicate Removes(l: string) { l != "" && l[0] == '-' && !("---" <= l) }

  ghost predicate DiffCounted(unified: string, added: nat, removed: nat) {
    exists lines: seq<string> :: CutInto(unified, lines) && added == |Pluses(lines)| && removed == |Minuses(lines)|
  }

  predicate CutInto(s: string, lines: seq<string>) {
    lines != [] && s == Join(lines, '\n') && forall i | 0 <= i < |lines| :: Free(lines[i], '\n')
  }

  lemma DiffOne(l: string)
    ensures DiffCounts([l]).0 == (if Adds(l) then 1 else 0)
    ensures DiffCounts([l]).1 == (if Removes(l) then 1 else 0)
  {
    assert [l][1..] == [];
    assert DiffCounts([]) == (0, 0);
    Signs(l);
  }

  lemma Signs(l: string)
    ensures "+" <= l <==> l != "" && l[0] == '+'
    ensures "-" <= l <==> l != "" && l[0] == '-'
    ensures "+++" <= l ==> "+" <= l
    ensures "---" <= l ==> "-" <= l
  {
    if "+++" <= l { assert l[0] == "+++"[0]; }
    if "---" <= l { assert l[0] == "---"[0]; }
  }

  lemma {:induction false} DiffLast(lines: seq<string>, l: string)
    ensures DiffCounts(lines + [l]).0 == DiffCounts(lines).0 + (if Adds(l) then 1 else 0)
    ensures DiffCounts(lines + [l]).1 == DiffCounts(lines).1 + (if Removes(l) then 1 else 0)
    decreases |lines|
  {
    if lines == [] {
      assert lines + [l] == [l];
      DiffOne(l);
    } else {
      assert (lines + [l])[1..] == lines[1..] + [l] && (lines + [l])[0] == lines[0];
      DiffLast(lines[1..], l);
    }
  }

  lemma PlusesLast(lines: seq<string>, l: string)
    ensures |Pluses(lines + [l])| == |Pluses(lines)| + (if Adds(l) then 1 else 0)
  {
    var all := lines + [l];
    assert all[|lines|] == l && forall i | 0 <= i < |lines| :: all[i] == lines[i];
    assert Pluses(all) == Pluses(lines) + (if Adds(l) then {|lines|} else {});
  }

  lemma MinusesLast(lines: seq<string>, l: string)
    ensures |Minuses(lines + [l])| == |Minuses(lines)| + (if Removes(l) then 1 else 0)
  {
    var all := lines + [l];
    assert all[|lines|] == l && forall i | 0 <= i < |lines| :: all[i] == lines[i];
    assert Minuses(all) == Minuses(lines) + (if Removes(l) then {|lines|} else {});
  }

  lemma {:induction false} DiffSigns(lines: seq<string>)
    ensures DiffCounts(lines).0 == |Pluses(lines)| && DiffCounts(lines).1 == |Minuses(lines)|
    decreases |lines|
  {
    if lines != [] {
      var n := |lines| - 1;
      assert lines == lines[..n] + [lines[n]];
      DiffSigns(lines[..n]);
      DiffLast(lines[..n], lines[n]);
      PlusesLast(lines[..n], lines[n]);
      MinusesLast(lines[..n], lines[n]);
    }
  }

  /** The file a change leaves, and its counts. */
  ghost predicate Leaves(path: string, c: FileChange, f: FilePatch) {
    match c
    case NewFile(content) =>
      && f.path == path && f.removed == 0
      && f.added == |Breaks(content)| + (if content != "" && content[|content| - 1] == '\n' then 0 else 1)
    case Diff(unified, moveTo) =>
      f.path == (if moveTo == "" then path else moveTo) && DiffCounted(unified, f.added, f.removed)
    case Uncounted => false
  }

  lemma OneLeft(path: string, c: FileChange)
    ensures c.Uncounted? ==> ChangedFile(path, c) == []
    ensures !c.Uncounted? ==> |ChangedFile(path, c)| == 1 && Leaves(path, c, ChangedFile(path, c)[0])
  {
    match c
    case NewFile(content) => LinesCount(content);
    case Diff(unified, moveTo) =>
      var lines := Split(unified, '\n');
      SplitIsJoin(unified, '\n');
      DiffSigns(lines);
      assert CutInto(unified, lines);
    case Uncounted =>
  }

  ghost predicate LeftBy(changes: map<string, FileChange>, from: seq<string>, files: seq<FilePatch>) {
    |from| == |files| && forall k | 0 <= k < |from| :: from[k] in changes && Leaves(from[k], changes[from[k]], files[k])
  }

  lemma OneMoreLeft(changes: map<string, FileChange>, p: string, rest: seq<string>, files: seq<FilePatch>)
    requires p in changes && LeftBy(changes, rest, files)
    ensures LeftBy(changes, (if changes[p].Uncounted? then [] else [p]) + rest, ChangedFile(p, changes[p]) + files)
  {
    OneLeft(p, changes[p]);
    if changes[p].Uncounted? {
      assert [] + rest == rest && [] + files == files;
    } else {
      PutFirst(changes, p, ChangedFile(p, changes[p])[0], rest, files);
      assert ChangedFile(p, changes[p]) == [ChangedFile(p, changes[p])[0]];
    }
  }

  lemma PutFirst(changes: map<string, FileChange>, p: string, f: FilePatch, rest: seq<string>, files: seq<FilePatch>)
    requires p in changes && Leaves(p, changes[p], f) && LeftBy(changes, rest, files)
    ensures LeftBy(changes, [p] + rest, [f] + files)
  {
    var from, all := [p] + rest, [f] + files;
    forall k | 0 <= k < |from| ensures from[k] in changes && Leaves(from[k], changes[from[k]], all[k]) {
      if k > 0 { assert from[k] == rest[k - 1] && all[k] == files[k - 1]; }
    }
  }

  lemma OneMoreSorted(p: string, rest: seq<string>)
    requires Order.Sorted(rest) && forall q | q in rest :: Order.Below(p, q)
    ensures Order.Sorted([p] + rest)
  {
    forall k | 0 <= k < |rest| ensures Order.Below(p, rest[k]) { assert rest[k] in rest; }
  }

  lemma {:induction false} FilesLeft(changes: map<string, FileChange>, paths: seq<string>) returns (from: seq<string>)
    requires (forall p | p in paths :: p in changes) && Order.Sorted(paths)
    ensures LeftBy(changes, from, ChangedFiles(changes, paths))
    ensures forall p | p in paths && !changes[p].Uncounted? :: p in from
    ensures Order.Sorted(from) && forall p | p in from :: p in paths
    decreases |paths|
  {
    from := [];
    if paths != [] {
      var p := paths[0];
      var rest := FilesLeft(changes, paths[1..]);
      OneMoreLeft(changes, p, rest, ChangedFiles(changes, paths[1..]));
      forall q | q in rest ensures Order.Below(p, q) && q in paths { FirstBelow(paths, q); }
      OneMoreSorted(p, rest);
      from := (if changes[p].Uncounted? then [] else [p]) + rest;
      assert [] + rest == rest;
      forall q | q in paths && !changes[q].Uncounted? ensures q in from {
        if q != p { assert q in paths[1..]; }
      }
    }
  }

  lemma FirstBelow(paths: seq<string>, q: string)
    requires Order.Sorted(paths) && paths != [] && q in paths[1..]
    ensures Order.Below(paths[0], q) && q in paths
  {
  }

  /** The result of an applied patch counts one file per change that has lines to count, in
      the order of their paths, with its path after a move. */
  lemma AppliedFiles(changes: map<string, FileChange>) returns (from: seq<string>)
    ensures LeftBy(changes, from, AllChanged(changes)) && Order.Sorted(from)
    ensures forall p | p in changes && !changes[p].Uncounted? :: p in from
  {
    var paths := Order.Ordered(changes.Keys);
    assert forall p | p in paths :: p in Order.Elements(paths);
    from := FilesLeft(changes, paths);
    assert forall p | p in changes :: p in Order.Elements(paths);
  }

  // ----- event ids ------------------------------------------------------------------------------

  /** The number a run of decimal digits stands for. */
  function Value(s: string): int {
    if s == "" then 0 else 10 * Value(s[..|s| - 1]) + (s[|s| - 1] as int - '0' as int)
  }

  predicate Decimal(s: string) {
    s != "" && (forall c | c in s :: '0' <= c <= '9') && (|s| > 1 ==> s[0] != '0')
  }

  lemma {:induction false} ItoaIsDecimal(n: nat)
    ensures Decimal(Itoa(n)) && Value(Itoa(n)) == n
    ensures n > 0 ==> Itoa(n)[0] != '0'
    decreases n
  {
    var s := Itoa(n);
    if n >= 10 {
      ItoaIsDecimal(n / 10);
      assert s[..|s| - 1] == Itoa(n / 10);
      assert s[|s| - 1] == (n % 10) as char + '0';
      assert forall c | c in s :: c in s[..|s| - 1] || c == s[|s| - 1];
    } else {
      assert s[..|s| - 1] == "";
    }
  }
}
