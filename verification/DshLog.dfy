/** What a DeepSeek Harness log says, read off its events and not off the state machine that
    parses it: its messages, and the write and edit calls that a result confirms. */
module DshLog {
  import opened Types
  import opened Text
  import opened Dsh

  /** The lines of a text; an empty one has none, a last line needs no newline. */
  function LinesIn(s: string): nat {
    |Breaks(s)| + (if s == "" || s[|s| - 1] == '\n' then 0 else 1)
  }

  lemma CountLinesIs(s: string)
    ensures CountLines(s) == LinesIn(s)
  {
    LinesCount(s);
    if s == "" { assert Breaks(s) == {}; }
  }

  function AddedBy(e: Event): nat
    requires e.Call?
  {
    LinesIn(if e.name == "write" then e.args.content else e.args.newString)
  }

  function RemovedBy(e: Event): nat
    requires e.Call?
  {
    if e.name == "edit" then LinesIn(e.args.oldString) else 0
  }

  /** A write or an edit of a file that adds or removes a line. */
  predicate Edits(e: Event) {
    && e.Call? && e.callId != "" && e.args.path != "" && e.name in ["write", "edit"]
    && AddedBy(e) + RemovedBy(e) > 0
  }

  lemma EditsIs(e: Event)
    ensures Edits(e) <==> Recorded(e)
    ensures Edits(e) ==> WaitingOf(e) == Waiting(e.time, e.args.path, AddedBy(e), RemovedBy(e))
  {
    if e.Call? {
      CountLinesIs(e.args.content);
      CountLinesIs(e.args.newString);
      CountLinesIs(e.args.oldString);
    }
  }

  // ----- session header ---------------------------------------------------------------

  /** The session id and the directory after the first `n` events: those of the last header
      that gave one, and none before the first. */
  ghost predicate IdIs(es: seq<Event>, n: nat, id: string) {
    (id == "" && forall i | 0 <= i < n && i < |es| && es[i].Session? :: es[i].newId.None?)
    || exists i: nat :: LastId(es, n, i, id)
  }

  ghost predicate LastId(es: seq<Event>, n: nat, i: nat, id: string) {
    && i < n && i < |es| && es[i].Session? && es[i].newId == Some(id)
    && forall j | i < j < n && j < |es| && es[j].Session? :: es[j].newId.None?
  }

  ghost predicate CwdIs(es: seq<Event>, n: nat, cwd: string) {
    (cwd == "" && forall i | 0 <= i < n && i < |es| && es[i].Session? :: es[i].newCwd.None?)
    || exists i: nat :: LastCwd(es, n, i, cwd)
  }

  ghost predicate LastCwd(es: seq<Event>, n: nat, i: nat, cwd: string) {
    && i < n && i < |es| && es[i].Session? && es[i].newCwd == Some(cwd)
    && forall j | i < j < n && j < |es| && es[j].Session? :: es[j].newCwd.None?
  }

  lemma {:induction false} IdAt(g: Log, es: seq<Event>, n: nat)
    requires n <= |es|
    ensures IdIs(es, n, Run(g, es[..n]).id)
    decreases n
  {
    if n > 0 {
      IdAt(g, es, n - 1);
      assert es[..n][..n - 1] == es[..n - 1];
      var m, id, e := n - 1, Run(g, es[..n - 1]).id, es[n - 1];
      if e.Session? && e.newId.Some? {
        assert LastId(es, n, n - 1, e.newId.value);
      } else if exists i: nat :: LastId(es, m, i, id) {
        var i: nat :| LastId(es, m, i, id);
        assert LastId(es, n, i, id);
      }
    }
  }

  lemma {:induction false} CwdAt(g: Log, es: seq<Event>, n: nat)
    requires n <= |es|
    ensures CwdIs(es, n, Run(g, es[..n]).cwd)
    decreases n
  {
    if n > 0 {
      CwdAt(g, es, n - 1);
      assert es[..n][..n - 1] == es[..n - 1];
      var m, cwd, e := n - 1, Run(g, es[..n - 1]).cwd, es[n - 1];
      if e.Session? && e.newCwd.Some? {
        assert LastCwd(es, n, n - 1, e.newCwd.value);
      } else if exists i: nat :: LastCwd(es, m, i, cwd) {
        var i: nat :| LastCwd(es, m, i, cwd);
        assert LastCwd(es, n, i, cwd);
      }
    }
  }

  // ----- the edits -----------------------------------------------------------------------

  /** Records a call with the id, or answers it. */
  predicate Concerning(e: Event, id: string) {
    (e.Call? && e.callId == id && Edits(e)) || (e.Result? && e.callId == id)
  }

  /** Result `j` confirms call `i`: the first event after the call that records the same id
      again or answers it, and without an error. */
  ghost predicate Answers(es: seq<Event>, i: nat, j: nat) {
    && i < j < |es| && Edits(es[i]) && es[j].Result? && !es[j].failed && es[j].callId == es[i].callId
    && forall k | i < k < j :: !Concerning(es[k], es[i].callId)
  }

  lemma AnswersIs(es: seq<Event>, i: nat, j: nat)
    ensures Answers(es, i, j) <==> Matched(es, i, j)
  {
    forall e: Event ensures Edits(e) <==> Recorded(e) { EditsIs(e); }
    if i < j < |es| {
      forall k | 0 <= k < j ensures es[..j][k] == es[k] { }
    }
  }

  ghost predicate IsEdit(g: Log, es: seq<Event>, i: nat, j: nat, edit: EditRecord)
    requires Answers(es, i, j)
  {
    && edit.eventId == es[i].callId && edit.tool == g.tool && edit.timestamp == es[i].time
    && edit.lang == g.langOf(es[i].args.path)
    && edit.linesAdded == AddedBy(es[i]) && edit.linesRemoved == RemovedBy(es[i])
    && IdIs(es, j, edit.sessionId) && CwdIs(es, j, edit.projectPath)
  }

  ghost predicate EditFrom(g: Log, es: seq<Event>, p: (nat, nat), edit: EditRecord) {
    Answers(es, p.0, p.1) && IsEdit(g, es, p.0, p.1, edit)
  }

  lemma FiresFrom(g: Log, es: seq<Event>, p: (nat, nat), edit: EditRecord)
    requires Fires(g, es, p, edit)
    ensures EditFrom(g, es, p, edit)
  {
    AnswersIs(es, p.0, p.1);
    EditsIs(es[p.0]);
    IdAt(g, es, p.1);
    CwdAt(g, es, p.1);
  }

  lemma {:induction false} FiredRise(es: seq<Event>)
    ensures forall k | 0 <= k < |Fired(es)| :: Fired(es)[k].1 < |es|
    ensures forall k, l | 0 <= k < l < |Fired(es)| :: Fired(es)[k].1 < Fired(es)[l].1
    decreases |es|
  {
    if es != [] { FiredRise(es[..|es| - 1]); }
  }

  /** The edits of a log: one per confirmed call in the order of the results, with the file,
      the time and the lines of its call and the session of its result, and no other. */
  lemma LogEdits(g: Log, es: seq<Event>) returns (pairs: seq<(nat, nat)>)
    ensures |pairs| == |ResultOf(Run(g, es)).edits|
    ensures forall k | 0 <= k < |pairs| :: EditFrom(g, es, pairs[k], ResultOf(Run(g, es)).edits[k])
    ensures forall k, l | 0 <= k < l < |pairs| :: pairs[k].1 < pairs[l].1
    ensures forall i: nat, j: nat | Answers(es, i, j) :: (i, j) in pairs
  {
    pairs := Fired(es);
    EditsAreMatches(g, es);
    FiredRise(es);
    forall k | 0 <= k < |pairs| ensures EditFrom(g, es, pairs[k], Run(g, es).edits[k]) {
      FiresFrom(g, es, pairs[k], Run(g, es).edits[k]);
    }
    forall i: nat, j: nat | Answers(es, i, j) ensures (i, j) in pairs { AnswersIs(es, i, j); }
  }

  // ----- the messages ----------------------------------------------------------------------

  predicate Bills(e: Event) { e.Message? && e.id != "" && e.model != "" }

  ghost predicate RecordFrom(g: Log, es: seq<Event>, i: nat, rec: UsageRecord) {
    && i < |es| && Bills(es[i])
    && IdIs(es, i, rec.sessionId) && CwdIs(es, i, rec.projectPath)
    && rec.messageId == "dsh_" + rec.sessionId + "_" + es[i].id && rec.requestId == ""
    && rec.tool == g.tool && rec.model == es[i].model && rec.timestamp == es[i].time
    && rec.inputTokens == es[i].input && rec.outputTokens == es[i].output
    && rec.cacheReadTokens == es[i].cacheRead && rec.cacheCreationTokens == es[i].cacheWrite
    && rec.cacheCreation1hTokens == 0
  }

  /** `usage[k]` is the record of message `at[k]`, and every message before `n` has one. */
  ghost predicate RecordsFrom(g: Log, es: seq<Event>, n: nat, at: seq<nat>, usage: seq<UsageRecord>) {
    && |at| == |usage|
    && (forall k | 0 <= k < |at| :: at[k] < n && RecordFrom(g, es, at[k], usage[k]))
    && (forall k, l | 0 <= k < l < |at| :: at[k] < at[l])
    && (forall i: nat | i < n && i < |es| && Bills(es[i]) :: i in at)
  }

  lemma OneRecord(g: Log, es: seq<Event>, n: nat, at: seq<nat>, usage: seq<UsageRecord>, rec: UsageRecord)
    requires RecordsFrom(g, es, n, at, usage) && RecordFrom(g, es, n, rec)
    ensures RecordsFrom(g, es, n + 1, at + [n], usage + [rec])
  {
    var all, more := at + [n], usage + [rec];
    forall k | 0 <= k < |all| ensures all[k] < n + 1 && RecordFrom(g, es, all[k], more[k]) {
      if k < |at| { assert all[k] == at[k] && more[k] == usage[k]; }
    }
    forall i: nat | i < n + 1 && i < |es| && Bills(es[i]) ensures i in all {
      if i < n { assert i in at; } else { assert all[|at|] == i; }
    }
  }

  /** The usage of a log: one record per message with an id and a model, in log order, with
      its counts and the session of the header before it. */
  lemma {:induction false} LogUsage(g: Log, es: seq<Event>, n: nat) returns (at: seq<nat>)
    requires n <= |es|
    ensures RecordsFrom(g, es, n, at, Run(g, es[..n]).usage)
    decreases n
  {
    at := [];
    if n > 0 {
      at := LogUsage(g, es, n - 1);
      var st := Run(g, es[..n - 1]);
      assert es[..n][..n - 1] == es[..n - 1];
      if Bills(es[n - 1]) {
        IdAt(g, es, n - 1);
        CwdAt(g, es, n - 1);
        OneRecord(g, es, n - 1, at, st.usage, UsageOf(g, st, es[n - 1]));
        at := at + [n - 1];
      }
    }
  }
}
