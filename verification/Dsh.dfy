/** The DeepSeek Harness log parser: write and edit calls wait in a map for their
    result. Decompression and JSON decoding are parameters. */
module Dsh {
  import opened Types
  import opened TailScan
  import opened Text
  import Delivery
  import Rescan

  /** Parsed arguments of a tool call. */
  datatype Args = Args(path: string, content: string, oldString: string, newString: string)

  datatype Event =
    | Session(newId: Option<string>, newCwd: Option<string>)
    | Message(time: int, id: string, model: string, input: int, output: int, cacheRead: int, cacheWrite: int)
    | Call(time: int, callId: string, name: string, args: Args)
    | Result(callId: string, failed: bool)

  datatype Log = Log(
    unzip: Bytes -> Option<Bytes>, decode: Bytes -> Option<Event>, langOf: string -> string, tool: string)

  datatype Waiting = Waiting(time: int, path: string, added: int, removed: int)

  datatype State = State(
    id: string, cwd: string, pending: map<string, Waiting>, usage: seq<UsageRecord>, edits: seq<EditRecord>)

  const START := State("", "", map[], [], [])

  function CountLines(s: string): nat { if s == "" then 0 else Newlines(TrimNewline(s)) + 1 }

  function WaitingOf(e: Event): Waiting
    requires e.Call?
  {
    if e.name == "write" then Waiting(e.time, e.args.path, CountLines(e.args.content), 0)
    else Waiting(e.time, e.args.path, CountLines(e.args.newString), CountLines(e.args.oldString))
  }

  /** A call worth waiting for. */
  predicate Recorded(e: Event) {
    && e.Call? && e.callId != "" && (e.name == "write" || e.name == "edit") && e.args.path != ""
    && (WaitingOf(e).added > 0 || WaitingOf(e).removed > 0)
  }

  predicate Counted(e: Event) { e.Message? && e.id != "" && e.model != "" }

  function UsageOf(g: Log, st: State, e: Event): UsageRecord
    requires e.Message?
  {
    UsageRecord("dsh_" + st.id + "_" + e.id, "", st.id, g.tool, e.model, e.time,
                e.input, e.output, e.cacheWrite, 0, e.cacheRead, st.cwd)
  }

  function EditOf(g: Log, id: string, cwd: string, callId: string, w: Waiting): EditRecord {
    EditRecord(callId, id, g.tool, w.time, g.langOf(w.path), w.added, w.removed, cwd)
  }

  function OrKeep(o: Option<string>, current: string): string { if o.Some? then o.value else current }

  function Step(g: Log, st: State, e: Event): State {
    match e
    case Session(id, cwd) => State(OrKeep(id, st.id), OrKeep(cwd, st.cwd), st.pending, st.usage, st.edits)
    case Message(_, _, _, _, _, _, _) =>
      if Counted(e) then State(st.id, st.cwd, st.pending, st.usage + [UsageOf(g, st, e)], st.edits) else st
    case Call(_, callId, _, _) =>
      if Recorded(e) then State(st.id, st.cwd, st.pending[callId := WaitingOf(e)], st.usage, st.edits) else st
    case Result(callId, failed) =>
      if callId !in st.pending then st
      else
        var edits := if failed then st.edits else st.edits + [EditOf(g, st.id, st.cwd, callId, st.pending[callId])];
        State(st.id, st.cwd, st.pending - {callId}, st.usage, edits)
  }

  function Run(g: Log, es: seq<Event>): State
    decreases |es|
  {
    if es == [] then START else Step(g, Run(g, es[..|es| - 1]), Last(es))
  }

  function ResultOf(st: State): ScanResult { ScanResult(st.usage, st.edits) }

  function Events(g: Log, text: Bytes): seq<Event> { Rescan.Events(g.decode, text) }

  /** A file that does not decompress gives an error, and its result is dropped. */
  function Parse(g: Log, b: Bytes): Option<ScanResult> {
    if g.unzip(b).None? then None else Some(ResultOf(Run(g, Events(g, g.unzip(b).value))))
  }

  // ----- the loop -------------------------------------------------------------------

  method ParseDeepseekHarnessFile(g: Log, file: Bytes) returns (res: Option<ScanResult>)
    ensures res == Parse(g, file)
  {
    var text := g.unzip(file);
    if text.None? {
      return None;
    }
    var br := text.value;
    var st := START;
    ghost var done: seq<Event> := [];
    assert done + Events(g, br) == Events(g, text.value);
    while br != []
      invariant st == Run(g, done)
      invariant done + Events(g, br) == Events(g, text.value)
      decreases |br|
    {
      var n := LineLength(br);
      var line := if n == 0 then br else br[..n];
      Rescan.EventsUnfold(g.decode, br);
      var ev := g.decode(line);
      br := br[|line|..];
      if ev.Some? {
        Regroup(done, ev.value, Events(g, br));
        Extend(g, done, ev.value);
        st := Handle(g, st, ev.value);
        done := done + [ev.value];
      } else {
        assert [] + Events(g, br) == Events(g, br);
      }
    }
    assert done + [] == done;
    res := Some(ResultOf(st));
  }

  lemma Regroup<T>(a: seq<T>, x: T, b: seq<T>)
    ensures a + ([x] + b) == (a + [x]) + b
  {
  }

  /** The switch on the event's type. */
  method Handle(g: Log, st: State, ev: Event) returns (st': State)
    ensures st' == Step(g, st, ev)
  {
    var id, cwd, pending, usage, edits := st.id, st.cwd, st.pending, st.usage, st.edits;
    match ev {
      case Session(newId, newCwd) =>
        if newId.Some? { id := newId.value; }
        if newCwd.Some? { cwd := newCwd.value; }
      case Message(time, msgId, model, input, output, cacheRead, cacheWrite) =>
        if msgId != "" && model != "" {
          usage := usage + [UsageRecord("dsh_" + id + "_" + msgId, "", id, g.tool, model, time,
                                        input, output, cacheWrite, 0, cacheRead, cwd)];
        }
      case Call(time, callId, name, args) =>
        if callId != "" && (name == "write" || name == "edit") && args.path != "" {
          var added, removed := 0, 0;
          if name == "write" {
            added := CountLines(args.content);
          } else {
            added := CountLines(args.newString);
            removed := CountLines(args.oldString);
          }
          if added > 0 || removed > 0 {
            pending := pending[callId := Waiting(time, args.path, added, removed)];
          }
        }
      case Result(callId, failed) =>
        if callId in pending {
          var w := pending[callId];
          pending := pending - {callId};
          if !failed {
            edits := edits + [EditOf(g, id, cwd, callId, w)];
          }
        }
    }
    st' := State(id, cwd, pending, usage, edits);
  }

  lemma Extend(g: Log, es: seq<Event>, e: Event)
    ensures Run(g, es + [e]) == Step(g, Run(g, es), e)
  {
    assert (es + [e])[..|es|] == es;
  }

  // ----- a longer log ---------------------------------------------------------------

  /** Nothing a shorter log gave is changed or reordered by what follows. */
  lemma {:induction false} ResultsExtend(g: Log, es: seq<Event>, more: seq<Event>)
    ensures Run(g, es).usage <= Run(g, es + more).usage
    ensures Run(g, es).edits <= Run(g, es + more).edits
    decreases |more|
  {
    if more == [] {
      assert es + more == es;
    } else {
      var init := more[..|more| - 1];
      assert es + more == (es + init) + [Last(more)];
      Extend(g, es + init, Last(more));
      ResultsExtend(g, es, init);
    }
  }

  // ----- which call fires which edit --------------------------------------------------

  /** Says something about the call id: records a call, or answers it. */
  predicate Concerns(e: Event, id: string) { (Recorded(e) || e.Result?) && e.callId == id }

  /** Call `i` of `es` still waits at the end. */
  predicate Open(es: seq<Event>, id: string, i: nat) {
    && i < |es| && Recorded(es[i]) && es[i].callId == id
    && forall k | i < k < |es| :: !Concerns(es[k], id)
  }

  /** Result `j` answers call `i`: same id, no error, later, nothing between. */
  predicate Matched(es: seq<Event>, i: nat, j: nat) {
    && i < j < |es| && es[j].Result? && !es[j].failed
    && Open(es[..j], es[j].callId, i)
  }

  /** The map holds exactly the calls still waiting, each as it was last made. */
  lemma {:induction false} PendingIsOpen(g: Log, es: seq<Event>, id: string)
    ensures id in Run(g, es).pending <==> exists i: nat :: Open(es, id, i)
    ensures forall i: nat | Open(es, id, i) :: id in Run(g, es).pending && Run(g, es).pending[id] == WaitingOf(es[i])
    decreases |es|
  {
    if es != [] {
      var n := |es| - 1;
      var init, e := es[..n], es[n];
      PendingIsOpen(g, init, id);
      if Concerns(e, id) {
        assert Recorded(e) ==> Open(es, id, n);
        forall i: nat | Open(es, id, i) ensures i == n { }
      } else {
        forall i: nat ensures Open(es, id, i) <==> Open(init, id, i) { OpenStays(es, id, i); }
      }
    }
  }

  lemma OpenStays(es: seq<Event>, id: string, i: nat)
    requires es != [] && !Concerns(es[|es| - 1], id)
    ensures Open(es, id, i) <==> Open(es[..|es| - 1], id, i)
  {
    var n := |es| - 1;
    if Open(es[..n], id, i) {
      forall k | i < k < |es| ensures !Concerns(es[k], id) {
        if k < n { assert es[..n][k] == es[k]; }
      }
    }
  }

  /** The answered calls, in the order of their results. */
  ghost function Fired(es: seq<Event>): seq<(nat, nat)>
    decreases |es|
  {
    if es == [] then []
    else
      var n := |es| - 1;
      var pairs := Fired(es[..n]);
      if exists i: nat :: Matched(es, i, n) then (var i: nat :| Matched(es, i, n); pairs + [(i, n)]) else pairs
  }

  lemma OneOpen(es: seq<Event>, id: string, i: nat, j: nat)
    requires Open(es, id, i) && Open(es, id, j)
    ensures i == j
  {
  }

  /** The result that answered a call stands between it and any later one. */
  lemma Answered(es: seq<Event>, i: nat, j: nat, k: nat)
    requires Matched(es, i, j) && j < k
    ensures !Matched(es, i, k)
  {
    assert k <= |es| ==> es[..k][i] == es[i] && es[..k][j] == es[j];
    assert es[..j][i] == es[i];
  }

  /** A call is answered at most once, a result answers at most one call. */
  lemma MatchedOnce(es: seq<Event>, i: nat, j: nat, i': nat, j': nat)
    requires Matched(es, i, j) && Matched(es, i', j')
    ensures i == i' <==> j == j'
  {
    if j == j' {
      OneOpen(es[..j], es[j].callId, i, i');
    } else if j < j' {
      Answered(es, i, j, j');
    } else {
      Answered(es, i', j', j);
    }
  }

  lemma MatchedEarlier(es: seq<Event>, n: nat, i: nat, j: nat)
    requires n <= |es| && j < n
    ensures Matched(es, i, j) <==> Matched(es[..n], i, j)
  {
    assert es[..n][..j] == es[..j];
  }

  ghost function FiredEdit(g: Log, es: seq<Event>, p: (nat, nat)): EditRecord
    requires Matched(es, p.0, p.1)
  {
    var at := Run(g, es[..p.1]);
    EditOf(g, at.id, at.cwd, es[p.0].callId, WaitingOf(es[p.0]))
  }

  ghost predicate Fires(g: Log, es: seq<Event>, p: (nat, nat), edit: EditRecord) {
    Matched(es, p.0, p.1) && edit == FiredEdit(g, es, p)
  }

  /** The edits are exactly the answered calls: one edit per matched pair, in the
      order of the results, each with the content of its call. */
  lemma {:induction false} EditsAreMatches(g: Log, es: seq<Event>)
    ensures |Run(g, es).edits| == |Fired(es)|
    ensures forall k | 0 <= k < |Fired(es)| :: Fires(g, es, Fired(es)[k], Run(g, es).edits[k])
    ensures forall i: nat, j: nat | Matched(es, i, j) :: (i, j) in Fired(es)
    decreases |es|
  {
    if es != [] {
      var n := |es| - 1;
      var init, e := es[..n], es[n];
      EditsAreMatches(g, init);
      forall k | 0 <= k < |Fired(init)| ensures Fires(g, es, Fired(init)[k], Run(g, init).edits[k]) {
        StillFires(g, es, n, Fired(init)[k], Run(g, init).edits[k]);
      }
      forall i: nat, j: nat | Matched(es, i, j) && j < n ensures (i, j) in Fired(init) {
        MatchedEarlier(es, n, i, j);
      }
      LastFires(g, es);
    }
  }

  lemma StillFires(g: Log, es: seq<Event>, n: nat, p: (nat, nat), edit: EditRecord)
    requires n <= |es| && Fires(g, es[..n], p, edit)
    ensures Fires(g, es, p, edit)
  {
    MatchedEarlier(es, n, p.0, p.1);
    assert es[..n][..p.1] == es[..p.1];
  }

  lemma LastFires(g: Log, es: seq<Event>)
    requires es != []
    ensures var n := |es| - 1; var init := es[..n];
            if exists i: nat :: Matched(es, i, n)
            then exists i: nat :: Fired(es) == Fired(init) + [(i, n)] && Matched(es, i, n)
                             && Run(g, es).edits == Run(g, init).edits + [FiredEdit(g, es, (i, n))]
                             && forall i': nat | Matched(es, i', n) :: i' == i
            else Fired(es) == Fired(init) && Run(g, es).edits == Run(g, init).edits
  {
    var n := |es| - 1;
    var init, e := es[..n], es[n];
    if e.Result? {
      PendingIsOpen(g, init, e.callId);
      if !e.failed && e.callId in Run(g, init).pending {
        var i: nat :| Open(init, e.callId, i);
        assert Matched(es, i, n);
      }
    }
    if exists i: nat :: Matched(es, i, n) {
      var i: nat :| Matched(es, i, n) && Fired(es) == Fired(init) + [(i, n)];
      assert Open(init, e.callId, i);
      forall i': nat | Matched(es, i', n) ensures i' == i { MatchedOnce(es, i, n, i', n); }
    }
  }

  // ----- a log as a source of the delivery protocol -------------------------------------

  /** A log grows by whole frames: what a readable earlier state decompressed to is
      a prefix of what the file decompresses to now, with lines well written. */
  predicate Appended(g: Log, b: Bytes) {
    g.unzip(b).Some? ==>
      && Rescan.WellWritten(g.decode, g.unzip(b).value)
      && forall k | 0 <= k <= |b| ::
           g.unzip(b[..k]).Some? ==> g.unzip(b[..k]).value <= g.unzip(b).value
  }

  lemma DshSource(g: Log)
    requires g.unzip([]).Some? ==> g.unzip([]).value == []
    ensures Delivery.Converges(Delivery.Reparsed(b => Parse(g, b)), b => Appended(g, b))
  {
    var src, legal := Delivery.Reparsed(b => Parse(g, b)), (b: Bytes) => Appended(g, b);
    assert Events(g, []) == [];
    assert Delivery.Yield(src, []) == {};
    forall b, c | legal(b + c) && src.parse(b + c).Some?
      ensures Delivery.Yield(src, b) <= Delivery.Yield(src, b + c)
    {
      if src.parse(b).Some? {
        LogGrows(g, b, c);
      }
    }
  }

  lemma LogGrows(g: Log, b: Bytes, c: Bytes)
    requires Appended(g, b + c) && Parse(g, b).Some? && Parse(g, b + c).Some?
    ensures Parse(g, b).value.usage <= Parse(g, b + c).value.usage
    ensures Parse(g, b).value.edits <= Parse(g, b + c).value.edits
  {
    assert (b + c)[..|b|] == b;
    var x, y := g.unzip(b).value, g.unzip(b + c).value;
    assert y == x + y[|x|..];
    Rescan.EventsPrefix(g.decode, x, y[|x|..]);
    var es, fs := Events(g, x), Events(g, y);
    assert fs == es + fs[|es|..];
    ResultsExtend(g, es, fs[|es|..]);
  }
}
