/** The Codex rollout parser as a state machine over decoded lines. JSON decoding
    is a parameter. The whole file is parsed again on every change, so what the
    server ends up with depends on how a longer parse relates to a shorter one. */
module Codex {
  import opened Types
  import opened TailScan
  import opened Text
  import opened CodexPatch
  import Order
  import Rescan

  /** Cumulative token counters of a session. */
  datatype Counters = Counters(input: int, cached: int, output: int, reasoning: int)

  const NO_COUNT := Counters(0, 0, 0, 0)

  /** One entry of a patch_apply_end; an absent move target is "". */
  datatype FileChange = NewFile(content: string) | Diff(unified: string, moveTo: string) | Uncounted

  datatype Event =
    | SessionMeta(id: string)
    | TurnContext(model: string)
    | ToolCall(callId: string, name: string, input: string)
    | ToolOutput(callId: string, succeeded: bool)
    | PatchApplied(callId: string, success: bool, changes: map<string, FileChange>)
    | TokenCount(total: Counters)

  datatype Line = Line(stamp: string, event: Event)

  /** One file and how its lines read; `session` is the id in its name. */
  datatype Rollout = Rollout(
    decode: Bytes -> Option<Line>, time: string -> int, langOf: string -> string,
    tool: string, project: string, session: string)

  datatype Patch = Patch(callId: string, stamp: string, files: seq<FilePatch>)

  datatype State = State(
    session: string, model: string, prev: Counters,
    usage: seq<UsageRecord>, patches: seq<Patch>, patchOk: set<string>)

  // ----- one line -----------------------------------------------------------

  predicate Advances(prev: Counters, t: Counters) {
    t.input > prev.input || t.output > prev.output || t.cached > prev.cached || t.reasoning > prev.reasoning
  }

  function Rise(from: int, to: int): nat { Max(0, to - from) }

  /** The record of one advance: uncached input, output with reasoning included. */
  function Charge(r: Rollout, session: string, model: string, stamp: string, prev: Counters, t: Counters): UsageRecord {
    UsageRecord("cdx_" + session + "_" + stamp, "", session, r.tool, model, r.time(stamp),
                Max(0, Rise(prev.input, t.input) - Rise(prev.cached, t.cached)), Rise(prev.output, t.output),
                0, 0, Rise(prev.cached, t.cached), r.project)
  }

  function DiffCounts(lines: seq<string>): (nat, nat) {
    if lines == [] then (0, 0)
    else
      var (a, r) := DiffCounts(lines[1..]);
      var l := lines[0];
      if "+++" <= l || "---" <= l then (a, r)
      else if "+" <= l then (a + 1, r)
      else if "-" <= l then (a, r + 1)
      else (a, r)
  }

  function ChangedFile(path: string, c: FileChange): seq<FilePatch> {
    match c
    case NewFile(content) => [FilePatch(path, Newlines(TrimNewline(content)) + 1, 0)]
    case Diff(unified, moveTo) =>
      var (a, r) := DiffCounts(Split(unified, '\n'));
      [FilePatch(if moveTo != "" then moveTo else path, a, r)]
    case Uncounted => []
  }

  function ChangedFiles(changes: map<string, FileChange>, paths: seq<string>): seq<FilePatch>
    requires forall p | p in paths :: p in changes
  {
    if paths == [] then [] else ChangedFile(paths[0], changes[paths[0]]) + ChangedFiles(changes, paths[1..])
  }

  /** The files in the order of their paths. */
  ghost function AllChanged(changes: map<string, FileChange>): seq<FilePatch> {
    var paths := Order.Ordered(changes.Keys);
    assert forall p | p in paths :: p in Order.Elements(paths);
    ChangedFiles(changes, paths)
  }

  predicate Known(patches: seq<Patch>, callId: string) { exists i | 0 <= i < |patches| :: patches[i].callId == callId }

  ghost function Step(r: Rollout, st: State, line: Line): State {
    match line.event
    case SessionMeta(id) => if st.session == "" then st.(session := id) else st
    case TurnContext(model) => if model != "" then st.(model := model) else st
    case ToolCall(callId, name, input) =>
      var files := FilesOf(name, input);
      if callId == "" || files == [] then st
      else st.(patches := st.patches + [Patch(callId, line.stamp, files)])
    case ToolOutput(callId, succeeded) =>
      if callId != "" && succeeded then st.(patchOk := st.patchOk + {callId}) else st
    case PatchApplied(callId, success, changes) =>
      var files := AllChanged(changes);
      if !success || callId == "" || Known(st.patches, callId) || files == [] then st
      else st.(patches := st.patches + [Patch(callId, line.stamp, files)], patchOk := st.patchOk + {callId})
    case TokenCount(t) =>
      if !Advances(st.prev, t) then st
      else st.(prev := t, usage := st.usage + [Charge(r, st.session, st.model, line.stamp, st.prev, t)])
  }

  function Start(r: Rollout): State { State(r.session, "", NO_COUNT, [], [], {}) }

  ghost function Run(r: Rollout, st: State, es: seq<Line>): State
    decreases |es|
  {
    if es == [] then st else Run(r, Step(r, st, es[0]), es[1..])
  }

  // ----- the edits of the confirmed patches -------------------------------------

  function Itoa(n: nat): string {
    if n < 10 then [n as char + '0'] else Itoa(n / 10) + [(n % 10) as char + '0']
  }

  function EventId(callId: string, i: nat): string { callId + "#" + Itoa(i) }

  function EditOf(r: Rollout, session: string, p: Patch, i: nat): EditRecord
    requires i < |p.files|
  {
    var fp := p.files[i];
    EditRecord(EventId(p.callId, i), session, r.tool, r.time(p.stamp), r.langOf(fp.path), fp.added, fp.removed,
               r.project)
  }

  function PatchEdits(r: Rollout, session: string, p: Patch, n: nat): seq<EditRecord>
    requires n <= |p.files|
  {
    if n == 0 then [] else PatchEdits(r, session, p, n - 1) + [EditOf(r, session, p, n - 1)]
  }

  function Edits(r: Rollout, session: string, patches: seq<Patch>, ok: set<string>): seq<EditRecord> {
    if patches == [] then []
    else
      (if patches[0].callId in ok then PatchEdits(r, session, patches[0], |patches[0].files|) else [])
      + Edits(r, session, patches[1..], ok)
  }

  function ResultOf(r: Rollout, st: State): ScanResult {
    ScanResult(st.usage, Edits(r, st.session, st.patches, st.patchOk))
  }

  // ----- a whole file -----------------------------------------------------------

  function Events(r: Rollout, b: Bytes): seq<Line> { Rescan.Events(r.decode, b) }

  ghost function Final(r: Rollout, es: seq<Line>): State { Run(r, Start(r), es) }

  ghost function Parse(r: Rollout, b: Bytes): ScanResult { ResultOf(r, Final(r, Events(r, b))) }

  // ----- the scan state object ----------------------------------------------------

  class CodexScan {
    const r: Rollout
    var session: string
    var model: string
    var prev: Counters
    var usage: seq<UsageRecord>
    var patches: seq<Patch>
    var patchOk: set<string>

    constructor (r: Rollout)
      ensures this.r == r && Now() == Start(r)
    {
      this.r := r;
      session, model, prev, usage, patches, patchOk := r.session, "", NO_COUNT, [], [], {};
    }

    function Now(): State
      reads this
    {
      State(session, model, prev, usage, patches, patchOk)
    }

    /** A line that does not decode is skipped. */
    method Emit(piece: Bytes)
      modifies this
      ensures Now() == if r.decode(piece).Some? then Step(r, old(Now()), r.decode(piece).value) else old(Now())
    {
      var decoded := r.decode(piece);
      if decoded.None? {
        return;
      }
      var l := decoded.value;
      match l.event {
        case SessionMeta(id) =>
          if session == "" { session := id; }
        case TurnContext(m) =>
          if m != "" { model := m; }
        case ToolCall(callId, name, input) =>
          if callId == "" {
            return;
          }
          var files := CallFiles(name, input);
          if |files| > 0 {
            patches := patches + [Patch(callId, l.stamp, files)];
          }
        case ToolOutput(callId, succeeded) =>
          if callId != "" && succeeded { patchOk := patchOk + {callId}; }
        case PatchApplied(callId, success, changes) =>
          AddPatchApplyEnd(l);
        case TokenCount(t) =>
          CountTokens(l.stamp, t);
      }
    }

    method CountTokens(stamp: string, t: Counters)
      modifies this
      ensures Now() == Step(r, old(Now()), Line(stamp, TokenCount(t)))
    {
      var dIn := t.input - prev.input;
      var dOut := t.output - prev.output;
      var dCache := t.cached - prev.cached;
      var dReason := t.reasoning - prev.reasoning;
      if dIn <= 0 && dOut <= 0 && dCache <= 0 && dReason <= 0 {
        return; // the previous turn's totals again
      }
      if dIn < 0 { dIn := 0; }
      if dOut < 0 { dOut := 0; }
      if dCache < 0 { dCache := 0; }
      var dUncached := dIn - dCache;
      if dUncached < 0 { dUncached := 0; }
      prev := t;
      usage := usage + [UsageRecord("cdx_" + session + "_" + stamp, "", session, r.tool, model, r.time(stamp),
                                    dUncached, dOut, 0, 0, dCache, r.project)];
    }

    method AddPatchApplyEnd(l: Line)
      requires l.event.PatchApplied?
      modifies this
      ensures Now() == Step(r, old(Now()), l)
    {
      var callId := l.event.callId;
      if !l.event.success || callId == "" {
        return;
      }
      for i := 0 to |patches|
        invariant forall j | 0 <= j < i :: patches[j].callId != callId
        invariant Now() == old(Now())
      {
        if patches[i].callId == callId {
          return; // already counted from its envelope
        }
      }
      var files := SortedChanges(l.event.changes);
      if |files| > 0 {
        patches := patches + [Patch(callId, l.stamp, files)];
        patchOk := patchOk + {callId};
      }
    }

    method Result() returns (res: ScanResult)
      ensures res == ResultOf(r, Now())
    {
      var edits: seq<EditRecord> := [];
      assert patches[0..] == patches;
      assert edits + Edits(r, session, patches[0..], patchOk) == Edits(r, session, patches, patchOk);
      for i := 0 to |patches|
        invariant edits + Edits(r, session, patches[i..], patchOk) == Edits(r, session, patches, patchOk)
      {
        var p := patches[i];
        assert patches[i..][1..] == patches[i + 1..];
        ghost var rest := Edits(r, session, patches[i + 1..], patchOk);
        if p.callId !in patchOk {
          assert [] + rest == rest;
          continue;
        }
        Assoc(edits, PatchEdits(r, session, p, |p.files|), rest);
        ghost var before := edits;
        for k := 0 to |p.files|
          invariant edits == before + PatchEdits(r, session, p, k)
        {
          edits := edits + [EditOf(r, session, p, k)];
        }
      }
      res := ScanResult(usage, edits);
    }
  }

  method CallFiles(name: string, input: string) returns (files: seq<FilePatch>)
    ensures files == FilesOf(name, input)
  {
    var envs := CodexPatchEnvelopes(name, input);
    files := [];
    assert envs[0..] == envs;
    for i := 0 to |envs|
      invariant files + AllFiles(envs[i..]) == AllFiles(envs)
    {
      assert envs[i..][1..] == envs[i + 1..];
      var more := ParseApplyPatch(envs[i]);
      Assoc(files, more, AllFiles(envs[i + 1..]));
      files := files + more;
    }
    assert files + [] == files;
  }

  method ChangesAlong(changes: map<string, FileChange>, paths: seq<string>) returns (files: seq<FilePatch>)
    requires forall p | p in paths :: p in changes
    ensures files == ChangedFiles(changes, paths)
  {
    files := [];
    var rest := paths;
    while rest != []
      invariant forall p | p in rest :: p in changes
      invariant files + ChangedFiles(changes, rest) == ChangedFiles(changes, paths)
      decreases |rest|
    {
      var more := ChangedFile(rest[0], changes[rest[0]]);
      Assoc(files, more, ChangedFiles(changes, rest[1..]));
      files, rest := files + more, rest[1..];
    }
    assert files + [] == files;
  }

  /** The map's random order is sorted away first. */
  method SortedChanges(changes: map<string, FileChange>) returns (files: seq<FilePatch>)
    ensures files == AllChanged(changes)
  {
    var paths := Order.SortKeys(changes.Keys);
    Order.OrderFree(paths, changes.Keys);
    assert forall p | p in paths :: p in Order.Elements(paths);
    files := ChangesAlong(changes, paths);
  }

  lemma {:induction false} RunAppend(r: Rollout, st: State, es: seq<Line>, more: seq<Line>)
    ensures Run(r, st, es + more) == Run(r, Run(r, st, es), more)
    decreases |es|
  {
    if es == [] {
      assert es + more == more;
    } else {
      assert (es + more)[1..] == es[1..] + more;
      RunAppend(r, Step(r, st, es[0]), es[1..], more);
    }
  }

  /** parseCodexFile: read, emit, read until the file ends. */
  method ParseCodexFile(r: Rollout, content: Bytes) returns (res: ScanResult)
    ensures res == Parse(r, content)
  {
    var st := new CodexScan(r);
    var br := content;
    while br != []
      invariant st.r == r && fresh(st)
      invariant Run(r, st.Now(), Events(r, br)) == Final(r, Events(r, content))
      decreases |br|
    {
      var n := LineLength(br);
      var line := if n == 0 then br else br[..n];
      PieceStep(r, st.Now(), br);
      st.Emit(line);
      br := br[|line|..];
    }
    res := st.Result();
  }

  lemma PieceStep(r: Rollout, st: State, b: Bytes)
    requires b != []
    ensures var n := LineLength(b); var line := if n == 0 then b else b[..n];
            Run(r, st, Events(r, b))
            == Run(r, if r.decode(line).Some? then Step(r, st, r.decode(line).value) else st, Events(r, b[|line|..]))
  {
    var n := LineLength(b);
    var line := if n == 0 then b else b[..n];
    Rescan.EventsUnfold(r.decode, b);
    var rest := Events(r, b[|line|..]);
    if r.decode(line).Some? {
      assert ([r.decode(line).value] + rest)[1..] == rest;
    } else {
      assert [] + rest == rest;
    }
  }
}
