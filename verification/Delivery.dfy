/** The watcher-to-server protocol as a state machine: files that grow and
    rotate, the in-memory and on-disk checkpoint, the spool, the server tables,
    the control point of the watcher between two of its effects, and the requests of
    other watchers, which the server takes in between. A crash can
    happen at every control point; every POST may land wholly, half or not at
    all, whatever the watcher is told.

    Assumptions about the environment, each a condition of the step it concerns:
    a file with an unchanged inode only grows; a replaced file gets an inode that
    no checkpoint still holds; spool names are distinct; renames are atomic; a
    file is not replaced between its stat and its read (it may grow); a 2xx reply
    means both statements of the request committed. */
module Delivery {
  import opened Types
  import opened Dedup
  import opened Rollup
  import opened StoreSpec
  import opened TailScan

  type Path = string

  /** A tailed file is read line by line from an offset; a re-parsed one is read
      whole whenever its size or inode changed, and may be unreadable. */
  datatype Source =
    | Tailed(x: Extract)
    | Reparsed(parse: Bytes -> Option<ScanResult>)

  /** `legal` bounds what a tool writes into a file; `base` is what the server
      held before. */
  datatype Config = Config(
    source: Path -> Source, legal: Path -> (Bytes -> bool),
    userId: string, machineId: string, batch: nat, buffered: bool, base: Tables)

  datatype File = File(inode: nat, bytes: Bytes)

  /** What a file once held. */
  datatype Content = Content(path: Path, bytes: Bytes)

  type Body = ScanResult

  /** A request of another watcher, for whatever user and machine. */
  datatype Request = Request(userId: string, machineId: string, body: Body)

  datatype Item = U(rec: UsageRecord) | E(edit: EditRecord)

  datatype Phase =
    | Idle
    | Flushing(todo: set<nat>)
    | Removing(name: nat, dropped: bool, todo: set<nat>)
    | Scanning(got: ScanResult, pending: map<Path, FileState>)
    | Sending(queue: seq<Body>, pending: map<Path, FileState>)
    | Spooling(body: Body, queue: seq<Body>, pending: map<Path, FileState>)
    | Setting(pending: map<Path, FileState>)
    | Saving

  /** The answer a replayed batch got. */
  datatype Answer = Answer(body: Body, reply: Reply)

  /** The last six fields are history the program does not keep: what Flush dropped, every
      answer to a replayed batch, what was ever written to a file, what replaced files held,
      in order, whether one of them was replaced before it was read to its end, and what
      other watchers sent. */
  datatype World = World(
    files: map<Path, File>, mem: map<Path, FileState>, disk: map<Path, FileState>,
    spool: map<nat, Body>, server: Tables, phase: Phase,
    rejected: set<Item>, answers: seq<Answer>, written: set<Item>, retired: seq<Content>, torn: bool,
    others: seq<Request>)

  datatype Landed = Nothing | UsageOnly | All

  datatype Reply = Accepted | Status(code: nat) | Unreachable

  datatype Outcome = Outcome(landed: Landed, reply: Reply)

  /** The server answers 2xx only after both statements committed. */
  predicate Possible(o: Outcome) { o.reply.Accepted? ==> o.landed.All? }

  /** Replies that will not get better on retry. */
  predicate IsRejection(r: Reply) { r.Status? && r.code in {400, 404, 410, 413, 422} }

  datatype Step =
    | Create(p: Path, file: File)
    | Append(p: Path, more: Bytes)
    | Rotate(p: Path, file: File)
    | StartTick
    | FlushPost(name: nat, o: Outcome)
    | FlushSkip(name: nat)
    | FlushRemove(ok: bool)
    | EndFlush
    | ScanFile(p: Path, more: Bytes)
    | EndScan
    | Post(o: Outcome)
    | Spool(name: nat, ok: bool)
    | SetOne(p: Path)
    | EndSet
    | Save(ok: bool)
    | Crash
    | Other(req: Request)

  // ----- what a file yields -------------------------------------------------

  ghost function Items(r: ScanResult): set<Item> {
    (set u | u in r.usage :: U(u)) + (set e | e in r.edits :: E(e))
  }

  ghost function QueueItems(q: seq<Body>): set<Item> {
    if q == [] then {} else Items(q[0]) + QueueItems(q[1..])
  }

  /** The items of one clean reading of `b`. */
  ghost function Yield(src: Source, b: Bytes): set<Item> {
    match src
    case Tailed(x) => Items(ScanLines(x, b))
    case Reparsed(parse) => if parse(b).Some? then Items(parse(b).value) else {}
  }

  /** The checkpoint entry stands at the end of the file: behind the last complete line
      of a tailed one, at the size of a readable re-parsed one. */
  ghost predicate Finished(src: Source, f: File, st: FileState) {
    && st.inode == f.inode
    && match src
       case Tailed(_) => st.offset == Complete(f.bytes)
       case Reparsed(parse) => st.offset == |f.bytes| && parse(f.bytes).Some?
  }

  /** What a parser must guarantee: an extension of a readable file, when readable,
      yields everything the shorter file did, and an empty file yields nothing. */
  ghost predicate Converges(src: Source, legal: Bytes -> bool) {
    src.Reparsed? ==>
      && Yield(src, []) == {}
      && forall b, c | legal(b + c) && src.parse(b + c).Some? :: Yield(src, b) <= Yield(src, b + c)
  }

  ghost predicate Valid(cfg: Config) {
    && cfg.batch > 0
    && InView(cfg.base)
    && (forall p :: Converges(cfg.source(p), cfg.legal(p)))
  }

  /** One scan of one file: nothing when it cannot be read. */
  ghost function ScanOne(src: Source, prev: FileState, t: Tick): Option<(ScanResult, FileState)> {
    match src
    case Tailed(x) => Some(TailSpec(x, prev, t))
    case Reparsed(parse) =>
      if prev.inode == t.inode && prev.offset == t.size then Some((NOTHING, FileState(t.inode, t.size)))
      else if parse(t.content).None? then None
      else Some((parse(t.content).value, FileState(t.inode, t.size)))
  }

  // ----- batches ------------------------------------------------------------

  function UsageBatches(s: seq<UsageRecord>, n: nat): seq<Body>
    requires n > 0
    decreases |s|
  {
    if s == [] then []
    else var k := Min(n, |s|); [ScanResult(s[..k], [])] + UsageBatches(s[k..], n)
  }

  function EditBatches(s: seq<EditRecord>, n: nat): seq<Body>
    requires n > 0
    decreases |s|
  {
    if s == [] then []
    else var k := Min(n, |s|); [ScanResult([], s[..k])] + EditBatches(s[k..], n)
  }

  function Batches(r: ScanResult, n: nat): seq<Body>
    requires n > 0
  {
    UsageBatches(r.usage, n) + EditBatches(r.edits, n)
  }

  // ----- the steps ----------------------------------------------------------

  function Get(ckpt: map<Path, FileState>, p: Path): FileState { if p in ckpt then ckpt[p] else UNSEEN }

  ghost function Land(cfg: Config, t: Tables, body: Body, landed: Landed): Tables {
    match landed
    case Nothing => t
    case UsageOnly => InsertUsage(t, cfg.userId, cfg.machineId, body.usage)
    case All =>
      StoreSpec.InsertEdits(InsertUsage(t, cfg.userId, cfg.machineId, body.usage), cfg.userId, cfg.machineId,
                            body.edits)
  }

  /** The server takes a request in full; half of one is a request without edits. */
  ghost function Received(t: Tables, req: Request): Tables {
    StoreSpec.InsertEdits(InsertUsage(t, req.userId, req.machineId, req.body.usage), req.userId, req.machineId,
                          req.body.edits)
  }

  ghost function Pending(ph: Phase): map<Path, FileState> {
    if ph.Scanning? || ph.Sending? || ph.Spooling? || ph.Setting? then ph.pending else map[]
  }

  ghost function InFlight(ph: Phase): set<Item> {
    match ph
    case Scanning(got, _) => Items(got)
    case Sending(queue, _) => QueueItems(queue)
    case Spooling(body, queue, _) => Items(body) + QueueItems(queue)
    case _ => {}
  }

  ghost predicate Unheld(w: World, p: Path, inode: nat) {
    && (p in w.mem ==> w.mem[p].inode != inode)
    && (p in w.disk ==> w.disk[p].inode != inode)
    && (p in Pending(w.phase) ==> Pending(w.phase)[p].inode != inode)
  }

  ghost predicate Enabled(cfg: Config, w: World, s: Step) {
    match s
    case Create(p, file) => p !in w.files && cfg.legal(p)(file.bytes)
    case Append(p, more) => p in w.files && cfg.legal(p)(w.files[p].bytes + more)
    case Rotate(p, file) =>
      && p in w.files && cfg.legal(p)(file.bytes)
      && w.files[p].inode != 0 && file.inode != 0 && file.inode != w.files[p].inode
      && Unheld(w, p, file.inode)
    case StartTick => w.phase.Idle?
    case FlushPost(n, o) => w.phase.Flushing? && n in w.phase.todo && n in w.spool && Possible(o)
    case FlushSkip(n) => w.phase.Flushing? && n in w.phase.todo
    case FlushRemove(_) => w.phase.Removing?
    case EndFlush => w.phase.Flushing? && w.phase.todo == {}
    case ScanFile(p, more) => w.phase.Scanning? && p in w.files && cfg.legal(p)(w.files[p].bytes + more)
    case EndScan => w.phase.Scanning? && cfg.batch > 0
    case Post(o) => w.phase.Sending? && w.phase.queue != [] && Possible(o)
    case Spool(n, _) => w.phase.Spooling? && n !in w.spool
    case SetOne(p) => w.phase.Setting? && p in w.phase.pending
    case EndSet => w.phase.Setting? && w.phase.pending == map[]
    case Save(_) => w.phase.Saving?
    case Crash => true
    case Other(_) => true
  }

  ghost function Write(cfg: Config, w: World, p: Path, file: File): World {
    w.(files := w.files[p := file], written := w.written + Yield(cfg.source(p), file.bytes))
  }

  function Rest(queue: seq<Body>, pending: map<Path, FileState>): Phase {
    if queue == [] then Setting(pending) else Sending(queue, pending)
  }

  ghost function Scanned(cfg: Config, w: World, p: Path, more: Bytes): World
    requires Enabled(cfg, w, ScanFile(p, more))
  {
    var f := w.files[p];
    var t := Glimpse(f.inode, |f.bytes|, f.bytes + more);
    var w' := Write(cfg, w, p, File(f.inode, f.bytes + more));
    match ScanOne(cfg.source(p), Get(w.mem, p), t)
    case None => w'
    case Some(found) =>
      w'.(phase := Scanning(w.phase.got.Then(found.0), w.phase.pending[p := found.1]))
  }

  ghost function Do(cfg: Config, w: World, s: Step): World
    requires Enabled(cfg, w, s)
  {
    match s
    case Create(p, file) => Write(cfg, w, p, file)
    case Append(p, more) => Write(cfg, w, p, File(w.files[p].inode, w.files[p].bytes + more))
    case Rotate(p, file) =>
      Write(cfg, w, p, file).(
        retired := w.retired + [Content(p, w.files[p].bytes)],
        torn := w.torn || !Finished(cfg.source(p), w.files[p], Get(w.mem, p)))
    case StartTick => w.(phase := if cfg.buffered then Flushing(w.spool.Keys) else Scanning(NOTHING, map[]))
    case FlushPost(n, o) =>
      w.(server := Land(cfg, w.server, w.spool[n], o.landed),
         answers := w.answers + [Answer(w.spool[n], o.reply)],
         phase := if o.reply.Accepted? || IsRejection(o.reply)
                  then Removing(n, !o.reply.Accepted?, w.phase.todo - {n})
                  else Scanning(NOTHING, map[]))
    case FlushSkip(n) => w.(phase := Flushing(w.phase.todo - {n}))
    case FlushRemove(ok) =>
      var n := w.phase.name;
      w.(spool := if ok then w.spool - {n} else w.spool, phase := Flushing(w.phase.todo),
         rejected := if w.phase.dropped && n in w.spool then w.rejected + Items(w.spool[n]) else w.rejected)
    case EndFlush => w.(phase := Scanning(NOTHING, map[]))
    case ScanFile(p, more) => Scanned(cfg, w, p, more)
    case EndScan =>
      var got, pending := w.phase.got, w.phase.pending;
      if got == NOTHING && pending == map[] then w.(phase := Idle)
      else w.(phase := Rest(Batches(got, cfg.batch), pending))
    case Post(o) =>
      var body, rest, pending := w.phase.queue[0], w.phase.queue[1..], w.phase.pending;
      w.(server := Land(cfg, w.server, body, o.landed),
         phase := if o.reply.Accepted? then Rest(rest, pending)
                  else if cfg.buffered then Spooling(body, rest, pending)
                  else Idle)
    case Spool(n, ok) =>
      if ok then w.(spool := w.spool[n := w.phase.body], phase := Rest(w.phase.queue, w.phase.pending))
      else w.(phase := Idle)
    case SetOne(p) =>
      w.(mem := w.mem[p := w.phase.pending[p]], phase := Setting(w.phase.pending - {p}))
    case EndSet => w.(phase := Saving)
    case Save(ok) => w.(disk := if ok then w.mem else w.disk, phase := Idle)
    case Crash => w.(mem := w.disk, phase := Idle)
    case Other(req) => w.(server := Received(w.server, req), others := w.others + [req])
  }

  ghost function Start(cfg: Config): World {
    World(map[], map[], map[], map[], cfg.base, Idle, {}, [], {}, [], false, [])
  }

  ghost predicate Run(cfg: Config, w: World, steps: seq<Step>, end: World)
    decreases |steps|
  {
    if steps == [] then end == w
    else Enabled(cfg, w, steps[0]) && Run(cfg, Do(cfg, w, steps[0]), steps[1..], end)
  }

  ghost predicate Reachable(cfg: Config, w: World) { exists steps :: Run(cfg, Start(cfg), steps, w) }
}
