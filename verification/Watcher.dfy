/** The watcher's own code: uploader, checkpoint, scanner and the tick that ties
    them together, with every network and disk outcome an input. Each method is
    proved to perform a run of the delivery protocol, so its theorems hold of it,
    and a tick in which nothing fails to catch up with every file; the ghost
    `World` is the protocol state the objects stand for. */
module Watcher {
  import opened Types
  import opened StoreSpec
  import opened TailScan
  import opened Delivery
  import Dedup
  import ExactlyOnce
  import NoLoss
  import Store

  // ----- runs ---------------------------------------------------------------

  ghost predicate Runs(cfg: Config, w: World, w': World) { exists steps :: Run(cfg, w, steps, w') }

  lemma {:induction false} RunAppend(cfg: Config, w: World, steps: seq<Step>, mid: World, s: Step)
    requires Run(cfg, w, steps, mid) && Enabled(cfg, mid, s)
    ensures Run(cfg, w, steps + [s], Do(cfg, mid, s))
    decreases |steps|
  {
    if steps == [] {
      assert (steps + [s])[1..] == [];
      assert Run(cfg, Do(cfg, mid, s), [], Do(cfg, mid, s));
    } else {
      assert (steps + [s])[1..] == steps[1..] + [s];
      RunAppend(cfg, Do(cfg, w, steps[0]), steps[1..], mid, s);
    }
  }

  lemma RunsNothing(cfg: Config, w: World)
    ensures Runs(cfg, w, w)
  {
    assert Run(cfg, w, [], w);
  }

  lemma RunsStep(cfg: Config, w: World, mid: World, s: Step)
    requires Runs(cfg, w, mid) && Enabled(cfg, mid, s)
    ensures Runs(cfg, w, Do(cfg, mid, s))
  {
    var steps :| Run(cfg, w, steps, mid);
    RunAppend(cfg, w, steps, mid, s);
  }

  // ----- the server's endpoint ------------------------------------------------

  /** How far a request gets inside the server. */
  datatype Fault = Fine | Unauthorized | Malformed | InsertFails | EditsFail

  class Server {
    const cfg: Config
    const store: Store.Store

    constructor (cfg: Config, store: Store.Store)
      ensures this.cfg == cfg && this.store == store
    {
      this.cfg, this.store := cfg, store;
    }

    /** Usage and edits are two statements: a request can land half-way. */
    method HandleIngest(req: Body, fault: Fault) returns (status: nat, ghost landed: Landed)
      modifies store
      ensures store.Contents() == Land(cfg, old(store.Contents()), req, landed)
      ensures fault.Fine? ==> status == 200
      ensures fault.Unauthorized? ==> status == 401
      ensures fault.Malformed? ==> status == 400
      ensures fault.InsertFails? || fault.EditsFail? ==> status == 500
      ensures landed == if fault.Fine? then All else if fault.EditsFail? then UsageOnly else Nothing
    {
      landed := Nothing;
      if fault.Unauthorized? { return 401, Nothing; }
      if fault.Malformed? { return 400, Nothing; }
      if fault.InsertFails? { return 500, Nothing; }
      var _, _ := store.Insert(cfg.machineId, cfg.userId, req.usage);
      if fault.EditsFail? { return 500, UsageOnly; }
      var _, _ := store.InsertEdits(cfg.machineId, cfg.userId, req.edits);
      return 200, All;
    }
  }

  /** A name no entry of the buffer has; the program uses the clock. */
  method FreeName(used: set<nat>) returns (n: nat)
    ensures n !in used
  {
    n := 0;
    var todo := used;
    while todo != {}
      invariant todo <= used && forall k | k in used && k !in todo :: k < n
      decreases todo
    {
      var k :| k in todo;
      todo := todo - {k};
      n := if k < n then n else k + 1;
    }
  }

  // ----- uploader -------------------------------------------------------------

  /** Any status but a 2xx, given by something in front of the server. */
  type Refusal = code: nat | code / 100 != 2 witness 500

  /** What the network does to one request. */
  datatype Net = Clear | RequestLost | ReplyLost | Refused(code: Refusal)

  /** All that can befall one request. */
  datatype Trip = Trip(net: Net, fault: Fault)

  /** It arrives, the server takes all of it, and says so. */
  predicate Lands(t: Trip) { t.net.Clear? && t.fault.Fine? }

  /** What is wrong will pass or can be put right: no fault of the batch. */
  predicate MayHeal(t: Trip) {
    match t.net
    case Clear => t.fault.Unauthorized? || t.fault.InsertFails? || t.fault.EditsFail?
    case RequestLost => true
    case ReplyLost => true
    case Refused(code) => code != 400 && code != 404 && code != 410 && code != 413 && code != 422
  }

  /** What comes back, and what of the request is then in the tables. */
  predicate Answered(t: Trip, reply: Reply, landed: Landed) {
    match t.net
    case RequestLost => reply == Unreachable && landed.Nothing?
    case Refused(code) => reply == Status(code) && landed.Nothing?
    case ReplyLost => reply == Unreachable
    case Clear =>
      match t.fault
      case Fine => reply == Accepted && landed.All?
      case Unauthorized => reply == Status(401) && landed.Nothing?
      case Malformed => reply == Status(400) && landed.Nothing?
      case InsertFails => reply == Status(500) && landed.Nothing?
      case EditsFail => reply == Status(500) && landed.UsageOnly?
  }

  /** Flush goes on exactly when there is nothing to wait for. */
  lemma Judged(t: Trip, reply: Reply, landed: Landed)
    requires Answered(t, reply, landed)
    ensures reply.Accepted? || IsRejection(reply) <==> !MayHeal(t)
    ensures reply.Accepted? <==> Lands(t)
    ensures Lands(t) ==> landed.All?
  {
  }

  datatype SendResult = Delivered | Spooled | Failed

  /** `trips` and `disk` are the fates of its requests and of its accesses to the buffer
      directory, in order; `posts` and `accesses` count the ones already met. */
  class Uploader {
    const cfg: Config
    const server: Server
    const trips: nat -> Trip
    const disk: nat -> bool
    var buffer: map<nat, Body>
    var posts: nat
    var accesses: nat
    ghost var dropped: set<Item>
    ghost var answers: seq<Answer>

    constructor (server: Server, trips: nat -> Trip, disk: nat -> bool)
      ensures this.cfg == server.cfg && this.server == server && this.trips == trips && this.disk == disk
      ensures buffer == map[] && posts == accesses == 0 && dropped == {} && answers == []
    {
      this.cfg, this.server, this.trips, this.disk := server.cfg, server, trips, disk;
      buffer, posts, accesses, dropped, answers := map[], 0, 0, {}, [];
    }

    /** From now on nothing goes wrong. */
    ghost predicate Fair()
      reads this
    {
      (forall k: nat | k >= posts :: Lands(trips(k))) && forall k: nat | k >= accesses :: disk(k)
    }

    /** The protocol state agrees with the uploader and the server behind it. */
    ghost predicate Agrees(w: World)
      reads this, server.store
    {
      && cfg == server.cfg
      && w.spool == buffer && w.rejected == dropped && w.answers == answers && w.server == server.store.Contents()
    }

    /** One POST: what is answered and what has landed, for every fate of the request. */
    method Post(body: Body) returns (reply: Reply, ghost o: Outcome)
      requires cfg == server.cfg
      modifies this`posts, server.store
      ensures Possible(o) && o.reply == reply && posts == old(posts) + 1
      ensures server.store.Contents() == Land(cfg, old(server.store.Contents()), body, o.landed)
      ensures Answered(trips(old(posts)), reply, o.landed)
    {
      var net, fault := trips(posts).net, trips(posts).fault;
      posts := posts + 1;
      if net.RequestLost? {
        return Unreachable, Outcome(Nothing, Unreachable);
      }
      if net.Refused? {
        return Status(net.code), Outcome(Nothing, Status(net.code)); // answered before the server
      }
      var status, landed := server.HandleIngest(body, fault);
      if net.ReplyLost? {
        return Unreachable, Outcome(landed, Unreachable);
      }
      reply := if status / 100 == 2 then Accepted else Status(status);
      o := Outcome(landed, reply);
    }

    /** Temporary file plus rename under a name not in use; may fail. */
    method SpoolBody(body: Body) returns (ok: bool, ghost name: nat)
      modifies this`buffer, this`accesses
      ensures name !in old(buffer) && ok == disk(old(accesses)) && accesses == old(accesses) + 1
      ensures buffer == if ok then old(buffer)[name := body] else old(buffer)
    {
      var n := FreeName(buffer.Keys);
      ok, accesses := disk(accesses), accesses + 1;
      if ok { buffer := buffer[n := body]; }
      name := n;
    }

    /** Sends the batch at the head of the queue: delivered if the request lands and the reply
        arrives, else spooled if there is a spool and it can be written, else failed.
        Delivered or spooled means it is durable and the protocol has moved past it; failed
        means the tick is over. */
    method SendRequest(body: Body, ghost w: World, ghost queue: seq<Body>) returns (res: SendResult, ghost w': World)
      requires Agrees(w) && w.phase.Sending? && w.phase.queue == [body] + queue
      modifies this, server.store
      ensures Agrees(w') && Runs(cfg, w, w')
      ensures w' == w.(spool := w'.spool, server := w'.server, phase := w'.phase)
      ensures w'.phase == if res.Failed? then Idle else Rest(queue, w.phase.pending)
      ensures posts == old(posts) + 1 && old(accesses) <= accesses
      ensures res.Delivered? <==> Lands(trips(old(posts)))
      ensures res.Spooled? <==> !Lands(trips(old(posts))) && cfg.buffered && disk(old(accesses))
      ensures res.Delivered? ==> server.store.Contents() == Land(cfg, old(server.store.Contents()), body, All)
      ensures res.Spooled? ==> exists n: nat :: n !in old(buffer) && buffer == old(buffer)[n := body]
      ensures !res.Spooled? ==> buffer == old(buffer)
    {
      RunsNothing(cfg, w);
      assert w.phase.queue[1..] == queue;
      var reply, o := Post(body);
      RunsStep(cfg, w, w, Step.Post(o));
      w' := Do(cfg, w, Step.Post(o));
      if reply.Accepted? {
        return Delivered, w';
      }
      if !cfg.buffered {
        return Failed, w';
      }
      var ok;
      ok, w' := SpoolNext(body, w, w', queue);
      res := if ok then Spooled else Failed;
    }

    /** The batch at hand goes to the buffer directory, if it can be written. */
    method SpoolNext(body: Body, ghost w0: World, ghost w: World, ghost queue: seq<Body>)
      returns (ok: bool, ghost w': World)
      requires Agrees(w) && Runs(cfg, w0, w) && w.phase.Spooling? && w.phase.body == body && w.phase.queue == queue
      modifies this`buffer, this`accesses
      ensures Agrees(w') && Runs(cfg, w0, w') && ok == disk(old(accesses)) && accesses == old(accesses) + 1
      ensures w' == w.(spool := w'.spool, phase := if ok then Rest(queue, w.phase.pending) else Idle)
      ensures ok ==> exists n: nat :: n !in old(buffer) && buffer == old(buffer)[n := body]
      ensures !ok ==> buffer == old(buffer)
    {
      ghost var name;
      ok, name := SpoolBody(body);
      RunsStep(cfg, w0, w, Spool(name, ok));
      w' := Do(cfg, w, Spool(name, ok));
    }

    /** Replays the spool. Stops at the first failure that may heal, drops what the
        server will never take, keeps going otherwise; if nothing fails the whole spool is
        replayed. */
    method Flush(ghost w: World) returns (ghost w': World)
      requires Agrees(w) && w.phase.Idle?
      modifies this, server.store
      ensures Agrees(w') && Runs(cfg, w, w')
      ensures w' == w.(spool := w'.spool, server := w'.server, rejected := w'.rejected, answers := w'.answers,
                       phase := Scanning(NOTHING, map[]))
      ensures Dedup.Within(buffer, old(buffer))
      ensures old(Fair()) ==> Fair() && dropped == old(dropped) && buffer == if cfg.buffered then map[] else old(buffer)
    {
      RunsNothing(cfg, w);
      RunsStep(cfg, w, w, StartTick);
      w' := Do(cfg, w, StartTick);
      if cfg.buffered {
        w' := FlushEntries(w, w');
      }
    }

    /** The loop over the directory's entries. */
    method FlushEntries(ghost w0: World, ghost w: World) returns (ghost w': World)
      requires Agrees(w) && Runs(cfg, w0, w) && w.phase == Flushing(buffer.Keys)
      modifies this, server.store
      ensures Agrees(w') && Runs(cfg, w0, w')
      ensures w' == w.(spool := w'.spool, server := w'.server, rejected := w'.rejected, answers := w'.answers,
                       phase := Scanning(NOTHING, map[]))
      ensures Dedup.Within(buffer, old(buffer))
      ensures old(Fair()) ==> Fair() && dropped == old(dropped) && buffer == map[]
    {
      w' := w;
      var entries := buffer.Keys;
      while entries != {}
        invariant Agrees(w') && Runs(cfg, w0, w') && entries <= buffer.Keys && Dedup.Within(buffer, old(buffer))
        invariant w' == w.(spool := w'.spool, server := w'.server, rejected := w'.rejected, answers := w'.answers,
                           phase := Flushing(entries))
        invariant old(Fair()) ==> Fair() && dropped == old(dropped) && buffer.Keys == entries
        decreases entries
      {
        var n :| n in entries;
        var again;
        again, w' := FlushEntry(n, entries - {n}, w0, w');
        if !again {
          return;
        }
        entries := entries - {n};
      }
      RunsStep(cfg, w0, w', EndFlush);
      w' := Do(cfg, w', EndFlush);
    }

    /** One directory entry: an unreadable file is passed over. */
    method FlushEntry(n: nat, ghost todo: set<nat>, ghost w0: World, ghost w: World)
      returns (again: bool, ghost w': World)
      requires Agrees(w) && Runs(cfg, w0, w) && n in buffer && n !in todo && w.phase == Flushing(todo + {n})
      modifies this, server.store
      ensures Agrees(w') && Runs(cfg, w0, w')
      ensures buffer == old(buffer) || (again && buffer == old(buffer) - {n})
      ensures w' == w.(spool := w'.spool, server := w'.server, rejected := w'.rejected, answers := w'.answers,
                       phase := w'.phase)
      ensures w'.phase == if again then Flushing(todo) else Scanning(NOTHING, map[])
      ensures old(Fair()) ==> Fair() && again && dropped == old(dropped) && buffer == old(buffer) - {n}
    {
      var readable := disk(accesses);
      accesses := accesses + 1;
      if readable {
        again, w' := FlushOne(n, todo, w0, w);
      } else {
        assert todo + {n} - {n} == todo;
        RunsStep(cfg, w0, w, FlushSkip(n));
        again, w' := true, Do(cfg, w, FlushSkip(n));
      }
    }

    /** One spooled batch: post it, then remove it or stop. It leaves the buffer only if the
        request landed in full or the batch can never be accepted; what may heal keeps it, and
        ends the replay. */
    method FlushOne(n: nat, ghost todo: set<nat>, ghost w0: World, ghost w: World)
      returns (again: bool, ghost w': World)
      requires Agrees(w) && Runs(cfg, w0, w) && n in buffer && n !in todo && w.phase == Flushing(todo + {n})
      modifies this, server.store
      ensures Agrees(w') && Runs(cfg, w0, w')
      ensures w' == w.(spool := w'.spool, server := w'.server, rejected := w'.rejected, answers := w'.answers,
                       phase := w'.phase)
      ensures w'.phase == if again then Flushing(todo) else Scanning(NOTHING, map[])
      ensures posts == old(posts) + 1 && old(accesses) <= accesses
      ensures var t := trips(old(posts));
              && (MayHeal(t) ==> !again && buffer == old(buffer) && dropped == old(dropped))
              && (!MayHeal(t) ==> again && buffer == if disk(old(accesses)) then old(buffer) - {n} else old(buffer))
              && (Lands(t) ==> !MayHeal(t) && dropped == old(dropped))
              && (!MayHeal(t) && !Lands(t) ==> dropped == old(dropped) + Items(old(buffer)[n]))
      ensures Lands(trips(old(posts))) ==>
                server.store.Contents() == Land(cfg, old(server.store.Contents()), old(buffer)[n], All)
    {
      assert todo + {n} - {n} == todo;
      var reply, o := Post(buffer[n]);
      RunsStep(cfg, w0, w, FlushPost(n, o));
      w' := Do(cfg, w, FlushPost(n, o));
      answers := answers + [Answer(buffer[n], reply)];
      Judged(trips(old(posts)), reply, o.landed);
      again := reply.Accepted? || IsRejection(reply);
      if again {
        w' := Remove(n, !reply.Accepted?, todo, w0, w');
      }
    }

    /** Takes a batch out of the buffer; a failed removal is ignored. */
    method Remove(n: nat, ghost unwanted: bool, ghost todo: set<nat>, ghost w0: World, ghost w: World)
      returns (ghost w': World)
      requires Agrees(w) && Runs(cfg, w0, w) && n in buffer && w.phase == Removing(n, unwanted, todo)
      modifies this`buffer, this`accesses, this`dropped
      ensures Agrees(w') && Runs(cfg, w0, w') && accesses == old(accesses) + 1
      ensures w' == w.(spool := w'.spool, rejected := w'.rejected, phase := Flushing(todo))
      ensures buffer == if disk(old(accesses)) then old(buffer) - {n} else old(buffer)
      ensures dropped == if unwanted then old(dropped) + Items(old(buffer)[n]) else old(dropped)
    {
      var ok := disk(accesses);
      accesses := accesses + 1;
      RunsStep(cfg, w0, w, FlushRemove(ok));
      w' := Do(cfg, w, FlushRemove(ok));
      if unwanted { dropped := dropped + Items(buffer[n]); }
      if ok { buffer := buffer - {n}; }
    }
  }

  // ----- checkpoint -----------------------------------------------------------

  class Checkpoint {
    var files: map<Path, FileState>
    var saved: map<Path, FileState>

    /** LoadCheckpoint: start from what is on disk. */
    constructor (saved: map<Path, FileState>)
      ensures files == saved && this.saved == saved
    {
      files, this.saved := saved, saved;
    }

    method Lookup(p: Path) returns (st: FileState)
      ensures st == Get(files, p)
    {
      st := if p in files then files[p] else UNSEEN;
    }

    method Set(p: Path, st: FileState)
      modifies this`files
      ensures files == old(files)[p := st]
    {
      files := files[p := st];
    }

    /** Temporary file plus rename: all or nothing. */
    method Save(writable: bool)
      modifies this`saved
      ensures saved == if writable then files else old(saved)
    {
      if writable { saved := files; }
    }
  }

  // ----- scanner --------------------------------------------------------------

  /** The machine's transcripts; tools append to them at any time. */
  class Host {
    const cfg: Config
    var files: map<Path, File>

    constructor (cfg: Config)
      ensures this.cfg == cfg && files == map[]
    {
      this.cfg, files := cfg, map[];
    }

    ghost predicate Agrees(w: World, ckpt: Checkpoint)
      reads this, ckpt
    {
      && w.files == files && w.mem == ckpt.files && w.disk == ckpt.saved
      && forall p | p in files :: cfg.legal(p)(files[p].bytes)
    }

    /** What a tool appends meanwhile: anything it may write. */
    method Growth(p: Path, written: Bytes) returns (grown: Bytes)
      requires cfg.legal(p)(written)
      ensures cfg.legal(p)(written + grown)
    {
      grown := *;
      if !cfg.legal(p)(written + grown) {
        grown := [];
        assert written + [] == written;
      }
    }

    /** Stat, then read; in between the tool may append. */
    method Read(p: Path) returns (t: Tick, ghost more: Bytes)
      requires p in files && cfg.legal(p)(files[p].bytes)
      modifies this`files
      ensures cfg.legal(p)(old(files)[p].bytes + more)
      ensures t == Glimpse(old(files)[p].inode, |old(files)[p].bytes|, old(files)[p].bytes + more)
      ensures files == old(files)[p := File(t.inode, t.content)]
    {
      var f := files[p];
      var grown := Growth(p, f.bytes);
      var content := f.bytes + grown;
      t, more := Glimpse(f.inode, |f.bytes|, content), grown;
      files := files[p := File(f.inode, content)];
    }
  }

  method Parse(src: Source, prev: FileState, t: Tick) returns (found: Option<(ScanResult, FileState)>)
    ensures found == ScanOne(src, prev, t)
  {
    match src
    case Tailed(x) =>
      var res, state := TailScan.Scan(x, prev, t);
      found := Some((res, state));
    case Reparsed(parse) =>
      if prev.inode == t.inode && prev.offset == t.size {
        return Some((NOTHING, FileState(t.inode, t.size)));
      }
      var res := parse(t.content);
      found := if res.None? then None else Some((res.value, FileState(t.inode, t.size)));
  }

  // ----- what a walk reads --------------------------------------------------------

  /** The same file, at least as long. */
  ghost predicate Grown(f: File, now: File) { now.inode == f.inode && f.bytes <= now.bytes }

  /** `t` is a look at the file between `f` and `now`. */
  ghost predicate Between(f: File, t: Tick, now: File) {
    t.inode == f.inode && |f.bytes| <= t.size && f.bytes <= t.content && t.content <= now.bytes
  }

  /** The scan from the file's entry, on that look, gave what is in `res` and the state. */
  ghost predicate Read(cfg: Config, prev: FileState, p: Path, t: Tick, res: ScanResult, st: FileState) {
    var found := ScanOne(cfg.source(p), prev, t);
    found.Some? && found.value.1 == st && Items(found.value.0) <= Items(res)
  }

  ghost predicate Entered(cfg: Config, prev: FileState, p: Path, f: File, now: File, t: Tick, res: ScanResult,
                          st: FileState)
  {
    cfg.legal(p)(t.content) && Between(f, t, now) && Read(cfg, prev, p, t, res, st)
  }

  /** The file could not be parsed. */
  ghost predicate Garbled(cfg: Config, prev: FileState, p: Path, f: File, now: File) {
    exists t: Tick :: Between(f, t, now) && ScanOne(cfg.source(p), prev, t).None?
  }

  /** After the walk over `done`: every file in it that can be read was read, its findings
      are in `res` and its state in `pending`, unless it could not be parsed; and nothing
      else is in `pending`. `files` were there before, `now` are there since. */
  ghost predicate Walked(cfg: Config, mem: map<Path, FileState>, files: map<Path, File>, now: map<Path, File>,
                         done: seq<Path>, readable: Path -> bool,
                         res: ScanResult, pending: map<Path, FileState>, looks: map<Path, Tick>)
  {
    && now.Keys == files.Keys && (forall p | p in files :: Grown(files[p], now[p]))
    && pending.Keys == looks.Keys
    && (forall p | p in pending ::
          && p in done && p in files && readable(p)
          && Entered(cfg, Get(mem, p), p, files[p], now[p], looks[p], res, pending[p]))
    && (forall p | p in done && p in files && readable(p) ::
          p in pending || Garbled(cfg, Get(mem, p), p, files[p], now[p]))
  }

  lemma WalkedOn(cfg: Config, mem: map<Path, FileState>, files: map<Path, File>, now: map<Path, File>,
                 done: seq<Path>, readable: Path -> bool,
                 res: ScanResult, pending: map<Path, FileState>, looks: map<Path, Tick>, p: Path)
    requires Walked(cfg, mem, files, now, done, readable, res, pending, looks)
    requires !(p in files && readable(p))
    ensures Walked(cfg, mem, files, now, done + [p], readable, res, pending, looks)
  {
  }

  /** Older readings stay what they are when a file grows and more is found. */
  lemma StillRead(cfg: Config, prev: FileState, q: Path, t: Tick, res: ScanResult, more: ScanResult, st: FileState)
    requires Read(cfg, prev, q, t, res, st)
    ensures Read(cfg, prev, q, t, res.Then(more), st)
  {
    NoLoss.ItemsThen(res, more);
  }

  lemma StillGarbled(cfg: Config, prev: FileState, q: Path, f: File, now: File, later: File)
    requires Garbled(cfg, prev, q, f, now) && Grown(now, later)
    ensures Garbled(cfg, prev, q, f, later)
  {
    var t: Tick :| Between(f, t, now) && ScanOne(cfg.source(q), prev, t).None?;
    assert Between(f, t, later);
  }

  lemma WalkedGrown(cfg: Config, mem: map<Path, FileState>, files: map<Path, File>, now: map<Path, File>,
                    done: seq<Path>, readable: Path -> bool,
                    res: ScanResult, pending: map<Path, FileState>, looks: map<Path, Tick>, p: Path, f: File)
    requires Walked(cfg, mem, files, now, done, readable, res, pending, looks)
    requires p in now && Grown(now[p], f)
    ensures Walked(cfg, mem, files, now[p := f], done, readable, res, pending, looks)
  {
    var now' := now[p := f];
    forall q | q in pending ensures Entered(cfg, Get(mem, q), q, files[q], now'[q], looks[q], res, pending[q]) {
      StillEntered(cfg, Get(mem, q), q, files[q], now[q], now'[q], looks[q], res, pending[q]);
    }
    forall q | q in done && q in files && readable(q) && q !in pending
      ensures Garbled(cfg, Get(mem, q), q, files[q], now'[q])
    {
      StillGarbled(cfg, Get(mem, q), q, files[q], now[q], now'[q]);
    }
    WalkedAll(cfg, mem, files, now', done, readable, res, pending, looks);
  }

  lemma StillEntered(cfg: Config, prev: FileState, q: Path, f: File, now: File, later: File, t: Tick, res: ScanResult,
                     st: FileState)
    requires Entered(cfg, prev, q, f, now, t, res, st) && Grown(now, later)
    ensures Entered(cfg, prev, q, f, later, t, res, st)
  {
  }

  lemma WalkedFound(cfg: Config, mem: map<Path, FileState>, files: map<Path, File>, now: map<Path, File>,
                    done: seq<Path>, readable: Path -> bool,
                    res: ScanResult, pending: map<Path, FileState>, looks: map<Path, Tick>,
                    p: Path, t: Tick, r: ScanResult, st: FileState)
    requires Walked(cfg, mem, files, now, done, readable, res, pending, looks)
    requires p in files && readable(p) && Between(files[p], t, now[p]) && cfg.legal(p)(t.content)
    requires ScanOne(cfg.source(p), Get(mem, p), t) == Some((r, st))
    ensures Walked(cfg, mem, files, now, done + [p], readable, res.Then(r), pending[p := st], looks[p := t])
  {
    NoLoss.ItemsThen(res, r);
    assert Entered(cfg, Get(mem, p), p, files[p], now[p], t, res.Then(r), st);
    forall q | q in pending ensures Entered(cfg, Get(mem, q), q, files[q], now[q], looks[q], res.Then(r), pending[q]) {
      StillRead(cfg, Get(mem, q), q, looks[q], res, r, pending[q]);
    }
    WalkedAll(cfg, mem, files, now, done + [p], readable, res.Then(r), pending[p := st], looks[p := t]);
  }

  lemma WalkedAll(cfg: Config, mem: map<Path, FileState>, files: map<Path, File>, now: map<Path, File>,
                  done: seq<Path>, readable: Path -> bool,
                  res: ScanResult, pending: map<Path, FileState>, looks: map<Path, Tick>)
    requires now.Keys == files.Keys && (forall p | p in files :: Grown(files[p], now[p]))
    requires pending.Keys == looks.Keys
    requires forall p | p in pending :: p in done && p in files && readable(p)
    requires forall p | p in pending :: Entered(cfg, Get(mem, p), p, files[p], now[p], looks[p], res, pending[p])
    requires forall p | p in done && p in files && readable(p) ::
               p in pending || Garbled(cfg, Get(mem, p), p, files[p], now[p])
    ensures Walked(cfg, mem, files, now, done, readable, res, pending, looks)
  {
  }

  lemma WalkedGarbled(cfg: Config, mem: map<Path, FileState>, files: map<Path, File>, now: map<Path, File>,
                      done: seq<Path>, readable: Path -> bool,
                      res: ScanResult, pending: map<Path, FileState>, looks: map<Path, Tick>, p: Path, t: Tick)
    requires Walked(cfg, mem, files, now, done, readable, res, pending, looks)
    requires p in files && Between(files[p], t, now[p]) && ScanOne(cfg.source(p), Get(mem, p), t).None?
    ensures Walked(cfg, mem, files, now, done + [p], readable, res, pending, looks)
  {
    assert Garbled(cfg, Get(mem, p), p, files[p], now[p]);
  }

  // ----- what one reading covers ---------------------------------------------------

  /** The entry is one a scan of this file left, or it is of another file or none. */
  ghost predicate Fits(src: Source, f: File, st: FileState) {
    st != UNSEEN ==>
      && (st.inode == 0 || f.inode == 0 ==> st.inode == f.inode)
      && (st.inode == f.inode ==> st.offset <= |f.bytes| && (src.Tailed? ==> AtBoundary(f.bytes[..st.offset])))
  }

  /** How far into the file the entry has got. */
  function Reached(f: File, st: FileState): nat { if st.inode == f.inode then st.offset else 0 }

  /** The state is past everything that was complete in `f`. */
  ghost predicate Passes(src: Source, f: File, st: FileState) {
    && st.inode == f.inode
    && match src
       case Tailed(_) => Complete(f.bytes) <= st.offset
       case Reparsed(_) => |f.bytes| <= st.offset
  }

  lemma EntriesFit(cfg: Config, w: World, p: Path)
    requires NoLoss.Inv(cfg, w) && p in w.files
    ensures Fits(cfg.source(p), w.files[p], Get(w.mem, p))
  {
    if p in w.mem {
      assert NoLoss.StOk(cfg.source(p), w.files[p], w, {}, w.mem[p]);
    }
  }

  /** A scan gets past every line that was complete before it. */
  lemma ScanPasses(src: Source, f: File, prev: FileState, t: Tick, now: File)
    requires Between(f, t, now) && ScanOne(src, prev, t).Some?
    ensures Passes(src, f, ScanOne(src, prev, t).value.1)
  {
    match src
    case Tailed(x) =>
      var o := StartOffset(prev, t.inode, t.size);
      ReadingPasses(t.content, o);
      assert t.content == f.bytes + t.content[|f.bytes|..];
      CompleteMonotone(f.bytes, t.content[|f.bytes|..]);
    case Reparsed(_) =>
  }

  /** Whatever the content yields below the new state it yielded below the entry, or the
      scan found it. */
  lemma ScanCovers(src: Source, legal: Bytes -> bool, f: File, prev: FileState, t: Tick, now: File)
    requires Fits(src, f, prev) && Between(f, t, now) && Converges(src, legal) && legal(t.content)
    requires ScanOne(src, prev, t).Some? && Reached(f, prev) <= |t.content|
    ensures var found := ScanOne(src, prev, t).value;
            && found.1.offset <= |t.content|
            && Yield(src, t.content[..found.1.offset])
               <= Yield(src, t.content[..Reached(f, prev)]) + Items(found.0)
  {
    match src
    case Tailed(x) => TailCovers(x, f, prev, t, now);
    case Reparsed(_) =>
      if !(prev.inode == t.inode && prev.offset == t.size) {
        Cut(t.content, t.size);
        assert Yield(src, t.content[..t.size]) <= Yield(src, t.content[..t.size] + t.content[t.size..]);
      }
  }

  lemma TailCovers(x: Extract, f: File, prev: FileState, t: Tick, now: File)
    requires Fits(Tailed(x), f, prev) && Between(f, t, now) && Reached(f, prev) <= |t.content|
    ensures var found := TailSpec(x, prev, t);
            && found.1.offset <= |t.content|
            && Yield(Tailed(x), t.content[..found.1.offset])
               <= Yield(Tailed(x), t.content[..Reached(f, prev)]) + Items(found.0)
  {
    var c, o := t.content, Reached(f, prev);
    TailStarts(x, f, prev, t, now);
    SpecIs(x, prev, t, o);
    var found := TailSpec(x, prev, t);
    if t.size != o {
      RestCovers(x, c, o, found.0, found.1.offset);
    }
  }

  lemma RestCovers(x: Extract, c: Bytes, o: nat, res: ScanResult, end: nat)
    requires o <= |c| && AtBoundary(c[..o]) && res == ScanLines(x, c[o..]) && end == o + Complete(c[o..])
    ensures end <= |c| && Yield(Tailed(x), c[..end]) <= Yield(Tailed(x), c[..o]) + Items(res)
  {
    ReadOn(x, c, o);
  }

  lemma SpecIs(x: Extract, prev: FileState, t: Tick, o: nat)
    requires o == StartOffset(prev, t.inode, t.size) && o <= |t.content|
    ensures t.size == o ==> TailSpec(x, prev, t).1.offset == o
    ensures t.size != o ==> TailSpec(x, prev, t).0 == ScanLines(x, t.content[o..])
    ensures t.size != o ==> TailSpec(x, prev, t).1.offset == o + Complete(t.content[o..])
  {
  }

  lemma TailStarts(x: Extract, f: File, prev: FileState, t: Tick, now: File)
    requires Fits(Tailed(x), f, prev) && Between(f, t, now)
    ensures Reached(f, prev) == StartOffset(prev, t.inode, t.size) && AtBoundary(t.content[..Reached(f, prev)])
  {
    assert t.content[..Reached(f, prev)] == f.bytes[..Reached(f, prev)];
  }

  lemma ReadOn(x: Extract, c: Bytes, o: nat)
    requires o <= |c| && AtBoundary(c[..o])
    ensures o + Complete(c[o..]) == Complete(c)
    ensures Yield(Tailed(x), c[..Complete(c)]) == Yield(Tailed(x), c[..o]) + Items(ScanLines(x, c[o..]))
  {
    ReadFrom(x, c, o);
    NoLoss.YieldThen(x, ScanLines(x, c[..o]), ScanLines(x, c[o..]), c[..Complete(c)]);
  }

  /** A scan of a file that does not grow meanwhile finishes it. */
  lemma ScanFinishes(src: Source, f: File, prev: FileState)
    requires Fits(src, f, prev) && (src.Reparsed? ==> src.parse(f.bytes).Some?)
    ensures var found := ScanOne(src, prev, Glimpse(f.inode, |f.bytes|, f.bytes));
            found.Some? && Finished(src, f, found.value.1)
  {
    match src
    case Tailed(x) =>
      var o := StartOffset(prev, f.inode, |f.bytes|);
      assert f.bytes[..0] == [];
      ReadFrom(x, f.bytes, o);
    case Reparsed(_) =>
  }

  /** What a walk is for: every file it could read and parse has its state pending, past all
      that was complete before, and whatever its content yields between its entry and that
      state was found; a file that could not be read is not pending. */
  lemma WalkReadsAll(cfg: Config, mem: map<Path, FileState>, files: map<Path, File>, now: map<Path, File>,
                     paths: seq<Path>, readable: Path -> bool,
                     res: ScanResult, pending: map<Path, FileState>, looks: map<Path, Tick>, p: Path)
    requires Walked(cfg, mem, files, now, paths, readable, res, pending, looks)
    requires p in files && Fits(cfg.source(p), files[p], Get(mem, p)) && Converges(cfg.source(p), cfg.legal(p))
    ensures p in pending ==> p in paths && readable(p)
    ensures p in paths && readable(p) && !Garbled(cfg, Get(mem, p), p, files[p], now[p]) ==> p in pending
    ensures cfg.source(p).Tailed? && p in paths && readable(p) ==> p in pending
    ensures p in pending ==>
              var src, c, from := cfg.source(p), looks[p].content, Reached(files[p], Get(mem, p));
              && Passes(src, files[p], pending[p])
              && from <= |c| && pending[p].offset <= |c|
              && Yield(src, c[..pending[p].offset]) <= Yield(src, c[..from]) + Items(res)
  {
    if p in pending {
      ScanPasses(cfg.source(p), files[p], Get(mem, p), looks[p], now[p]);
      ScanCovers(cfg.source(p), cfg.legal(p), files[p], Get(mem, p), looks[p], now[p]);
    }
  }

  // ----- the walk -------------------------------------------------------------------

  /** Walks the discovered transcripts and merges what their parsers found; a file
      that cannot be read is left out of both results. */
  method ScanAll(host: Host, ckpt: Checkpoint, paths: seq<Path>, readable: Path -> bool, ghost w: World)
    returns (res: ScanResult, pending: map<Path, FileState>, ghost looks: map<Path, Tick>, ghost w': World)
    requires host.Agrees(w, ckpt) && w.phase == Scanning(NOTHING, map[])
    modifies host`files
    ensures host.Agrees(w', ckpt) && Runs(host.cfg, w, w')
    ensures w' == w.(files := host.files, written := w'.written, phase := Scanning(res, pending))
    ensures Walked(host.cfg, ckpt.files, old(host.files), host.files, paths, readable, res, pending, looks)
  {
    var cfg := host.cfg;
    RunsNothing(cfg, w);
    res, pending, looks, w' := NOTHING, map[], map[], w;
    for i := 0 to |paths|
      invariant host.Agrees(w', ckpt) && Runs(cfg, w, w')
      invariant w' == w.(files := host.files, written := w'.written, phase := Scanning(res, pending))
      invariant Walked(cfg, ckpt.files, old(host.files), host.files, paths[..i], readable, res, pending, looks)
    {
      assert paths[..i + 1] == paths[..i] + [paths[i]];
      if paths[i] in host.files && readable(paths[i]) {
        res, pending, looks, w' :=
          WalkPath(host, ckpt, old(host.files), paths[..i], paths[i], readable, res, pending, looks, w, w');
      } else {
        WalkedOn(cfg, ckpt.files, old(host.files), host.files, paths[..i], readable, res, pending, looks, paths[i]);
      }
    }
    assert paths[..|paths|] == paths;
  }

  /** Scan, then queue the batches; an empty tick is over here. */
  method Gather(host: Host, ckpt: Checkpoint, paths: seq<Path>, readable: Path -> bool, ghost w: World)
    returns (res: ScanResult, pending: map<Path, FileState>, ghost looks: map<Path, Tick>, ghost w': World)
    requires host.cfg.batch > 0 && host.Agrees(w, ckpt) && w.phase == Scanning(NOTHING, map[])
    modifies host`files
    ensures host.Agrees(w', ckpt) && Runs(host.cfg, w, w')
    ensures w' == w.(files := host.files, written := w'.written,
                     phase := if res == NOTHING && pending == map[] then Idle
                              else Rest(Batches(res, host.cfg.batch), pending))
    ensures Walked(host.cfg, ckpt.files, old(host.files), host.files, paths, readable, res, pending, looks)
  {
    ghost var w1;
    res, pending, looks, w1 := ScanAll(host, ckpt, paths, readable, w);
    RunsStep(host.cfg, w, w1, EndScan);
    w' := Do(host.cfg, w1, EndScan);
  }

  method WalkPath(host: Host, ckpt: Checkpoint, ghost files: map<Path, File>, ghost done: seq<Path>, p: Path,
                  ghost readable: Path -> bool, res: ScanResult, pending: map<Path, FileState>,
                  ghost looks: map<Path, Tick>, ghost w0: World, ghost w: World)
    returns (res': ScanResult, pending': map<Path, FileState>, ghost looks': map<Path, Tick>, ghost w': World)
    requires host.Agrees(w, ckpt) && p in host.files && w.phase == Scanning(res, pending) && Runs(host.cfg, w0, w)
    requires readable(p) && Walked(host.cfg, ckpt.files, files, host.files, done, readable, res, pending, looks)
    modifies host`files
    ensures host.Agrees(w', ckpt) && Runs(host.cfg, w0, w')
    ensures w' == w.(files := host.files, written := w'.written, phase := Scanning(res', pending'))
    ensures Walked(host.cfg, ckpt.files, files, host.files, done + [p], readable, res', pending', looks')
  {
    var t, found;
    res', pending', t, found, w' := ScanPath(host, ckpt, p, res, pending, w0, w);
    WalkedScan(host.cfg, ckpt.files, files, w.files, done, readable, res, pending, looks, p, t);
    looks' := if found.Some? then looks[p := t] else looks;
  }

  lemma WalkedScan(cfg: Config, mem: map<Path, FileState>, files: map<Path, File>, now: map<Path, File>,
                   done: seq<Path>, readable: Path -> bool,
                   res: ScanResult, pending: map<Path, FileState>, looks: map<Path, Tick>, p: Path, t: Tick)
    requires Walked(cfg, mem, files, now, done, readable, res, pending, looks)
    requires p in now && readable(p) && Between(now[p], t, File(t.inode, t.content)) && cfg.legal(p)(t.content)
    ensures var found, now' := ScanOne(cfg.source(p), Get(mem, p), t), now[p := File(t.inode, t.content)];
            if found.Some?
            then Walked(cfg, mem, files, now', done + [p], readable,
                        res.Then(found.value.0), pending[p := found.value.1], looks[p := t])
            else Walked(cfg, mem, files, now', done + [p], readable, res, pending, looks)
  {
    var f := File(t.inode, t.content);
    WalkedGrown(cfg, mem, files, now, done, readable, res, pending, looks, p, f);
    assert p in files && Grown(files[p], now[p]) && Between(files[p], t, f);
    WalkedNext(cfg, mem, files, now[p := f], done, readable, res, pending, looks, p, t);
  }

  lemma WalkedNext(cfg: Config, mem: map<Path, FileState>, files: map<Path, File>, now: map<Path, File>,
                   done: seq<Path>, readable: Path -> bool,
                   res: ScanResult, pending: map<Path, FileState>, looks: map<Path, Tick>, p: Path, t: Tick)
    requires Walked(cfg, mem, files, now, done, readable, res, pending, looks)
    requires p in files && readable(p) && Between(files[p], t, now[p]) && cfg.legal(p)(t.content)
    ensures var found := ScanOne(cfg.source(p), Get(mem, p), t);
            if found.Some?
            then Walked(cfg, mem, files, now, done + [p], readable,
                        res.Then(found.value.0), pending[p := found.value.1], looks[p := t])
            else Walked(cfg, mem, files, now, done + [p], readable, res, pending, looks)
  {
    var found := ScanOne(cfg.source(p), Get(mem, p), t);
    if found.Some? {
      WalkedFound(cfg, mem, files, now, done, readable, res, pending, looks, p, t, found.value.0, found.value.1);
    } else {
      WalkedGarbled(cfg, mem, files, now, done, readable, res, pending, looks, p, t);
    }
  }

  method ScanPath(host: Host, ckpt: Checkpoint, p: Path, res: ScanResult, pending: map<Path, FileState>,
                  ghost w0: World, ghost w: World)
    returns (res': ScanResult, pending': map<Path, FileState>, t: Tick, found: Option<(ScanResult, FileState)>,
             ghost w': World)
    requires host.Agrees(w, ckpt) && p in host.files && w.phase == Scanning(res, pending) && Runs(host.cfg, w0, w)
    modifies host`files
    ensures host.Agrees(w', ckpt) && Runs(host.cfg, w0, w')
    ensures w' == w.(files := host.files, written := w'.written, phase := Scanning(res', pending'))
    ensures Between(w.files[p], t, File(t.inode, t.content)) && host.files == w.files[p := File(t.inode, t.content)]
    ensures host.cfg.legal(p)(t.content) && found == ScanOne(host.cfg.source(p), Get(ckpt.files, p), t)
    ensures res' == (if found.Some? then res.Then(found.value.0) else res)
    ensures pending' == (if found.Some? then pending[p := found.value.1] else pending)
  {
    var cfg := host.cfg;
    var prev := ckpt.Lookup(p);
    ghost var more;
    t, more := host.Read(p);
    RunsStep(cfg, w0, w, ScanFile(p, more));
    w' := Do(cfg, w, ScanFile(p, more));
    found := Parse(cfg.source(p), prev, t);
    res', pending' := res, pending;
    if found.Some? {
      res', pending' := res.Then(found.value.0), pending[p := found.value.1];
    }
  }

  // ----- the tick -------------------------------------------------------------

  /** Windows of at most `batch` records, in order, until one is not durable. */
  method SendUsage(up: Uploader, recs: seq<UsageRecord>, batch: nat, ghost w: World, ghost rest: seq<Body>,
                   ghost pending: map<Path, FileState>)
    returns (durable: bool, ghost w': World)
    requires batch > 0 && up.Agrees(w) && w.phase == Rest(UsageBatches(recs, batch) + rest, pending)
    modifies up, up.server.store
    ensures up.Agrees(w') && Runs(up.cfg, w, w')
    ensures w' == w.(spool := w'.spool, server := w'.server, phase := if durable then Rest(rest, pending) else Idle)
    ensures old(up.Fair()) ==> up.Fair() && durable && up.buffer == old(up.buffer)
  {
    RunsNothing(up.cfg, w);
    w', durable := w, true;
    var start := 0;
    assert recs[0..] == recs;
    while start < |recs|
      invariant 0 <= start <= |recs| && up.Agrees(w') && Runs(up.cfg, w, w')
      invariant w' == w.(spool := w'.spool, server := w'.server,
                         phase := Rest(UsageBatches(recs[start..], batch) + rest, pending))
      invariant old(up.Fair()) ==> up.Fair() && durable && up.buffer == old(up.buffer)
    {
      var end := Min(start + batch, |recs|);
      ghost var queue := UsageBatches(recs[end..], batch) + rest;
      UsageWindow(recs, start, batch, rest);
      var res;
      ghost var w1;
      res, w1 := up.SendRequest(ScanResult(recs[start..end], []), w', queue);
      RunsTrans(up.cfg, w, w', w1);
      w' := w1;
      if res.Failed? {
        return false, w';
      }
      start := end;
    }
    assert UsageBatches(recs[start..], batch) + rest == rest;
  }

  method SendEdits(up: Uploader, edits: seq<EditRecord>, batch: nat, ghost w: World,
                   ghost pending: map<Path, FileState>)
    returns (durable: bool, ghost w': World)
    requires batch > 0 && up.Agrees(w) && w.phase == Rest(EditBatches(edits, batch), pending)
    modifies up, up.server.store
    ensures up.Agrees(w') && Runs(up.cfg, w, w')
    ensures w' == w.(spool := w'.spool, server := w'.server, phase := if durable then Setting(pending) else Idle)
    ensures old(up.Fair()) ==> up.Fair() && durable && up.buffer == old(up.buffer)
  {
    RunsNothing(up.cfg, w);
    w', durable := w, true;
    var start := 0;
    assert edits[0..] == edits;
    while start < |edits|
      invariant 0 <= start <= |edits| && up.Agrees(w') && Runs(up.cfg, w, w')
      invariant w' == w.(spool := w'.spool, server := w'.server,
                         phase := Rest(EditBatches(edits[start..], batch), pending))
      invariant old(up.Fair()) ==> up.Fair() && durable && up.buffer == old(up.buffer)
    {
      var end := Min(start + batch, |edits|);
      EditWindow(edits, start, batch);
      var res;
      ghost var w1;
      res, w1 := up.SendRequest(ScanResult([], edits[start..end]), w', EditBatches(edits[end..], batch));
      RunsTrans(up.cfg, w, w', w1);
      w' := w1;
      if res.Failed? {
        return false, w';
      }
      start := end;
    }
  }

  /** Usage first, then edits; a tick that found no records sends nothing. */
  method SendAll(up: Uploader, scanned: ScanResult, pending: map<Path, FileState>, ghost w: World)
    returns (durable: bool, ghost w': World)
    requires up.cfg.batch > 0 && up.Agrees(w) && w.phase == Rest(Batches(scanned, up.cfg.batch), pending)
    modifies up, up.server.store
    ensures up.Agrees(w') && Runs(up.cfg, w, w')
    ensures w' == w.(spool := w'.spool, server := w'.server, phase := if durable then Setting(pending) else Idle)
    ensures old(up.Fair()) ==> up.Fair() && durable && up.buffer == old(up.buffer)
  {
    ghost var edits := EditBatches(scanned.edits, up.cfg.batch);
    durable, w' := SendUsage(up, scanned.usage, up.cfg.batch, w, edits, pending);
    if durable {
      ghost var w1;
      durable, w1 := SendEdits(up, scanned.edits, up.cfg.batch, w', pending);
      RunsTrans(up.cfg, w, w', w1);
      w' := w1;
    }
  }

  lemma UsageWindow(recs: seq<UsageRecord>, start: nat, batch: nat, rest: seq<Body>)
    requires start < |recs| && batch > 0
    ensures var end := Min(start + batch, |recs|);
            UsageBatches(recs[start..], batch) + rest
            == [ScanResult(recs[start..end], [])] + (UsageBatches(recs[end..], batch) + rest)
  {
    var s, k := recs[start..], Min(batch, |recs| - start);
    assert s[..k] == recs[start..start + k] && s[k..] == recs[start + k..];
  }

  lemma EditWindow(edits: seq<EditRecord>, start: nat, batch: nat)
    requires start < |edits| && batch > 0
    ensures var end := Min(start + batch, |edits|);
            EditBatches(edits[start..], batch) == [ScanResult([], edits[start..end])] + EditBatches(edits[end..], batch)
  {
    var s, k := edits[start..], Min(batch, |edits| - start);
    assert s[..k] == edits[start..start + k] && s[k..] == edits[start + k..];
  }

  lemma {:induction false} RunConcat(cfg: Config, a: World, xs: seq<Step>, b: World, ys: seq<Step>, c: World)
    requires Run(cfg, a, xs, b) && Run(cfg, b, ys, c)
    ensures Run(cfg, a, xs + ys, c)
    decreases |xs|
  {
    if xs == [] {
      assert xs + ys == ys;
    } else {
      assert (xs + ys)[1..] == xs[1..] + ys;
      RunConcat(cfg, Do(cfg, a, xs[0]), xs[1..], b, ys, c);
    }
  }

  lemma RunsTrans(cfg: Config, a: World, b: World, c: World)
    requires Runs(cfg, a, b) && Runs(cfg, b, c)
    ensures Runs(cfg, a, c)
  {
    var xs :| Run(cfg, a, xs, b);
    var ys :| Run(cfg, b, ys, c);
    RunConcat(cfg, a, xs, b, ys, c);
  }

  lemma SetNext(mem: map<Path, FileState>, pending: map<Path, FileState>, todo: map<Path, FileState>, p: Path)
    requires p in todo && p in pending
    ensures mem + (pending - (todo - {p}).Keys) == (mem + (pending - todo.Keys))[p := pending[p]]
  {
  }

  method SetPending(host: Host, ckpt: Checkpoint, p: Path, st: FileState, ghost w0: World, ghost w: World)
    returns (ghost w': World)
    requires host.Agrees(w, ckpt) && Runs(host.cfg, w0, w) && w.phase.Setting? && p in w.phase.pending
             && w.phase.pending[p] == st
    modifies ckpt`files
    ensures host.Agrees(w', ckpt) && Runs(host.cfg, w0, w')
    ensures w' == w.(mem := w.mem[p := st], phase := Setting(w.phase.pending - {p}))
  {
    ckpt.Set(p, st);
    RunsStep(host.cfg, w0, w, SetOne(p));
    w' := Do(host.cfg, w, SetOne(p));
  }

  /** Only after every batch is durable: record the new states and save them. */
  method Advance(host: Host, ckpt: Checkpoint, pending: map<Path, FileState>, writable: bool, ghost w: World)
    returns (ghost w': World)
    requires host.Agrees(w, ckpt) && w.phase == Setting(pending)
    modifies ckpt
    ensures host.Agrees(w', ckpt) && Runs(host.cfg, w, w')
    ensures w' == w.(mem := w.mem + pending, disk := if writable then w.mem + pending else w.disk, phase := Idle)
  {
    var cfg := host.cfg;
    RunsNothing(cfg, w);
    w' := w;
    var todo := pending;
    assert w.mem + (pending - todo.Keys) == w.mem;
    while todo.Keys != {}
      invariant host.Agrees(w', ckpt) && Runs(cfg, w, w')
      invariant todo.Keys <= pending.Keys && forall p | p in todo :: todo[p] == pending[p]
      invariant w' == w.(mem := w.mem + (pending - todo.Keys), phase := Setting(todo))
      decreases todo.Keys
    {
      var p :| p in todo.Keys;
      SetNext(w.mem, pending, todo, p);
      w' := SetPending(host, ckpt, p, todo[p], w, w');
      todo := todo - {p};
    }
    assert todo == map[] && pending - {} == pending;
    w' := SaveAll(host, ckpt, writable, w, w');
  }

  method SaveAll(host: Host, ckpt: Checkpoint, writable: bool, ghost w0: World, ghost w: World)
    returns (ghost w': World)
    requires host.Agrees(w, ckpt) && Runs(host.cfg, w0, w) && w.phase == Setting(map[])
    modifies ckpt`saved
    ensures host.Agrees(w', ckpt) && Runs(host.cfg, w0, w')
    ensures w' == w.(disk := if writable then w.mem else w.disk, phase := Idle)
  {
    var cfg := host.cfg;
    RunsStep(cfg, w0, w, EndSet);
    w' := Do(cfg, w, EndSet);
    ckpt.Save(writable);
    RunsStep(cfg, w0, w', Step.Save(writable));
    w' := Do(cfg, w', Step.Save(writable));
  }

  /** Without a spool nothing is ever in it. */
  lemma {:induction false} NeverSpooled(cfg: Config, w: World, steps: seq<Step>, end: World)
    requires !cfg.buffered && w.spool == map[] && !w.phase.Spooling? && Run(cfg, w, steps, end)
    ensures end.spool == map[]
    decreases |steps|
  {
    if steps != [] {
      var w1 := Do(cfg, w, steps[0]);
      NothingSpooled(cfg, w, steps[0]);
      NeverSpooled(cfg, w1, steps[1..], end);
    }
  }

  lemma NothingSpooled(cfg: Config, w: World, s: Step)
    requires !cfg.buffered && w.spool == map[] && !w.phase.Spooling? && Enabled(cfg, w, s)
    ensures Do(cfg, w, s).spool == map[] && !Do(cfg, w, s).phase.Spooling?
  {
    if s.ScanFile? { NoLoss.ScanSame(cfg, w, s.p, s.more); }
  }

  /** Every file there is on the walk and can be read. */
  ghost predicate AllReadable(files: map<Path, File>, paths: seq<Path>, readable: Path -> bool) {
    forall p | p in files :: p in paths && readable(p)
  }

  ghost predicate AllParse(cfg: Config, files: map<Path, File>) {
    forall p | p in files && cfg.source(p).Reparsed? :: cfg.source(p).parse(files[p].bytes).Some?
  }

  /** After a walk over files nobody wrote to, the new entries stand at their ends. */
  lemma WalkFinishes(cfg: Config, w: World, paths: seq<Path>, readable: Path -> bool,
                     res: ScanResult, pending: map<Path, FileState>, looks: map<Path, Tick>, p: Path)
    requires NoLoss.Inv(cfg, w) && AllReadable(w.files, paths, readable) && AllParse(cfg, w.files) && p in w.files
    requires Walked(cfg, w.mem, w.files, w.files, paths, readable, res, pending, looks)
    ensures p in pending && Finished(cfg.source(p), w.files[p], pending[p])
  {
    var f, prev := w.files[p], Get(w.mem, p);
    EntriesFit(cfg, w, p);
    ScanFinishes(cfg.source(p), f, prev);
    forall t: Tick | Between(f, t, f) ensures t == Glimpse(f.inode, |f.bytes|, f.bytes) { }
    assert !Garbled(cfg, prev, p, f, f);
  }

  lemma ReachedInv(cfg: Config, w: World)
    requires Valid(cfg) && Reachable(cfg, w)
    ensures NoLoss.Inv(cfg, w) && (!cfg.buffered ==> w.spool == map[])
  {
    var steps :| Run(cfg, Start(cfg), steps, w);
    NoLoss.RunKeepsInv(cfg, Start(cfg), steps, w);
    if !cfg.buffered {
      NeverSpooled(cfg, Start(cfg), steps, w);
    }
  }

  /** Flush, scan, send, and only then move the checkpoint: by every pending state if all
      batches were durable, not at all otherwise. Whatever fails on the way, the tick is a
      run of the protocol: a state the protocol can reach stays one, and every theorem about
      reachable states holds after it. And it gets on: if no request fails, every file gets
      past all that was complete in it before, or could not be parsed; if nothing was
      appended meanwhile and all files parse, the watcher has caught up, unless something was
      turned away before. */
  method RunOnce(host: Host, up: Uploader, ckpt: Checkpoint, paths: seq<Path>, readable: Path -> bool, writable: bool,
                 ghost w: World)
    returns (durable: bool, pending: map<Path, FileState>, ghost w': World)
    requires host.Agrees(w, ckpt) && up.Agrees(w) && host.cfg == up.cfg && up.cfg.batch > 0 && w.phase.Idle?
    modifies host`files, up, up.server.store, ckpt
    ensures host.Agrees(w', ckpt) && up.Agrees(w') && w'.phase.Idle?
    ensures Runs(up.cfg, w, w')
    ensures Reachable(up.cfg, w) ==> Reachable(up.cfg, w')
    ensures ckpt.files == if durable then old(ckpt.files) + pending else old(ckpt.files)
    ensures ckpt.saved == if durable && writable then ckpt.files else old(ckpt.saved)
    ensures old(up.Fair()) ==> (durable || pending == map[]) && up.dropped == old(up.dropped)
    ensures old(up.Fair()) && AllReadable(w.files, paths, readable) ==> Gained(up.cfg, w, w')
    ensures Valid(up.cfg) && Reachable(up.cfg, w) && old(up.Fair()) && w.rejected == {}
            && AllReadable(w.files, paths, readable) && w'.files == w.files && AllParse(up.cfg, w.files) ==>
              ExactlyOnce.CaughtUp(up.cfg, w')
  {
    ghost var looks;
    durable, pending, looks, w' := TickOnce(host, up, ckpt, paths, readable, writable, w);
    ReachableOn(up.cfg, w, w');
    if old(up.Fair()) { TickDone(up.cfg, w, w', paths, readable, pending, looks); }
  }

  method TickOnce(host: Host, up: Uploader, ckpt: Checkpoint, paths: seq<Path>, readable: Path -> bool, writable: bool,
              ghost w: World)
    returns (durable: bool, pending: map<Path, FileState>, ghost looks: map<Path, Tick>, ghost w': World)
    requires host.Agrees(w, ckpt) && up.Agrees(w) && host.cfg == up.cfg && up.cfg.batch > 0 && w.phase.Idle?
    modifies host`files, up, up.server.store, ckpt
    ensures host.Agrees(w', ckpt) && up.Agrees(w') && w'.phase.Idle? && Runs(up.cfg, w, w')
    ensures w'.mem == if durable then w.mem + pending else w.mem
    ensures w'.disk == if durable && writable then w'.mem else w.disk
    ensures exists res :: Walked(up.cfg, w.mem, w.files, w'.files, paths, readable, res, pending, looks)
    ensures old(up.Fair()) ==>
              && (durable || pending == map[]) && w'.rejected == w.rejected
              && w'.spool == if up.cfg.buffered then map[] else w.spool
  {
    ghost var w1 := up.Flush(w);
    var scanned;
    ghost var w2;
    scanned, pending, looks, w2 := Gather(host, ckpt, paths, readable, w1);
    RunsTrans(up.cfg, w, w1, w2);
    durable, w' := Deliver(host, up, ckpt, scanned, pending, writable, w2);
    RunsTrans(up.cfg, w, w2, w');
  }

  /** The second half of a tick, if the first found anything. */
  method Deliver(host: Host, up: Uploader, ckpt: Checkpoint, scanned: ScanResult, pending: map<Path, FileState>,
                 writable: bool, ghost w: World)
    returns (durable: bool, ghost w': World)
    requires host.Agrees(w, ckpt) && up.Agrees(w) && host.cfg == up.cfg && up.cfg.batch > 0
    requires w.phase == if scanned == NOTHING && pending == map[] then Idle
                        else Rest(Batches(scanned, up.cfg.batch), pending)
    modifies up, up.server.store, ckpt
    ensures host.Agrees(w', ckpt) && up.Agrees(w') && Runs(up.cfg, w, w')
    ensures w' == w.(spool := w'.spool, server := w'.server, mem := if durable then w.mem + pending else w.mem,
                     disk := if durable && writable then w.mem + pending else w.disk, phase := Idle)
    ensures old(up.Fair()) ==> (durable || pending == map[]) && w'.spool == w.spool
  {
    durable, w' := false, w;
    RunsNothing(up.cfg, w);
    if |scanned.usage| != 0 || |scanned.edits| != 0 || |pending| != 0 {
      durable, w' := SendAll(up, scanned, pending, w);
      if durable {
        ghost var w1 := Advance(host, ckpt, pending, writable, w');
        RunsTrans(up.cfg, w, w', w1);
        w' := w1;
      }
    }
  }

  /** Every file of `w` got past all that was complete in it, or could not be parsed. */
  ghost predicate Gained(cfg: Config, w: World, w': World) {
    && w'.files.Keys == w.files.Keys
    && forall p | p in w.files ::
         || Garbled(cfg, Get(w.mem, p), p, w.files[p], w'.files[p])
         || Passes(cfg.source(p), w.files[p], Get(w'.mem, p))
  }

  lemma WalkGains(cfg: Config, w: World, w': World, paths: seq<Path>, readable: Path -> bool,
                  res: ScanResult, pending: map<Path, FileState>, looks: map<Path, Tick>)
    requires Walked(cfg, w.mem, w.files, w'.files, paths, readable, res, pending, looks)
    requires w'.mem == w.mem + pending && AllReadable(w.files, paths, readable)
    ensures Gained(cfg, w, w')
  {
    forall p | p in w.files && p in pending ensures Passes(cfg.source(p), w.files[p], Get(w'.mem, p)) {
      ScanPasses(cfg.source(p), w.files[p], Get(w.mem, p), looks[p], w'.files[p]);
    }
  }

  lemma WalkCatchesUp(cfg: Config, w: World, w': World, paths: seq<Path>, readable: Path -> bool,
                      res: ScanResult, pending: map<Path, FileState>, looks: map<Path, Tick>)
    requires Valid(cfg) && Reachable(cfg, w)
    requires Walked(cfg, w.mem, w.files, w'.files, paths, readable, res, pending, looks)
    requires w'.mem == w.mem + pending && w'.files == w.files && w'.rejected == {}
    requires w'.spool == if cfg.buffered then map[] else w.spool
    requires AllReadable(w.files, paths, readable) && AllParse(cfg, w.files)
    ensures ExactlyOnce.CaughtUp(cfg, w')
  {
    ReachedInv(cfg, w);
    forall p | p in w'.files ensures Finished(cfg.source(p), w'.files[p], Get(w'.mem, p)) {
      WalkFinishes(cfg, w, paths, readable, res, pending, looks, p);
    }
  }

  /** What a tick has reached once its findings are entered. */
  lemma TickDone(cfg: Config, w: World, w': World, paths: seq<Path>, readable: Path -> bool,
                 pending: map<Path, FileState>, looks: map<Path, Tick>)
    requires exists res :: Walked(cfg, w.mem, w.files, w'.files, paths, readable, res, pending, looks)
    requires w'.mem == w.mem + pending && w'.rejected == w.rejected
    requires w'.spool == if cfg.buffered then map[] else w.spool
    ensures AllReadable(w.files, paths, readable) ==> Gained(cfg, w, w')
    ensures Valid(cfg) && Reachable(cfg, w) && w.rejected == {}
            && AllReadable(w.files, paths, readable) && w'.files == w.files && AllParse(cfg, w.files) ==>
              ExactlyOnce.CaughtUp(cfg, w')
  {
    var res :| Walked(cfg, w.mem, w.files, w'.files, paths, readable, res, pending, looks);
    if AllReadable(w.files, paths, readable) {
      WalkGains(cfg, w, w', paths, readable, res, pending, looks);
      if Valid(cfg) && Reachable(cfg, w) && w.rejected == {} && w'.files == w.files && AllParse(cfg, w.files) {
        WalkCatchesUp(cfg, w, w', paths, readable, res, pending, looks);
      }
    }
  }

  /** LoadCheckpoint in a new process: wherever the old one stopped, the watcher goes on
      from the saved checkpoint, which is the protocol's crash. */
  method Restart(host: Host, up: Uploader, last: Checkpoint, ghost w: World) returns (ckpt: Checkpoint, ghost w': World)
    requires host.Agrees(w, last) && up.Agrees(w) && host.cfg == up.cfg
    ensures fresh(ckpt) && ckpt.files == last.saved == ckpt.saved
    ensures host.Agrees(w', ckpt) && up.Agrees(w') && w'.phase.Idle?
    ensures Runs(up.cfg, w, w') && (Reachable(up.cfg, w) ==> Reachable(up.cfg, w'))
  {
    ckpt := new Checkpoint(last.saved);
    RunsNothing(up.cfg, w);
    RunsStep(up.cfg, w, w, Crash);
    w' := Do(up.cfg, w, Crash);
    ReachableOn(up.cfg, w, w');
  }

  lemma ReachableOn(cfg: Config, w: World, w': World)
    requires Runs(cfg, w, w')
    ensures Reachable(cfg, w) ==> Reachable(cfg, w')
  {
    if Reachable(cfg, w) {
      RunsTrans(cfg, Start(cfg), w, w');
    }
  }
}
