/**
 The warm pipeline as an interleaved step system: HTTP handlers, the single
 warm worker with its download pipeline and progress watcher, the resume loop
 of the lifespan hook, and crashes (classes Warmer, Store and NbdServer of
 src/nbdmux/server.py, the handlers of src/nbdmux/_api.py and
 src/nbdmux/_app.py).

 A step is one SQL statement, one system call on a managed file, or one call
 that holds a lock; agents interleave freely between steps.
 */
module WarmSystem {
  import opened Wrappers
  import opened ExportStore
  import opened Supervision
  import opened ExportNames

  type Bytes = seq<bv8>

  type Files = map<string, Bytes>

  // ----- the world outside

  datatype Decoder = Raw | Gunzip | Zstd | Xz

  function DecoderFor(format: string): Option<Decoder> {
    if format in {"img", ""} then Some(Raw)
    else if format in {"img.gz", "gz", ".gz"} then Some(Gunzip)
    else if format in {"img.zst", "zst", ".zst"} then Some(Zstd)
    else if format in {"img.xz", "xz", ".xz"} then Some(Xz)
    else None
  }

  /** What the daemon cannot see into: the bytes the cache serves for a source,
      the decompressors, the format lookup. `names` and `paths` say which names
      get registered for warming and which files an operator places by hand. */
  datatype World = World(
    imagesDir: string, portBase: int,
    source: string -> Bytes, decode: (Decoder, Bytes) -> Bytes, detect: string -> string,
    names: iset<string>, paths: iset<string>)
  {
    function Image(name: string): string { Join(imagesDir, name) }

    /** The complete image of a source, if its format has a decoder. */
    function Decoded(url: string, format: string): Option<Bytes> {
      match DecoderFor(format)
      case None => None
      case Some(Raw) => Some(source(url))
      case Some(d) => Some(decode(d, source(url)))
    }

    /** `row["format"] or _detect_format(src_url, None)` */
    function FormatOf(url: string, format: Option<string>): string {
      if format.Some? && format.value != "" then format.value else detect(url)
    }
  }

  const CHUNK: nat := 33554432
  const NO_SOURCE := "no src_url; can't warm"
  const NO_WITHCACHE := "NBDMUX_WITHCACHE_URL is not set"

  // ----- state

  /** What the worker remembers of the row it picked up; `born` is the
      generation of that row. */
  datatype Job = Job(url: string, format: string, dest: string, born: nat) {
    function Temp(): string { dest + INFLIGHT }
  }

  /** The program point of the warm worker, named by what it did last; `born` is
      the generation of the row it is about to refuse. */
  datatype Worker =
    | Idle
    | Popped(name: string)
    | Doomed(name: string, reason: string, born: nat)
    | Picked(name: string, job: Job)
    | Started(name: string, job: Job)
    | Cleared(name: string, job: Job)
    | Launching(name: string, job: Job)
    | Pumping(name: string, job: Job, plan: Bytes, good: bool, done: nat, seen: nat)
    | Pumped(name: string, job: Job)
    | Replaced(name: string, job: Job, size: nat)
    | Returned(name: string, job: Job, size: nat)
    | Aborting(name: string, job: Job)
    | AbortingTemp(name: string, job: Job)
    | AbortingRow(name: string, job: Job)
    | Published(name: string)
    | Reloading(name: string, ready: seq<string>, paths: map<string, string>)
    | Bundling(name: string)
  {
    /** Between the write of `fetching` and the final status write. */
    predicate Warming() {
      Started? || Cleared? || Launching? || Pumping? || Pumped? || Replaced? || Returned?
      || Aborting? || AbortingTemp? || AbortingRow?
    }

    predicate HasJob() { Picked? || Warming() }

    /** Popped from the queue and not yet written to the row. */
    predicate Holds(n: string) { (Popped? || Doomed? || Picked?) && name == n }

    predicate OwesReload(n: string) { (Published? || Reloading?) && name == n }
  }

  /** A request handler that has more to do; `unlink` is the image file a delete
      still has to remove, `ready` and `paths` the ready rows it has listed. */
  datatype Handler =
    | Enqueueing(name: string)
    | Deleting(name: string, row: Option<Row>)
    | Refreshing(name: string, unlink: Option<string>)
    | WithSnapshot(name: string, ready: seq<string>, paths: map<string, string>, unlink: Option<string>)
    | Unlinking(name: string, path: string)
  {
    predicate OwesReload(n: string) { (Refreshing? || WithSnapshot?) && name == n }

    predicate WillUnlink(p: string) {
      match this
      case Refreshing(_, u) => u == Some(p)
      case WithSnapshot(_, _, _, u) => u == Some(p)
      case Unlinking(_, q) => q == p
      case _ => false
    }
  }

  datatype Phase = Down | Resuming(rest: seq<string>) | Serving

  /** History the program does not keep: the generation of each row, the rows
      whose own generation was written ready by the worker, the rows dropped
      because the images directory could not be made, the rows in flight at the
      last crash, the file each running child was started with, and the number of
      crashes. */
  datatype History = History(
    born: map<string, nat>, clock: nat, warmed: set<string>, stranded: set<string>,
    interrupted: set<string>, served: map<string, string>, restarts: nat)

  datatype State = State(
    rows: Rows, queue: seq<string>, worker: Worker, handlers: map<nat, Handler>, phase: Phase,
    files: Files, sup: Sup, log: History)

  function Init(files: Files): State {
    State(map[], [], Idle, map[], Down, files, EMPTY, History(map[], 0, {}, {}, {}, map[], 0))
  }

  ghost predicate UnlinkPending(s: State, path: string) {
    exists h :: h in s.handlers && s.handlers[h].WillUnlink(path)
  }

  // ----- the queue

  /** `Warmer.enqueue`: a name already queued is not queued twice. */
  function Enqueued(queue: seq<string>, name: string): seq<string> {
    if name in queue then queue else queue + [name]
  }

  // ----- handler steps

  datatype HandlerStep =
    | RegisterWarm(name: string, url: string, format: string, readonly: bool, netbootRef: Option<string>)
    | RegisterFile(name: string, path: string, readonly: bool)
    | BeginDelete(name: string)
    | Enqueue
    | DeleteRow
    | Snapshot(ready: seq<string>)
    | HandlerReload(host: Host)
    | Unlink

  ghost predicate CanHandle(w: World, s: State, h: nat, a: HandlerStep) {
    && s.phase.Serving?
    && match a
       case RegisterWarm(name, url, _, _, _) => h !in s.handlers && name in w.names && url != ""
       case RegisterFile(_, path, _) => h !in s.handlers && path in w.paths
       case BeginDelete(_) => h !in s.handlers
       case Enqueue => h in s.handlers && s.handlers[h].Enqueueing?
       case DeleteRow => h in s.handlers && s.handlers[h].Deleting?
       case Snapshot(ready) => h in s.handlers && s.handlers[h].Refreshing? && Lists(ready, ReadyNames(s.rows))
       case HandlerReload(_) => h in s.handlers && s.handlers[h].WithSnapshot?
       case Unlink => h in s.handlers && s.handlers[h].Unlinking?
  }

  ghost function Handle(w: World, s: State, h: nat, a: HandlerStep): State
    requires CanHandle(w, s, h, a)
  {
    match a
    case RegisterWarm(name, url, format, readonly, netbootRef) =>
      s.(rows := Upsert(s.rows, name, w.Image(name), readonly, Queued, Some(url), Some(format), netbootRef),
         handlers := s.handlers[h := Enqueueing(name)],
         log := Registered(s.log, name))
    case RegisterFile(name, path, readonly) =>
      s.(rows := Upsert(s.rows, name, path, readonly, Ready, None, None, None),
         handlers := s.handlers[h := Refreshing(name, None)],
         log := Registered(s.log, name))
    case BeginDelete(name) =>
      s.(handlers := s.handlers[h := Deleting(name, if name in s.rows then Some(s.rows[name]) else None)])
    case Enqueue =>
      s.(queue := Enqueued(s.queue, s.handlers[h].name), handlers := s.handlers - {h})
    case DeleteRow =>
      var name := s.handlers[h].name;
      s.(rows := s.rows - {name},
         handlers := s.handlers[h := Refreshing(name, UnlinkAfter(name in s.rows, s.handlers[h].row))],
         log := Forgotten(s.log, name))
    case Snapshot(ready) =>
      s.(handlers := s.handlers[h := WithSnapshot(s.handlers[h].name, ready, FilesOf(s.rows), s.handlers[h].unlink)])
    case HandlerReload(host) =>
      var e := Reload(w.portBase, s.sup, s.handlers[h].ready, host);
      var unlink := s.handlers[h].unlink;
      s.(sup := e.sup, rows := WritePorts(s.rows, e.writes),
         log := s.log.(served := StartedWith(s.log.served, s.handlers[h].paths, e)),
         handlers := if e.error.None? && unlink.Some? then s.handlers[h := Unlinking(s.handlers[h].name, unlink.value)]
                     else s.handlers - {h})
    case Unlink =>
      s.(files := s.files - {s.handlers[h].path}, handlers := s.handlers - {h})
  }

  /** The file a delete removes: that of the row it read, if that row came from
      a warm and a row was deleted. */
  function UnlinkAfter(existed: bool, row: Option<Row>): Option<string> {
    if existed && row.Some? && row.value.srcUrl.Some? && row.value.file != "" then Some(row.value.file) else None
  }

  function Registered(log: History, name: string): History {
    log.(born := log.born[name := log.clock], clock := log.clock + 1,
         warmed := log.warmed - {name}, stranded := log.stranded - {name})
  }

  function Forgotten(log: History, name: string): History {
    log.(born := log.born - {name}, warmed := log.warmed - {name}, stranded := log.stranded - {name})
  }

  /** The file column, as a listing of the rows carries it. */
  function FilesOf(rows: Rows): map<string, string> { map n | n in rows :: rows[n].file }

  /** A child that a call started serves the file of the listing it was given;
      the others keep theirs. */
  function StartedWith(served: map<string, string>, paths: map<string, string>, e: Effect): map<string, string> {
    map n | n in e.sup.procs :: if n in e.writes then FileOf(paths, n) else FileOf(served, n)
  }

  function FileOf(paths: map<string, string>, n: string): string { if n in paths then paths[n] else "" }

  // ----- worker steps

  datatype WorkerStep =
    | Pop
    | Pickup(configured: bool)
    | WriteDoom
    | MkdirFails
    | WriteFetching
    | ClearTemp
    | WriteDecompressing
    | LaunchFails
    | Launch(plan: Bytes, good: bool)
    | Pump(n: nat)
    | Tick
    | Exit
    | Replace
    | ReportSize
    | WriteReady
    | UnlinkDest
    | UnlinkTemp
    | WriteFailed(reason: string)
    | TakeSnapshot(ready: seq<string>)
    | WorkerReload(host: Host)
    | FinishBundle

  ghost predicate CanWork(w: World, s: State, a: WorkerStep) {
    && !s.phase.Down?
    && var k := s.worker;
       match a
       case Pop => k.Idle? && s.queue != []
       case Pickup(_) => k.Popped?
       case WriteDoom => k.Doomed?
       case MkdirFails => k.Picked?
       case WriteFetching => k.Picked?
       case ClearTemp => k.Started?
       case WriteDecompressing => k.Cleared?
       case LaunchFails => k.Launching?
       case Launch(plan, good) =>
         && k.Launching? && DecoderFor(k.job.format).Some?
         && (good ==> w.Decoded(k.job.url, k.job.format) == Some(plan))
       case Pump(n) => k.Pumping? && 0 < n && k.done + n <= |k.plan|
       case Tick =>
         k.Pumping? && k.job.Temp() in s.files && |s.files[k.job.Temp()]| >= k.seen + CHUNK
       case Exit => k.Pumping? && k.done == |k.plan|
       case Replace => k.Pumped?
       case ReportSize => k.Replaced?
       case WriteReady => k.Returned?
       case UnlinkDest => k.Aborting?
       case UnlinkTemp => k.AbortingTemp?
       case WriteFailed(_) => k.AbortingRow?
       case TakeSnapshot(ready) => k.Published? && Lists(ready, ReadyNames(s.rows))
       case WorkerReload(_) => k.Reloading?
       case FinishBundle => k.Bundling?
  }

  ghost function Work(w: World, s: State, a: WorkerStep): State
    requires CanWork(w, s, a)
  {
    var k := s.worker;
    match a
    case Pop => s.(worker := Popped(s.queue[0]), queue := s.queue[1..])
    case Pickup(configured) => s.(worker := PickedUp(w, s, configured))
    case WriteDoom => s.(worker := Idle, rows := SetStatus(s.rows, k.name, Failed, Some(k.reason), None))
    case MkdirFails => s.(worker := Idle, log := s.log.(stranded := s.log.stranded + {k.name}))
    case WriteFetching =>
      s.(worker := Started(k.name, k.job), rows := SetStatus(s.rows, k.name, Fetching, None, None))
    case ClearTemp => s.(worker := Cleared(k.name, k.job), files := s.files - {k.job.Temp()})
    case WriteDecompressing =>
      s.(worker := Launching(k.name, k.job), rows := SetStatus(s.rows, k.name, Decompressing, None, None))
    case LaunchFails => s.(worker := Aborting(k.name, k.job))
    case Launch(plan, good) =>
      // a decompressor's output file is opened at once, curl opens its own with
      // the first byte
      s.(worker := Pumping(k.name, k.job, plan, good, 0, 0),
         files := if DecoderFor(k.job.format) == Some(Raw) then s.files else s.files[k.job.Temp() := []])
    case Pump(n) =>
      s.(worker := k.(done := k.done + n), files := s.files[k.job.Temp() := k.plan[..k.done + n]])
    case Tick =>
      var size := |s.files[k.job.Temp()]|;
      s.(worker := k.(seen := size), rows := SetStatus(s.rows, k.name, Decompressing, None, Some(size)))
    case Exit =>
      // a download that succeeds leaves a file even if it is empty
      s.(worker := if k.good then Pumped(k.name, k.job) else Aborting(k.name, k.job),
         files := if k.good && k.job.Temp() !in s.files then s.files[k.job.Temp() := []] else s.files)
    case Replace =>
      if k.job.Temp() in s.files then
        s.(worker := Replaced(k.name, k.job, |s.files[k.job.Temp()]|),
           files := s.files[k.job.dest := s.files[k.job.Temp()]] - {k.job.Temp()})
      else s.(worker := Aborting(k.name, k.job))
    case ReportSize =>
      s.(worker := Returned(k.name, k.job, k.size),
         rows := SetStatus(s.rows, k.name, Decompressing, None, Some(k.size)))
    case WriteReady =>
      s.(worker := Published(k.name), rows := SetStatus(s.rows, k.name, Ready, None, Some(k.size)),
         log := s.log.(warmed := if SameGeneration(s, k.name, k.job) then s.log.warmed + {k.name} else s.log.warmed))
    case UnlinkDest => s.(worker := AbortingTemp(k.name, k.job), files := s.files - {k.job.dest})
    case UnlinkTemp => s.(worker := AbortingRow(k.name, k.job), files := s.files - {k.job.Temp()})
    case WriteFailed(reason) => s.(worker := Idle, rows := SetStatus(s.rows, k.name, Failed, Some(reason), None))
    case TakeSnapshot(ready) => s.(worker := Reloading(k.name, ready, FilesOf(s.rows)))
    case WorkerReload(host) =>
      var e := Reload(w.portBase, s.sup, k.ready, host);
      s.(worker := if e.error.None? then Bundling(k.name) else Idle,
         sup := e.sup, rows := WritePorts(s.rows, e.writes),
         log := s.log.(served := StartedWith(s.log.served, k.paths, e)))
    case FinishBundle => s.(worker := Idle)
  }

  /** The row is still the one the worker picked up. */
  predicate SameGeneration(s: State, name: string, job: Job) {
    name in s.rows && name in s.log.born && s.log.born[name] == job.born
  }

  /** The statuses the worker accepts at pickup. */
  predicate Warmable(row: Row) { row.status.Queued? || row.status.Failed? }

  predicate HasSource(row: Row) { row.srcUrl.Some? && row.srcUrl.value != "" }

  /** The checks at the top of `_process`. */
  function PickedUp(w: World, s: State, configured: bool): Worker
    requires s.worker.Popped?
  {
    var name := s.worker.name;
    if name !in s.rows then Idle
    else
      var row := s.rows[name];
      if !Warmable(row) then Idle
      else
        var born := if name in s.log.born then s.log.born[name] else 0;
        if !HasSource(row) then Doomed(name, NO_SOURCE, born)
        else if !configured then Doomed(name, NO_WITHCACHE, born)
        else Picked(name, Job(row.srcUrl.value, w.FormatOf(row.srcUrl.value, row.format), row.file, born))
  }

  // ----- all steps

  datatype Step =
    | H(h: nat, act: HandlerStep)
    | W(work: WorkerStep)
    | Boot(ready: seq<string>, pending: seq<string>, host: Host)
    | Resume
    | Crash
    | Operator(path: string, content: Option<Bytes>)

  predicate IsSystem(step: Step) { !step.H? && !step.W? }

  ghost predicate CanSystem(w: World, s: State, step: Step)
    requires IsSystem(step)
  {
    match step
    case Boot(ready, pending, _) =>
      s.phase.Down? && Lists(ready, ReadyNames(s.rows)) && Lists(pending, PendingNames(s.rows))
    case Resume => s.phase.Resuming?
    case Crash => !s.phase.Down?
    case Operator(path, _) => path in w.paths
  }

  /** Start, resume loop, crash, and the operator's own files. */
  ghost function System(w: World, s: State, step: Step): State
    requires IsSystem(step) && CanSystem(w, s, step)
  {
    match step
    case Boot(ready, pending, host) =>
      // nbd.start, warmer.start and the read of the pending rows: nobody else
      // is there yet. A failing start ends the process.
      var e := SpawnAll(w.portBase, EMPTY, ready, host);
      if e.error.None? then
        s.(sup := e.sup, rows := WritePorts(s.rows, e.writes), phase := Resuming(pending),
           log := s.log.(stranded := {}, served := StartedWith(map[], FilesOf(s.rows), e)))
      else s.(rows := WritePorts(s.rows, e.writes))
    case Resume =>
      var rest := s.phase.rest;
      if rest == [] then s.(phase := Serving)
      else s.(queue := Enqueued(s.queue, rest[0]), phase := Resuming(rest[1..]))
    case Crash =>
      s.(queue := [], worker := Idle, handlers := map[], phase := Down, sup := EMPTY,
         log := s.log.(interrupted := InFlightNames(s.rows), served := map[], restarts := s.log.restarts + 1))
    case Operator(path, content) =>
      s.(files := if content.Some? then s.files[path := content.value] else s.files - {path})
  }

  ghost predicate Enabled(w: World, s: State, step: Step) {
    && (step.H? ==> CanHandle(w, s, step.h, step.act))
    && (step.W? ==> CanWork(w, s, step.work))
    && (IsSystem(step) ==> CanSystem(w, s, step))
  }

  ghost function Next(w: World, s: State, step: Step): State
    requires Enabled(w, s, step)
  {
    if step.H? then Handle(w, s, step.h, step.act)
    else if step.W? then Work(w, s, step.work)
    else System(w, s, step)
  }

  ghost predicate Run(w: World, s: State, steps: seq<Step>, s': State)
    decreases |steps|
  {
    if steps == [] then s' == s
    else Enabled(w, s, steps[0]) && Run(w, Next(w, s, steps[0]), steps[1..], s')
  }

  ghost predicate Reachable(w: World, s: State) {
    exists files: Files, steps: seq<Step> :: Run(w, Init(files), steps, s)
  }

  // ----- runs compose

  /** Some run of the step system leads from one state to the other. */
  ghost predicate Reaches(w: World, s: State, t: State) {
    exists steps :: Run(w, s, steps, t)
  }

  lemma {:induction false} RunExtends(w: World, s: State, steps: seq<Step>, t: State, step: Step)
    requires Run(w, s, steps, t) && Enabled(w, t, step)
    ensures Run(w, s, steps + [step], Next(w, t, step))
    decreases |steps|
  {
    if steps == [] {
      assert [step][1..] == [];
    } else {
      RunExtends(w, Next(w, s, steps[0]), steps[1..], t, step);
      assert (steps + [step])[1..] == steps[1..] + [step];
    }
  }

  lemma {:induction false} RunsConcatenate(w: World, s: State, a: seq<Step>, t: State, b: seq<Step>, u: State)
    requires Run(w, s, a, t) && Run(w, t, b, u)
    ensures Run(w, s, a + b, u)
    decreases |a|
  {
    if a == [] {
      assert a + b == b;
    } else {
      RunsConcatenate(w, Next(w, s, a[0]), a[1..], t, b, u);
      assert (a + b)[1..] == a[1..] + b;
    }
  }

  lemma StaysPut(w: World, s: State)
    ensures Reaches(w, s, s)
  {
    assert Run(w, s, [], s);
  }

  lemma StepsOn(w: World, s: State, t: State, step: Step)
    requires Reaches(w, s, t) && Enabled(w, t, step)
    ensures Reaches(w, s, Next(w, t, step))
  {
    var steps :| Run(w, s, steps, t);
    RunExtends(w, s, steps, t, step);
  }

  lemma RunsOn(w: World, s: State, t: State, u: State)
    requires Reaches(w, s, t) && Reaches(w, t, u)
    ensures Reaches(w, s, u)
  {
    var a :| Run(w, s, a, t);
    var b :| Run(w, t, b, u);
    RunsConcatenate(w, s, a, t, b, u);
  }

  lemma ReachableGoesOn(w: World, s: State, t: State)
    requires Reachable(w, s) && Reaches(w, s, t)
    ensures Reachable(w, t)
  {
    var files: Files, before :| Run(w, Init(files), before, s);
    var steps :| Run(w, s, steps, t);
    RunsConcatenate(w, Init(files), before, s, steps, t);
  }

  lemma ReachableStep(w: World, s: State, step: Step)
    requires Reachable(w, s) && Enabled(w, s, step)
    ensures Reachable(w, Next(w, s, step))
  {
    var files: Files, steps :| Run(w, Init(files), steps, s);
    RunExtends(w, Init(files), steps, s, step);
  }
}
