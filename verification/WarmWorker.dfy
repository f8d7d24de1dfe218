/**
 The daemon's objects executed one call at a time: the warm worker as the loop
 and the straight-line code it is (class Warmer of src/nbdmux/server.py). Every
 method is proved to perform a run of the step system of module WarmSystem, in
 whatever world it is called, so what holds of all runs holds of it.
 */
module WarmWorker {
  import opened Wrappers
  import opened ExportStore
  import opened Supervision
  import opened NbdSupervisor
  import opened ExportNames
  import opened WarmSystem
  import opened WarmFrames
  import opened WarmSafety
  import opened WarmBytes
  import opened WarmDrain

  /** The managed part of the file system. */
  class Disk {
    var files: Files

    constructor (files: Files)
      ensures this.files == files
    {
      this.files := files;
    }

    method Unlink(path: string)
      modifies this
      ensures files == old(files) - {path}
    {
      files := files - {path};
    }

    method Write(path: string, content: Bytes)
      modifies this
      ensures files == old(files)[path := content]
    {
      files := files[path := content];
    }

    method Replace(source: string, dest: string)
      requires source in files
      modifies this
      ensures files == old(files)[dest := old(files)[source]] - {source}
    {
      files := files[dest := files[source]] - {source};
    }
  }

  /** What happens to one download: whether the directory can be made and the
      processes started, whether they all exit zero, what a failing pipeline
      writes, and the interleaving of its writes with the progress watcher. */
  datatype Fetch = Fetch(mkdir: bool, starts: bool, succeeds: bool, junk: Bytes, events: seq<Event>, reason: string)

  datatype Event = Chunk(size: nat) | WatcherWakes

  predicate Fetchable(row: Row, configured: bool) { Warmable(row) && HasSource(row) && configured }

  /** A reload with the rows that are ready now serves no others, and all of them
      if it does not raise. */
  lemma ReloadServesReady(base: int, sup: Sup, rows: Rows, ready: seq<string>, host: Host)
    requires SupInv(base, sup) && Lists(ready, ReadyNames(rows))
    ensures var e := Supervision.Reload(base, sup, ready, host);
            var rows' := WritePorts(rows, e.writes);
            && PortsOnly(rows, rows')
            && (forall n :: n in e.sup.procs ==> n in ReadyNames(rows'))
            && (e.error.None? ==> e.sup.procs.Keys == ReadyNames(rows'))
  {
    var e := Supervision.Reload(base, sup, ready, host);
    ReloadContract(base, sup, ready, host);
    WritePortsIsPortsOnly(rows, e.writes);
    PortsOnlyKeepsStatus(rows, WritePorts(rows, e.writes));
    assert NameSet(ready) == ReadyNames(rows);
  }

  /** The row, if it is there, is failed for that reason; everything else in the
      table is as it was. */
  predicate FailedWith(rows: Rows, rows': Rows, name: string, reason: string) {
    && rows'.Keys == rows.Keys
    && (forall m :: m in rows && m != name ==> rows'[m] == rows[m])
    && (name in rows ==>
          rows'[name].status.Failed? && rows'[name].error == Some(reason)
          && rows'[name] == rows[name].(status := rows'[name].status, error := rows'[name].error))
  }

  /** The row, if it is there, is ready with that size; apart from ports everything
      else in the table is as it was. */
  predicate ReadyWith(rows: Rows, rows': Rows, name: string, size: nat) {
    && rows'.Keys == rows.Keys
    && (forall m :: m in rows && m != name ==> SameButPort(rows[m], rows'[m]))
    && (name in rows ==>
          rows'[name].status.Ready? && rows'[name].bytesDone == size && rows'[name].error == rows[name].error
          && SameRegistration(rows[name], rows'[name]))
  }

  lemma ReadyThenPorts(rows: Rows, name: string, size: nat, rows': Rows)
    requires PortsOnly(SetStatus(rows, name, Ready, None, Some(size)), rows')
    ensures ReadyWith(rows, rows', name, size)
  {
    StatusWriteColumns(rows, name, Ready, None, Some(size));
    var ready := SetStatus(rows, name, Ready, None, Some(size));
    assert forall m :: m in rows ==> SameButPort(ready[m], rows'[m]);
  }

  lemma RemoveTwo(files: Files, p: string, q: string)
    ensures files - {p} - {q} == files - {p, q}
  {
  }

  /** What a halted worker leaves behind. */
  lemma WhenIdle(w: World, s: State, t: State)
    requires Reachable(w, s) && Reaches(w, s, t) && Halted(t)
    ensures t.handlers == map[] ==>
              forall n :: n in t.rows ==> Terminal(t.rows[n]) || n in t.log.interrupted || n in t.log.stranded
    ensures CleanWorld(w) ==>
              forall n :: n in t.log.warmed ==> n in t.rows && t.rows[n].status.Ready? && Faithful(w, t, n)
  {
    ReachableGoesOn(w, s, t);
    if t.handlers == map[] {
      HaltedIsTerminal(w, t);
    }
    if CleanWorld(w) {
      forall n | n in t.log.warmed
        ensures n in t.rows && t.rows[n].status.Ready? && Faithful(w, t, n)
      {
        WarmedRowsAreFaithful(w, t, n);
      }
    }
  }

  class Warmer {
    const world: World
    const store: Store
    const nbd: NbdServer
    const disk: Disk
    var queue: seq<string>
    ghost var at: Worker
    ghost var handlers: map<nat, Handler>
    ghost var phase: Phase
    ghost var log: History

    /** The state of the step system that these objects represent. */
    ghost function View(): State
      reads this, store, nbd, disk
    {
      State(store.rows, queue, at, handlers, phase, disk.files, nbd.Maps(), log)
    }

    ghost predicate Valid()
      reads this, nbd
    {
      nbd.store == store && nbd.portBase == world.portBase && nbd.Valid()
    }

    /** A daemon that has not been started. */
    constructor (world: World, store: Store, nbd: NbdServer, disk: Disk)
      requires nbd.store == store && nbd.portBase == world.portBase && nbd.Valid()
      ensures Valid() && this.world == world && this.store == store && this.nbd == nbd && this.disk == disk
      ensures store.rows == map[] && nbd.Maps() == EMPTY ==> View() == Init(disk.files)
    {
      this.world, this.store, this.nbd, this.disk := world, store, nbd, disk;
      queue, at, handlers, phase := [], Idle, map[], Down;
      log := Init(disk.files).log;
    }

    /** Records that the objects have just done one worker step. */
    ghost method Did(s: State, before: State, a: WorkerStep)
      requires Reaches(world, s, before) && CanWork(world, before, a)
      requires var t := Work(world, before, a);
               store.rows == t.rows && queue == t.queue && disk.files == t.files && nbd.Maps() == t.sup
      modifies this`at, this`handlers, this`phase, this`log
      ensures View() == Work(world, before, a) && Reaches(world, s, View())
    {
      var t := Work(world, before, a);
      at, handlers, phase, log := t.worker, t.handlers, t.phase, t.log;
      assert Enabled(world, before, W(a));
      StepsOn(world, s, before, W(a));
    }

    /** Records a step of the request handler with id `h`. */
    ghost method DidHandle(s: State, before: State, h: nat, a: HandlerStep)
      requires Reaches(world, s, before) && CanHandle(world, before, h, a)
      requires var t := Handle(world, before, h, a);
               store.rows == t.rows && queue == t.queue && disk.files == t.files && nbd.Maps() == t.sup
      modifies this`at, this`handlers, this`phase, this`log
      ensures View() == Handle(world, before, h, a) && Reaches(world, s, View())
    {
      var t := Handle(world, before, h, a);
      at, handlers, phase, log := t.worker, t.handlers, t.phase, t.log;
      assert Enabled(world, before, H(h, a));
      StepsOn(world, s, before, H(h, a));
    }

    /** Records a step of the start-up. */
    ghost method DidSystem(s: State, before: State, step: Step)
      requires Reaches(world, s, before) && IsSystem(step) && CanSystem(world, before, step)
      requires var t := System(world, before, step);
               store.rows == t.rows && queue == t.queue && disk.files == t.files && nbd.Maps() == t.sup
      modifies this`at, this`handlers, this`phase, this`log
      ensures View() == System(world, before, step) && Reaches(world, s, View())
    {
      var t := System(world, before, step);
      at, handlers, phase, log := t.worker, t.handlers, t.phase, t.log;
      assert Enabled(world, before, step);
      StepsOn(world, s, before, step);
    }

    method Enqueue(name: string)
      modifies this`queue
      ensures queue == Enqueued(old(queue), name)
      ensures forall n :: n in queue <==> n in old(queue) || n == name
      ensures NoDuplicates(old(queue)) ==> NoDuplicates(queue)
      ensures old(queue) <= queue
    {
      if name !in queue {
        queue := queue + [name];
      }
    }

    // ----- _fetch_and_decompress

    /** Clear what a crashed warm may have left, and say what comes next. */
    method ClearLeftover(name: string, tmp: string, ghost job: Job)
      requires Valid() && !phase.Down? && at == Started(name, job) && tmp == job.Temp()
      modifies this`at, this`handlers, this`phase, this`log, store, disk
      ensures Valid() && Reaches(world, old(View()), View())
      ensures store.rows.Keys == old(store.rows).Keys
      ensures handlers == old(handlers) && phase == old(phase) && at == Launching(name, job)
      ensures tmp !in disk.files
    {
      ghost var s := View();
      StaysPut(world, s);
      disk.Unlink(tmp);
      Did(s, s, ClearTemp);

      ghost var s1 := View();
      store.UpdateStatus(name, Decompressing);
      Did(s, s1, WriteDecompressing);
    }

    /** Start the processes: what they will write, or None if they cannot be. */
    method StartPipeline(name: string, url: string, tmp: string, format: string, fetch: Fetch, ghost job: Job)
      returns (plan: Option<Bytes>)
      requires Valid() && !phase.Down? && at == Launching(name, job) && tmp !in disk.files
      requires job.url == url && job.format == format && tmp == job.Temp()
      modifies this`at, this`handlers, this`phase, this`log, store, disk
      ensures Valid() && Reaches(world, old(View()), View())
      ensures store.rows.Keys == old(store.rows).Keys
      ensures handlers == old(handlers) && phase == old(phase)
      ensures at == if plan.Some? then Pumping(name, job, plan.value, fetch.succeeds, 0, 0) else Aborting(name, job)
      ensures plan.Some? <==> DecoderFor(format).Some? && fetch.starts
      ensures plan.Some? && fetch.succeeds ==> world.Decoded(url, format) == plan
      ensures Content(disk.files, tmp) == []
    {
      ghost var s := View();
      StaysPut(world, s);
      var decoder := DecoderFor(format);
      if decoder.None? || !fetch.starts {
        Did(s, s, LaunchFails);
        return None;
      }
      plan := Some(if fetch.succeeds then world.Decoded(url, format).value else fetch.junk);
      if decoder.value != Raw {
        disk.Write(tmp, []);
      }
      Did(s, s, Launch(plan.value, fetch.succeeds));
    }

    /** The pipeline appends to the temporary file. */
    method WriteChunk(name: string, tmp: string, plan: Bytes, good: bool, done: nat, size: nat, seen: nat,
                      ghost job: Job)
      requires Valid() && !phase.Down? && at == Pumping(name, job, plan, good, done, seen) && tmp == job.Temp()
      requires 0 < size && done + size <= |plan|
      modifies this`at, this`handlers, this`phase, this`log, disk
      ensures Valid() && Reaches(world, old(View()), View())
      ensures handlers == old(handlers) && phase == old(phase)
      ensures at == Pumping(name, job, plan, good, done + size, seen)
      ensures disk.files == old(disk.files)[tmp := plan[..done + size]]
    {
      ghost var s := View();
      StaysPut(world, s);
      disk.Write(tmp, plan[..done + size]);
      Did(s, s, WarmSystem.Pump(size));
    }

    /** The watcher wakes up and reports the size if it grew by a chunk. */
    method Watch(name: string, tmp: string, plan: Bytes, good: bool, done: nat, last: nat, ghost job: Job)
      returns (seen: nat)
      requires Valid() && !phase.Down? && at == Pumping(name, job, plan, good, done, last) && tmp == job.Temp()
      modifies this`at, this`handlers, this`phase, this`log, store
      ensures Valid() && Reaches(world, old(View()), View())
      ensures store.rows.Keys == old(store.rows).Keys
      ensures handlers == old(handlers) && phase == old(phase)
      ensures at == Pumping(name, job, plan, good, done, seen) && disk.files == old(disk.files)
    {
      ghost var s := View();
      StaysPut(world, s);
      seen := last;
      if tmp in disk.files && |disk.files[tmp]| - last >= CHUNK {
        seen := |disk.files[tmp]|;
        store.UpdateStatus(name, Decompressing, None, Some(seen));
        Did(s, s, Tick);
      }
    }

    /** One event of the running pipeline. */
    method PumpEvent(name: string, tmp: string, plan: Bytes, good: bool, done: nat, seen: nat, event: Event,
                     ghost job: Job)
      returns (done': nat, seen': nat)
      requires Valid() && !phase.Down? && at == Pumping(name, job, plan, good, done, seen) && tmp == job.Temp()
      requires done <= |plan| && Content(disk.files, tmp) == plan[..done]
      modifies this`at, this`handlers, this`phase, this`log, store, disk
      ensures Valid() && Reaches(world, old(View()), View())
      ensures store.rows.Keys == old(store.rows).Keys
      ensures handlers == old(handlers) && phase == old(phase)
      ensures at == Pumping(name, job, plan, good, done', seen')
      ensures done' <= |plan| && Content(disk.files, tmp) == plan[..done']
      ensures event.Chunk? && 0 < event.size <= |plan| - done ==> done' == done + event.size
    {
      ghost var s := View();
      StaysPut(world, s);
      done', seen' := done, seen;
      match event
      case Chunk(size) =>
        if 0 < size <= |plan| - done {
          WriteChunk(name, tmp, plan, good, done, size, seen, job);
          done' := done + size;
        }
      case WatcherWakes =>
        seen' := Watch(name, tmp, plan, good, done, seen, job);
    }

    /** The processes run, the watcher beside them, until the last one exits. */
    method Pump(name: string, tmp: string, plan: Bytes, fetch: Fetch, ghost job: Job)
      requires Valid() && !phase.Down? && at == Pumping(name, job, plan, fetch.succeeds, 0, 0) && tmp == job.Temp()
      requires Content(disk.files, tmp) == []
      modifies this`at, this`handlers, this`phase, this`log, store, disk
      ensures Valid() && Reaches(world, old(View()), View())
      ensures store.rows.Keys == old(store.rows).Keys
      ensures handlers == old(handlers) && phase == old(phase)
      ensures at.Pumping? && at == Pumping(name, job, plan, fetch.succeeds, |plan|, at.seen)
      ensures Content(disk.files, tmp) == plan
    {
      ghost var s := View();
      StaysPut(world, s);
      var done: nat, seen: nat := 0, 0;
      for k := 0 to |fetch.events|
        invariant Valid() && Reaches(world, s, View())
        invariant handlers == old(handlers) && phase == old(phase)
        invariant at == Pumping(name, job, plan, fetch.succeeds, done, seen)
        invariant store.rows.Keys == old(store.rows).Keys
        invariant done <= |plan| && Content(disk.files, tmp) == plan[..done]
      {
        ghost var now := View();
        done, seen := PumpEvent(name, tmp, plan, fetch.succeeds, done, seen, fetch.events[k], job);
        RunsOn(world, s, now, View());
      }
      if done < |plan| {
        ghost var now := View();
        done, seen := PumpEvent(name, tmp, plan, fetch.succeeds, done, seen, Chunk(|plan| - done), job);
        RunsOn(world, s, now, View());
      }
      assert plan[..|plan|] == plan;
    }

    /** All processes waited for: an exit code other than zero raises. A download
        that succeeds leaves a file, even an empty one. */
    method Reap(name: string, tmp: string, plan: Bytes, good: bool, ghost job: Job)
      requires Valid() && !phase.Down? && at.Pumping? && at == Pumping(name, job, plan, good, |plan|, at.seen)
      requires tmp == job.Temp() && Content(disk.files, tmp) == plan
      modifies this`at, this`handlers, this`phase, this`log, disk
      ensures Valid() && Reaches(world, old(View()), View())
      ensures handlers == old(handlers) && phase == old(phase)
      ensures at == if good then Pumped(name, job) else Aborting(name, job)
      ensures good ==> tmp in disk.files && disk.files[tmp] == plan
    {
      ghost var s := View();
      StaysPut(world, s);
      if good && tmp !in disk.files {
        disk.Write(tmp, []);
      }
      Did(s, s, Exit);
    }

    /** After the processes: size, replace, report. */
    method Install(name: string, tmp: string, dest: string, reason: string, ghost job: Job)
      returns (r: Result<nat, string>)
      requires Valid() && !phase.Down? && at == Pumped(name, job) && tmp == job.Temp() && dest == job.dest
      modifies this`at, this`handlers, this`phase, this`log, store, disk
      ensures Valid() && Reaches(world, old(View()), View())
      ensures store.rows.Keys == old(store.rows).Keys
      ensures handlers == old(handlers) && phase == old(phase)
      ensures at == match r case Ok(size) => Returned(name, job, size) case Err(_) => Aborting(name, job)
      ensures r.Ok? <==> tmp in old(disk.files)
      ensures r.Err? ==> r.error == reason
      ensures r.Ok? ==>
                && r.value == |old(disk.files)[tmp]|
                && disk.files == old(disk.files)[dest := old(disk.files)[tmp]] - {tmp}
    {
      ghost var s := View();
      StaysPut(world, s);
      if tmp !in disk.files {
        Did(s, s, WarmSystem.Replace);
        return Err(reason);
      }
      var size := |disk.files[tmp]|;
      disk.Replace(tmp, dest);
      Did(s, s, WarmSystem.Replace);

      ghost var s1 := View();
      store.UpdateStatus(name, Decompressing, None, Some(size));
      Did(s, s1, ReportSize);
      return Ok(size);
    }

    /** The running pipeline until every process is reaped. */
    method PumpAndReap(name: string, tmp: string, plan: Bytes, fetch: Fetch, ghost job: Job)
      requires Valid() && !phase.Down? && at == Pumping(name, job, plan, fetch.succeeds, 0, 0) && tmp == job.Temp()
      requires Content(disk.files, tmp) == []
      modifies this`at, this`handlers, this`phase, this`log, store, disk
      ensures Valid() && Reaches(world, old(View()), View())
      ensures store.rows.Keys == old(store.rows).Keys
      ensures handlers == old(handlers) && phase == old(phase)
      ensures at == if fetch.succeeds then Pumped(name, job) else Aborting(name, job)
      ensures fetch.succeeds ==> tmp in disk.files && disk.files[tmp] == plan
    {
      ghost var s := View();
      Pump(name, tmp, plan, fetch, job);
      ghost var now := View();
      Reap(name, tmp, plan, fetch.succeeds, job);
      RunsOn(world, s, now, View());
    }

    /** Pipeline and watcher until every process is reaped: did all exit zero? */
    method Download(name: string, url: string, tmp: string, format: string, fetch: Fetch, ghost job: Job)
      returns (complete: bool)
      requires Valid() && !phase.Down? && at == Launching(name, job) && tmp !in disk.files
      requires job.url == url && job.format == format && tmp == job.Temp()
      modifies this`at, this`handlers, this`phase, this`log, store, disk
      ensures Valid() && Reaches(world, old(View()), View())
      ensures store.rows.Keys == old(store.rows).Keys
      ensures handlers == old(handlers) && phase == old(phase)
      ensures at == if complete then Pumped(name, job) else Aborting(name, job)
      ensures complete <==> DecoderFor(format).Some? && fetch.starts && fetch.succeeds
      ensures complete ==> tmp in disk.files && world.Decoded(url, format) == Some(disk.files[tmp])
    {
      ghost var s := View();
      var plan := StartPipeline(name, url, tmp, format, fetch, job);
      if plan.None? {
        return false;
      }
      ghost var now := View();
      PumpAndReap(name, tmp, plan.value, fetch, job);
      RunsOn(world, s, now, View());
      return fetch.succeeds;
    }

    /** The size of the image now at `dest`, or an error that leaves the caller
        to clean up. */
    method FetchAndDecompress(name: string, url: string, dest: string, format: string, fetch: Fetch, ghost job: Job)
      returns (r: Result<nat, string>)
      requires Valid() && !phase.Down? && at == Started(name, job)
      requires job.url == url && job.format == format && job.dest == dest
      modifies this`at, this`handlers, this`phase, this`log, store, disk
      ensures Valid() && Reaches(world, old(View()), View())
      ensures store.rows.Keys == old(store.rows).Keys
      ensures handlers == old(handlers) && phase == old(phase)
      ensures at == match r case Ok(size) => Returned(name, job, size) case Err(_) => Aborting(name, job)
      ensures r.Ok? ==>
                && dest in disk.files && IsImageOf(world, url, format, disk.files[dest])
                && r.value == |disk.files[dest]| && dest + INFLIGHT !in disk.files
      ensures r.Ok? <==> SupportedFormat(format) && fetch.starts && fetch.succeeds
      ensures r.Err? ==> r.error == fetch.reason
    {
      ghost var s := View();
      var tmp := dest + INFLIGHT;
      ClearLeftover(name, tmp, job);
      ghost var s1 := View();
      var complete := Download(name, url, tmp, format, fetch, job);
      RunsOn(world, s, s1, View());
      if !complete {
        DecodedIsTheImage(world, url, format);
        return Err(fetch.reason);
      }
      ghost var s2 := View();
      r := Install(name, tmp, dest, fetch.reason, job);
      RunsOn(world, s, s2, View());
      assert |tmp| == |dest| + |INFLIGHT|;
      DecodedIsTheImage(world, url, format);
    }

    // ----- _process

    /** Fails a row that has no source to fetch or no cache to fetch it from. */
    method Refuse(name: string, reason: string)
      requires Valid() && !phase.Down? && at.Doomed? && at.name == name && at.reason == reason
      modifies this`at, this`handlers, this`phase, this`log, store
      ensures Valid() && Reaches(world, old(View()), View())
      ensures handlers == old(handlers) && phase == old(phase) && at == Idle
      ensures FailedWith(old(store.rows), store.rows, name, reason)
    {
      ghost var s := View();
      StaysPut(world, s);
      store.UpdateStatus(name, Failed, Some(reason), None);
      StatusWriteColumns(s.rows, name, Failed, Some(reason), None);
      Did(s, s, WriteDoom);
    }

    /** The checks before a warm: the name of the source, its format and the
        destination, or None when the name is skipped or the row is failed. */
    method PickUp(name: string, configured: bool) returns (source: Option<(string, string, string)>, ghost job: Job)
      requires Valid() && !phase.Down? && at == Popped(name)
      modifies this`at, this`handlers, this`phase, this`log, store
      ensures Valid() && Reaches(world, old(View()), View())
      ensures handlers == old(handlers) && phase == old(phase)
      ensures at == match source case None => Idle case Some(_) => Picked(name, job)
      ensures source.Some? <==> name in old(store.rows) && Fetchable(old(store.rows)[name], configured)
      ensures source.Some? ==>
                var row := old(store.rows)[name];
                && source.value == (row.srcUrl.value, world.FormatOf(row.srcUrl.value, row.format), row.file)
                && source.value == (job.url, job.format, job.dest)
                && job.url != "" && (row.status.Queued? || row.status.Failed?)
      ensures if name in old(store.rows) && Warmable(old(store.rows)[name]) && source.None? then
                FailedWith(old(store.rows), store.rows, name,
                           if HasSource(old(store.rows)[name]) then NO_WITHCACHE else NO_SOURCE)
              else store.rows == old(store.rows)
    {
      ghost var s := View();
      StaysPut(world, s);
      var row := store.GetExport(name);
      Did(s, s, Pickup(configured));
      job := if at.Picked? then at.job else Job("", "", "", 0);
      if row.None? || !Warmable(row.value) {
        return None, job;
      }
      if !HasSource(row.value) || !configured {
        ghost var s1 := View();
        Refuse(name, if HasSource(row.value) then NO_WITHCACHE else NO_SOURCE);
        RunsOn(world, s, s1, View());
        return None, job;
      }
      var url := row.value.srcUrl.value;
      return Some((url, world.FormatOf(url, row.value.format), row.value.file)), job;
    }

    method RemoveBoth(name: string, dest: string, ghost job: Job)
      requires Valid() && !phase.Down? && at == Aborting(name, job) && job.dest == dest
      modifies this`at, this`handlers, this`phase, this`log, disk
      ensures Valid() && Reaches(world, old(View()), View())
      ensures handlers == old(handlers) && phase == old(phase) && at == AbortingRow(name, job)
      ensures disk.files == old(disk.files) - {dest, dest + INFLIGHT}
    {
      ghost var s := View();
      StaysPut(world, s);
      disk.Unlink(dest);
      Did(s, s, UnlinkDest);
      ghost var s1 := View();
      disk.Unlink(dest + INFLIGHT);
      Did(s, s1, UnlinkTemp);
      RemoveTwo(s.files, dest, dest + INFLIGHT);
    }

    /** A failed fetch: remove both files, then say so. */
    method Abort(name: string, dest: string, reason: string, ghost job: Job)
      requires Valid() && !phase.Down? && at == Aborting(name, job) && job.dest == dest
      modifies this`at, this`handlers, this`phase, this`log, store, disk
      ensures Valid() && Reaches(world, old(View()), View())
      ensures handlers == old(handlers) && phase == old(phase) && at == Idle
      ensures disk.files == old(disk.files) - {dest, dest + INFLIGHT}
      ensures FailedWith(old(store.rows), store.rows, name, reason)
    {
      ghost var s := View();
      RemoveBoth(name, dest, job);
      ghost var s1 := View();
      store.UpdateStatus(name, Failed, Some(reason), None);
      StatusWriteColumns(s.rows, name, Failed, Some(reason), None);
      Did(s, s1, WriteFailed(reason));
    }

    method StartWarm(name: string, ghost job: Job)
      requires Valid() && !phase.Down? && at == Picked(name, job)
      modifies this`at, this`handlers, this`phase, this`log, store
      ensures Valid() && Reaches(world, old(View()), View())
      ensures handlers == old(handlers) && phase == old(phase) && at == Started(name, job)
      ensures store.rows.Keys == old(store.rows).Keys
    {
      ghost var s := View();
      StaysPut(world, s);
      store.UpdateStatus(name, Fetching);
      Did(s, s, WriteFetching);
    }

    /** Mark the row ready, then make it visible to the supervisor; a child that
        fails to start ends the attempt, the row stays ready. */
    method Publish(name: string, size: nat, host: Host, ghost job: Job) returns (error: Option<Error>)
      requires Valid() && !phase.Down? && at == Returned(name, job, size)
      modifies this`at, this`handlers, this`phase, this`log, store, nbd
      ensures Valid() && Reaches(world, old(View()), View())
      ensures handlers == old(handlers) && phase == old(phase) && at == Idle
      ensures ReadyWith(old(store.rows), store.rows, name, size)
      ensures error.None? ==> nbd.procs.Keys == ReadyNames(store.rows) && (name in store.rows ==> name in nbd.procs)
      ensures forall n :: n in nbd.procs ==> n in ReadyNames(store.rows)
    {
      ghost var s := View();
      StaysPut(world, s);
      store.UpdateStatus(name, Ready, None, Some(size));
      Did(s, s, WriteReady);
      ghost var s1 := View();
      error := Serve(name, host);
      RunsOn(world, s, s1, View());
      ReadyThenPorts(s.rows, name, size, store.rows);
    }

    /** List the ready rows and reload; the exception of a failing child is caught. */
    method Serve(name: string, host: Host) returns (error: Option<Error>)
      requires Valid() && !phase.Down? && at == Published(name)
      modifies this`at, this`handlers, this`phase, this`log, store, nbd
      ensures Valid() && Reaches(world, old(View()), View())
      ensures handlers == old(handlers) && phase == old(phase) && at == Idle
      ensures PortsOnly(old(store.rows), store.rows)
      ensures error.None? ==> nbd.procs.Keys == ReadyNames(store.rows)
      ensures forall n :: n in nbd.procs ==> n in ReadyNames(store.rows)
    {
      ghost var s := View();
      StaysPut(world, s);
      var ready := store.ListReadyExports();
      Did(s, s, TakeSnapshot(ready));
      ghost var s1 := View();
      error := ReloadListed(name, ready, host);
      RunsOn(world, s, s1, View());
    }

    method ReloadListed(name: string, ready: seq<string>, host: Host) returns (error: Option<Error>)
      requires Valid() && !phase.Down? && at.Reloading? && at.name == name && at.ready == ready
      requires Lists(ready, ReadyNames(store.rows))
      modifies this`at, this`handlers, this`phase, this`log, store, nbd
      ensures Valid() && Reaches(world, old(View()), View())
      ensures handlers == old(handlers) && phase == old(phase) && at == Idle
      ensures PortsOnly(old(store.rows), store.rows)
      ensures error.None? ==> nbd.procs.Keys == ReadyNames(store.rows)
      ensures forall n :: n in nbd.procs ==> n in ReadyNames(store.rows)
    {
      ghost var s := View();
      StaysPut(world, s);
      ReloadServesReady(world.portBase, s.sup, s.rows, ready, host);
      error := nbd.Reload(ready, host);
      Did(s, s, WorkerReload(host));
      if error.None? {
        ghost var s1 := View();
        Did(s, s1, FinishBundle);
      }
    }

    method GiveUp(name: string, ghost job: Job)
      requires Valid() && !phase.Down? && at == Picked(name, job)
      modifies this`at, this`handlers, this`phase, this`log
      ensures Valid() && Reaches(world, old(View()), View())
      ensures handlers == old(handlers) && phase == old(phase) && at == Idle
    {
      ghost var s := View();
      StaysPut(world, s);
      Did(s, s, MkdirFails);
    }

    /** One name from the queue. Its row, if it is still there and the directory
        could be made, ends ready or failed, unless it was skipped. */
    method Process(name: string, configured: bool, fetch: Fetch, host: Host)
      requires Valid() && !phase.Down? && at == Popped(name)
      modifies this`at, this`handlers, this`phase, this`log, store, disk, nbd
      ensures Valid() && Reaches(world, old(View()), View())
      ensures handlers == old(handlers) && phase == old(phase) && at == Idle
      ensures store.rows.Keys == old(store.rows).Keys
      ensures name in store.rows && Warmable(old(store.rows)[name]) && fetch.mkdir ==> Terminal(store.rows[name])
    {
      ghost var s := View();
      var source, job := PickUp(name, configured);
      if source.None? {
        return;
      }
      var (url, format, dest) := source.value;
      ghost var s1 := View();
      if !fetch.mkdir {
        GiveUp(name, job);
        RunsOn(world, s, s1, View());
        return;
      }
      Warm(name, url, format, dest, fetch, host, job);
      RunsOn(world, s, s1, View());
    }

    /** Start, fetch, and either publish or clean up. */
    method Warm(name: string, url: string, format: string, dest: string, fetch: Fetch, host: Host, ghost job: Job)
      requires Valid() && !phase.Down? && at == Picked(name, job)
      requires job.url == url && job.format == format && job.dest == dest
      modifies this`at, this`handlers, this`phase, this`log, store, disk, nbd
      ensures Valid() && Reaches(world, old(View()), View())
      ensures handlers == old(handlers) && phase == old(phase) && at == Idle
      ensures store.rows.Keys == old(store.rows).Keys
      ensures name in store.rows ==>
                if SupportedFormat(format) && fetch.starts && fetch.succeeds then store.rows[name].status.Ready?
                else store.rows[name].status.Failed?
      ensures name in store.rows && store.rows[name].status.Ready? ==>
                && dest in disk.files && IsImageOf(world, url, format, disk.files[dest])
                && store.rows[name].bytesDone == |disk.files[dest]|
      ensures name in store.rows && store.rows[name].status.Failed? ==>
                && dest !in disk.files && dest + INFLIGHT !in disk.files
                && store.rows[name].error == Some(fetch.reason)
    {
      ghost var s := View();
      StartWarm(name, job);
      ghost var s1 := View();
      var r := FetchAndDecompress(name, url, dest, format, fetch, job);
      RunsOn(world, s, s1, View());
      ghost var s2 := View();
      Conclude(name, dest, r, host, job);
      RunsOn(world, s, s2, View());
    }

    method Conclude(name: string, dest: string, r: Result<nat, string>, host: Host, ghost job: Job)
      requires Valid() && !phase.Down? && job.dest == dest
      requires at == match r case Ok(size) => Returned(name, job, size) case Err(_) => Aborting(name, job)
      modifies this`at, this`handlers, this`phase, this`log, store, disk, nbd
      ensures Valid() && Reaches(world, old(View()), View())
      ensures handlers == old(handlers) && phase == old(phase) && at == Idle
      ensures store.rows.Keys == old(store.rows).Keys
      ensures match r
              case Err(_) => dest !in disk.files && dest + INFLIGHT !in disk.files
              case Ok(_) => disk.files == old(disk.files)
      ensures name in store.rows ==>
                match r
                case Err(reason) => store.rows[name].status.Failed? && store.rows[name].error == Some(reason)
                case Ok(size) => store.rows[name].status.Ready? && store.rows[name].bytesDone == size
    {
      match r
      case Err(reason) => Abort(name, dest, reason, job);
      case Ok(size) => var error := Publish(name, size, host, job);
    }

    method PopNext() returns (name: string)
      requires Valid() && phase.Serving? && at == Idle && queue != []
      modifies this`queue, this`at, this`handlers, this`phase, this`log
      ensures Valid() && Reaches(world, old(View()), View())
      ensures handlers == old(handlers) && phase == old(phase)
      ensures name == old(queue)[0] && queue == old(queue)[1..] && at == Popped(name)
    {
      ghost var s := View();
      StaysPut(world, s);
      name := queue[0];
      queue := queue[1..];
      Did(s, s, Pop);
    }

    /** One round of the worker loop. */
    method ProcessNext(configured: bool, fetch: Fetch, host: Host)
      requires Valid() && phase.Serving? && at == Idle && queue != []
      modifies this, store, disk, nbd
      ensures Valid() && Reaches(world, old(View()), View())
      ensures handlers == old(handlers) && phase == old(phase) && at == Idle
      ensures queue == old(queue)[1..] && store.rows.Keys == old(store.rows).Keys
    {
      ghost var s := View();
      var name := PopNext();
      ghost var now := View();
      Process(name, configured, fetch, host);
      RunsOn(world, s, now, View());
    }

    /** The worker loop until it would wait. `attempts` says how the environment
        treats each job in turn. */
    method RunUntilIdle(attempts: nat -> (bool, Fetch, Host))
      requires Valid() && phase.Serving? && at == Idle
      modifies this, store, disk, nbd
      ensures Valid() && Reaches(world, old(View()), View())
      ensures handlers == old(handlers) && Halted(View())
      ensures store.rows.Keys == old(store.rows).Keys
      ensures Reachable(world, old(View())) && handlers == map[] ==>
                forall n :: n in store.rows ==>
                  Terminal(store.rows[n]) || n in log.interrupted || n in log.stranded
      ensures Reachable(world, old(View())) && CleanWorld(world) ==>
                forall n :: n in log.warmed ==>
                  n in store.rows && store.rows[n].status.Ready? && Faithful(world, View(), n)
    {
      ghost var s := View();
      StaysPut(world, s);
      var k := 0;
      while queue != []
        invariant Valid() && Reaches(world, s, View())
        invariant handlers == old(handlers) && phase == old(phase) && at == Idle
        invariant store.rows.Keys == old(store.rows).Keys
        decreases |queue|
      {
        ghost var now := View();
        var (configured, fetch, host) := attempts(k);
        ProcessNext(configured, fetch, host);
        RunsOn(world, s, now, View());
        k := k + 1;
      }
      if Reachable(world, s) {
        WhenIdle(world, s, View());
      }
    }
  }
}
