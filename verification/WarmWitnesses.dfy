/**
 Runs from the first start of the daemon into each of the states that the
 promises of its comments exclude.
 */
module WarmWitnesses {
  import opened Wrappers
  import opened ExportStore
  import opened Supervision
  import opened WarmSystem
  import opened WarmFrames
  import opened WarmGenerations
  import opened WarmSafety
  import opened WarmPorts
  import opened WarmServing
  import opened WarmBytes
  import opened WarmDrain
  import opened WarmRegistration
  import opened WarmOverlap
  import opened WarmDeletes

  // ----- parts of runs

  /** The daemon after its first start, with nothing registered. */
  function Up(files: Files): State { Init(files).(phase := Serving) }

  lemma FirstStart(w: World, files: Files)
    ensures Reachable(w, Up(files))
  {
    var s := Init(files);
    assert Run(w, s, [], s);
    var boot := Boot([], [], ANY_HOST);
    ReachableStep(w, s, boot);
    var t := Next(w, s, boot);
    assert t == s.(phase := Resuming([]));
    ReachableStep(w, t, Resume);
    assert Next(w, t, Resume) == Up(files);
  }

  lemma HandlerStepFrom(w: World, s: State, h: nat, a: HandlerStep)
    requires Reachable(w, s) && CanHandle(w, s, h, a)
    ensures Reachable(w, Handle(w, s, h, a))
  {
    assert Enabled(w, s, H(h, a));
    ReachableStep(w, s, H(h, a));
  }

  lemma WorkStepFrom(w: World, s: State, a: WorkerStep)
    requires Reachable(w, s) && CanWork(w, s, a)
    ensures Reachable(w, Work(w, s, a))
  {
    assert Enabled(w, s, W(a));
    ReachableStep(w, s, W(a));
  }

  function WarmRow(w: World, rows: Rows, n: string, url: string): Rows {
    Upsert(rows, n, w.Image(n), true, Queued, Some(url), Some("img"), None)
  }

  /** A registration for warming and the enqueue that follows. */
  lemma RegistersWarm(w: World, s: State, h: nat, n: string, url: string) returns (t: State)
    requires Reachable(w, s) && s.phase.Serving? && h !in s.handlers && n in w.names && url != ""
    ensures Reachable(w, t)
    ensures t == s.(rows := WarmRow(w, s.rows, n, url), queue := Enqueued(s.queue, n), log := Registered(s.log, n))
  {
    var a := RegisterWarm(n, url, "img", true, None);
    HandlerStepFrom(w, s, h, a);
    var u := Handle(w, s, h, a);
    HandlerStepFrom(w, u, h, WarmSystem.Enqueue);
    t := Handle(w, u, h, WarmSystem.Enqueue);
    assert s.handlers[h := Enqueueing(n)] - {h} == s.handlers;
  }

  /** The worker takes the only queued name, a row that is waiting to be warmed. */
  lemma PicksUp(w: World, s: State, n: string, url: string) returns (t: State)
    requires Reachable(w, s) && s.phase.Serving? && s.worker.Idle? && s.queue == [n]
    requires n in s.rows && s.rows[n].status.Queued? && s.rows[n].srcUrl == Some(url) && url != ""
    requires s.rows[n].format == Some("img") && s.rows[n].file == w.Image(n) && n in s.log.born
    ensures Reachable(w, t)
    ensures t == s.(queue := [], worker := Picked(n, Job(url, "img", w.Image(n), s.log.born[n])))
  {
    WorkStepFrom(w, s, Pop);
    var u := Work(w, s, Pop);
    assert u.queue == [];
    WorkStepFrom(w, u, Pickup(true));
    t := Work(w, u, Pickup(true));
  }

  /** Registered and picked up, whatever was registered under the name before. */
  lemma StartsWarm(w: World, s: State, h: nat, n: string, url: string) returns (t: State)
    requires Reachable(w, s) && s.phase.Serving? && s.worker.Idle? && h !in s.handlers && n in w.names && url != ""
    requires s.queue == [] || s.queue == [n]
    ensures Reachable(w, t)
    ensures t == s.(rows := WarmRow(w, s.rows, n, url), queue := [], log := Registered(s.log, n),
                    worker := Picked(n, Job(url, "img", w.Image(n), s.log.clock)))
  {
    var u := RegistersWarm(w, s, h, n, url);
    t := PicksUp(w, u, n, url);
  }

  /** The good end of the warm that has just been picked up. */
  lemma WarmsWell(w: World, s: State, n: string) returns (t: State)
    requires CleanWorld(w) && Reachable(w, s) && s.phase.Serving? && s.worker.Picked? && s.worker.name == n
    requires s.worker.job.format == "img" && n in s.rows
    ensures Reachable(w, t) && Reaches(w, s, t) && t.worker == Published(n) && WarmFrame(s, t, n)
    ensures t.rows[n].status.Ready?
    ensures s.worker.job.dest in t.files && t.files[s.worker.job.dest] == w.source(s.worker.job.url)
    ensures SameGeneration(s, n, s.worker.job) ==> n in t.log.warmed && Right(w, t, n)
  {
    ReachableHasBytes(w, s);
    var steps;
    steps, t := GoodWarmSucceeds(w, s, n);
    ReachableGoesOn(w, s, t);
  }

  /** What the worker does after a ready write, whether or not the child starts. */
  lemma ServesAfterWarm(w: World, s: State, n: string) returns (t: State)
    requires Reachable(w, s) && s.phase.Serving? && s.worker == Published(n)
    ensures Reachable(w, t) && t.worker.Idle? && PortsOnly(s.rows, t.rows)
    ensures t.queue == s.queue && t.handlers == s.handlers && t.phase == s.phase && t.files == s.files
    ensures t.log.born == s.log.born && t.log.restarts == s.log.restarts
  {
    var ready := EverySetHasAListing(ReadyNames(s.rows));
    WorkStepFrom(w, s, TakeSnapshot(ready));
    var u := Work(w, s, TakeSnapshot(ready));
    WorkStepFrom(w, u, WorkerReload(GOOD_HOST));
    t := Work(w, u, WorkerReload(GOOD_HOST));
    WritePortsIsPortsOnly(u.rows, Reload(w.portBase, u.sup, ready, GOOD_HOST).writes);
    if t.worker.Bundling? {
      WorkStepFrom(w, t, FinishBundle);
      t := Work(w, t, FinishBundle);
    }
  }

  /** The worker takes the only queued name, finds nothing to warm, and is done. */
  lemma SkipsIt(w: World, s: State, n: string) returns (t: State)
    requires Reachable(w, s) && s.phase.Serving? && s.worker.Idle? && s.queue == [n]
    requires n in s.rows && !Warmable(s.rows[n])
    ensures Reachable(w, t) && t == s.(queue := [])
  {
    WorkStepFrom(w, s, Pop);
    var u := Work(w, s, Pop);
    WorkStepFrom(w, u, Pickup(true));
    t := Work(w, u, Pickup(true));
  }

  // ----- the runs

  /** A lost warm: the daemon has nothing left to do, has never crashed, and the
      row is queued. */
  lemma AWarmCanBeLost(w: World, files: Files, n: string, url: string) returns (s: State)
    requires n in w.names && url != ""
    ensures Reachable(w, s) && Halted(s) && s.handlers == map[] && s.log.restarts == 0
    ensures n in s.rows && s.rows[n].status.Queued?
  {
    FirstStart(w, files);
    var t := StartsWarm(w, Up(files), 0, n, url);
    WorkStepFrom(w, t, MkdirFails);
    s := Work(w, t, MkdirFails);
  }

  lemma WorksOn(w: World, s: State, a: WorkerStep) returns (t: State)
    requires Reachable(w, s) && CanWork(w, s, a) && s.worker.HasJob()
    ensures Reachable(w, t) && t == Work(w, s, a) && WarmFrame(s, t, s.worker.name)
  {
    WorkStepFrom(w, s, a);
    WorkHasWarmFrame(w, s, a);
    t := Work(w, s, a);
  }

  lemma GetsToTheLaunch(w: World, s: State, n: string) returns (t: State)
    requires Reachable(w, s) && s.phase.Serving? && s.worker.Picked? && s.worker.name == n
    ensures Reachable(w, t) && t.worker == Launching(n, s.worker.job) && WarmFrame(s, t, n)
  {
    var a := WorksOn(w, s, WriteFetching);
    var b := WorksOn(w, a, ClearTemp);
    t := WorksOn(w, b, WriteDecompressing);
    WarmFrameComposes(s, a, b, n);
    WarmFrameComposes(s, b, t, n);
  }

  lemma FailsAtTheLaunch(w: World, s: State, n: string, reason: string) returns (t: State)
    requires Reachable(w, s) && s.phase.Serving? && s.worker.Launching? && s.worker.name == n
    ensures Reachable(w, t) && t.worker.Idle? && WarmFrame(s, t, n)
    ensures n in t.rows ==> t.rows[n].status.Failed?
  {
    var a := WorksOn(w, s, LaunchFails);
    var b := WorksOn(w, a, UnlinkDest);
    var c := WorksOn(w, b, UnlinkTemp);
    t := WorksOn(w, c, WriteFailed(reason));
    WarmFrameComposes(s, a, b, n);
    WarmFrameComposes(s, b, c, n);
    WarmFrameComposes(s, c, t, n);
  }

  /** The warm that has been picked up fails at the start of its processes. */
  lemma FailsEarly(w: World, s: State, n: string, reason: string) returns (t: State)
    requires Reachable(w, s) && s.phase.Serving? && s.worker.Picked? && s.worker.name == n && n in s.rows
    ensures Reachable(w, t) && t.worker.Idle? && WarmFrame(s, t, n)
    ensures t.rows[n].status.Failed? && SameRegistration(s.rows[n], t.rows[n])
  {
    var u := GetsToTheLaunch(w, s, n);
    t := FailsAtTheLaunch(w, u, n, reason);
    WarmFrameComposes(s, u, t, n);
  }

  /** A crash, and the start after it, up to the point where requests are served. */
  lemma Restarts(w: World, s: State, pending: seq<string>) returns (t: State)
    requires Reachable(w, s) && !s.phase.Down? && ReadyNames(s.rows) == {} && Lists(pending, PendingNames(s.rows))
    ensures Reachable(w, t) && t.phase == Resuming(pending) && t.worker.Idle? && t.queue == [] && t.handlers == map[]
    ensures t.rows == s.rows && t.log.restarts == s.log.restarts + 1
  {
    ReachableStep(w, s, Crash);
    var down := Next(w, s, Crash);
    var boot := Boot([], pending, ANY_HOST);
    ReachableStep(w, down, boot);
    t := Next(w, down, boot);
    assert WritePorts(s.rows, map[]) == s.rows;
  }

  /** A registration that a crash loses: an older warm has failed it, the daemon has
      restarted and has nothing left to do, and the row is failed with the new
      source, which has never been fetched. */
  lemma ACrashCanLoseARegistration(w: World, files: Files, n: string, old': string, new': string) returns (s: State)
    requires n in w.names && old' != "" && new' != ""
    ensures Reachable(w, s) && Halted(s) && s.handlers == map[]
    ensures n in s.rows && s.rows[n].status.Failed? && s.rows[n].srcUrl == Some(new')
  {
    FirstStart(w, files);
    var t := StartsWarm(w, Up(files), 0, n, old');
    var u := RegistersWarm(w, t, 0, n, new');
    var v := FailsEarly(w, u, n, "");
    assert v.rows.Keys == {n};
    var x := Restarts(w, v, []);
    ReachableStep(w, x, Resume);
    s := Next(w, x, Resume);
  }

  /** An interrupted row: the restart has enqueued it, the worker has skipped it, and
      the daemon has nothing left to do. */
  lemma AnInterruptedRowIsSkipped(w: World, files: Files, n: string, url: string) returns (s: State)
    requires n in w.names && url != ""
    ensures Reachable(w, s) && Halted(s) && s.handlers == map[] && s.log.restarts == 1
    ensures n in s.rows && s.rows[n].status.Fetching?
  {
    FirstStart(w, files);
    var t := StartsWarm(w, Up(files), 0, n, url);
    var u := WorksOn(w, t, WriteFetching);
    assert u.rows.Keys == {n} && u.rows[n].status.Fetching?;
    var v := Restarts(w, u, [n]);
    ReachableStep(w, v, Resume);
    var x := Next(w, v, Resume);
    ReachableStep(w, x, Resume);
    var y := Next(w, x, Resume);
    assert y.queue == [n];
    s := SkipsIt(w, y, n);
  }

  /** A shadowed registration: the daemon has nothing left to do, the row is ready
      with the new source, and its file is the image of the old one. */
  lemma AWarmCanBeShadowed(w: World, files: Files, n: string, old': string, new': string) returns (s: State)
    requires CleanWorld(w) && n in w.names && old' != "" && new' != ""
    ensures Reachable(w, s) && Halted(s) && s.handlers == map[] && s.log.restarts == 0
    ensures n in s.rows && s.rows[n].status.Ready? && s.rows[n].srcUrl == Some(new') && s.rows[n].file == w.Image(n)
    ensures w.Image(n) in s.files && s.files[w.Image(n)] == w.source(old')
    ensures w.source(old') != w.source(new') ==> !Right(w, s, n)
  {
    FirstStart(w, files);
    var t := StartsWarm(w, Up(files), 0, n, old');
    s := ShadowedFrom(w, t, n, new');
  }

  lemma ShadowedFrom(w: World, t: State, n: string, new': string) returns (s: State)
    requires CleanWorld(w) && Reachable(w, t) && t.phase.Serving? && t.handlers == map[] && t.queue == []
    requires t.worker.Picked? && t.worker.name == n && t.worker.job.format == "img" && t.worker.job.dest == w.Image(n)
    requires n in t.rows && n in w.names && new' != ""
    ensures Reachable(w, s) && Halted(s) && s.handlers == map[] && s.log.restarts == t.log.restarts
    ensures n in s.rows && s.rows[n].status.Ready? && s.rows[n].srcUrl == Some(new') && s.rows[n].file == w.Image(n)
    ensures s.rows[n].format == Some("img")
    ensures w.Image(n) in s.files && s.files[w.Image(n)] == w.source(t.worker.job.url)
  {
    var u := RegistersWarm(w, t, 0, n, new');
    var v := WarmsWell(w, u, n);
    var x := ServesAfterWarm(w, v, n);
    assert SameRegistration(u.rows[n], v.rows[n]) && SameButPort(v.rows[n], x.rows[n]);
    s := SkipsIt(w, x, n);
  }

  /** Registered, and a delete has dropped the row and still has to reload and to
      remove the image. */
  lemma DeletesEarly(w: World, files: Files, n: string, url: string) returns (s: State)
    requires n in w.names && url != ""
    ensures Reachable(w, s) && s.phase.Serving? && s.worker.Idle? && s.rows == map[] && s.queue == [n]
    ensures s.handlers == map[1 := Refreshing(n, Some(w.Image(n)))]
  {
    FirstStart(w, files);
    var t := RegistersWarm(w, Up(files), 0, n, url);
    HandlerStepFrom(w, t, 1, BeginDelete(n));
    var u := Handle(w, t, 1, BeginDelete(n));
    HandlerStepFrom(w, u, 1, DeleteRow);
    s := Handle(w, u, 1, DeleteRow);
    assert WarmRow(w, map[], n, url) - {n} == map[];
  }

  /** A late delete: the row is ready and was right, and its image is gone. */
  lemma ADeleteCanTakeANewImage(w: World, files: Files, n: string, url: string) returns (s: State)
    requires CleanWorld(w) && n in w.names && url != "" && CanBind(w.portBase) && CanBind(w.portBase + WINDOW - 1)
    ensures Reachable(w, s) && n in s.rows && s.rows[n].status.Ready? && s.rows[n].srcUrl == Some(url)
    ensures s.rows[n].file == w.Image(n) && w.Image(n) !in s.files
  {
    var t := DeletesEarly(w, files, n, url);
    var u := StartsWarm(w, t, 2, n, url);
    var v := WarmsWell(w, u, n);
    assert SameRegistration(u.rows[n], v.rows[n]);
    OneReadyRow(v.rows, n);
    assert v.handlers[1].WillUnlink(w.Image(n));
    var steps;
    steps, s := LateDeleteTakesTheImage(w, v, n);
    assert Reaches(w, v, s);
    ReachableGoesOn(w, v, s);
    ReachableHasLogShape(w, v);
    ReadyRowIsNeverFetched(w, v, steps, s, n);
  }

  lemma OneReadyRow(rows: Rows, n: string)
    requires rows.Keys == {n}
    ensures |ReadyNames(rows)| <= WINDOW
  {
    SubsetIsSmaller(ReadyNames(rows), {n});
  }

  // ----- ready files of operators

  function FileRow(rows: Rows, n: string, path: string): Rows { Upsert(rows, n, path, true, Ready, None, None, None) }

  lemma RegistersFile(w: World, s: State, h: nat, n: string, path: string) returns (t: State)
    requires Reachable(w, s) && s.phase.Serving? && h !in s.handlers && path in w.paths
    ensures Reachable(w, t)
    ensures t == s.(rows := FileRow(s.rows, n, path), handlers := s.handlers[h := Refreshing(n, None)],
                    log := Registered(s.log, n))
  {
    HandlerStepFrom(w, s, h, RegisterFile(n, path, true));
    t := Handle(w, s, h, RegisterFile(n, path, true));
  }

  lemma Deletes(w: World, s: State, h: nat, n: string) returns (t: State)
    requires Reachable(w, s) && s.phase.Serving? && h !in s.handlers && n in s.rows && s.rows[n].srcUrl.None?
    ensures Reachable(w, t)
    ensures t == s.(rows := s.rows - {n}, handlers := s.handlers[h := Refreshing(n, None)], log := Forgotten(s.log, n))
  {
    HandlerStepFrom(w, s, h, BeginDelete(n));
    var u := Handle(w, s, h, BeginDelete(n));
    HandlerStepFrom(w, u, h, DeleteRow);
    t := Handle(w, u, h, DeleteRow);
    assert t.handlers == s.handlers[h := Refreshing(n, None)];
  }

  lemma TakesListing(w: World, s: State, h: nat, ready: seq<string>) returns (t: State)
    requires Reachable(w, s) && s.phase.Serving?
    requires h in s.handlers && s.handlers[h].Refreshing? && s.handlers[h].unlink.None?
    requires Lists(ready, ReadyNames(s.rows))
    ensures Reachable(w, t)
    ensures t == s.(handlers := s.handlers[h := WithSnapshot(s.handlers[h].name, ready, FilesOf(s.rows), None)])
  {
    HandlerStepFrom(w, s, h, Snapshot(ready));
    t := Handle(w, s, h, Snapshot(ready));
  }

  lemma {:induction false} FewNames(names: seq<string>)
    ensures |NameSet(names)| <= |names|
  {
    if names != [] {
      FewNames(names[1..]);
      assert NameSet(names) == NameSet(names[1..]) + {names[0]};
    }
  }

  /** A reload on a host that cooperates: live children keep their file and their
      port column, the others are started from the listing. */
  lemma GoodReload(w: World, sup: Sup, names: seq<string>, rows: Rows, served: map<string, string>,
                   paths: map<string, string>)
    requires SupInv(w.portBase, sup) && CanBind(w.portBase) && CanBind(w.portBase + WINDOW - 1) && |names| <= WINDOW
    ensures var e := Reload(w.portBase, sup, names, GOOD_HOST);
            var after := StartedWith(served, paths, e);
            && e.error.None? && e.sup.procs.Keys == NameSet(names) && PortsOnly(rows, WritePorts(rows, e.writes))
            && (forall n :: n in sup.procs && n in names ==>
                  && (n in rows ==> WritePorts(rows, e.writes)[n] == rows[n])
                  && n in after && after[n] == FileOf(served, n))
            && (forall n :: n !in sup.procs && n in names ==> n in after && after[n] == FileOf(paths, n))
  {
    FewNames(names);
    ReloadNeverRunsOutOfPorts(w.portBase, sup, names, GOOD_HOST);
    ReloadContract(w.portBase, sup, names, GOOD_HOST);
    var e := Reload(w.portBase, sup, names, GOOD_HOST);
    WritePortsIsPortsOnly(rows, e.writes);
    assert forall n :: Lives(sup, n, GOOD_HOST) <==> n in sup.procs;
  }

  /** The handler's reload on that host. */
  lemma Reloads(w: World, s: State, h: nat) returns (t: State)
    requires Reachable(w, s) && s.phase.Serving?
    requires h in s.handlers && s.handlers[h].WithSnapshot? && s.handlers[h].unlink.None?
    requires CanBind(w.portBase) && CanBind(w.portBase + WINDOW - 1) && |s.handlers[h].ready| <= WINDOW
    ensures Reachable(w, t) && t.handlers == s.handlers - {h}
    ensures t.queue == s.queue && t.worker == s.worker && t.phase == s.phase
    ensures t.log.restarts == s.log.restarts
    ensures t.sup.procs.Keys == NameSet(s.handlers[h].ready) && PortsOnly(s.rows, t.rows)
    ensures forall n :: n in s.rows && n in s.sup.procs && n in s.handlers[h].ready ==> t.rows[n] == s.rows[n]
    ensures forall n :: n in s.sup.procs && n in s.handlers[h].ready ==>
              n in t.log.served && t.log.served[n] == FileOf(s.log.served, n)
    ensures forall n :: n !in s.sup.procs && n in s.handlers[h].ready ==>
              n in t.log.served && t.log.served[n] == FileOf(s.handlers[h].paths, n)
  {
    ReachableHasPorts(w, s);
    var k := s.handlers[h];
    GoodReload(w, s.sup, k.ready, s.rows, s.log.served, k.paths);
    HandlerStepFrom(w, s, h, HandlerReload(GOOD_HOST));
    t := Handle(w, s, h, HandlerReload(GOOD_HOST));
  }

  /** One export of an operator's file, served, with nothing else under way. */
  lemma ServesOne(w: World, files: Files, n: string, path: string) returns (s: State)
    requires path in w.paths && CanBind(w.portBase) && CanBind(w.portBase + WINDOW - 1)
    ensures Reachable(w, s) && s.phase.Serving? && s.worker.Idle? && s.queue == [] && s.handlers == map[]
    ensures s.rows.Keys == {n} && s.rows[n].status.Ready? && s.rows[n].srcUrl.None? && s.rows[n].file == path
    ensures s.sup.procs.Keys == {n} && n in s.log.served && s.log.served[n] == path
  {
    FirstStart(w, files);
    var t := RegistersFile(w, Up(files), 0, n, path);
    var u := TakesListing(w, t, 0, [n]);
    s := Reloads(w, u, 0);
    assert SameButPort(u.rows[n], s.rows[n]);
  }

  /** A running export that advertises no port, with nothing under way that would
      ever write it. */
  lemma APortCanStayUnadvertised(w: World, files: Files, n: string, path: string) returns (s: State)
    requires path in w.paths && CanBind(w.portBase) && CanBind(w.portBase + WINDOW - 1)
    ensures Reachable(w, s) && Halted(s) && s.handlers == map[]
    ensures n in s.rows && s.rows[n].status.Ready? && n in s.sup.procs && s.rows[n].nbdPort == None
  {
    var t := ServesOne(w, files, n, path);
    var u := Deletes(w, t, 1, n);
    assert u.rows == map[];
    var v := RegistersFile(w, u, 2, n, path);
    s := ReloadsTwice(w, v, n);
  }

  /** A handler lists and reloads while the only row is ready and its child runs. */
  lemma ListsAndReloads(w: World, s: State, h: nat, n: string) returns (t: State)
    requires Reachable(w, s) && s.phase.Serving? && h in s.handlers && s.handlers[h] == Refreshing(n, None)
    requires CanBind(w.portBase) && CanBind(w.portBase + WINDOW - 1)
    requires s.rows.Keys == {n} && s.rows[n].status.Ready? && n in s.sup.procs
    ensures Reachable(w, t) && t.handlers == s.handlers - {h} && t.rows == s.rows && n in t.sup.procs
    ensures t.queue == s.queue && t.worker == s.worker && t.phase == s.phase
  {
    assert ReadyNames(s.rows) == {n};
    var u := TakesListing(w, s, h, [n]);
    t := Reloads(w, u, h);
    assert s.handlers[h := u.handlers[h]] - {h} == s.handlers - {h};
  }

  lemma ReloadsTwice(w: World, v: State, n: string) returns (s: State)
    requires Reachable(w, v) && v.phase.Serving? && v.worker.Idle? && v.queue == []
    requires v.handlers == map[1 := Refreshing(n, None), 2 := Refreshing(n, None)]
    requires CanBind(w.portBase) && CanBind(w.portBase + WINDOW - 1)
    requires v.rows.Keys == {n} && v.rows[n].status.Ready? && n in v.sup.procs
    ensures Reachable(w, s) && Halted(s) && s.handlers == map[] && s.rows == v.rows && n in s.sup.procs
  {
    var u := ListsAndReloads(w, v, 1, n);
    s := ListsAndReloads(w, u, 2, n);
    assert s.handlers == map[];
  }

  /** A file has been registered and listed. */
  lemma ListsOnce(w: World, files: Files, m: string, path: string) returns (s: State)
    requires path in w.paths
    ensures Reachable(w, s) && s.phase.Serving? && s.worker.Idle? && s.queue == []
    ensures s.rows == FileRow(map[], m, path) && s.handlers == map[0 := WithSnapshot(m, [m], FilesOf(s.rows), None)]
  {
    FirstStart(w, files);
    var t := RegistersFile(w, Up(files), 0, m, path);
    assert ReadyNames(t.rows) == {m};
    s := TakesListing(w, t, 0, [m]);
  }

  /** Another one is registered, and the first listing has been overtaken. */
  lemma ListsTwice(w: World, files: Files, m: string, n: string, path: string) returns (s: State)
    requires m != n && path in w.paths
    ensures Reachable(w, s) && s.phase.Serving? && s.worker.Idle? && s.queue == []
    ensures s.rows.Keys == {m, n} && s.rows[n].status.Ready? && s.handlers.Keys == {0, 1}
    ensures s.handlers[0].WithSnapshot? && s.handlers[0].ready == [m] && s.handlers[0].unlink.None?
    ensures s.handlers[1].WithSnapshot? && s.handlers[1].ready == [m, n] && s.handlers[1].unlink.None?
  {
    var t := ListsOnce(w, files, m, path);
    var u := RegistersFile(w, t, 1, n, path);
    assert ReadyNames(u.rows) == {m, n};
    s := TakesListing(w, u, 1, [m, n]);
  }

  /** A ready row without a child, with nothing under way that would ever start one:
      a listing that was overtaken kills what the newer one had started. */
  lemma AReadyRowCanStayUnserved(w: World, files: Files, m: string, n: string, path: string) returns (s: State)
    requires m != n && path in w.paths && CanBind(w.portBase) && CanBind(w.portBase + WINDOW - 1)
    ensures Reachable(w, s) && Halted(s) && s.handlers == map[]
    ensures n in s.rows && s.rows[n].status.Ready? && n !in s.sup.procs
  {
    var t := ListsTwice(w, files, m, n, path);
    var u := Reloads(w, t, 1);
    s := Reloads(w, u, 0);
    assert SameButPort(t.rows[n], u.rows[n]) && SameButPort(u.rows[n], s.rows[n]);
    assert n !in NameSet([m]);
    assert s.handlers == map[];
  }

  /** A child that serves another file than its row says, with nothing under way
      that would ever replace it. */
  lemma AChildCanServeAnOldFile(w: World, files: Files, n: string, old': string, new': string) returns (s: State)
    requires old' in w.paths && new' in w.paths && old' != new'
    requires CanBind(w.portBase) && CanBind(w.portBase + WINDOW - 1)
    ensures Reachable(w, s) && Halted(s) && s.handlers == map[]
    ensures n in s.rows && s.rows[n].file == new' && n in s.sup.procs && n in s.log.served && s.log.served[n] == old'
  {
    var t := ServesOne(w, files, n, old');
    var u := RegistersFile(w, t, 1, n, new');
    assert ReadyNames(u.rows) == {n};
    var v := TakesListing(w, u, 1, [n]);
    s := Reloads(w, v, 1);
    assert SameButPort(v.rows[n], s.rows[n]);
  }

  /** A file registered while a warm of the name is in flight: the daemon has nothing
      left to do, and the row is failed without a source to warm it from. */
  lemma AFileRowCanFail(w: World, files: Files, n: string, url: string, path: string) returns (s: State)
    requires n in w.names && url != "" && path in w.paths
    requires CanBind(w.portBase) && CanBind(w.portBase + WINDOW - 1)
    ensures Reachable(w, s) && Halted(s) && s.handlers == map[] && s.log.restarts == 0
    ensures n in s.rows && s.rows[n].status.Failed? && s.rows[n].srcUrl.None? && s.rows[n].file == path
  {
    FirstStart(w, files);
    var t := StartsWarm(w, Up(files), 0, n, url);
    var u := RegistersFile(w, t, 1, n, path);
    assert ReadyNames(u.rows) == {n};
    var v := TakesListing(w, u, 1, [n]);
    var x := Reloads(w, v, 1);
    assert SameButPort(v.rows[n], x.rows[n]);
    s := FailsEarly(w, x, n, "");
  }
}
