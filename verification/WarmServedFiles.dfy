/**
 Which file the running child of an export serves. A reload leaves a live child
 alone, so a row and its child can come to disagree about the file.
 */
module WarmServedFiles {
  import opened Wrappers
  import opened ExportStore
  import opened Supervision
  import opened WarmSystem
  import opened WarmFrames
  import opened WarmSafety
  import opened WarmPorts

  /** The child of `n` serves another file than the row says. */
  predicate Outdated(s: State, n: string) {
    n in s.log.served && n in s.rows && s.log.served[n] != s.rows[n].file
  }

  /** What a listing says of a row is still so, if the row is there. */
  predicate ListingAgrees(rows: Rows, ready: seq<string>, paths: map<string, string>) {
    forall n :: n in ready ==> n in paths && (n in rows ==> paths[n] == rows[n].file)
  }

  /** Every child serves its row's file, if it has a row. */
  predicate FilesAgree(s: State) {
    && s.log.served.Keys == s.sup.procs.Keys
    && forall n :: n in s.rows ==> !Outdated(s, n)
  }

  ghost predicate ListingsAgree(s: State, rows: Rows) {
    && (s.worker.Reloading? ==> ListingAgrees(rows, s.worker.ready, s.worker.paths))
    && forall h :: h in s.handlers && s.handlers[h].WithSnapshot? ==>
         ListingAgrees(rows, s.handlers[h].ready, s.handlers[h].paths)
  }

  ghost predicate ServedInv(s: State) { FilesAgree(s) && ListingsAgree(s, s.rows) }

  predicate ListsOther(ready: seq<string>, paths: map<string, string>, n: string, file: string) {
    n in ready && n in paths && paths[n] != file
  }

  /** Registering `n` with `file` contradicts nobody: neither its running child nor
      a listing that is on its way to its reload has another file for it. */
  predicate Fits(s: State, n: string, file: string) {
    && (n in s.log.served ==> s.log.served[n] == file)
    && !(s.worker.Reloading? && ListsOther(s.worker.ready, s.worker.paths, n, file))
    && forall h :: h in s.handlers && s.handlers[h].WithSnapshot? ==>
         !ListsOther(s.handlers[h].ready, s.handlers[h].paths, n, file)
  }

  predicate FittingStep(w: World, s: State, step: Step) {
    match step
    case H(_, RegisterWarm(n, _, _, _, _)) => Fits(s, n, w.Image(n))
    case H(_, RegisterFile(n, path, _)) => Fits(s, n, path)
    case _ => true
  }

  ghost predicate FittingRun(w: World, s: State, steps: seq<Step>)
    decreases |steps|
  {
    steps != [] && Enabled(w, s, steps[0]) ==>
      FittingStep(w, s, steps[0]) && FittingRun(w, Next(w, s, steps[0]), steps[1..])
  }

  // ----- one reload

  /** After a reload a child serves the row's file if and only if it was started
      just now from a listing that is still right, or did so before. */
  lemma ReloadServes(base: int, sup: Sup, ready: seq<string>, paths: map<string, string>, host: Host,
                     served: map<string, string>, rows: Rows)
    requires SupInv(base, sup) && served.Keys == sup.procs.Keys && ListingAgrees(rows, ready, paths)
    ensures var e := Reload(base, sup, ready, host);
            var after := StartedWith(served, paths, e);
            && after.Keys == e.sup.procs.Keys
            && (forall n :: n in after ==> n in e.writes || n in served)
            && forall n :: n in after && n in rows ==>
                 (after[n] == rows[n].file <==> n in e.writes || (n in served && served[n] == rows[n].file))
  {
    var e := Reload(base, sup, ready, host);
    ReloadContract(base, sup, ready, host);
    ServesAfter(sup, ready, paths, served, rows, e);
  }

  lemma ServesAfter(sup: Sup, ready: seq<string>, paths: map<string, string>, served: map<string, string>,
                    rows: Rows, e: Effect)
    requires served.Keys == sup.procs.Keys && ListingAgrees(rows, ready, paths)
    requires forall n :: n in e.sup.procs ==> n in ready && (n in e.writes || n in sup.procs)
    ensures var after := StartedWith(served, paths, e);
            && after.Keys == e.sup.procs.Keys
            && (forall n :: n in after ==> n in e.writes || n in served)
            && forall n :: n in after && n in rows ==>
                 (after[n] == rows[n].file <==> n in e.writes || (n in served && served[n] == rows[n].file))
  {
  }

  // ----- every step

  /** Rows may go away, those that stay keep their file. */
  predicate SameFiles(rows: Rows, rows': Rows) {
    forall n :: n in rows' ==> n in rows && rows'[n].file == rows[n].file
  }

  lemma ReloadStep(w: World, s: State, step: Step)
    requires Enabled(w, s, step) && ReloadIn(w, s, step).Some?
    ensures var t, e := Next(w, s, step), ReloadIn(w, s, step).value;
            && SameFiles(s.rows, t.rows)
            && t.log.served
               == StartedWith(s.log.served, if step.H? then s.handlers[step.h].paths else s.worker.paths, e)
            && forall rows :: ListingsAgree(s, rows) ==> ListingsAgree(t, rows)
  {
    StepAndMaps(w, s, step);
    if step.H? {
      HandleHasFrame(w, s, step.h, step.act);
    } else {
      WorkHasFrame(w, s, step.work);
    }
  }

  lemma FewerRowsAgree(s: State, t: State, rows: Rows, rows': Rows)
    requires ListingsAgree(s, rows) && SameFiles(rows, rows')
    ensures ListingsAgree(s, rows')
  {
  }

  lemma ReloadKeepsServed(w: World, s: State, step: Step)
    requires PortInv(w, s) && ServedInv(s) && Enabled(w, s, step) && ReloadIn(w, s, step).Some?
    ensures ServedInv(Next(w, s, step))
  {
    var t := Next(w, s, step);
    StepAndMaps(w, s, step);
    ReloadStep(w, s, step);
    if step.H? {
      var k := s.handlers[step.h];
      ReloadServes(w.portBase, s.sup, k.ready, k.paths, step.act.host, s.log.served, s.rows);
    } else {
      ReloadServes(w.portBase, s.sup, s.worker.ready, s.worker.paths, step.work.host, s.log.served, s.rows);
    }
    FewerRowsAgree(t, t, s.rows, t.rows);
    forall n | n in t.rows
      ensures !Outdated(t, n)
    {
      assert t.rows[n].file == s.rows[n].file && !Outdated(s, n);
    }
  }

  lemma HandleKeepsServed(w: World, s: State, h: nat, a: HandlerStep)
    requires ServedInv(s) && CanHandle(w, s, h, a) && !a.HandlerReload? && FittingStep(w, s, H(h, a))
    ensures ServedInv(Handle(w, s, h, a))
  {
    var t := Handle(w, s, h, a);
    HandleKeepsSup(w, s, h, a);
    HandleHasFrame(w, s, h, a);
    HandleKeepsListings(w, s, h, a);
    forall n | n in t.rows
      ensures !Outdated(t, n)
    {
      if !WritesRow(a) || n != Subject(s, h, a) {
        HandleOtherRows(w, s, h, a, n);
        assert !Outdated(s, n);
      }
    }
  }

  lemma HandleKeepsListings(w: World, s: State, h: nat, a: HandlerStep)
    requires ListingsAgree(s, s.rows) && CanHandle(w, s, h, a) && !a.HandlerReload? && FittingStep(w, s, H(h, a))
    ensures ListingsAgree(Handle(w, s, h, a), Handle(w, s, h, a).rows)
  {
    var t := Handle(w, s, h, a);
    HandleHasFrame(w, s, h, a);
    forall n | !WritesRow(a) || n != Subject(s, h, a)
      ensures n in t.rows ==> n in s.rows && t.rows[n].file == s.rows[n].file
    {
      HandleOtherRows(w, s, h, a, n);
    }
    forall g | g in t.handlers && t.handlers[g].WithSnapshot?
      ensures ListingAgrees(t.rows, t.handlers[g].ready, t.handlers[g].paths)
    {
      assert g != h ==> ListingAgrees(s.rows, s.handlers[g].ready, s.handlers[g].paths);
    }
  }

  lemma WorkKeepsServed(w: World, s: State, a: WorkerStep)
    requires ServedInv(s) && CanWork(w, s, a) && !a.WorkerReload?
    ensures ServedInv(Work(w, s, a))
  {
    var t := Work(w, s, a);
    WorkHasFrame(w, s, a);
    WorkKeepsSup(w, s, a);
    WorkKeepsSources(w, s, a);
    assert forall n :: n in s.rows ==> SameRegistration(s.rows[n], t.rows[n]);
    FewerRowsAgree(s, s, s.rows, t.rows);
    if t.worker.Reloading? {
      NewListing(w, s, a);
    }
    forall n | n in t.rows
      ensures !Outdated(t, n)
    {
      assert !Outdated(s, n);
    }
  }

  lemma NewListing(w: World, s: State, a: WorkerStep)
    requires CanWork(w, s, a) && !a.WorkerReload? && Work(w, s, a).worker.Reloading?
    ensures var t := Work(w, s, a);
            t.rows == s.rows && ListingAgrees(t.rows, t.worker.ready, t.worker.paths)
  {
  }

  lemma BootServesTheRows(base: int, ready: seq<string>, host: Host, rows: Rows)
    requires Lists(ready, ReadyNames(rows))
    ensures var e := SpawnAll(base, EMPTY, ready, host);
            var served := StartedWith(map[], FilesOf(rows), e);
            && served.Keys == e.sup.procs.Keys
            && (e.error.None? ==> forall n :: n in served ==> n in rows && served[n] == rows[n].file)
  {
    var e := SpawnAll(base, EMPTY, ready, host);
    BootPorts(base, ready, host, rows);
    assert forall n :: n in e.sup.procs ==> n in e.sup.ports && n in e.writes;
    assert e.error.None? ==> forall n :: n in e.sup.procs ==> n in NameSet(ready) && n in ReadyNames(rows);
  }

  lemma BootKeepsServed(w: World, s: State, step: Step)
    requires PhaseInv(s) && ServedInv(s) && step.Boot? && CanSystem(w, s, step)
    ensures ServedInv(System(w, s, step))
  {
    var t := System(w, s, step);
    var e := SpawnAll(w.portBase, EMPTY, step.ready, step.host);
    BootServesTheRows(w.portBase, step.ready, step.host, s.rows);
    WritePortsIsPortsOnly(s.rows, e.writes);
    forall n | n in t.rows
      ensures !Outdated(t, n)
    {
      assert SameButPort(s.rows[n], t.rows[n]) && !Outdated(s, n);
    }
  }

  lemma SystemKeepsServed(w: World, s: State, step: Step)
    requires PhaseInv(s) && ServedInv(s) && IsSystem(step) && CanSystem(w, s, step) && !step.Boot?
    ensures ServedInv(System(w, s, step))
  {
    assert step.Crash? || (System(w, s, step).rows == s.rows && System(w, s, step).log == s.log);
    assert forall n :: n in s.rows ==> !Outdated(s, n);
  }

  lemma {:induction false} RunKeepsServed(w: World, s: State, steps: seq<Step>, s': State)
    requires PortInv(w, s) && PhaseInv(s) && ServedInv(s) && Run(w, s, steps, s') && FittingRun(w, s, steps)
    ensures ServedInv(s')
    decreases |steps|
  {
    if steps != [] {
      var step := steps[0];
      NextKeepsPorts(w, s, step);
      NextKeepsPhase(w, s, step);
      if ReloadIn(w, s, step).Some? {
        ReloadKeepsServed(w, s, step);
      } else if step.H? {
        HandleKeepsServed(w, s, step.h, step.act);
      } else if step.W? {
        WorkKeepsServed(w, s, step.work);
      } else if step.Boot? {
        BootKeepsServed(w, s, step);
      } else {
        SystemKeepsServed(w, s, step);
      }
      RunKeepsServed(w, Next(w, s, step), steps[1..], s');
    }
  }

  /** Over every run in which each registration fits the running child of the name
      and the listings that are on their way: every child serves its row's file. */
  lemma ChildrenServeTheirRows(w: World, files: Files, steps: seq<Step>, s: State, n: string)
    requires Run(w, Init(files), steps, s) && FittingRun(w, Init(files), steps)
    requires n in s.sup.procs && n in s.rows
    ensures n in s.log.served && s.log.served[n] == s.rows[n].file
  {
    RunKeepsServed(w, Init(files), steps, s);
    assert !Outdated(s, n);
  }

  // ----- exactly when a child is outdated

  /** The file a step registers under `n`, if it does. */
  function NewFile(w: World, step: Step, n: string): Option<string> {
    match step
    case H(_, RegisterWarm(m, _, _, _, _)) => if m == n then Some(w.Image(n)) else None
    case H(_, RegisterFile(m, path, _)) => if m == n then Some(path) else None
    case _ => None
  }

  /** The listing a reload was given, as far as its files go. */
  function ListedFiles(s: State, step: Step): map<string, string> {
    match step
    case H(h, HandlerReload(_)) =>
      if h in s.handlers && s.handlers[h].WithSnapshot? then s.handlers[h].paths else map[]
    case W(WorkerReload(_)) => if s.worker.Reloading? then s.worker.paths else map[]
    case _ => map[]
  }

  /** A new child is started from a listing that has another file than the row, or
      another file is registered while the child runs. */
  ghost predicate MakesOutdated(w: World, s: State, step: Step, n: string)
    requires Enabled(w, s, step)
  {
    || (Respawns(w, s, step, n) && n in s.rows && FileOf(ListedFiles(s, step), n) != s.rows[n].file)
    || (NewFile(w, step, n).Some? && n in s.sup.procs && NewFile(w, step, n).value != FileOf(s.log.served, n))
  }

  /** Row and child last, the child is not replaced and no file is registered. */
  ghost predicate LeavesOutdated(w: World, s: State, step: Step, n: string)
    requires Enabled(w, s, step)
  {
    var t := Next(w, s, step);
    n in t.rows && n in t.sup.procs && !Respawns(w, s, step, n) && NewFile(w, step, n).None?
  }

  ghost predicate StaysOutdated(w: World, s: State, steps: seq<Step>, n: string)
    decreases |steps|
  {
    steps != [] && Enabled(w, s, steps[0]) ==>
      LeavesOutdated(w, s, steps[0], n) && StaysOutdated(w, Next(w, s, steps[0]), steps[1..], n)
  }

  /** Somewhere in the run the child of `n` becomes outdated, and nothing mends it
      from there on. */
  ghost predicate BecomesOutdated(w: World, s: State, steps: seq<Step>, n: string)
    decreases |steps|
  {
    && steps != [] && Enabled(w, s, steps[0])
    && var t := Next(w, s, steps[0]);
       || (MakesOutdated(w, s, steps[0], n) && StaysOutdated(w, t, steps[1..], n))
       || BecomesOutdated(w, t, steps[1..], n)
  }

  predicate ServedIsRunning(s: State) { s.log.served.Keys == s.sup.procs.Keys }

  ghost predicate OutdatedStep(w: World, s: State, step: Step, n: string)
    requires Enabled(w, s, step)
  {
    var t := Next(w, s, step);
    Outdated(t, n) <==> MakesOutdated(w, s, step, n) || (Outdated(s, n) && LeavesOutdated(w, s, step, n))
  }

  lemma StartedFiles(served: map<string, string>, paths: map<string, string>, e: Effect)
    ensures StartedWith(served, paths, e).Keys == e.sup.procs.Keys
    ensures forall n :: n in e.sup.procs ==>
              StartedWith(served, paths, e)[n] == if n in e.writes then FileOf(paths, n) else FileOf(served, n)
  {
  }

  lemma ReloadMaps(w: World, s: State, step: Step)
    requires PortInv(w, s) && Enabled(w, s, step) && ReloadIn(w, s, step).Some?
    ensures var e := ReloadIn(w, s, step).value;
            && e.sup.procs.Keys == e.sup.ports.Keys
            && forall n :: n in e.sup.procs && n !in e.writes ==> n in s.sup.procs
  {
    var e := ReloadIn(w, s, step).value;
    if step.H? {
      ReloadContract(w.portBase, s.sup, s.handlers[step.h].ready, step.act.host);
    } else {
      ReloadContract(w.portBase, s.sup, s.worker.ready, step.work.host);
    }
    assert forall n :: n in e.sup.procs && n !in e.writes ==> SameEntry(s.sup, e.sup, n);
  }

  lemma FilesAfterReload(w: World, s: State, step: Step)
    requires PortInv(w, s) && Enabled(w, s, step) && ReloadIn(w, s, step).Some?
    ensures var t, e := Next(w, s, step), ReloadIn(w, s, step).value;
            && t.log.served == StartedWith(s.log.served, ListedFiles(s, step), e) && t.sup == e.sup
            && t.rows.Keys == s.rows.Keys && forall n :: n in s.rows ==> t.rows[n].file == s.rows[n].file
  {
    var e := ReloadIn(w, s, step).value;
    StepAndMaps(w, s, step);
    ReloadStep(w, s, step);
    WritePortsIsPortsOnly(s.rows, e.writes);
    assert forall n :: n in s.rows ==> SameButPort(s.rows[n], Next(w, s, step).rows[n]);
  }

  lemma ServedAfterReload(w: World, s: State, step: Step, n: string)
    requires PortInv(w, s) && ServedIsRunning(s) && Enabled(w, s, step) && ReloadIn(w, s, step).Some?
    ensures var t := Next(w, s, step);
            && ServedIsRunning(t)
            && (Respawns(w, s, step, n) ==> n in t.log.served && t.log.served[n] == FileOf(ListedFiles(s, step), n))
            && (!Respawns(w, s, step, n) && n in t.log.served ==>
                  n in s.log.served && t.log.served[n] == s.log.served[n])
  {
    FilesAfterReload(w, s, step);
    ReloadMaps(w, s, step);
    StartedFiles(s.log.served, ListedFiles(s, step), ReloadIn(w, s, step).value);
  }

  lemma OutdatedAfterReload(w: World, s: State, step: Step, n: string)
    requires PortInv(w, s) && ServedIsRunning(s) && Enabled(w, s, step) && ReloadIn(w, s, step).Some?
    ensures ServedIsRunning(Next(w, s, step)) && OutdatedStep(w, s, step, n)
  {
    FilesAfterReload(w, s, step);
    ServedAfterReload(w, s, step, n);
    assert NewFile(w, step, n).None?;
  }

  lemma OutdatedAfterHandler(w: World, s: State, h: nat, a: HandlerStep, n: string)
    requires ServedIsRunning(s) && CanHandle(w, s, h, a) && !a.HandlerReload?
    ensures ServedIsRunning(Handle(w, s, h, a)) && Enabled(w, s, H(h, a)) && OutdatedStep(w, s, H(h, a), n)
  {
    HandleKeepsSup(w, s, h, a);
    if !WritesRow(a) || n != Subject(s, h, a) {
      HandleOtherRows(w, s, h, a, n);
    } else {
      NewFileIsWritten(w, s, h, a);
    }
  }

  lemma NewFileIsWritten(w: World, s: State, h: nat, a: HandlerStep)
    requires CanHandle(w, s, h, a) && WritesRow(a)
    ensures var t, n := Handle(w, s, h, a), Subject(s, h, a);
            var file := NewFile(w, H(h, a), n);
            (n in t.rows <==> file.Some?) && (file.Some? ==> t.rows[n].file == file.value)
  {
  }

  lemma OutdatedAfterWork(w: World, s: State, a: WorkerStep, n: string)
    requires ServedIsRunning(s) && CanWork(w, s, a) && !a.WorkerReload?
    ensures ServedIsRunning(Work(w, s, a)) && Enabled(w, s, W(a)) && OutdatedStep(w, s, W(a), n)
  {
    WorkKeepsSup(w, s, a);
    WorkKeepsSources(w, s, a);
    assert n in s.rows ==> SameRegistration(s.rows[n], Work(w, s, a).rows[n]);
  }

  lemma OutdatedAfterBoot(w: World, s: State, step: Step, n: string)
    requires PortInv(w, s) && ServedIsRunning(s) && step.Boot? && CanSystem(w, s, step)
    ensures ServedIsRunning(System(w, s, step)) && !Outdated(System(w, s, step), n) && !Outdated(s, n)
  {
    var e := SpawnAll(w.portBase, EMPTY, step.ready, step.host);
    BootServesTheRows(w.portBase, step.ready, step.host, s.rows);
    WritePortsIsPortsOnly(s.rows, e.writes);
    assert n in s.rows ==> SameButPort(s.rows[n], System(w, s, step).rows[n]);
  }

  lemma OutdatedAfterSystem(w: World, s: State, step: Step, n: string)
    requires PortInv(w, s) && ServedIsRunning(s) && IsSystem(step) && CanSystem(w, s, step)
    ensures ServedIsRunning(System(w, s, step)) && Enabled(w, s, step) && OutdatedStep(w, s, step, n)
  {
    if step.Boot? {
      OutdatedAfterBoot(w, s, step, n);
    }
  }

  lemma NextOutdated(w: World, s: State, step: Step, n: string)
    requires PortInv(w, s) && ServedIsRunning(s) && Enabled(w, s, step)
    ensures ServedIsRunning(Next(w, s, step)) && OutdatedStep(w, s, step, n)
  {
    if ReloadIn(w, s, step).Some? {
      OutdatedAfterReload(w, s, step, n);
    } else if step.H? {
      OutdatedAfterHandler(w, s, step.h, step.act, n);
    } else if step.W? {
      OutdatedAfterWork(w, s, step.work, n);
    } else {
      OutdatedAfterSystem(w, s, step, n);
    }
  }

  lemma {:induction false} OutdatedAfterRun(w: World, s: State, steps: seq<Step>, s': State, n: string)
    requires PortInv(w, s) && ServedIsRunning(s) && Run(w, s, steps, s')
    ensures Outdated(s', n) <==>
              BecomesOutdated(w, s, steps, n) || (Outdated(s, n) && StaysOutdated(w, s, steps, n))
    decreases |steps|
  {
    if steps != [] {
      NextKeepsPorts(w, s, steps[0]);
      NextOutdated(w, s, steps[0], n);
      OutdatedAfterRun(w, Next(w, s, steps[0]), steps[1..], s', n);
    }
  }

  /** Over every run from the first start: a child serves another file than its row
      says if and only if somewhere in the run it was started from a listing with
      another file, or another file was registered while it ran, and since then
      row and child have lasted, and neither was the child replaced nor a file
      registered. */
  lemma OutdatedIff(w: World, files: Files, steps: seq<Step>, s: State, n: string)
    requires Run(w, Init(files), steps, s)
    ensures Outdated(s, n) <==> BecomesOutdated(w, Init(files), steps, n)
  {
    OutdatedAfterRun(w, Init(files), steps, s, n);
  }
}
