/**
 What the supervisor serves, over every run of the warm system.
 */
module WarmServing {
  import opened Wrappers
  import opened ExportStore
  import opened Supervision
  import opened WarmSystem
  import opened WarmFrames
  import opened WarmSafety
  import opened WarmPorts

  // ----- the set of ready rows

  /** The step adds a row to the ready rows or takes one away: it registers a file
      under a name that is not ready, registers for warming or deletes one that
      is, makes a row ready, or writes another status to a ready row. */
  predicate TouchesReady(s: State, step: Step) {
    match step
    case H(_, RegisterWarm(name, _, _, _, _)) => name in ReadyNames(s.rows)
    case H(_, RegisterFile(name, _, _)) => name !in ReadyNames(s.rows)
    case H(h, DeleteRow) => h in s.handlers && s.handlers[h].name in ReadyNames(s.rows)
    case W(a) =>
      && !s.worker.Idle? && s.worker.name in s.rows
      && (if a.WriteReady? then s.worker.name !in ReadyNames(s.rows)
          else WritesOtherStatus(a) && s.worker.name in ReadyNames(s.rows))
    case _ => false
  }

  predicate WritesOtherStatus(a: WorkerStep) {
    a.WriteDoom? || a.WriteFetching? || a.WriteDecompressing? || a.Tick? || a.ReportSize? || a.WriteFailed?
  }

  lemma HandleReadySet(w: World, s: State, h: nat, a: HandlerStep)
    requires CanHandle(w, s, h, a)
    ensures ReadyNames(Handle(w, s, h, a).rows) != ReadyNames(s.rows) <==> TouchesReady(s, H(h, a))
  {
    var t, n := Handle(w, s, h, a), Subject(s, h, a);
    HandleRows(w, s, h, a);
    if !WritesRow(a) {
      PortsOnlyKeepsStatus(s.rows, t.rows);
    } else {
      forall m | m != n
        ensures m in ReadyNames(t.rows) <==> m in ReadyNames(s.rows)
      {
        OtherRowsStay(w, s, h, a, m);
      }
      assert n in ReadyNames(t.rows) <==> a.RegisterFile?;
    }
  }

  lemma WorkerStatusWrite(w: World, s: State, a: WorkerStep)
    requires CanWork(w, s, a) && !s.worker.Idle? && s.worker.name in s.rows
    ensures var t, n := Work(w, s, a), s.worker.name;
            n in t.rows &&
            (t.rows[n].status.Ready? <==> a.WriteReady? || (!WritesOtherStatus(a) && s.rows[n].status.Ready?))
  {
  }

  lemma WorkLeavesOtherNames(w: World, s: State, a: WorkerStep, m: string)
    requires CanWork(w, s, a) && (s.worker.Idle? || m != s.worker.name)
    ensures m in ReadyNames(Work(w, s, a).rows) <==> m in ReadyNames(s.rows)
  {
    WorkRows(w, s, a);
    assert m in s.rows ==> SameButPort(s.rows[m], Work(w, s, a).rows[m]);
  }

  lemma WorkReadySet(w: World, s: State, a: WorkerStep)
    requires CanWork(w, s, a)
    ensures ReadyNames(Work(w, s, a).rows) != ReadyNames(s.rows) <==> TouchesReady(s, W(a))
  {
    var t := Work(w, s, a);
    forall m | s.worker.Idle? || m != s.worker.name
      ensures m in ReadyNames(t.rows) <==> m in ReadyNames(s.rows)
    {
      WorkLeavesOtherNames(w, s, a, m);
    }
    if !s.worker.Idle? {
      WorkRows(w, s, a);
      if s.worker.name in s.rows {
        WorkerStatusWrite(w, s, a);
        assert s.worker.name in ReadyNames(t.rows) <==> t.rows[s.worker.name].status.Ready?;
      }
    }
  }

  /** Exactly these writes change the set of ready rows. */
  lemma ReadySetChangesIff(w: World, s: State, step: Step)
    requires Enabled(w, s, step)
    ensures ReadyNames(Next(w, s, step).rows) != ReadyNames(s.rows) <==> TouchesReady(s, step)
  {
    if step.H? {
      HandleReadySet(w, s, step.h, step.act);
    } else if step.W? {
      WorkReadySet(w, s, step.work);
    } else if step.Boot? {
      var writes := SpawnAll(w.portBase, EMPTY, step.ready, step.host).writes;
      WritePortsIsPortsOnly(s.rows, writes);
      PortsOnlyKeepsStatus(s.rows, WritePorts(s.rows, writes));
    }
  }

  // ----- serving agreement

  ghost predicate HandlerOwes(s: State, n: string) {
    exists h :: h in s.handlers && s.handlers[h].OwesReload(n)
  }

  /** A handler has written its row and not listed the ready rows yet. */
  ghost predicate HandlerHasToList(s: State, n: string) {
    exists h :: h in s.handlers && s.handlers[h].Refreshing? && s.handlers[h].name == n
  }

  ghost predicate HasToList(s: State, n: string) {
    (s.worker.Published? && s.worker.name == n) || HandlerHasToList(s, n)
  }

  /** Every ready row is served, or the worker or handler that made it ready has
      not reloaded yet; every served name has a row, or the handler that deleted
      it has not reloaded yet. */
  ghost predicate Agreement(s: State) {
    && (forall n :: n in ReadyNames(s.rows) ==> n in s.sup.procs || s.worker.OwesReload(n) || HandlerOwes(s, n))
    && (forall n :: n in s.sup.procs ==> n in s.rows || HandlerOwes(s, n))
  }

  /** Somebody has listed these names as the ready rows and not reloaded yet. */
  ghost predicate Out(s: State, names: set<string>) {
    || (s.worker.Reloading? && NameSet(s.worker.ready) == names)
    || exists h :: h in s.handlers && s.handlers[h].WithSnapshot? && NameSet(s.handlers[h].ready) == names
  }

  /** What a listing lacks, or has too much, somebody else is going to list anew. */
  ghost predicate ListingHolds(s: State, names: set<string>) {
    && (forall n :: n in ReadyNames(s.rows) ==> n in names || HasToList(s, n))
    && (forall n :: n in names ==> n in s.rows || HandlerHasToList(s, n))
  }

  ghost predicate ServingInv(w: World, s: State) {
    && SupInv(w.portBase, s.sup)
    && (!s.phase.Down? ==> Agreement(s) && forall names :: Out(s, names) ==> ListingHolds(s, names))
  }

  /** No two different listings are out at the same time. */
  ghost predicate OneListing(s: State) {
    forall names, names' :: Out(s, names) && Out(s, names') ==> names == names'
  }

  /** A run in which that is always so, and no reload raises. */
  ghost predicate CoherentRun(w: World, s: State, steps: seq<Step>)
    decreases |steps|
  {
    steps != [] && Enabled(w, s, steps[0]) ==>
      && OneListing(Next(w, s, steps[0]))
      && (ReloadIn(w, s, steps[0]).Some? ==> ReloadIn(w, s, steps[0]).value.error.None?)
      && CoherentRun(w, Next(w, s, steps[0]), steps[1..])
  }

  lemma ListsIsNameSet(names: seq<string>, all: set<string>)
    requires Lists(names, all)
    ensures NameSet(names) == all
  {
  }

  // ----- one step

  /** A row that becomes ready, or goes away, leaves somebody who has to list. */
  ghost predicate RowsFollow(s: State, t: State) {
    && (forall n :: n in ReadyNames(t.rows) ==> n in ReadyNames(s.rows) || HasToList(t, n))
    && (forall n :: n in s.rows ==> n in t.rows || HandlerHasToList(t, n))
  }

  /** Whoever owes a reload goes on owing it. */
  ghost predicate DebtsStay(s: State, t: State) {
    && (forall n :: s.worker.OwesReload(n) || HandlerOwes(s, n) ==> t.worker.OwesReload(n) || HandlerOwes(t, n))
    && (forall n :: HandlerOwes(s, n) ==> HandlerOwes(t, n))
  }

  ghost predicate ListersStay(s: State, t: State) {
    && (forall n :: HasToList(s, n) ==> HasToList(t, n))
    && (forall n :: HandlerHasToList(s, n) ==> HandlerHasToList(t, n))
  }

  lemma ListersOwe(s: State, n: string)
    ensures HasToList(s, n) ==> s.worker.OwesReload(n) || HandlerOwes(s, n)
    ensures HandlerHasToList(s, n) ==> HandlerOwes(s, n)
  {
    if HandlerHasToList(s, n) {
      var h :| h in s.handlers && s.handlers[h].Refreshing? && s.handlers[h].name == n;
      assert s.handlers[h].OwesReload(n);
    }
  }

  lemma AgreementGoesOn(s: State, t: State)
    requires Agreement(s) && t.sup == s.sup && RowsFollow(s, t) && DebtsStay(s, t)
    ensures Agreement(t)
  {
    forall n
      ensures HasToList(t, n) ==> t.worker.OwesReload(n) || HandlerOwes(t, n)
      ensures HandlerHasToList(t, n) ==> HandlerOwes(t, n)
    {
      ListersOwe(t, n);
    }
  }

  lemma ListingGoesOn(s: State, t: State, names: set<string>)
    requires ListingHolds(s, names) && RowsFollow(s, t) && ListersStay(s, t)
    ensures ListingHolds(t, names)
  {
  }

  /** What handlers owe survives the steps of others and their own listing. */
  lemma HandlersStillOwe(w: World, s: State, h: nat, a: HandlerStep, n: string)
    requires CanHandle(w, s, h, a) && !a.HandlerReload?
    ensures HandlerOwes(s, n) ==> HandlerOwes(Handle(w, s, h, a), n)
    ensures !a.Snapshot? && HandlerHasToList(s, n) ==> HandlerHasToList(Handle(w, s, h, a), n)
  {
    var t := Handle(w, s, h, a);
    HandleHasFrame(w, s, h, a);
    if g :| g in s.handlers && s.handlers[g].OwesReload(n) {
      assert t.handlers[g].OwesReload(n);
    }
    if g :| g in s.handlers && s.handlers[g].Refreshing? && s.handlers[g].name == n {
      assert !a.Snapshot? ==> t.handlers[g].Refreshing? && t.handlers[g].name == n;
    }
  }

  lemma HandleDebts(w: World, s: State, h: nat, a: HandlerStep)
    requires CanHandle(w, s, h, a) && !a.HandlerReload?
    ensures var t := Handle(w, s, h, a);
            t.sup == s.sup && DebtsStay(s, t) && (!a.Snapshot? ==> ListersStay(s, t))
  {
    HandleKeepsSup(w, s, h, a);
    HandleHasFrame(w, s, h, a);
    forall n
      ensures HandlerOwes(s, n) ==> HandlerOwes(Handle(w, s, h, a), n)
      ensures !a.Snapshot? && HandlerHasToList(s, n) ==> HandlerHasToList(Handle(w, s, h, a), n)
    {
      HandlersStillOwe(w, s, h, a, n);
    }
  }

  lemma HandleRowsFollow(w: World, s: State, h: nat, a: HandlerStep)
    requires CanHandle(w, s, h, a) && !a.HandlerReload?
    ensures RowsFollow(s, Handle(w, s, h, a))
  {
    var t, m := Handle(w, s, h, a), Subject(s, h, a);
    HandleRows(w, s, h, a);
    HandleKeepsSup(w, s, h, a);
    if a.RegisterFile? || a.DeleteRow? {
      assert t.handlers[h].Refreshing? && t.handlers[h].name == m;
    }
    if WritesRow(a) {
      forall n | n != m
        ensures n in s.rows ==> n in t.rows && t.rows[n] == s.rows[n]
        ensures n !in s.rows ==> n !in t.rows
      {
        OtherRowsStay(w, s, h, a, n);
      }
    }
  }

  lemma WorkDebts(w: World, s: State, a: WorkerStep)
    requires CanWork(w, s, a) && !a.WorkerReload?
    ensures var t := Work(w, s, a);
            t.sup == s.sup && DebtsStay(s, t) && (!a.TakeSnapshot? ==> ListersStay(s, t))
  {
    WorkKeepsSup(w, s, a);
    WorkHasFrame(w, s, a);
    WorkerStillOwes(w, s, a);
    var t := Work(w, s, a);
    assert forall n :: (HandlerOwes(s, n) ==> HandlerOwes(t, n)) && (HandlerHasToList(s, n) ==> HandlerHasToList(t, n));
  }

  lemma WorkerStillOwes(w: World, s: State, a: WorkerStep)
    requires CanWork(w, s, a) && !a.WorkerReload?
    ensures var t := Work(w, s, a);
            && (forall n :: s.worker.OwesReload(n) ==> t.worker.OwesReload(n))
            && (s.worker.Published? && !a.TakeSnapshot? ==> t.worker == s.worker)
            && (a.WriteReady? ==> t.worker.Published? && t.worker.name == s.worker.name)
  {
  }

  lemma WorkRowsFollow(w: World, s: State, a: WorkerStep)
    requires CanWork(w, s, a)
    ensures RowsFollow(s, Work(w, s, a))
  {
    var t := Work(w, s, a);
    WorkRows(w, s, a);
    forall n | n in ReadyNames(t.rows)
      ensures n in ReadyNames(s.rows) || HasToList(t, n)
    {
      if s.worker.Idle? || n != s.worker.name {
        assert SameButPort(s.rows[n], t.rows[n]);
      } else {
        WorkerStatusWrite(w, s, a);
      }
    }
  }

  /** The listings that are out after a step were out before, or one has just been
      taken, and it lists the ready rows. */
  lemma HandleListings(w: World, s: State, h: nat, a: HandlerStep)
    requires CanHandle(w, s, h, a)
    ensures var t := Handle(w, s, h, a);
            && (!a.Snapshot? ==> forall names :: Out(t, names) ==> Out(s, names))
            && (a.Snapshot? ==> Out(t, ReadyNames(t.rows)))
  {
    var t := Handle(w, s, h, a);
    HandleHasFrame(w, s, h, a);
    if a.Snapshot? {
      ListsIsNameSet(a.ready, ReadyNames(s.rows));
      assert t.handlers[h].WithSnapshot? && NameSet(t.handlers[h].ready) == ReadyNames(t.rows);
    } else {
      forall names | Out(t, names)
        ensures Out(s, names)
      {
        if g :| g in t.handlers && t.handlers[g].WithSnapshot? && NameSet(t.handlers[g].ready) == names {
          assert g in s.handlers && s.handlers[g] == t.handlers[g];
        }
      }
    }
  }

  lemma WorkListings(w: World, s: State, a: WorkerStep)
    requires CanWork(w, s, a)
    ensures var t := Work(w, s, a);
            && (!a.TakeSnapshot? ==> forall names :: Out(t, names) ==> Out(s, names))
            && (a.TakeSnapshot? ==> Out(t, ReadyNames(t.rows)))
  {
    WorkHasFrame(w, s, a);
    if a.TakeSnapshot? {
      ListsIsNameSet(a.ready, ReadyNames(s.rows));
    } else {
      NoNewListing(w, s, a);
    }
  }

  lemma NoNewListing(w: World, s: State, a: WorkerStep)
    requires CanWork(w, s, a) && !a.TakeSnapshot?
    ensures !Work(w, s, a).worker.Reloading?
  {
  }

  /** A listing of the rows as they are holds. */
  lemma FreshListingHolds(s: State)
    ensures ListingHolds(s, ReadyNames(s.rows))
  {
  }

  lemma StepKeepsServing(w: World, s: State, t: State, listed: bool)
    requires ServingInv(w, s) && !s.phase.Down? && OneListing(t)
    requires t.sup == s.sup && RowsFollow(s, t) && DebtsStay(s, t)
    requires if listed then Out(t, ReadyNames(t.rows))
             else ListersStay(s, t) && forall names :: Out(t, names) ==> Out(s, names)
    ensures ServingInv(w, t)
  {
    AgreementGoesOn(s, t);
    forall names | Out(t, names)
      ensures ListingHolds(t, names)
    {
      if listed {
        FreshListingHolds(t);
      } else {
        ListingGoesOn(s, t, names);
      }
    }
  }

  // ----- a reload

  /** A reload with a listing that holds serves all but what others still owe. */
  lemma ReloadRestoresAgreement(w: World, s: State, t: State, names: seq<string>, host: Host)
    requires SupInv(w.portBase, s.sup) && ListingHolds(s, NameSet(names)) && ListersStay(s, t)
    requires var e := Reload(w.portBase, s.sup, names, host);
             e.error.None? && t.sup == e.sup && t.rows == WritePorts(s.rows, e.writes)
    ensures SupInv(w.portBase, t.sup) && Agreement(t) && RowsFollow(s, t)
  {
    ReloadContract(w.portBase, s.sup, names, host);
    var e := Reload(w.portBase, s.sup, names, host);
    WritePortsIsPortsOnly(s.rows, e.writes);
    PortsOnlyKeepsStatus(s.rows, t.rows);
    forall n
      ensures HasToList(t, n) ==> t.worker.OwesReload(n) || HandlerOwes(t, n)
      ensures HandlerHasToList(t, n) ==> HandlerOwes(t, n)
    {
      ListersOwe(t, n);
    }
  }

  lemma ReloadKeepsListers(w: World, s: State, step: Step)
    requires Enabled(w, s, step) && ReloadIn(w, s, step).Some?
    ensures ListersStay(s, Next(w, s, step))
  {
    var t := Next(w, s, step);
    if step.H? {
      HandleHasFrame(w, s, step.h, step.act);
    } else {
      WorkHasFrame(w, s, step.work);
    }
    forall n | HandlerHasToList(s, n)
      ensures HandlerHasToList(t, n)
    {
      var g :| g in s.handlers && s.handlers[g].Refreshing? && s.handlers[g].name == n;
      assert t.handlers[g] == s.handlers[g];
    }
  }

  lemma ReloadKeepsServing(w: World, s: State, step: Step)
    requires ServingInv(w, s) && !s.phase.Down? && Enabled(w, s, step)
    requires ReloadIn(w, s, step).Some? && ReloadIn(w, s, step).value.error.None?
    ensures ServingInv(w, Next(w, s, step))
  {
    var t := Next(w, s, step);
    StepAndMaps(w, s, step);
    ReloadKeepsListers(w, s, step);
    if step.H? {
      var names := s.handlers[step.h].ready;
      assert Out(s, NameSet(names));
      ReloadRestoresAgreement(w, s, t, names, step.act.host);
      HandleListings(w, s, step.h, step.act);
    } else {
      assert Out(s, NameSet(s.worker.ready));
      ReloadRestoresAgreement(w, s, t, s.worker.ready, step.work.host);
      WorkListings(w, s, step.work);
    }
    forall names | Out(t, names)
      ensures ListingHolds(t, names)
    {
      ListingGoesOn(s, t, names);
    }
  }

  // ----- every run

  lemma BootServes(w: World, s: State, step: Step)
    requires PhaseInv(s) && step.Boot? && CanSystem(w, s, step)
    ensures ServingInv(w, System(w, s, step))
  {
    var t := System(w, s, step);
    var e := SpawnAll(w.portBase, EMPTY, step.ready, step.host);
    BootPorts(w.portBase, step.ready, step.host, s.rows);
    ListsIsNameSet(step.ready, ReadyNames(s.rows));
    WritePortsIsPortsOnly(s.rows, e.writes);
    PortsOnlyKeepsStatus(s.rows, t.rows);
    assert e.error.None? ==> forall n :: n in t.sup.procs ==> n in ReadyNames(t.rows);
  }

  lemma SystemKeepsServing(w: World, s: State, step: Step)
    requires ServingInv(w, s) && IsSystem(step) && CanSystem(w, s, step) && !step.Boot?
    ensures ServingInv(w, System(w, s, step))
  {
    var t := System(w, s, step);
    if !step.Crash? {
      assert t.handlers == s.handlers && t.rows == s.rows && t.worker == s.worker && t.sup == s.sup;
      SameAgents(s, t);
    }
  }

  lemma SameAgents(s: State, t: State)
    requires t.handlers == s.handlers && t.rows == s.rows && t.worker == s.worker && t.sup == s.sup
    ensures Agreement(s) ==> Agreement(t)
    ensures forall names :: Out(t, names) ==> Out(s, names)
    ensures forall names :: ListingHolds(s, names) ==> ListingHolds(t, names)
  {
    assert forall n :: HandlerOwes(s, n) <==> HandlerOwes(t, n);
    assert forall n :: HandlerHasToList(s, n) <==> HandlerHasToList(t, n);
  }

  lemma NextKeepsServing(w: World, s: State, step: Step)
    requires PhaseInv(s) && ServingInv(w, s) && Enabled(w, s, step) && OneListing(Next(w, s, step))
    requires ReloadIn(w, s, step).Some? ==> ReloadIn(w, s, step).value.error.None?
    ensures ServingInv(w, Next(w, s, step))
  {
    if ReloadIn(w, s, step).Some? {
      ReloadKeepsServing(w, s, step);
    } else if step.H? {
      HandleDebts(w, s, step.h, step.act);
      HandleRowsFollow(w, s, step.h, step.act);
      HandleListings(w, s, step.h, step.act);
      StepKeepsServing(w, s, Next(w, s, step), step.act.Snapshot?);
    } else if step.W? {
      WorkDebts(w, s, step.work);
      WorkRowsFollow(w, s, step.work);
      WorkListings(w, s, step.work);
      StepKeepsServing(w, s, Next(w, s, step), step.work.TakeSnapshot?);
    } else if step.Boot? {
      BootServes(w, s, step);
    } else {
      SystemKeepsServing(w, s, step);
    }
  }

  lemma {:induction false} RunKeepsServing(w: World, s: State, steps: seq<Step>, s': State)
    requires PhaseInv(s) && ServingInv(w, s) && Run(w, s, steps, s') && CoherentRun(w, s, steps)
    ensures PhaseInv(s') && ServingInv(w, s')
    decreases |steps|
  {
    if steps != [] {
      NextKeepsPhase(w, s, steps[0]);
      NextKeepsServing(w, s, steps[0]);
      RunKeepsServing(w, Next(w, s, steps[0]), steps[1..], s');
    }
  }

  /** Over every run in which no two different listings of the ready rows are out at
      the same time and no reload raises, with writes anywhere: the served names
      and the ready rows agree up to reloads that are still owed; when none is
      owed, every ready row is served and every served name has a row. */
  lemma ServedIsReady(w: World, files: Files, steps: seq<Step>, s: State)
    requires Run(w, Init(files), steps, s) && CoherentRun(w, Init(files), steps) && !s.phase.Down?
    ensures Agreement(s)
    ensures (forall n :: !s.worker.OwesReload(n) && !HandlerOwes(s, n)) ==>
              ReadyNames(s.rows) <= s.sup.procs.Keys <= s.rows.Keys
  {
    RunKeepsServing(w, Init(files), steps, s);
  }

  // ----- a sufficient condition on the writes alone

  /** While a listing is out no write adds or removes a ready row, and no reload
      raises. */
  ghost predicate OrderlyRun(w: World, s: State, steps: seq<Step>)
    decreases |steps|
  {
    steps != [] && Enabled(w, s, steps[0]) ==>
      && (TouchesReady(s, steps[0]) ==> forall names :: !Out(s, names))
      && (ReloadIn(w, s, steps[0]).Some? ==> ReloadIn(w, s, steps[0]).value.error.None?)
      && OrderlyRun(w, Next(w, s, steps[0]), steps[1..])
  }

  ghost predicate Fresh(s: State) { forall names :: Out(s, names) ==> names == ReadyNames(s.rows) }

  lemma OrderlyStepKeepsFresh(w: World, s: State, step: Step)
    requires PhaseInv(s) && Fresh(s) && Enabled(w, s, step)
    requires TouchesReady(s, step) ==> forall names :: !Out(s, names)
    ensures Fresh(Next(w, s, step))
  {
    var t := Next(w, s, step);
    ReadySetChangesIff(w, s, step);
    forall names | Out(t, names)
      ensures names == ReadyNames(t.rows)
    {
      if step.H? {
        NewListingIsFresh(w, s, step.h, step.act, names);
      } else if step.W? {
        NewWorkListingIsFresh(w, s, step.work, names);
      } else {
        assert t.handlers == s.handlers || t.handlers == map[];
        assert Out(s, names);
      }
    }
  }

  lemma NewListingIsFresh(w: World, s: State, h: nat, a: HandlerStep, names: set<string>)
    requires CanHandle(w, s, h, a) && Out(Handle(w, s, h, a), names)
    ensures Out(s, names) || (a.Snapshot? && names == ReadyNames(Handle(w, s, h, a).rows))
  {
    var t := Handle(w, s, h, a);
    HandleHasFrame(w, s, h, a);
    if a.Snapshot? {
      ListsIsNameSet(a.ready, ReadyNames(s.rows));
    }
    if g :| g in t.handlers && t.handlers[g].WithSnapshot? && NameSet(t.handlers[g].ready) == names {
      assert g == h || (g in s.handlers && s.handlers[g] == t.handlers[g]);
    }
  }

  lemma NewWorkListingIsFresh(w: World, s: State, a: WorkerStep, names: set<string>)
    requires CanWork(w, s, a) && Out(Work(w, s, a), names)
    ensures Out(s, names) || (a.TakeSnapshot? && names == ReadyNames(Work(w, s, a).rows))
  {
    WorkHasFrame(w, s, a);
    if a.TakeSnapshot? {
      ListsIsNameSet(a.ready, ReadyNames(s.rows));
    } else {
      NoNewListing(w, s, a);
    }
  }

  /** In such a run the listings that are out are all the ready rows as they are. */
  lemma {:induction false} OrderlyRunIsCoherent(w: World, s: State, steps: seq<Step>, s': State)
    requires PhaseInv(s) && Fresh(s) && Run(w, s, steps, s') && OrderlyRun(w, s, steps)
    ensures CoherentRun(w, s, steps)
    decreases |steps|
  {
    if steps != [] {
      NextKeepsPhase(w, s, steps[0]);
      OrderlyStepKeepsFresh(w, s, steps[0]);
      OrderlyRunIsCoherent(w, Next(w, s, steps[0]), steps[1..], s');
    }
  }

  // ----- stale listings

  ghost predicate QuietRun(w: World, s: State, steps: seq<Step>)
    decreases |steps|
  {
    steps != [] && Enabled(w, s, steps[0]) ==>
      !TouchesReady(s, steps[0]) && QuietRun(w, Next(w, s, steps[0]), steps[1..])
  }

  lemma {:induction false} QuietRunKeepsReady(w: World, s: State, steps: seq<Step>, s': State)
    requires Run(w, s, steps, s') && QuietRun(w, s, steps)
    ensures ReadyNames(s'.rows) == ReadyNames(s.rows)
    decreases |steps|
  {
    if steps != [] {
      ReadySetChangesIff(w, s, steps[0]);
      QuietRunKeepsReady(w, Next(w, s, steps[0]), steps[1..], s');
    }
  }

  /** The rows are listed outside the supervisor's lock. A reload with the names
      that were ready in `s`, carried out in any later state `s'`, serves exactly
      the rows that are ready then if no write in between adds or removes one. */
  lemma QuietReloadServesTheReady(w: World, s: State, ready: seq<string>, steps: seq<Step>, s': State, host: Host)
    requires Reachable(w, s) && Lists(ready, ReadyNames(s.rows)) && Run(w, s, steps, s') && QuietRun(w, s, steps)
    requires Reload(w.portBase, s'.sup, ready, host).error.None?
    ensures var e := Reload(w.portBase, s'.sup, ready, host);
            e.sup.procs.Keys == ReadyNames(WritePorts(s'.rows, e.writes))
  {
    var e := Reload(w.portBase, s'.sup, ready, host);
    QuietRunKeepsReady(w, s, steps, s');
    assert Reaches(w, s, s');
    ReachableGoesOn(w, s, s');
    ReachableHasPorts(w, s');
    ListsIsNameSet(ready, ReadyNames(s.rows));
    ReloadContract(w.portBase, s'.sup, ready, host);
    WritePortsIsPortsOnly(s'.rows, e.writes);
    PortsOnlyKeepsStatus(s'.rows, WritePorts(s'.rows, e.writes));
  }
}
