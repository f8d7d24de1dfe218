/**
 Which port the table advertises for a running export, over every run of the
 warm system.
 */
module WarmPorts {
  import opened Wrappers
  import opened ExportStore
  import opened Supervision
  import opened WarmSystem
  import opened WarmFrames

  /** The call of `reload` a step makes, if it makes one. */
  ghost function ReloadIn(w: World, s: State, step: Step): Option<Effect>
    requires Enabled(w, s, step)
  {
    if step.H? && step.act.HandlerReload? then
      Some(Reload(w.portBase, s.sup, s.handlers[step.h].ready, step.act.host))
    else if step.W? && step.work.WorkerReload? then
      Some(Reload(w.portBase, s.sup, s.worker.ready, step.work.host))
    else None
  }

  /** A reload changes the maps and the port column only; no other step but a
      start or a crash touches the maps. */
  lemma StepAndMaps(w: World, s: State, step: Step)
    requires Enabled(w, s, step)
    ensures var t, e := Next(w, s, step), ReloadIn(w, s, step);
            && (e.Some? ==> t.sup == e.value.sup && t.rows == WritePorts(s.rows, e.value.writes))
            && (e.None? && !step.Boot? && !step.Crash? ==> t.sup == s.sup && t.log.served == s.log.served)
  {
    if step.H? {
      HandleKeepsSup(w, s, step.h, step.act);
    } else if step.W? {
      WorkKeepsSup(w, s, step.work);
    }
  }

  lemma HandleKeepsSup(w: World, s: State, h: nat, a: HandlerStep)
    requires CanHandle(w, s, h, a)
    ensures var t := Handle(w, s, h, a);
            if a.HandlerReload? then
              var e := Reload(w.portBase, s.sup, s.handlers[h].ready, a.host);
              t.sup == e.sup && t.rows == WritePorts(s.rows, e.writes)
            else
              t.sup == s.sup && t.log.served == s.log.served && (!WritesRow(a) ==> t.rows == s.rows)
  {
  }

  lemma WorkKeepsSup(w: World, s: State, a: WorkerStep)
    requires CanWork(w, s, a)
    ensures var t := Work(w, s, a);
            if a.WorkerReload? then
              var e := Reload(w.portBase, s.sup, s.worker.ready, a.host);
              t.sup == e.sup && t.rows == WritePorts(s.rows, e.writes)
            else t.sup == s.sup && t.log.served == s.log.served
  {
  }

  // ----- the port column

  /** A running name with a row advertises its port or nothing. */
  ghost predicate PortColumn(sup: Sup, rows: Rows) {
    forall n :: n in sup.ports && n in rows ==> rows[n].nbdPort == None || rows[n].nbdPort == Some(sup.ports[n])
  }

  ghost predicate PortInv(w: World, s: State) {
    && SupInv(w.portBase, s.sup) && PortColumn(s.sup, s.rows)
    && (s.phase.Down? ==> s.sup == EMPTY)
  }

  /** A running child whose row does not say so. */
  predicate Blank(s: State, n: string) { n in s.sup.ports && n in s.rows && s.rows[n].nbdPort.None? }

  /** The row of `n` is inserted while a child of that name runs. */
  predicate InsertsUnderChild(s: State, step: Step, n: string) {
    && step.H? && (step.act.RegisterWarm? || step.act.RegisterFile?) && step.act.name == n
    && n !in s.rows && n in s.sup.ports
  }

  /** The step starts a new child for `n`. */
  ghost predicate Respawns(w: World, s: State, step: Step, n: string)
    requires Enabled(w, s, step)
  {
    var e := ReloadIn(w, s, step);
    e.Some? && n in e.value.writes && n in e.value.sup.ports
  }

  /** The port column of `n` after a step, relative to before. */
  ghost predicate PortStep(w: World, s: State, step: Step, t: State, n: string)
    requires Enabled(w, s, step)
  {
    n in t.sup.ports && n in t.rows ==>
      && (Blank(t, n) <==> InsertsUnderChild(s, step, n) || (Blank(s, n) && !Respawns(w, s, step, n)))
      && (t.rows[n].nbdPort.Some? ==> t.rows[n].nbdPort == Some(t.sup.ports[n]))
  }

  lemma ReloadKeepsPorts(w: World, s: State, step: Step)
    requires PortInv(w, s) && Enabled(w, s, step) && ReloadIn(w, s, step).Some?
    ensures SupInv(w.portBase, Next(w, s, step).sup) && forall n :: PortStep(w, s, step, Next(w, s, step), n)
  {
    var t, e := Next(w, s, step), ReloadIn(w, s, step).value;
    StepAndMaps(w, s, step);
    if step.H? {
      ReloadContract(w.portBase, s.sup, s.handlers[step.h].ready, step.act.host);
    } else {
      ReloadContract(w.portBase, s.sup, s.worker.ready, step.work.host);
    }
    forall n
      ensures PortStep(w, s, step, t, n)
    {
      if n in t.sup.ports && n in t.rows && n !in e.writes {
        assert SameEntry(s.sup, t.sup, n);
      }
    }
  }

  lemma HandleKeepsPorts(w: World, s: State, h: nat, a: HandlerStep, n: string)
    requires PortInv(w, s) && CanHandle(w, s, h, a) && !a.HandlerReload?
    ensures PortStep(w, s, H(h, a), Handle(w, s, h, a), n)
  {
    HandleKeepsSup(w, s, h, a);
    if WritesRow(a) && n != Subject(s, h, a) {
      OtherRowsStay(w, s, h, a, n);
    }
  }

  lemma OtherRowsStay(w: World, s: State, h: nat, a: HandlerStep, n: string)
    requires CanHandle(w, s, h, a) && WritesRow(a) && n != Subject(s, h, a)
    ensures n in s.rows ==> n in Handle(w, s, h, a).rows && Handle(w, s, h, a).rows[n] == s.rows[n]
    ensures n !in s.rows ==> n !in Handle(w, s, h, a).rows
  {
  }

  lemma WorkKeepsPortColumn(w: World, s: State, a: WorkerStep, n: string)
    requires CanWork(w, s, a) && !a.WorkerReload? && n in s.rows
    ensures n in Work(w, s, a).rows && Work(w, s, a).rows[n].nbdPort == s.rows[n].nbdPort
  {
  }

  lemma BootPorts(base: int, ready: seq<string>, host: Host, rows: Rows)
    requires forall i, j :: 0 <= i < j < |ready| ==> ready[i] != ready[j]
    ensures var e := SpawnAll(base, EMPTY, ready, host);
            && SupInv(base, e.sup)
            && (forall n :: n in e.sup.ports ==> n in e.writes && e.writes[n] == Some(e.sup.ports[n]))
            && (e.error.None? ==> e.sup.procs.Keys == NameSet(ready))
  {
    SpawnAllContract(base, EMPTY, ready, host);
    var e := SpawnAll(base, EMPTY, ready, host);
    forall n | n in e.sup.ports
      ensures n in e.writes
    {
      assert n in e.writes || SameEntry(EMPTY, e.sup, n);
    }
    forall n | n !in ready
      ensures n !in e.sup.procs
    {
      assert SameEntry(EMPTY, e.sup, n);
    }
  }

  lemma BootKeepsPorts(w: World, s: State, step: Step)
    requires PortInv(w, s) && step.Boot? && CanSystem(w, s, step)
    ensures var t := System(w, s, step);
            && PortInv(w, t)
            && forall n :: n in t.sup.ports && n in t.rows ==> t.rows[n].nbdPort == Some(t.sup.ports[n]) && !Blank(s, n)
  {
    BootPorts(w.portBase, step.ready, step.host, s.rows);
  }

  lemma SystemKeepsPorts(w: World, s: State, step: Step)
    requires PortInv(w, s) && IsSystem(step) && CanSystem(w, s, step)
    ensures PortInv(w, System(w, s, step)) && forall n :: PortStep(w, s, step, System(w, s, step), n)
  {
    if step.Boot? {
      BootKeepsPorts(w, s, step);
    }
  }

  lemma NextKeepsPorts(w: World, s: State, step: Step)
    requires PortInv(w, s) && Enabled(w, s, step)
    ensures PortInv(w, Next(w, s, step)) && forall n :: PortStep(w, s, step, Next(w, s, step), n)
  {
    var t := Next(w, s, step);
    if IsSystem(step) {
      SystemKeepsPorts(w, s, step);
    } else if ReloadIn(w, s, step).Some? {
      ReloadKeepsPorts(w, s, step);
    } else {
      StepAndMaps(w, s, step);
      forall n
        ensures PortStep(w, s, step, t, n)
      {
        if step.H? {
          HandleKeepsPorts(w, s, step.h, step.act, n);
        } else {
          WorkRows(w, s, step.work);
          if n in s.rows {
            WorkKeepsPortColumn(w, s, step.work, n);
          }
        }
      }
    }
    if !IsSystem(step) {
      StepKeepsPhase(w, s, step);
    }
    assert forall n :: n in t.sup.ports && n in t.rows ==> PortStep(w, s, step, t, n);
  }

  lemma StepKeepsPhase(w: World, s: State, step: Step)
    requires Enabled(w, s, step) && !IsSystem(step)
    ensures !Next(w, s, step).phase.Down?
  {
    if step.H? {
      HandleHasFrame(w, s, step.h, step.act);
    } else {
      WorkHasFrame(w, s, step.work);
    }
  }

  lemma {:induction false} RunKeepsPorts(w: World, s: State, steps: seq<Step>, s': State)
    requires PortInv(w, s) && Run(w, s, steps, s')
    ensures PortInv(w, s')
    decreases |steps|
  {
    if steps != [] {
      NextKeepsPorts(w, s, steps[0]);
      RunKeepsPorts(w, Next(w, s, steps[0]), steps[1..], s');
    }
  }

  lemma ReachableHasPorts(w: World, s: State)
    requires Reachable(w, s)
    ensures PortInv(w, s)
  {
    var files: Files, steps :| Run(w, Init(files), steps, s);
    RunKeepsPorts(w, Init(files), steps, s);
  }

  /** In every reachable state, whatever the interleaving: a running name with a
      row advertises the port of its child or none, never another; so no two
      running exports advertise one port. */
  lemma PortColumnAgreement(w: World, s: State)
    requires Reachable(w, s)
    ensures forall n :: n in s.sup.ports && n in s.rows && s.rows[n].nbdPort.Some? ==>
              s.rows[n].nbdPort == Some(s.sup.ports[n])
    ensures forall m, n ::
              m in s.sup.ports && n in s.sup.ports && m in s.rows && n in s.rows && m != n && s.rows[m].nbdPort.Some?
              ==> s.rows[m].nbdPort != s.rows[n].nbdPort
  {
    ReachableHasPorts(w, s);
  }

  /** Row and child of `n` last through the run, and no new child is started. */
  ghost predicate KeepsRowAndChild(w: World, s: State, steps: seq<Step>, n: string)
    decreases |steps|
  {
    steps != [] && Enabled(w, s, steps[0]) ==>
      var t := Next(w, s, steps[0]);
      n in t.rows && n in t.sup.ports && !Respawns(w, s, steps[0], n) && KeepsRowAndChild(w, t, steps[1..], n)
  }

  /** Somewhere in the run the row is inserted under a running child, and row and
      child last from there on. */
  ghost predicate InsertedUnderItsChild(w: World, s: State, steps: seq<Step>, n: string)
    decreases |steps|
  {
    && steps != [] && Enabled(w, s, steps[0])
    && var t := Next(w, s, steps[0]);
       || (InsertsUnderChild(s, steps[0], n) && KeepsRowAndChild(w, t, steps[1..], n))
       || InsertedUnderItsChild(w, t, steps[1..], n)
  }

  lemma {:induction false} BlankAfterRun(w: World, s: State, steps: seq<Step>, s': State, n: string)
    requires PortInv(w, s) && Run(w, s, steps, s')
    ensures Blank(s', n) <==>
              InsertedUnderItsChild(w, s, steps, n) || (Blank(s, n) && KeepsRowAndChild(w, s, steps, n))
    decreases |steps|
  {
    if steps != [] {
      var t := Next(w, s, steps[0]);
      NextKeepsPorts(w, s, steps[0]);
      assert PortStep(w, s, steps[0], t, n);
      if InsertsUnderChild(s, steps[0], n) {
        InsertedRowIsThere(w, s, steps[0], n);
      }
      BlankAfterRun(w, t, steps[1..], s', n);
    }
  }

  lemma InsertedRowIsThere(w: World, s: State, step: Step, n: string)
    requires Enabled(w, s, step) && InsertsUnderChild(s, step, n)
    ensures n in Next(w, s, step).rows && n in Next(w, s, step).sup.ports
  {
  }

  /** When a running export advertises no port, over every run from the first
      start: if and only if its row was inserted while its child was already
      running, that is, between the row deletion and the reload of a delete. */
  lemma UnadvertisedIffInsertedUnderItsChild(w: World, files: Files, steps: seq<Step>, s: State, n: string)
    requires Run(w, Init(files), steps, s) && n in s.sup.ports && n in s.rows
    ensures s.rows[n].nbdPort == None <==> InsertedUnderItsChild(w, Init(files), steps, n)
    ensures s.rows[n].nbdPort == Some(s.sup.ports[n]) <==> !InsertedUnderItsChild(w, Init(files), steps, n)
  {
    BlankAfterRun(w, Init(files), steps, s, n);
    RunKeepsPorts(w, Init(files), steps, s);
  }
}
