/**
 Safety of the warm pipeline over every run: no queued row is lost, and the
 rows in flight are the worker's own plus those a crash interrupted.
 */
module WarmSafety {
  import opened Wrappers
  import opened ExportStore
  import opened Supervision
  import opened WarmSystem
  import opened WarmFrames

  // ----- the invariants

  /** A process that is down has no volatile state; requests are served only
      after the resume loop. */
  ghost predicate PhaseInv(s: State) {
    && (s.phase.Down? ==> s.queue == [] && s.worker.Idle? && s.handlers == map[] && s.sup == EMPTY)
    && (s.phase.Resuming? ==> s.handlers == map[])
  }

  ghost predicate NoDuplicates(queue: seq<string>) {
    forall i, j :: 0 <= i < j < |queue| ==> queue[i] != queue[j]
  }

  /** Somebody will look at the row of `n`: it is in the queue, or the worker
      holds it between the pop and its first write, or a handler or the resume
      loop is about to enqueue it, or the daemon is down and will list it. */
  ghost predicate InSight(s: State, n: string) {
    || n in s.queue
    || s.worker.Holds(n)
    || (exists h :: h in s.handlers && s.handlers[h] == Enqueueing(n))
    || (s.phase.Resuming? && n in s.phase.rest)
    || s.phase.Down?
  }

  ghost predicate NoLostWarm(s: State) {
    && NoDuplicates(s.queue)
    && forall n :: n in s.rows && s.rows[n].status.Queued? ==> InSight(s, n) || n in s.log.stranded
  }

  function CurrentWarm(s: State): set<string> { if s.worker.Warming() then {s.worker.name} else {} }

  /** Only the worker's current row and rows interrupted by a crash are in
      flight, and there are no more of the latter than crashes. */
  ghost predicate MidFlightInv(s: State) {
    && InFlightNames(s.rows) <= s.log.interrupted + CurrentWarm(s)
    && |s.log.interrupted| <= s.log.restarts
  }

  ghost predicate SafetyInv(s: State) { PhaseInv(s) && NoLostWarm(s) && MidFlightInv(s) }

  // ----- no lost warm

  lemma EnqueuedFacts(queue: seq<string>, name: string)
    requires NoDuplicates(queue)
    ensures NoDuplicates(Enqueued(queue, name))
    ensures forall n :: n in Enqueued(queue, name) <==> n in queue || n == name
  {
  }

  lemma StaysInSight(s: State, t: State, h: nat, a: HandlerStep, n: string)
    requires HandlerFrame(s, t, h, a) && NoDuplicates(s.queue)
    requires a.Enqueue? || h !in s.handlers || !s.handlers[h].Enqueueing?
    requires InSight(s, n)
    ensures InSight(t, n)
  {
    EnqueuedFacts(s.queue, Subject(s, h, a));
    if g :| g in s.handlers && s.handlers[g] == Enqueueing(n) {
      assert g == h || t.handlers[g] == Enqueueing(n);
    }
  }

  lemma HandleKeepsNoLostWarm(w: World, s: State, h: nat, a: HandlerStep)
    requires NoLostWarm(s) && CanHandle(w, s, h, a)
    ensures NoLostWarm(Handle(w, s, h, a))
  {
    var t := Handle(w, s, h, a);
    HandleHasFrame(w, s, h, a);
    HandleRows(w, s, h, a);
    EnqueuedFacts(s.queue, Subject(s, h, a));
    HandleStranded(w, s, h, a);
    forall n | n in t.rows && t.rows[n].status.Queued?
      ensures InSight(t, n) || n in t.log.stranded
    {
      if !(a.RegisterWarm? && n == Subject(s, h, a)) {
        RowWasThere(s, t, a, Subject(s, h, a), n);
        if n !in s.log.stranded {
          StaysInSight(s, t, h, a, n);
        }
      }
    }
  }

  lemma RowWasThere(s: State, t: State, a: HandlerStep, subject: string, n: string)
    requires !WritesRow(a) ==> PortsOnly(s.rows, t.rows)
    requires WritesRow(a) ==> t.rows - {subject} == s.rows - {subject}
    requires a.RegisterFile? ==> subject in t.rows && t.rows[subject].status.Ready?
    requires a.DeleteRow? ==> subject !in t.rows
    requires n in t.rows && t.rows[n].status.Queued? && !(a.RegisterWarm? && n == subject)
    ensures n in s.rows && s.rows[n].status.Queued? && (WritesRow(a) ==> n != subject)
  {
    if WritesRow(a) {
      assert n in t.rows - {subject};
    } else {
      assert SameButPort(s.rows[n], t.rows[n]);
    }
  }

  lemma HandleStranded(w: World, s: State, h: nat, a: HandlerStep)
    requires CanHandle(w, s, h, a)
    ensures forall n :: n in s.log.stranded && (!WritesRow(a) || n != Subject(s, h, a))
                        ==> n in Handle(w, s, h, a).log.stranded
  {
  }

  lemma WorkKeepsNoLostWarm(w: World, s: State, a: WorkerStep)
    requires NoLostWarm(s) && CanWork(w, s, a)
    ensures NoLostWarm(Work(w, s, a))
  {
    var t := Work(w, s, a);
    WorkHasFrame(w, s, a);
    WorkRows(w, s, a);
    if !s.worker.Idle? && s.worker.name in s.rows {
      WorkStatus(w, s, a);
    }
    SightAfterWork(s, t, a);
  }

  lemma SightAfterWork(s: State, t: State, a: WorkerStep)
    requires NoLostWarm(s) && WorkerFrame(s, t, a) && t.rows.Keys == s.rows.Keys
    requires forall n :: n in s.rows && (s.worker.Idle? || n != s.worker.name) ==> SameButPort(s.rows[n], t.rows[n])
    requires !s.worker.Idle? && s.worker.name in s.rows ==>
               var n := s.worker.name;
               && (t.rows[n].status.Queued? ==> s.rows[n].status.Queued?)
               && (t.rows[n].status.Queued? && s.worker.Holds(n) ==> t.worker.Holds(n) || n in t.log.stranded)
    ensures NoLostWarm(t)
  {
    forall n | n in t.rows && t.rows[n].status.Queued?
      ensures InSight(t, n) || n in t.log.stranded
    {
      if s.worker.Idle? || n != s.worker.name {
        assert SameButPort(s.rows[n], t.rows[n]);
      }
      assert s.rows[n].status.Queued?;
      if n in s.queue && a.Pop? {
        assert s.queue == [s.queue[0]] + s.queue[1..];
      }
      if g :| g in s.handlers && s.handlers[g] == Enqueueing(n) {
        assert t.handlers[g] == Enqueueing(n);
      }
    }
  }

  lemma SystemKeepsNoLostWarm(w: World, s: State, step: Step)
    requires NoLostWarm(s) && IsSystem(step) && CanSystem(w, s, step)
    ensures NoLostWarm(System(w, s, step))
  {
    var t := System(w, s, step);
    if step.Resume? && s.phase.rest != [] {
      EnqueuedFacts(s.queue, s.phase.rest[0]);
      assert s.phase.rest == [s.phase.rest[0]] + s.phase.rest[1..];
    }
    forall n | n in t.rows && t.rows[n].status.Queued?
      ensures InSight(t, n) || n in t.log.stranded
    {
      assert n in s.rows && s.rows[n].status.Queued?;
      if step.Boot? {
        assert n in PendingNames(s.rows);
      }
    }
  }

  lemma NextKeepsNoLostWarm(w: World, s: State, step: Step)
    requires NoLostWarm(s) && Enabled(w, s, step)
    ensures NoLostWarm(Next(w, s, step))
  {
    if step.H? {
      HandleKeepsNoLostWarm(w, s, step.h, step.act);
    } else if step.W? {
      WorkKeepsNoLostWarm(w, s, step.work);
    } else {
      SystemKeepsNoLostWarm(w, s, step);
    }
  }

  // ----- rows in flight

  lemma WorkKeepsMidFlight(w: World, s: State, a: WorkerStep)
    requires MidFlightInv(s) && CanWork(w, s, a)
    ensures MidFlightInv(Work(w, s, a))
  {
    WorkHasFrame(w, s, a);
    WorkRows(w, s, a);
    if !s.worker.Idle? && s.worker.name in s.rows {
      WorkStatus(w, s, a);
    }
    FlightAfterWork(s, Work(w, s, a), a);
  }

  lemma FlightAfterWork(s: State, t: State, a: WorkerStep)
    requires MidFlightInv(s) && WorkerFrame(s, t, a) && t.rows.Keys == s.rows.Keys
    requires forall n :: n in s.rows && (s.worker.Idle? || n != s.worker.name) ==> SameButPort(s.rows[n], t.rows[n])
    requires !s.worker.Idle? && s.worker.name in s.rows ==>
               var n := s.worker.name;
               t.rows[n].status.InFlight() && !t.worker.Warming() ==>
                 !s.worker.Warming() && s.rows[n].status.InFlight()
    ensures MidFlightInv(t)
  {
    forall n | n in InFlightNames(t.rows)
      ensures n in t.log.interrupted + CurrentWarm(t)
    {
      if s.worker.Idle? || n != s.worker.name {
        assert SameButPort(s.rows[n], t.rows[n]);
        assert n in InFlightNames(s.rows);
      } else if !t.worker.Warming() {
        assert n in InFlightNames(s.rows);
      }
    }
  }

  lemma HandleKeepsMidFlight(w: World, s: State, h: nat, a: HandlerStep)
    requires MidFlightInv(s) && CanHandle(w, s, h, a)
    ensures MidFlightInv(Handle(w, s, h, a))
  {
    var t := Handle(w, s, h, a);
    HandleHasFrame(w, s, h, a);
    HandleRows(w, s, h, a);
    if !WritesRow(a) {
      PortsOnlyKeepsStatus(s.rows, t.rows);
    } else {
      var subject := Subject(s, h, a);
      forall n | n in InFlightNames(t.rows)
        ensures n in InFlightNames(s.rows)
      {
        assert n in t.rows - {subject};
      }
    }
  }

  lemma BootKeepsMidFlight(w: World, s: State, step: Step)
    requires MidFlightInv(s) && step.Boot? && CanSystem(w, s, step)
    ensures MidFlightInv(System(w, s, step))
  {
    var writes := SpawnAll(w.portBase, EMPTY, step.ready, step.host).writes;
    WritePortsIsPortsOnly(s.rows, writes);
    PortsOnlyKeepsStatus(s.rows, WritePorts(s.rows, writes));
  }

  lemma SystemKeepsMidFlight(w: World, s: State, step: Step)
    requires MidFlightInv(s) && IsSystem(step) && CanSystem(w, s, step)
    ensures MidFlightInv(System(w, s, step))
  {
    if step.Boot? {
      BootKeepsMidFlight(w, s, step);
    } else if step.Crash? {
      FewInFlight(s);
    }
  }

  lemma NextKeepsMidFlight(w: World, s: State, step: Step)
    requires MidFlightInv(s) && Enabled(w, s, step)
    ensures MidFlightInv(Next(w, s, step))
  {
    if step.H? {
      HandleKeepsMidFlight(w, s, step.h, step.act);
    } else if step.W? {
      WorkKeepsMidFlight(w, s, step.work);
    } else {
      SystemKeepsMidFlight(w, s, step);
    }
  }

  /** The count of rows in flight in any state that satisfies the invariant. */
  lemma FewInFlight(s: State)
    requires MidFlightInv(s)
    ensures |InFlightNames(s.rows)| <= s.log.restarts + |CurrentWarm(s)| <= s.log.restarts + 1
  {
    var all := s.log.interrupted + CurrentWarm(s);
    SubsetIsSmaller(InFlightNames(s.rows), all);
    SubsetIsSmaller(all - s.log.interrupted, CurrentWarm(s));
    assert |all| == |s.log.interrupted| + |all - s.log.interrupted|;
  }

  // ----- over all runs

  lemma SystemKeepsPhase(w: World, s: State, step: Step)
    requires PhaseInv(s) && IsSystem(step) && CanSystem(w, s, step)
    ensures PhaseInv(System(w, s, step))
  {
  }

  lemma NextKeepsPhase(w: World, s: State, step: Step)
    requires PhaseInv(s) && Enabled(w, s, step)
    ensures PhaseInv(Next(w, s, step))
  {
    if step.H? {
      HandleHasFrame(w, s, step.h, step.act);
    } else if step.W? {
      WorkHasFrame(w, s, step.work);
    } else {
      SystemKeepsPhase(w, s, step);
    }
  }

  lemma {:induction false} RunKeepsSafety(w: World, s: State, steps: seq<Step>, s': State)
    requires SafetyInv(s) && Run(w, s, steps, s')
    ensures SafetyInv(s')
    decreases |steps|
  {
    if steps != [] {
      NextKeepsPhase(w, s, steps[0]);
      NextKeepsNoLostWarm(w, s, steps[0]);
      NextKeepsMidFlight(w, s, steps[0]);
      RunKeepsSafety(w, Next(w, s, steps[0]), steps[1..], s');
    }
  }

  /** In every reachable state every queued row is in sight of somebody who
      will process it, except those whose image directory could not be made;
      and at most one row more than there were crashes is in flight. */
  lemma ReachableIsSafe(w: World, s: State)
    requires Reachable(w, s)
    ensures SafetyInv(s)
    ensures |InFlightNames(s.rows)| <= s.log.restarts + 1
    ensures s.log.restarts == 0 ==> InFlightNames(s.rows) <= CurrentWarm(s)
  {
    var files: Files, steps :| Run(w, Init(files), steps, s);
    RunKeepsSafety(w, Init(files), steps, s);
    FewInFlight(s);
  }

  // ----- the images directory

  predicate IsMkdirFailure(step: Step) { step.W? && step.work.MkdirFails? }

  lemma WorkKeepsNothingStranded(w: World, s: State, a: WorkerStep)
    requires s.log.stranded == {} && CanWork(w, s, a) && !a.MkdirFails?
    ensures Work(w, s, a).log.stranded == {}
  {
  }

  lemma HandleKeepsNothingStranded(w: World, s: State, h: nat, a: HandlerStep)
    requires s.log.stranded == {} && CanHandle(w, s, h, a)
    ensures Handle(w, s, h, a).log.stranded == {}
  {
  }

  lemma NextKeepsNothingStranded(w: World, s: State, step: Step)
    requires s.log.stranded == {} && Enabled(w, s, step) && !IsMkdirFailure(step)
    ensures Next(w, s, step).log.stranded == {}
  {
    if step.H? {
      HandleKeepsNothingStranded(w, s, step.h, step.act);
    } else if step.W? {
      WorkKeepsNothingStranded(w, s, step.work);
    }
  }

  /** As long as the directory can be made, nothing is stranded and every queued
      row is in sight. */
  lemma {:induction false} NothingStrandedWithoutMkdirFailure(w: World, s: State, steps: seq<Step>, s': State)
    requires SafetyInv(s) && s.log.stranded == {} && Run(w, s, steps, s')
    requires forall step :: step in steps ==> !IsMkdirFailure(step)
    ensures s'.log.stranded == {}
    ensures forall n :: n in s'.rows && s'.rows[n].status.Queued? ==> InSight(s', n)
    decreases |steps|
  {
    if steps != [] {
      assert steps[0] in steps;
      NextKeepsNothingStranded(w, s, steps[0]);
      NextKeepsPhase(w, s, steps[0]);
      NextKeepsNoLostWarm(w, s, steps[0]);
      NextKeepsMidFlight(w, s, steps[0]);
      NothingStrandedWithoutMkdirFailure(w, Next(w, s, steps[0]), steps[1..], s');
    }
  }

  /** The directory is made outside the worker's `try`: a failure there drops the
      job, and a row that is queued then is out of everybody's sight if and only
      if it has not been registered anew in the meantime. */
  lemma MkdirFailureDropsTheWarm(w: World, s: State)
    requires s.phase.Serving? && Enabled(w, s, W(MkdirFails))
    ensures var t, n := Next(w, s, W(MkdirFails)), s.worker.name;
            && t.rows == s.rows && t.worker.Idle?
            && (InSight(t, n) <==> n in s.queue || exists h :: h in s.handlers && s.handlers[h] == Enqueueing(n))
  {
  }
}
