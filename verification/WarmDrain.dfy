/**
 Left alone, the worker drains the queue: it stops after finitely many steps
 with every row ready or failed, except rows a crash interrupted.
 */
module WarmDrain {
  import opened Wrappers
  import opened ExportStore
  import opened Supervision
  import opened WarmSystem
  import opened WarmFrames
  import opened WarmSafety
  import opened WarmGenerations
  import opened WarmBytes

  /** Steps of the worker, its pipeline and watcher, and the resume loop. */
  predicate DrainStep(step: Step) { step.W? || step.Resume? }

  /** Nothing left to do. */
  ghost predicate Halted(s: State) { s.phase.Serving? && s.worker.Idle? && s.queue == [] }

  // ----- the measure

  function Stage(k: Worker): nat {
    match k
    case Idle => 0
    case AbortingRow(_, _) => 1
    case AbortingTemp(_, _) => 2
    case Aborting(_, _) => 3
    case Bundling(_) => 4
    case Reloading(_, _, _) => 5
    case Published(_) => 6
    case Returned(_, _, _) => 7
    case Replaced(_, _, _) => 8
    case Pumped(_, _) => 9
    case Pumping(_, _, _, _, _, _) => 10
    case Launching(_, _) => 11
    case Cleared(_, _) => 12
    case Started(_, _) => 13
    case Picked(_, _) => 14
    case Doomed(_, _, _) => 14
    case Popped(_) => 15
  }

  /** Names the resume loop has left, queue, stage of the current job, bytes the
      pipeline has left to write, and whether a progress report is due. */
  datatype Measure = Measure(resume: nat, queue: nat, stage: nat, bytes: nat, tick: nat) {
    predicate Below(m: Measure) {
      || resume < m.resume
      || (resume == m.resume && queue < m.queue)
      || (resume == m.resume && queue == m.queue && stage < m.stage)
      || (resume == m.resume && queue == m.queue && stage == m.stage && bytes < m.bytes)
      || (resume == m.resume && queue == m.queue && stage == m.stage && bytes == m.bytes && tick < m.tick)
    }
  }

  ghost function Left(s: State): Measure {
    var k := s.worker;
    Measure(if s.phase.Resuming? then |s.phase.rest| + 1 else 0,
            |s.queue|, Stage(k),
            if k.Pumping? && k.done <= |k.plan| then |k.plan| - k.done else 0,
            if k.Pumping? && k.job.Temp() in s.files && |s.files[k.job.Temp()]| >= k.seen + CHUNK then 1 else 0)
  }

  lemma WorkMakesProgress(w: World, s: State, a: WorkerStep)
    requires CanWork(w, s, a)
    ensures Left(Work(w, s, a)).Below(Left(s))
  {
  }

  /** Every step of a drain makes the measure smaller. */
  lemma DrainMakesProgress(w: World, s: State, step: Step)
    requires Enabled(w, s, step) && DrainStep(step)
    ensures Left(Next(w, s, step)).Below(Left(s))
  {
    if step.W? {
      WorkMakesProgress(w, s, step.work);
    }
  }

  /** So there is no endless drain, however the scheduler interleaves pipeline,
      watcher, worker and resume loop. */
  lemma NoEndlessDrain(w: World, states: nat -> State, steps: nat -> Step, i: nat)
    requires forall k: nat :: Enabled(w, states(k), steps(k)) && DrainStep(steps(k))
    requires forall k: nat :: states(k + 1) == Next(w, states(k), steps(k))
    ensures false
    decreases Left(states(i)).resume, Left(states(i)).queue, Left(states(i)).stage,
              Left(states(i)).bytes, Left(states(i)).tick
  {
    assert Enabled(w, states(i), steps(i));
    DrainMakesProgress(w, states(i), steps(i));
    assert states(i + 1) == Next(w, states(i), steps(i));
    NoEndlessDrain(w, states, steps, i + 1);
  }

  // ----- no deadlock

  ghost predicate PumpBound(s: State) { s.worker.Pumping? ==> s.worker.done <= |s.worker.plan| }

  lemma WorkKeepsPumpBound(w: World, s: State, a: WorkerStep)
    requires PumpBound(s) && CanWork(w, s, a)
    ensures PumpBound(Work(w, s, a))
  {
  }

  lemma {:induction false} RunKeepsPumpBound(w: World, s: State, steps: seq<Step>, s': State)
    requires PumpBound(s) && Run(w, s, steps, s')
    ensures PumpBound(s')
    decreases |steps|
  {
    if steps != [] {
      if steps[0].H? {
        HandleHasFrame(w, s, steps[0].h, steps[0].act);
      } else if steps[0].W? {
        WorkKeepsPumpBound(w, s, steps[0].work);
      }
      RunKeepsPumpBound(w, Next(w, s, steps[0]), steps[1..], s');
    }
  }

  lemma {:induction false} EverySetHasAListing(all: set<string>) returns (names: seq<string>)
    ensures Lists(names, all)
  {
    if n :| n in all {
      var rest := EverySetHasAListing(all - {n});
      names := rest + [n];
    } else {
      names := [];
    }
  }

  const ANY_HOST := Host(_ => false, (_, _) => false, _ => false, _ => 0)

  /** What the worker can do next at each of its program points. */
  lemma WorkerIsNeverStuck(w: World, s: State) returns (a: WorkerStep)
    requires PumpBound(s) && !s.phase.Down? && (!s.worker.Idle? || s.queue != [])
    ensures CanWork(w, s, a)
  {
    match s.worker
    case Idle => a := Pop;
    case Popped(_) => a := Pickup(true);
    case Doomed(_, _, _) => a := WriteDoom;
    case Picked(_, _) => a := WriteFetching;
    case Started(_, _) => a := ClearTemp;
    case Cleared(_, _) => a := WriteDecompressing;
    case Launching(_, _) => a := LaunchFails;
    case Pumping(_, _, plan, _, done, _) => a := if done < |plan| then Pump(1) else Exit;
    case Pumped(_, _) => a := Replace;
    case Replaced(_, _, _) => a := ReportSize;
    case Returned(_, _, _) => a := WriteReady;
    case Aborting(_, _) => a := UnlinkDest;
    case AbortingTemp(_, _) => a := UnlinkTemp;
    case AbortingRow(_, _) => a := WriteFailed("");
    case Published(_) =>
      var ready := EverySetHasAListing(ReadyNames(s.rows));
      a := TakeSnapshot(ready);
    case Reloading(_, _, _) => a := WorkerReload(ANY_HOST);
    case Bundling(_) => a := FinishBundle;
  }

  /** With the handlers done, a reachable state of a running daemon either has a
      drain step or is halted: the worker survives every failure. */
  lemma DrainIsNeverStuck(w: World, s: State)
    requires Reachable(w, s) && !s.phase.Down? && s.handlers == map[]
    ensures Halted(s) <==> forall step :: DrainStep(step) ==> !Enabled(w, s, step)
  {
    var files: Files, steps :| Run(w, Init(files), steps, s);
    RunKeepsPumpBound(w, Init(files), steps, s);
    if !s.worker.Idle? || s.queue != [] {
      var a := WorkerIsNeverStuck(w, s);
      assert Enabled(w, s, W(a));
    } else if s.phase.Resuming? {
      assert Enabled(w, s, Resume);
    }
  }

  /** From any such state the worker gets to a halt. */
  lemma {:induction false} DrainReachesHalt(w: World, s: State) returns (steps: seq<Step>, s': State)
    requires PhaseInv(s) && PumpBound(s) && !s.phase.Down? && s.handlers == map[]
    ensures Run(w, s, steps, s') && Halted(s') && forall step :: step in steps ==> DrainStep(step)
    decreases Left(s).resume, Left(s).queue, Left(s).stage, Left(s).bytes, Left(s).tick
  {
    if Halted(s) {
      steps, s' := [], s;
    } else {
      var step := Resume;
      if !s.worker.Idle? || s.queue != [] {
        var a := WorkerIsNeverStuck(w, s);
        step := W(a);
        WorkKeepsPumpBound(w, s, a);
        WorkHasFrame(w, s, a);
      }
      DrainMakesProgress(w, s, step);
      NextKeepsPhase(w, s, step);
      var rest;
      rest, s' := DrainReachesHalt(w, Next(w, s, step));
      steps := [step] + rest;
    }
  }

  // ----- where a drain ends

  predicate Terminal(row: Row) { row.status.Ready? || row.status.Failed? }

  /** When the worker has halted and no handler is under way, every row is ready
      or failed, except rows interrupted by a crash and rows whose directory
      could not be made; without either, all rows are. */
  lemma HaltedIsTerminal(w: World, s: State)
    requires Reachable(w, s) && Halted(s) && s.handlers == map[]
    ensures forall n :: n in s.rows ==> Terminal(s.rows[n]) || n in s.log.interrupted || n in s.log.stranded
    ensures s.log.restarts == 0 && s.log.stranded == {} ==> forall n :: n in s.rows ==> Terminal(s.rows[n])
  {
    ReachableIsSafe(w, s);
    forall n | n in s.rows && !Terminal(s.rows[n])
      ensures n in s.log.interrupted || n in s.log.stranded
    {
      assert n in InFlightNames(s.rows) || !InSight(s, n);
    }
    assert s.log.restarts == 0 ==> s.log.interrupted == {};
  }

  // ----- after a restart

  ghost predicate DrainRun(w: World, s: State, steps: seq<Step>, s': State) {
    Run(w, s, steps, s') && forall step :: step in steps ==> DrainStep(step) && !IsMkdirFailure(step)
  }

  /** The rows of `frozen` are in flight and nobody works on them. */
  ghost predicate Frozen(s: State, rows0: Rows, frozen: set<string>) {
    && frozen <= s.rows.Keys && frozen <= rows0.Keys && s.rows.Keys == rows0.Keys
    && (forall n :: n in frozen ==> s.rows[n].status.InFlight() && SameButPort(rows0[n], s.rows[n]))
    && (s.worker.HasJob() || s.worker.Doomed? ==> s.worker.name !in frozen)
  }

  lemma WorkKeepsFrozen(w: World, s: State, a: WorkerStep, rows0: Rows, frozen: set<string>)
    requires Frozen(s, rows0, frozen) && CanWork(w, s, a)
    ensures Frozen(Work(w, s, a), rows0, frozen)
  {
    var t := Work(w, s, a);
    WorkRows(w, s, a);
    FrozenWorker(w, s, a, frozen);
    forall n | n in frozen
      ensures t.rows[n].status.InFlight() && SameButPort(rows0[n], t.rows[n])
    {
      assert SameButPort(rows0[n], s.rows[n]) && SameButPort(s.rows[n], t.rows[n]);
    }
  }

  /** The worker skips a frozen name: its row is neither queued nor failed. */
  lemma FrozenWorker(w: World, s: State, a: WorkerStep, frozen: set<string>)
    requires CanWork(w, s, a) && frozen <= s.rows.Keys
    requires forall n :: n in frozen ==> s.rows[n].status.InFlight()
    requires s.worker.HasJob() || s.worker.Doomed? ==> s.worker.name !in frozen
    ensures var t := Work(w, s, a);
            && (t.worker.HasJob() || t.worker.Doomed? ==> t.worker.name !in frozen)
            && (!s.worker.Idle? && s.worker.name in frozen ==> PortsOnly(s.rows, t.rows))
  {
  }

  /** What a drain after a restart keeps. */
  ghost predicate AfterRestart(s: State, rows0: Rows, frozen: set<string>) {
    && SafetyInv(s) && s.log.stranded == {} && s.handlers == map[]
    && Frozen(s, rows0, frozen) && s.log.interrupted == frozen
  }

  lemma WorkKeepsSafety(w: World, s: State, a: WorkerStep)
    requires SafetyInv(s) && CanWork(w, s, a)
    ensures SafetyInv(Work(w, s, a))
  {
    WorkKeepsNoLostWarm(w, s, a);
    WorkKeepsMidFlight(w, s, a);
    WorkHasFrame(w, s, a);
  }

  lemma WorkAfterRestart(w: World, s: State, a: WorkerStep, rows0: Rows, frozen: set<string>)
    requires AfterRestart(s, rows0, frozen) && CanWork(w, s, a) && !a.MkdirFails?
    ensures AfterRestart(Work(w, s, a), rows0, frozen)
  {
    WorkKeepsSafety(w, s, a);
    WorkKeepsNothingStranded(w, s, a);
    WorkKeepsFrozen(w, s, a, rows0, frozen);
    WorkHasFrame(w, s, a);
  }

  lemma ResumeAfterRestart(w: World, s: State, rows0: Rows, frozen: set<string>)
    requires AfterRestart(s, rows0, frozen) && CanSystem(w, s, Resume)
    ensures AfterRestart(System(w, s, Resume), rows0, frozen)
  {
    SystemKeepsPhase(w, s, Resume);
    SystemKeepsNoLostWarm(w, s, Resume);
    SystemKeepsMidFlight(w, s, Resume);
    ResumeFrame(w, s);
  }

  lemma ResumeFrame(w: World, s: State)
    requires CanSystem(w, s, Resume)
    ensures var t := System(w, s, Resume);
            t.rows == s.rows && t.worker == s.worker && t.handlers == s.handlers && t.log == s.log
  {
  }

  lemma {:induction false} DrainKeepsFrozen(w: World, s: State, steps: seq<Step>, s': State, rows0: Rows,
                                            frozen: set<string>)
    requires DrainRun(w, s, steps, s') && AfterRestart(s, rows0, frozen)
    ensures AfterRestart(s', rows0, frozen)
    decreases |steps|
  {
    if steps != [] {
      assert steps[0] in steps;
      if steps[0].W? {
        WorkAfterRestart(w, s, steps[0].work, rows0, frozen);
      } else {
        ResumeAfterRestart(w, s, rows0, frozen);
      }
      forall x | x in steps[1..]
        ensures x in steps
      {
      }
      DrainKeepsFrozen(w, Next(w, s, steps[0]), steps[1..], s', rows0, frozen);
    }
  }

  lemma AfterCrash(w: World, s: State)
    requires SafetyInv(s) && CanSystem(w, s, Crash)
    ensures var down := System(w, s, Crash);
            SafetyInv(down) && down.rows == s.rows && down.log.interrupted == InFlightNames(s.rows)
  {
    SystemKeepsPhase(w, s, Crash);
    SystemKeepsNoLostWarm(w, s, Crash);
    SystemKeepsMidFlight(w, s, Crash);
  }

  lemma AfterBoot(w: World, down: State, boot: Step)
    requires boot.Boot? && CanSystem(w, down, boot) && SafetyInv(down)
    requires down.log.interrupted == InFlightNames(down.rows) && !System(w, down, boot).phase.Down?
    ensures var up, frozen := System(w, down, boot), InFlightNames(down.rows);
            AfterRestart(up, down.rows, frozen)
  {
    SystemKeepsPhase(w, down, boot);
    SystemKeepsNoLostWarm(w, down, boot);
    SystemKeepsMidFlight(w, down, boot);
    BootFreezes(w, down, boot, InFlightNames(down.rows));
  }

  lemma BootFrame(w: World, down: State, boot: Step)
    requires boot.Boot? && CanSystem(w, down, boot) && PhaseInv(down) && !System(w, down, boot).phase.Down?
    ensures var up := System(w, down, boot);
            && up.log.interrupted == down.log.interrupted && up.log.stranded == {} && up.handlers == map[]
            && up.worker.Idle? && PortsOnly(down.rows, up.rows)
  {
    WritePortsIsPortsOnly(down.rows, SpawnAll(w.portBase, EMPTY, boot.ready, boot.host).writes);
  }

  lemma BootFreezes(w: World, down: State, boot: Step, frozen: set<string>)
    requires boot.Boot? && CanSystem(w, down, boot) && PhaseInv(down) && frozen == InFlightNames(down.rows)
    requires down.log.interrupted == frozen && !System(w, down, boot).phase.Down?
    ensures var up := System(w, down, boot);
            && Frozen(up, down.rows, frozen) && up.log.interrupted == frozen
            && up.log.stranded == {} && up.handlers == map[]
  {
    BootFrame(w, down, boot);
    FrozenAtBoot(down.rows, System(w, down, boot), frozen);
  }

  lemma FrozenAtBoot(rows0: Rows, up: State, frozen: set<string>)
    requires PortsOnly(rows0, up.rows) && up.worker.Idle? && frozen == InFlightNames(rows0)
    ensures Frozen(up, rows0, frozen)
  {
    forall n | n in frozen
      ensures n in up.rows && up.rows[n].status.InFlight() && SameButPort(rows0[n], up.rows[n])
    {
      assert SameButPort(rows0[n], up.rows[n]);
    }
  }

  lemma HaltedLeavesTheFrozen(s: State, rows0: Rows, frozen: set<string>)
    requires AfterRestart(s, rows0, frozen) && Halted(s)
    ensures forall n :: n in s.rows ==> (!Terminal(s.rows[n]) <==> n in frozen)
  {
    forall n | n in s.rows && !Terminal(s.rows[n])
      ensures n in frozen
    {
      assert n in InFlightNames(s.rows) || !InSight(s, n);
    }
  }

  /** Crash, restart, drain: exactly the rows that were in flight at the crash
      remain neither ready nor failed, and are as the crash left them (the resume
      loop enqueues them, the worker skips them); every row that was queued at
      the crash ends ready or failed. No row appears or disappears. */
  lemma RestartDrainsAllButTheInterrupted(w: World, s: State, down: State, boot: Step, up: State,
                                          steps: seq<Step>, s': State)
    requires Reachable(w, s) && CanSystem(w, s, Crash) && down == System(w, s, Crash)
    requires boot.Boot? && CanSystem(w, down, boot) && up == System(w, down, boot) && !up.phase.Down?
    requires DrainRun(w, up, steps, s') && Halted(s')
    ensures s'.rows.Keys == s.rows.Keys
    ensures forall n :: n in s.rows ==> (!Terminal(s'.rows[n]) <==> s.rows[n].status.InFlight())
    ensures forall n :: n in s.rows && s.rows[n].status.InFlight() ==> SameButPort(s.rows[n], s'.rows[n])
  {
    ReachableIsSafe(w, s);
    AfterCrash(w, s);
    AfterBoot(w, down, boot);
    var frozen := InFlightNames(s.rows);
    DrainKeepsFrozen(w, up, steps, s', s.rows, frozen);
    HaltedLeavesTheFrozen(s', s.rows, frozen);
  }

  // ----- a warm that goes well

  /** The worker is warming `n`, and nothing has failed. */
  ghost predicate OnTrack(w: World, s: State, n: string) {
    && !s.phase.Down? && s.worker.HasJob() && s.worker.name == n
    && !s.worker.Aborting? && !s.worker.AbortingTemp? && !s.worker.AbortingRow?
    && w.Decoded(s.worker.job.url, s.worker.job.format).Some?
    && (s.worker.Pumping? ==> s.worker.good && s.worker.done <= |s.worker.plan|)
    && (s.worker.Pumped? ==> s.worker.job.Temp() in s.files)
    && (s.worker.Replaced? || s.worker.Returned? ==> s.worker.job.dest in s.files)
  }

  lemma GoodStep(w: World, s: State, n: string) returns (a: WorkerStep)
    requires OnTrack(w, s, n)
    ensures CanWork(w, s, a) && !a.MkdirFails?
    ensures var t := Work(w, s, a);
            if s.worker.Returned? then a.WriteReady? && t.worker == Published(n)
            else OnTrack(w, t, n) && t.worker.job == s.worker.job
  {
    match s.worker
    case Picked(_, _) => a := WriteFetching;
    case Started(_, _) => a := ClearTemp;
    case Cleared(_, _) => a := WriteDecompressing;
    case Launching(_, job) => a := Launch(w.Decoded(job.url, job.format).value, true);
    case Pumping(_, _, plan, _, done, _) => a := if done < |plan| then Pump(|plan| - done) else Exit;
    case Pumped(_, _) => a := Replace;
    case Replaced(_, _, _) => a := ReportSize;
    case Returned(_, _, _) => a := WriteReady;
  }

  lemma GoodStepKeepsInvariants(w: World, s: State, a: WorkerStep)
    requires CleanWorld(w) && PhaseInv(s) && BytesInv(w, s) && CanWork(w, s, a)
    ensures Enabled(w, s, W(a)) && Next(w, s, W(a)) == Work(w, s, a)
    ensures PhaseInv(Work(w, s, a)) && BytesInv(w, Work(w, s, a)) && Left(Work(w, s, a)).Below(Left(s))
  {
    WorkMakesProgress(w, s, a);
    NextKeepsPhase(w, s, W(a));
    WorkKeepsBytes(w, s, a);
  }

  /** What a warm leaves alone: everything but its row's status and its files. */
  ghost predicate WarmFrame(s: State, t: State, n: string) {
    && t.queue == s.queue && t.handlers == s.handlers && t.phase == s.phase && t.sup == s.sup
    && t.log.born == s.log.born && t.log.served == s.log.served && t.log.restarts == s.log.restarts
    && t.rows.Keys == s.rows.Keys
    && (forall m :: m in s.rows ==> SameRegistration(s.rows[m], t.rows[m]))
    && forall m :: m in s.rows && m != n ==> SameButPort(s.rows[m], t.rows[m])
  }

  lemma WorkHasWarmFrame(w: World, s: State, a: WorkerStep)
    requires CanWork(w, s, a) && s.worker.HasJob()
    ensures WarmFrame(s, Work(w, s, a), s.worker.name)
  {
    WorkHasFrame(w, s, a);
    WorkRows(w, s, a);
    WorkKeepsSources(w, s, a);
    JobStepKeepsMaps(w, s, a);
  }

  lemma JobStepKeepsMaps(w: World, s: State, a: WorkerStep)
    requires CanWork(w, s, a) && s.worker.HasJob()
    ensures var t := Work(w, s, a);
            t.sup == s.sup && t.log.served == s.log.served
  {
  }

  /** The image of the job is at its destination. */
  ghost predicate ImageInPlace(w: World, files: Files, job: Job) {
    job.dest in files && w.Decoded(job.url, job.format) == Some(files[job.dest])
  }

  /** The last step of a warm that goes well. */
  lemma GoodEnd(w: World, s: State, n: string)
    requires BytesInv(w, s) && OnTrack(w, s, n) && s.worker.Returned?
    ensures var t := Work(w, s, WriteReady);
            && ImageInPlace(w, t.files, s.worker.job)
            && (n in s.rows ==>
                  n in t.rows && t.rows[n].status.Ready? && t.rows[n].bytesDone == |t.files[s.worker.job.dest]|)
            && (SameGeneration(s, n, s.worker.job) ==> n in t.log.warmed && Right(w, t, n))
  {
    if n in s.rows {
      ReadyWriteIsFaithful(w, s);
      WorkHistory(w, s, WriteReady);
    }
  }

  /** From any point of a warm the good case is possible: the row becomes ready,
      the image of the job is in place, and if the row is still the one the worker
      picked up it is right. */
  lemma {:induction false} GoodWarmSucceeds(w: World, s: State, n: string) returns (steps: seq<Step>, s': State)
    requires CleanWorld(w) && PhaseInv(s) && BytesInv(w, s) && OnTrack(w, s, n)
    ensures Run(w, s, steps, s') && s'.worker == Published(n) && WarmFrame(s, s', n)
    ensures ImageInPlace(w, s'.files, s.worker.job)
    ensures n in s.rows ==> s'.rows[n].status.Ready? && s'.rows[n].bytesDone == |s'.files[s.worker.job.dest]|
    ensures SameGeneration(s, n, s.worker.job) ==> n in s'.log.warmed && Right(w, s', n)
    decreases Left(s).resume, Left(s).queue, Left(s).stage, Left(s).bytes, Left(s).tick
  {
    var a := GoodStep(w, s, n);
    GoodStepKeepsInvariants(w, s, a);
    WorkHasWarmFrame(w, s, a);
    var t := Work(w, s, a);
    if s.worker.Returned? {
      steps, s' := [W(a)], t;
      assert [W(a)][1..] == [];
      GoodEnd(w, s, n);
    } else {
      var rest;
      rest, s' := GoodWarmSucceeds(w, t, n);
      steps := [W(a)] + rest;
      assert steps[1..] == rest;
      WarmFrameComposes(s, t, s', n);
    }
  }

  lemma WarmFrameComposes(s: State, t: State, u: State, n: string)
    requires WarmFrame(s, t, n) && WarmFrame(t, u, n)
    ensures WarmFrame(s, u, n)
  {
    forall m | m in s.rows
      ensures SameRegistration(s.rows[m], u.rows[m])
      ensures m != n ==> SameButPort(s.rows[m], u.rows[m])
    {
      assert SameRegistration(s.rows[m], t.rows[m]) && SameRegistration(t.rows[m], u.rows[m]);
      assert m != n ==> SameButPort(s.rows[m], t.rows[m]) && SameButPort(t.rows[m], u.rows[m]);
    }
  }
}
