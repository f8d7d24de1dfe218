/**
 The generations of a row: each registration starts one, and it lasts until the
 name is registered or deleted again. What happens to a row within one
 generation, and which generation a warm belongs to.
 */
module WarmGenerations {
  import opened Wrappers
  import opened ExportStore
  import opened Supervision
  import opened WarmSystem
  import opened WarmFrames

  ghost predicate LogShape(s: State) {
    && s.log.born.Keys == s.rows.Keys
    && (forall n :: n in s.log.born ==> s.log.born[n] < s.log.clock)
    && s.log.warmed <= s.rows.Keys
    && (s.worker.HasJob() ==> s.worker.job.born < s.log.clock)
    && (s.worker.Doomed? ==> s.worker.born < s.log.clock)
  }

  lemma HandleKeepsLogShape(w: World, s: State, h: nat, a: HandlerStep)
    requires LogShape(s) && CanHandle(w, s, h, a)
    ensures LogShape(Handle(w, s, h, a)) && Handle(w, s, h, a).log.clock >= s.log.clock
  {
    HandleHasFrame(w, s, h, a);
  }

  lemma WorkKeepsLogShape(w: World, s: State, a: WorkerStep)
    requires LogShape(s) && CanWork(w, s, a)
    ensures LogShape(Work(w, s, a))
  {
    WorkRows(w, s, a);
    WorkHasFrame(w, s, a);
  }

  lemma SystemKeepsLogShape(w: World, s: State, step: Step)
    requires LogShape(s) && IsSystem(step) && CanSystem(w, s, step)
    ensures LogShape(System(w, s, step)) && System(w, s, step).log.clock == s.log.clock
  {
  }

  lemma NextKeepsLogShape(w: World, s: State, step: Step)
    requires LogShape(s) && Enabled(w, s, step)
    ensures LogShape(Next(w, s, step)) && Next(w, s, step).log.clock >= s.log.clock
  {
    if step.H? {
      HandleKeepsLogShape(w, s, step.h, step.act);
    } else if step.W? {
      WorkKeepsLogShape(w, s, step.work);
      WorkHasFrame(w, s, step.work);
    } else {
      SystemKeepsLogShape(w, s, step);
    }
  }

  lemma {:induction false} RunKeepsLogShape(w: World, s: State, steps: seq<Step>, s': State)
    requires LogShape(s) && Run(w, s, steps, s')
    ensures LogShape(s')
    decreases |steps|
  {
    if steps != [] {
      NextKeepsLogShape(w, s, steps[0]);
      RunKeepsLogShape(w, Next(w, s, steps[0]), steps[1..], s');
    }
  }

  lemma ReachableHasLogShape(w: World, s: State)
    requires Reachable(w, s)
    ensures LogShape(s)
  {
    var files: Files, steps :| Run(w, Init(files), steps, s);
    RunKeepsLogShape(w, Init(files), steps, s);
  }

  // ----- one generation

  /** The row of `n` in `t` is the one it was in `s`. */
  ghost predicate SameBirth(s: State, t: State, n: string) {
    n in s.log.born && n in t.log.born && t.log.born[n] == s.log.born[n]
  }

  lemma HandleBirth(w: World, s: State, h: nat, a: HandlerStep, n: string, g: nat)
    requires CanHandle(w, s, h, a) && g < s.log.clock && (n !in s.log.born || s.log.born[n] != g)
    ensures var t := Handle(w, s, h, a);
            g < t.log.clock && (n !in t.log.born || t.log.born[n] != g)
  {
  }

  /** A generation that ended does not come back. */
  lemma NextBirth(w: World, s: State, step: Step, n: string, g: nat)
    requires Enabled(w, s, step) && g < s.log.clock
    requires n !in s.log.born || s.log.born[n] != g
    ensures var t := Next(w, s, step);
            g < t.log.clock && (n !in t.log.born || t.log.born[n] != g)
  {
    if step.H? {
      HandleBirth(w, s, step.h, step.act, n, g);
    } else if step.W? {
      WorkHasFrame(w, s, step.work);
    }
  }

  lemma {:induction false} EndedGenerationStaysEnded(w: World, s: State, steps: seq<Step>, s': State, n: string, g: nat)
    requires Run(w, s, steps, s') && g < s.log.clock
    requires n !in s.log.born || s.log.born[n] != g
    ensures n !in s'.log.born || s'.log.born[n] != g
    decreases |steps|
  {
    if steps != [] {
      NextBirth(w, s, steps[0], n, g);
      EndedGenerationStaysEnded(w, Next(w, s, steps[0]), steps[1..], s', n, g);
    }
  }

  /** A run within one generation stays in it step by step. */
  lemma FirstStepKeepsBirth(w: World, s: State, steps: seq<Step>, s': State, n: string)
    requires LogShape(s) && steps != [] && Run(w, s, steps, s') && SameBirth(s, s', n)
    ensures var t := Next(w, s, steps[0]);
            LogShape(t) && SameBirth(s, t, n) && SameBirth(t, s', n)
  {
    var t := Next(w, s, steps[0]);
    NextKeepsLogShape(w, s, steps[0]);
    if !SameBirth(s, t, n) {
      EndedGenerationStaysEnded(w, t, steps[1..], s', n, s.log.born[n]);
    }
  }

  lemma SubjectGetsANewBirth(w: World, s: State, h: nat, a: HandlerStep)
    requires LogShape(s) && CanHandle(w, s, h, a) && WritesRow(a)
    ensures !SameBirth(s, Handle(w, s, h, a), Subject(s, h, a))
  {
  }

  /** Only the worker's step on a name ends or changes what a warm has written to
      its row; file, source and format last as long as the generation. */
  lemma RowWithinBirth(w: World, s: State, step: Step, n: string)
    requires LogShape(s) && Enabled(w, s, step) && SameBirth(s, Next(w, s, step), n)
    ensures var t := Next(w, s, step);
            && n in s.rows && n in t.rows && SameRegistration(s.rows[n], t.rows[n])
            && (!step.W? || s.worker.Idle? || s.worker.name != n ==> SameButPort(s.rows[n], t.rows[n]))
  {
    var t := Next(w, s, step);
    NextKeepsLogShape(w, s, step);
    if step.H? {
      if WritesRow(step.act) {
        SubjectGetsANewBirth(w, s, step.h, step.act);
      }
      HandleOtherRows(w, s, step.h, step.act, n);
    } else if step.W? {
      WorkRows(w, s, step.work);
      WorkKeepsSources(w, s, step.work);
      assert SameRegistration(s.rows[n], t.rows[n]);
    } else if step.Boot? {
      WritePortsIsPortsOnly(s.rows, SpawnAll(w.portBase, EMPTY, step.ready, step.host).writes);
      assert SameButPort(s.rows[n], t.rows[n]);
    }
  }

  // ----- the generation of a warm

  /** The worker has a job, or is about to fail a row it has nothing to fetch for. */
  predicate BusyWith(k: Worker, n: string) { (k.HasJob() || k.Doomed?) && k.name == n }

  /** It is busy with the row of `n` as it is now, not with an earlier one. */
  predicate OwnBusiness(s: State, n: string) {
    && BusyWith(s.worker, n) && n in s.rows && n in s.log.born
    && s.log.born[n] == if s.worker.Doomed? then s.worker.born else s.worker.job.born
  }

  /** The job in `s` goes on through the whole run. */
  ghost predicate KeepsJob(w: World, s: State, steps: seq<Step>)
    decreases |steps|
  {
    && s.worker.HasJob()
    && (steps != [] && Enabled(w, s, steps[0]) ==> KeepsJob(w, Next(w, s, steps[0]), steps[1..]))
  }

  lemma WorkKeepsTheJob(w: World, s: State, a: WorkerStep)
    requires CanWork(w, s, a) && Work(w, s, a).worker.HasJob() && !a.Pickup?
    ensures var t := Work(w, s, a);
            s.worker.HasJob() && t.worker.name == s.worker.name && t.worker.job == s.worker.job
  {
  }

  lemma PickupTakesTheRow(w: World, s: State, configured: bool)
    requires LogShape(s) && CanWork(w, s, Pickup(configured)) && Work(w, s, Pickup(configured)).worker.HasJob()
    ensures var t := Work(w, s, Pickup(configured));
            !s.worker.HasJob() && SameGeneration(t, t.worker.name, t.worker.job)
  {
  }

  /** While a job lasts it stays the same; a new one is taken from the row. */
  lemma JobAfterStep(w: World, s: State, step: Step)
    requires LogShape(s) && Enabled(w, s, step) && Next(w, s, step).worker.HasJob()
    ensures var t := Next(w, s, step);
            if s.worker.HasJob() then t.worker.name == s.worker.name && t.worker.job == s.worker.job
            else SameGeneration(t, t.worker.name, t.worker.job)
  {
    if step.H? {
      HandleHasFrame(w, s, step.h, step.act);
    } else if step.W? {
      if step.work.Pickup? {
        PickupTakesTheRow(w, s, step.work.configured);
      } else {
        WorkKeepsTheJob(w, s, step.work);
      }
    }
  }

  lemma {:induction false} JobGenerationAfterRun(w: World, s: State, steps: seq<Step>, s': State, n: string)
    requires LogShape(s) && Run(w, s, steps, s') && SameBirth(s, s', n)
    requires s'.worker.HasJob() && s'.worker.name == n
    ensures SameGeneration(s', n, s'.worker.job) <==>
              !KeepsJob(w, s, steps) || s.worker.job.born == s.log.born[n]
    ensures KeepsJob(w, s, steps) ==> s.worker.name == n && s'.worker.job == s.worker.job
    decreases |steps|
  {
    RunKeepsLogShape(w, s, steps, s');
    if steps != [] {
      var t := Next(w, s, steps[0]);
      FirstStepKeepsBirth(w, s, steps, s', n);
      JobGenerationAfterRun(w, t, steps[1..], s', n);
      if KeepsJob(w, t, steps[1..]) {
        JobAfterStep(w, s, steps[0]);
      }
    }
  }

  /** Which generation a warm of `n` belongs to, decided at the registration: in
      every run within the new generation, the job the worker has for `n` is the
      new registration's own if and only if it is not the one that was in flight
      for `n` when the row was registered and has been going on since. */
  lemma WarmIsOfItsGenerationIff(w: World, s: State, h: nat, a: HandlerStep, steps: seq<Step>, s': State)
    requires Reachable(w, s) && CanHandle(w, s, h, a) && (a.RegisterWarm? || a.RegisterFile?)
    requires var t := Handle(w, s, h, a);
             Run(w, t, steps, s') && SameBirth(t, s', a.name)
    requires s'.worker.HasJob() && s'.worker.name == a.name
    ensures SameGeneration(s', a.name, s'.worker.job) <==>
              !(s.worker.HasJob() && s.worker.name == a.name && KeepsJob(w, Handle(w, s, h, a), steps))
  {
    ReachableHasLogShape(w, s);
    HandleKeepsLogShape(w, s, h, a);
    HandleHasFrame(w, s, h, a);
    JobGenerationAfterRun(w, Handle(w, s, h, a), steps, s', a.name);
  }
}
