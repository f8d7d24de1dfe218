/**
 What an older warm leaves behind when it is written onto a newer row of the
 name, and a warm that is dropped.
 */
module WarmOverlap {
  import opened Wrappers
  import opened ExportStore
  import opened Supervision
  import opened WarmSystem
  import opened WarmFrames
  import opened WarmGenerations
  import opened WarmSafety
  import opened WarmServing
  import opened WarmBytes
  import opened WarmRegistration

  // ----- a ready write on a newer row

  /** Whoever keeps an image from being warmed anew: it stays or goes away. */
  lemma ImageStaysOrGoes(w: World, s: State, step: Step, n: string)
    requires CleanWorld(w) && ShapeInv(w, s) && Enabled(w, s, step) && n in w.names
    requires step.W? && s.worker.HasJob() ==> s.worker.name != n
    ensures var t, image := Next(w, s, step), w.Image(n);
            image in t.files ==> image in s.files && t.files[image] == s.files[image]
  {
    if step.H? {
      HandleFiles(w, s, step.h, step.act);
    } else if step.W? {
      WorkFiles(w, s, step.work);
      if s.worker.HasJob() {
        ImageIsInjective(w, n, s.worker.name);
      }
    }
  }

  lemma {:induction false} ImageOfALeftAloneRow(w: World, s: State, steps: seq<Step>, s': State, n: string)
    requires CleanWorld(w) && PhaseInv(s) && BytesInv(w, s) && n in w.names
    requires Run(w, s, steps, s') && SameBirth(s, s', n) && Settling(s, n)
    ensures w.Image(n) in s'.files ==> w.Image(n) in s.files && s'.files[w.Image(n)] == s.files[w.Image(n)]
    decreases |steps|
  {
    if steps != [] {
      var t := Next(w, s, steps[0]);
      FirstStepKeepsBirth(w, s, steps, s', n);
      NextKeepsPhase(w, s, steps[0]);
      NextKeepsBytes(w, s, steps[0]);
      ImageStaysOrGoes(w, s, steps[0], n);
      assert Run(w, s, [steps[0]], t) by {
        assert [steps[0]][1..] == [];
      }
      ReadyRowIsNeverFetched(w, s, [steps[0]], t, n);
      ImageOfALeftAloneRow(w, t, steps[1..], s', n);
    }
  }

  lemma AfterAShadowingWarm(w: World, s: State)
    requires CanWork(w, s, WriteReady) && s.worker.name in s.rows
    ensures var t, n := Work(w, s, WriteReady), s.worker.name;
            Settling(t, n) && t.rows[n].status.Ready? && SameRegistration(s.rows[n], t.rows[n])
            && t.rows[n].bytesDone == s.worker.size
  {
  }

  /** A registration that arrives while an older warm of the name is in flight, if
      that warm succeeds: its ready write lands on the new row. From then on, in
      every run within the generation, the row is ready with its own source and
      the old size in `bytes_done`, and the worker never fetches it. */
  lemma SuccessfulWarmShadowsANewRegistration(w: World, s: State, t: State, steps: seq<Step>, s': State)
    requires Reachable(w, s) && Enabled(w, s, W(WriteReady)) && t == Next(w, s, W(WriteReady))
    requires s.worker.name in s.rows && Run(w, t, steps, s') && SameBirth(t, s', s.worker.name)
    ensures var n := s.worker.name;
            && n in s'.rows && s'.rows[n].status.Ready? && SameRegistration(s.rows[n], s'.rows[n])
            && s'.rows[n].bytesDone == s.worker.size && !BusyWith(s'.worker, n)
    ensures !PickedIn(w, t, steps, s.worker.name)
  {
    ReachableHasLogShape(w, s);
    NextKeepsLogShape(w, s, W(WriteReady));
    AfterAShadowingWarm(w, s);
    ReadyRowIsNeverFetched(w, t, steps, s', s.worker.name);
    LostIsNeverPicked(w, t, steps, s', s.worker.name);
  }

  lemma ImageOfTheReturnedJob(w: World, s: State)
    requires BytesInv(w, s) && CanWork(w, s, WriteReady)
    ensures var t, job := Work(w, s, WriteReady), s.worker.job;
            var image := w.Decoded(job.url, job.format);
            && s.worker.name in w.names && job.dest == w.Image(s.worker.name)
            && image.Some? && |image.value| == s.worker.size
            && (job.dest in t.files ==> t.files[job.dest] == image.value)
  {
  }

  /** And all that time the file, as long as it is there, is the complete image of
      the source of the warm that wrote it. */
  lemma ShadowedRowHasTheOldImage(w: World, s: State, t: State, steps: seq<Step>, s': State)
    requires CleanWorld(w) && Reachable(w, s) && Enabled(w, s, W(WriteReady)) && t == Next(w, s, W(WriteReady))
    requires s.worker.name in s.rows && Run(w, t, steps, s') && SameBirth(t, s', s.worker.name)
    ensures var job := s.worker.job;
            var image := w.Decoded(job.url, job.format);
            && image.Some? && |image.value| == s.worker.size
            && (job.dest in s'.files ==> s'.files[job.dest] == image.value)
  {
    ReachableHasBytes(w, s);
    NextKeepsPhase(w, s, W(WriteReady));
    NextKeepsBytes(w, s, W(WriteReady));
    AfterAShadowingWarm(w, s);
    ImageOfTheReturnedJob(w, s);
    ImageOfALeftAloneRow(w, t, steps, s', s.worker.name);
  }

  // ----- a file registered over a warm

  /** The row is ready in every state of the run. */
  ghost predicate StaysReady(w: World, s: State, steps: seq<Step>, n: string)
    decreases |steps|
  {
    && n in s.rows && s.rows[n].status.Ready?
    && (steps != [] && Enabled(w, s, steps[0]) ==> StaysReady(w, Next(w, s, steps[0]), steps[1..], n))
  }

  /** The business with `n` that is under way writes another status than ready. */
  ghost predicate WritesOver(w: World, s: State, steps: seq<Step>, n: string)
    decreases |steps|
  {
    && BusyWith(s.worker, n) && steps != [] && Enabled(w, s, steps[0])
    && ((steps[0].W? && WritesOtherStatus(steps[0].work)) || WritesOver(w, Next(w, s, steps[0]), steps[1..], n))
  }

  /** The status of a ready row after one step. */
  lemma ReadyRowStep(w: World, s: State, step: Step, n: string)
    requires LogShape(s) && Enabled(w, s, step) && SameBirth(s, Next(w, s, step), n)
    requires n in s.rows && s.rows[n].status.Ready?
    ensures var t := Next(w, s, step);
            && n in t.rows
            && (t.rows[n].status.Ready? <==> !(BusyWith(s.worker, n) && step.W? && WritesOtherStatus(step.work)))
            && (!BusyWith(s.worker, n) ==> !BusyWith(t.worker, n))
  {
    RowWithinBirth(w, s, step, n);
    if step.W? {
      if BusyWith(s.worker, n) {
        WorkerStatusWrite(w, s, step.work);
      } else {
        WorkSkips(w, s, step.work, n);
      }
    } else {
      OthersLeaveTheWorker(w, s, step);
    }
  }

  lemma {:induction false} ReadyRowStaysReadyIff(w: World, s: State, steps: seq<Step>, s': State, n: string)
    requires LogShape(s) && Run(w, s, steps, s') && SameBirth(s, s', n) && n in s.rows && s.rows[n].status.Ready?
    ensures StaysReady(w, s, steps, n) <==> !WritesOver(w, s, steps, n)
    decreases |steps|
  {
    if steps != [] {
      var t := Next(w, s, steps[0]);
      FirstStepKeepsBirth(w, s, steps, s', n);
      ReadyRowStep(w, s, steps[0], n);
      if t.rows[n].status.Ready? {
        ReadyRowStaysReadyIff(w, t, steps[1..], s', n);
      }
    }
  }

  /** A file that is registered is ready at once, and stays so over every run within
      its generation if and only if no warm of the name was in flight at the
      registration that goes on to write a status other than ready. */
  lemma FileRowStaysReadyIff(w: World, s: State, h: nat, a: HandlerStep, t: State, steps: seq<Step>, s': State)
    requires Reachable(w, s) && a.RegisterFile? && CanHandle(w, s, h, a) && t == Handle(w, s, h, a)
    requires Run(w, t, steps, s') && SameBirth(t, s', a.name)
    ensures StaysReady(w, t, steps, a.name) <==> !(BusyWith(s.worker, a.name) && WritesOver(w, t, steps, a.name))
  {
    ReachableHasLogShape(w, s);
    HandleKeepsLogShape(w, s, h, a);
    HandleHasFrame(w, s, h, a);
    ReadyRowStaysReadyIff(w, t, steps, s', a.name);
  }

  // ----- a warm that is dropped

  /** Queued, and nobody is going to look at it. */
  ghost predicate Dropped(s: State, n: string) {
    && s.phase.Serving? && n in s.rows && s.rows[n].status.Queued?
    && !InSight(s, n) && !BusyWith(s.worker, n)
  }

  lemma WorkLeavesTheDropped(w: World, s: State, a: WorkerStep, n: string)
    requires CanWork(w, s, a) && Dropped(s, n)
    ensures Dropped(Work(w, s, a), n) && SameButPort(s.rows[n], Work(w, s, a).rows[n])
  {
    var t := Work(w, s, a);
    WorkHasFrame(w, s, a);
    OtherJobs(w, s, a, n);
    if a.Pop? {
      assert s.queue == [s.queue[0]] + s.queue[1..];
    }
  }

  lemma OthersLeaveTheDropped(w: World, s: State, step: Step, n: string)
    requires LogShape(s) && Enabled(w, s, step) && SameBirth(s, Next(w, s, step), n)
    requires !step.W? && !step.Crash? && Dropped(s, n)
    ensures Dropped(Next(w, s, step), n) && SameButPort(s.rows[n], Next(w, s, step).rows[n])
  {
    var t := Next(w, s, step);
    RowWithinBirth(w, s, step, n);
    OthersLeaveTheWorker(w, s, step);
    if step.H? {
      HandleHasFrame(w, s, step.h, step.act);
      if WritesRow(step.act) {
        SubjectGetsANewBirth(w, s, step.h, step.act);
      }
      if step.act.Enqueue? {
        assert s.handlers[step.h] != Enqueueing(n);
      }
      if g :| g in t.handlers && t.handlers[g] == Enqueueing(n) {
        NewEnqueueingIsARegistration(w, s, step.h, step.act, g, n);
      }
    }
  }

  lemma {:induction false} DroppedStaysDropped(w: World, s: State, steps: seq<Step>, s': State, n: string)
    requires LogShape(s) && Run(w, s, steps, s') && SameBirth(s, s', n) && Crash !in steps && Dropped(s, n)
    ensures Dropped(s', n) && SameButPort(s.rows[n], s'.rows[n])
    decreases |steps|
  {
    if steps != [] {
      var t := Next(w, s, steps[0]);
      FirstStepKeepsBirth(w, s, steps, s', n);
      if steps[0].W? {
        WorkLeavesTheDropped(w, s, steps[0].work, n);
      } else {
        OthersLeaveTheDropped(w, s, steps[0], n);
      }
      DroppedStaysDropped(w, t, steps[1..], s', n);
      assert SameButPort(s.rows[n], t.rows[n]) && SameButPort(t.rows[n], s'.rows[n]);
    }
  }

  /** A failure to make the images directory loses the warm until the next start:
      if the name has not been registered anew by then, in every run without a
      crash, a registration or a deletion of the name, the row stays queued and the
      worker never takes it up. */
  lemma MkdirFailureLosesTheWarm(w: World, s: State, steps: seq<Step>, s': State)
    requires Reachable(w, s) && s.phase.Serving? && Enabled(w, s, W(MkdirFails))
    requires s.worker.name in s.rows && s.rows[s.worker.name].status.Queued?
    requires s.worker.name !in s.queue && forall h :: h in s.handlers ==> s.handlers[h] != Enqueueing(s.worker.name)
    requires var t := Next(w, s, W(MkdirFails));
             Run(w, t, steps, s') && SameBirth(t, s', s.worker.name) && Crash !in steps
    ensures var n := s.worker.name;
            n in s'.rows && s'.rows[n].status.Queued? && !InSight(s', n) && !BusyWith(s'.worker, n)
  {
    ReachableHasLogShape(w, s);
    NextKeepsLogShape(w, s, W(MkdirFails));
    MkdirFailureDropsTheWarm(w, s);
    DroppedStaysDropped(w, Next(w, s, W(MkdirFails)), steps, s', s.worker.name);
  }
}
