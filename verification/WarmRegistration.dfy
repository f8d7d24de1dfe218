/**
 What becomes of a registration for warming, over all runs, crashes and restarts
 included: exactly when the worker gets to it, also when it arrives while an
 older warm of the name is under way.
 */
module WarmRegistration {
  import opened Wrappers
  import opened ExportStore
  import opened Supervision
  import opened WarmSystem
  import opened WarmFrames
  import opened WarmGenerations
  import opened WarmSafety
  import opened WarmDrain

  lemma BusinessStartsWithAPickup(w: World, s: State, a: WorkerStep, n: string)
    requires CanWork(w, s, a) && !BusyWith(s.worker, n) && s.worker != Popped(n)
    ensures !BusyWith(Work(w, s, a).worker, n)
  {
  }

  /** A step about another name, or after the work on this one, leaves the row. */
  lemma OtherJobs(w: World, s: State, a: WorkerStep, n: string)
    requires CanWork(w, s, a) && n in s.rows && !BusyWith(s.worker, n) && s.worker != Popped(n)
    ensures !BusyWith(Work(w, s, a).worker, n)
    ensures n in Work(w, s, a).rows && SameButPort(s.rows[n], Work(w, s, a).rows[n])
  {
    BusinessStartsWithAPickup(w, s, a, n);
    WorkRows(w, s, a);
    if !s.worker.Idle? && s.worker.name == n {
      IdleBusiness(w, s, a);
    }
  }

  /** Before and after a job the worker writes no status. */
  lemma IdleBusiness(w: World, s: State, a: WorkerStep)
    requires CanWork(w, s, a) && !s.worker.HasJob() && !s.worker.Doomed?
    ensures PortsOnly(s.rows, Work(w, s, a).rows)
  {
  }

  // ----- a row that is left alone

  /** The row has a status the worker skips, and the worker is not busy with it. */
  predicate Settling(s: State, n: string) {
    n in s.rows && !Warmable(s.rows[n]) && !BusyWith(s.worker, n)
  }

  lemma WorkSkips(w: World, s: State, a: WorkerStep, n: string)
    requires CanWork(w, s, a) && Settling(s, n)
    ensures n in Work(w, s, a).rows && SameButPort(s.rows[n], Work(w, s, a).rows[n])
    ensures !BusyWith(Work(w, s, a).worker, n)
  {
    if s.worker != Popped(n) {
      OtherJobs(w, s, a, n);
    }
  }

  /** A row that is ready (or was interrupted by a crash), with the worker not busy
      with it, is never fetched: in every run within its generation, restarts
      included and however often the name is queued, the worker does not take it
      up and the row keeps everything but its port. */
  lemma {:induction false} ReadyRowIsNeverFetched(w: World, s: State, steps: seq<Step>, s': State, n: string)
    requires LogShape(s) && Run(w, s, steps, s') && SameBirth(s, s', n) && Settling(s, n)
    ensures Settling(s', n) && SameButPort(s.rows[n], s'.rows[n])
    decreases |steps|
  {
    if steps != [] {
      var t := Next(w, s, steps[0]);
      FirstStepKeepsBirth(w, s, steps, s', n);
      if steps[0].W? {
        WorkSkips(w, s, steps[0].work, n);
      } else {
        RowWithinBirth(w, s, steps[0], n);
        OthersLeaveTheWorker(w, s, steps[0]);
      }
      ReadyRowIsNeverFetched(w, t, steps[1..], s', n);
      assert SameButPort(s.rows[n], t.rows[n]) && SameButPort(t.rows[n], s'.rows[n]);
    }
  }

  lemma OthersLeaveTheWorker(w: World, s: State, step: Step)
    requires Enabled(w, s, step) && !step.W?
    ensures Next(w, s, step).worker == s.worker || Next(w, s, step).worker == Idle
  {
    if step.H? {
      HandleHasFrame(w, s, step.h, step.act);
    }
  }

  // ----- the pickup

  ghost predicate AboutToEnqueue(s: State, n: string) {
    exists h :: h in s.handlers && s.handlers[h] == Enqueueing(n)
  }

  lemma NewEnqueueingIsARegistration(w: World, s: State, h: nat, a: HandlerStep, g: nat, n: string)
    requires CanHandle(w, s, h, a)
    requires g in Handle(w, s, h, a).handlers && Handle(w, s, h, a).handlers[g] == Enqueueing(n)
    ensures (g in s.handlers && s.handlers[g] == Enqueueing(n)) || (a.RegisterWarm? && a.name == n)
  {
  }

  /** The worker has just picked up the row as it is now, or refuses this very row
      because no cache is configured. */
  predicate PickedNow(s: State, n: string) {
    && OwnBusiness(s, n)
    && match s.worker
       case Picked(_, job) => s.rows[n].srcUrl == Some(job.url) && s.rows[n].file == job.dest
       case Doomed(_, reason, _) => reason == NO_WITHCACHE
       case _ => false
  }

  /** Somewhere in the run the row is picked up. */
  ghost predicate PickedIn(w: World, s: State, steps: seq<Step>, n: string)
    decreases |steps|
  {
    PickedNow(s, n) || (steps != [] && Enabled(w, s, steps[0]) && PickedIn(w, Next(w, s, steps[0]), steps[1..], n))
  }

  /** The steps that lose a registration: a warm of the name is written ready, or a
      crash finds the row in another status than queued. */
  predicate Loses(s: State, step: Step, n: string) {
    || (step == W(WriteReady) && !s.worker.Idle? && s.worker.name == n)
    || (step == Crash && n in s.rows && !s.rows[n].status.Queued?)
  }

  /** Such a step comes before the row is picked up. */
  ghost predicate LostIn(w: World, s: State, steps: seq<Step>, n: string)
    decreases |steps|
  {
    && !PickedNow(s, n) && steps != [] && Enabled(w, s, steps[0])
    && (Loses(s, steps[0], n) || LostIn(w, Next(w, s, steps[0]), steps[1..], n))
  }

  // ----- on its way

  /** The row has still to be picked up: it can be, or the worker is busy with an
      earlier row of the name, which has not written a final status yet. */
  predicate Unserved(s: State, n: string) {
    && n in s.rows && HasSource(s.rows[n])
    && if BusyWith(s.worker, n) then
         && !OwnBusiness(s, n) && (s.rows[n].status.Queued? || s.rows[n].status.InFlight())
         && (s.worker.Picked? || s.worker.Doomed? ==> s.rows[n].status.Queued?)
       else Warmable(s.rows[n])
  }

  /** It has its place: in the queue, popped, or, if it is queued, in what a
      restart is going to enqueue. */
  predicate Placed(s: State, n: string) {
    || n in s.queue || s.worker == Popped(n)
    || (n in s.rows && s.rows[n].status.Queued? && !BusyWith(s.worker, n)
        && (s.phase.Down? || (s.phase.Resuming? && n in s.phase.rest)))
  }

  predicate InLine(s: State, n: string) { Unserved(s, n) && Placed(s, n) }

  ghost predicate OnItsWay(s: State, n: string) { Unserved(s, n) && (Placed(s, n) || AboutToEnqueue(s, n)) }

  lemma PickupTakesIt(w: World, s: State, a: WorkerStep, n: string)
    requires LogShape(s) && CanWork(w, s, a) && Unserved(s, n) && s.worker == Popped(n)
    ensures PickedNow(Work(w, s, a), n)
  {
  }

  lemma WorkKeepsThePlace(w: World, s: State, a: WorkerStep, n: string)
    requires CanWork(w, s, a) && s.worker != Popped(n)
    ensures n in s.queue ==> n in Work(w, s, a).queue || Work(w, s, a).worker == Popped(n)
    ensures AboutToEnqueue(Work(w, s, a), n) <==> AboutToEnqueue(s, n)
  {
    WorkHasFrame(w, s, a);
    if a.Pop? && n in s.queue {
      assert s.queue == [s.queue[0]] + s.queue[1..];
    }
  }

  lemma OtherWorkKeepsInLine(w: World, s: State, a: WorkerStep, n: string)
    requires CanWork(w, s, a) && Unserved(s, n) && !BusyWith(s.worker, n) && s.worker != Popped(n)
    ensures Unserved(Work(w, s, a), n) && (Placed(s, n) ==> Placed(Work(w, s, a), n))
  {
    WorkHasFrame(w, s, a);
    OtherJobs(w, s, a, n);
    WorkKeepsThePlace(w, s, a, n);
  }

  /** A step of the older job: it goes on, or ends without a ready write, and the
      row can be picked up. */
  lemma OldJobMovesOn(w: World, s: State, a: WorkerStep, n: string)
    requires LogShape(s) && CanWork(w, s, a) && Unserved(s, n) && BusyWith(s.worker, n) && !a.WriteReady?
    ensures Unserved(Work(w, s, a), n) && Work(w, s, a).queue == s.queue
  {
    OldJobsRow(w, s, a, n);
    OldJobsWorker(w, s, a, n);
    WorkHasFrame(w, s, a);
  }

  lemma OldJobsWorker(w: World, s: State, a: WorkerStep, n: string)
    requires CanWork(w, s, a) && BusyWith(s.worker, n)
    ensures var k := Work(w, s, a).worker;
            && (BusyWith(k, n) ==> k.HasJob() && s.worker.HasJob() && k.job == s.worker.job && !k.Picked?)
            && (k.HasJob() || k.Doomed? ==> BusyWith(k, n))
  {
  }

  lemma OldJobsRow(w: World, s: State, a: WorkerStep, n: string)
    requires CanWork(w, s, a) && BusyWith(s.worker, n) && n in s.rows && !a.WriteReady?
    ensures var t := Work(w, s, a);
            && n in t.rows && t.rows[n].srcUrl == s.rows[n].srcUrl
            && (if BusyWith(t.worker, n) then t.rows[n].status == s.rows[n].status || t.rows[n].status.InFlight()
                else t.rows[n].status.Failed? || (s.worker.Picked? && t.rows[n].status == s.rows[n].status))
  {
  }

  /** Whatever the worker does next. */
  lemma WorkerGetsToIt(w: World, s: State, a: WorkerStep, n: string)
    requires LogShape(s) && CanWork(w, s, a) && OnItsWay(s, n) && !Loses(s, W(a), n)
    ensures OnItsWay(Work(w, s, a), n) || PickedNow(Work(w, s, a), n)
    ensures InLine(s, n) ==> InLine(Work(w, s, a), n) || PickedNow(Work(w, s, a), n)
  {
    if s.worker == Popped(n) {
      PickupTakesIt(w, s, a, n);
    } else {
      WorkKeepsThePlace(w, s, a, n);
      if BusyWith(s.worker, n) {
        OldJobMovesOn(w, s, a, n);
      } else {
        OtherWorkKeepsInLine(w, s, a, n);
      }
    }
  }

  lemma HandlersKeepIt(w: World, s: State, h: nat, a: HandlerStep, n: string)
    requires LogShape(s) && CanHandle(w, s, h, a) && SameBirth(s, Handle(w, s, h, a), n) && OnItsWay(s, n)
    ensures OnItsWay(Handle(w, s, h, a), n) && (InLine(s, n) ==> InLine(Handle(w, s, h, a), n))
  {
    var t := Handle(w, s, h, a);
    assert Enabled(w, s, H(h, a)) && Next(w, s, H(h, a)) == t;
    RowWithinBirth(w, s, H(h, a), n);
    HandleHasFrame(w, s, h, a);
    if g :| g in s.handlers && s.handlers[g] == Enqueueing(n) {
      assert g == h || t.handlers[g] == Enqueueing(n);
    }
  }

  lemma SystemKeepsIt(w: World, s: State, step: Step, n: string)
    requires LogShape(s) && IsSystem(step) && CanSystem(w, s, step) && OnItsWay(s, n) && !Loses(s, step, n)
    ensures OnItsWay(System(w, s, step), n) && (InLine(s, n) ==> InLine(System(w, s, step), n))
  {
    var t := System(w, s, step);
    if step.Boot? {
      BootListsIt(w, s, step, n);
    } else if step.Resume? && s.phase.rest != [] {
      assert s.phase.rest == [s.phase.rest[0]] + s.phase.rest[1..];
    }
    if g :| g in s.handlers && s.handlers[g] == Enqueueing(n) {
      assert step.Crash? || t.handlers[g] == Enqueueing(n);
    }
  }

  lemma BootListsIt(w: World, s: State, boot: Step, n: string)
    requires boot.Boot? && CanSystem(w, s, boot) && n in s.rows
    ensures var t := System(w, s, boot);
            && n in t.rows && SameButPort(s.rows[n], t.rows[n])
            && t.queue == s.queue && t.worker == s.worker && t.handlers == s.handlers
            && (t.phase.Down? || (t.phase.Resuming? && (s.rows[n].status.Queued? ==> n in t.phase.rest)))
  {
    WritePortsIsPortsOnly(s.rows, SpawnAll(w.portBase, EMPTY, boot.ready, boot.host).writes);
    assert s.rows[n].status.Queued? ==> n in PendingNames(s.rows);
  }

  lemma StepKeepsIt(w: World, s: State, step: Step, n: string)
    requires LogShape(s) && Enabled(w, s, step) && SameBirth(s, Next(w, s, step), n)
    requires OnItsWay(s, n) && !Loses(s, step, n)
    ensures OnItsWay(Next(w, s, step), n) || PickedNow(Next(w, s, step), n)
    ensures InLine(s, n) ==> InLine(Next(w, s, step), n) || PickedNow(Next(w, s, step), n)
  {
    if step.H? {
      HandlersKeepIt(w, s, step.h, step.act, n);
    } else if step.W? {
      WorkerGetsToIt(w, s, step.work, n);
    } else {
      SystemKeepsIt(w, s, step, n);
    }
  }

  // ----- lost

  /** Failed, and out of everybody's sight, a restart included. */
  ghost predicate Abandoned(s: State, n: string) {
    && n in s.rows && s.rows[n].status.Failed? && !BusyWith(s.worker, n)
    && n !in s.queue && s.worker != Popped(n) && !AboutToEnqueue(s, n)
    && (s.phase.Resuming? ==> n !in s.phase.rest)
  }

  ghost predicate Lost(s: State, n: string) { Settling(s, n) || Abandoned(s, n) }

  lemma WorkLeavesTheLost(w: World, s: State, a: WorkerStep, n: string)
    requires CanWork(w, s, a) && Lost(s, n)
    ensures Lost(Work(w, s, a), n)
  {
    if Settling(s, n) {
      WorkSkips(w, s, a, n);
    } else {
      WorkHasFrame(w, s, a);
      OtherJobs(w, s, a, n);
      WorkKeepsThePlace(w, s, a, n);
    }
  }

  lemma HandlersLeaveTheLost(w: World, s: State, h: nat, a: HandlerStep, n: string)
    requires LogShape(s) && CanHandle(w, s, h, a) && SameBirth(s, Handle(w, s, h, a), n) && Lost(s, n)
    ensures Lost(Handle(w, s, h, a), n)
  {
    var t := Handle(w, s, h, a);
    assert Enabled(w, s, H(h, a)) && Next(w, s, H(h, a)) == t;
    RowWithinBirth(w, s, H(h, a), n);
    HandleHasFrame(w, s, h, a);
    if WritesRow(a) {
      SubjectGetsANewBirth(w, s, h, a);
    }
    if g :| g in t.handlers && t.handlers[g] == Enqueueing(n) {
      NewEnqueueingIsARegistration(w, s, h, a, g, n);
    }
  }

  lemma SystemLeavesTheLost(w: World, s: State, step: Step, n: string)
    requires IsSystem(step) && CanSystem(w, s, step) && Lost(s, n)
    ensures Lost(System(w, s, step), n)
  {
    if step.Boot? {
      BootListsIt(w, s, step, n);
      assert s.rows[n].status.Failed? ==> n !in PendingNames(s.rows);
    }
  }

  lemma {:induction false} LostIsNeverPicked(w: World, s: State, steps: seq<Step>, s': State, n: string)
    requires LogShape(s) && Run(w, s, steps, s') && SameBirth(s, s', n) && Lost(s, n)
    ensures !PickedIn(w, s, steps, n)
    decreases |steps|
  {
    if steps != [] {
      FirstStepKeepsBirth(w, s, steps, s', n);
      if steps[0].H? {
        HandlersLeaveTheLost(w, s, steps[0].h, steps[0].act, n);
      } else if steps[0].W? {
        WorkLeavesTheLost(w, s, steps[0].work, n);
      } else {
        SystemLeavesTheLost(w, s, steps[0], n);
      }
      LostIsNeverPicked(w, Next(w, s, steps[0]), steps[1..], s', n);
    }
  }

  lemma ALosingStepLoses(w: World, s: State, step: Step, n: string)
    requires Enabled(w, s, step) && Unserved(s, n) && Loses(s, step, n)
    ensures Lost(Next(w, s, step), n)
  {
  }

  // ----- fetched or lost

  /** While the row is on its way: over every run within the generation it is picked
      up, or lost, or still on its way; and never first lost and then picked up. */
  lemma {:induction false} PickedOrLost(w: World, s: State, steps: seq<Step>, s': State, n: string)
    requires LogShape(s) && Run(w, s, steps, s') && SameBirth(s, s', n) && OnItsWay(s, n)
    ensures PickedIn(w, s, steps, n) ==> !LostIn(w, s, steps, n)
    ensures PickedIn(w, s, steps, n) || LostIn(w, s, steps, n) || OnItsWay(s', n)
    ensures InLine(s, n) ==> PickedIn(w, s, steps, n) || LostIn(w, s, steps, n) || InLine(s', n)
    decreases |steps|
  {
    if steps != [] {
      var t := Next(w, s, steps[0]);
      FirstStepKeepsBirth(w, s, steps, s', n);
      if Loses(s, steps[0], n) {
        ALosingStepLoses(w, s, steps[0], n);
        LostIsNeverPicked(w, t, steps[1..], s', n);
      } else {
        StepKeepsIt(w, s, steps[0], n);
        if OnItsWay(t, n) {
          PickedOrLost(w, t, steps[1..], s', n);
        }
      }
    }
  }

  /** The registration is on its way at once. */
  lemma StartsOnItsWay(w: World, s: State, h: nat, a: HandlerStep)
    requires LogShape(s) && a.RegisterWarm? && CanHandle(w, s, h, a)
    ensures var t := Handle(w, s, h, a);
            LogShape(t) && OnItsWay(t, a.name) && t.rows[a.name].status.Queued? && t.worker == s.worker
  {
    var t := Handle(w, s, h, a);
    HandleKeepsLogShape(w, s, h, a);
    HandleHasFrame(w, s, h, a);
    assert t.handlers[h] == Enqueueing(a.name);
  }

  /** Exactly when a registration for warming is fetched, over every run within its
      generation, crashes and restarts included: at a halt with nobody about to
      enqueue the name, the worker has picked up this very row if and only if it
      was not lost before, that is, no older warm of the name was written ready and
      no crash found the row in another status than queued. Before that it is
      picked up, lost, or on its way. */
  lemma RegistrationIsFetchedIff(w: World, s: State, h: nat, a: HandlerStep, t: State, steps: seq<Step>, s': State)
    requires Reachable(w, s) && a.RegisterWarm? && CanHandle(w, s, h, a) && t == Handle(w, s, h, a)
    requires Run(w, t, steps, s') && SameBirth(t, s', a.name)
    ensures PickedIn(w, t, steps, a.name) ==> !LostIn(w, t, steps, a.name)
    ensures PickedIn(w, t, steps, a.name) || LostIn(w, t, steps, a.name) || OnItsWay(s', a.name)
    ensures Halted(s') && !AboutToEnqueue(s', a.name) ==>
              (PickedIn(w, t, steps, a.name) <==> !LostIn(w, t, steps, a.name))
  {
    ReachableHasLogShape(w, s);
    StartsOnItsWay(w, s, h, a);
    PickedOrLost(w, t, steps, s', a.name);
  }

  // ----- without an older warm in flight

  /** A crash comes before the row is picked up. */
  ghost predicate CrashBeforePickup(w: World, s: State, steps: seq<Step>, n: string)
    decreases |steps|
  {
    && !PickedNow(s, n) && steps != [] && Enabled(w, s, steps[0])
    && (steps[0] == Crash || CrashBeforePickup(w, Next(w, s, steps[0]), steps[1..], n))
  }

  /** With no older job the row keeps its status until it is picked up. */
  lemma FreeStep(w: World, s: State, step: Step, n: string)
    requires LogShape(s) && Enabled(w, s, step) && SameBirth(s, Next(w, s, step), n)
    requires OnItsWay(s, n) && !BusyWith(s.worker, n)
    ensures var t := Next(w, s, step);
            PickedNow(t, n) || (!BusyWith(t.worker, n) && n in t.rows && t.rows[n].status == s.rows[n].status)
    ensures Loses(s, step, n) <==> step == Crash && !s.rows[n].status.Queued?
  {
    if step.W? {
      if s.worker == Popped(n) {
        PickupTakesIt(w, s, step.work, n);
      } else {
        OtherJobs(w, s, step.work, n);
      }
    } else {
      RowWithinBirth(w, s, step, n);
      OthersLeaveTheWorker(w, s, step);
    }
  }

  lemma {:induction false} FreeIsLostIff(w: World, s: State, steps: seq<Step>, s': State, n: string)
    requires LogShape(s) && Run(w, s, steps, s') && SameBirth(s, s', n)
    requires OnItsWay(s, n) && !BusyWith(s.worker, n)
    ensures LostIn(w, s, steps, n) <==> !s.rows[n].status.Queued? && CrashBeforePickup(w, s, steps, n)
    decreases |steps|
  {
    if steps != [] {
      var t := Next(w, s, steps[0]);
      FirstStepKeepsBirth(w, s, steps, s', n);
      FreeStep(w, s, steps[0], n);
      if !Loses(s, steps[0], n) {
        StepKeepsIt(w, s, steps[0], n);
        if OnItsWay(t, n) {
          FreeIsLostIff(w, t, steps[1..], s', n);
        }
      }
    }
  }

  /** A registration that finds the worker not busy with the name is never lost: in
      every run within its generation, whatever crashes and restarts come, it is
      on its way until the worker picks it up. */
  lemma RegistrationIsFetched(w: World, s: State, h: nat, a: HandlerStep, t: State, steps: seq<Step>, s': State)
    requires Reachable(w, s) && a.RegisterWarm? && CanHandle(w, s, h, a) && t == Handle(w, s, h, a)
    requires !BusyWith(s.worker, a.name) && Run(w, t, steps, s') && SameBirth(t, s', a.name)
    ensures PickedIn(w, t, steps, a.name) || OnItsWay(s', a.name)
    ensures Halted(s') && !AboutToEnqueue(s', a.name) ==> PickedIn(w, t, steps, a.name)
  {
    ReachableHasLogShape(w, s);
    StartsOnItsWay(w, s, h, a);
    FreeIsLostIff(w, t, steps, s', a.name);
    PickedOrLost(w, t, steps, s', a.name);
  }

  // ----- with an older warm in flight

  /** The run carries the job it starts with to its ready write. */
  ghost predicate CarriesToReady(w: World, s: State, steps: seq<Step>)
    decreases |steps|
  {
    && s.worker.HasJob() && steps != [] && Enabled(w, s, steps[0])
    && (steps[0] == W(WriteReady) || CarriesToReady(w, Next(w, s, steps[0]), steps[1..]))
  }

  /** The older business goes on or ends, and the row stays on its way. */
  lemma BusyStep(w: World, s: State, step: Step, n: string)
    requires LogShape(s) && Enabled(w, s, step) && SameBirth(s, Next(w, s, step), n)
    requires !step.Crash? && step != W(WriteReady) && OnItsWay(s, n) && BusyWith(s.worker, n)
    ensures var t := Next(w, s, step);
            && !Loses(s, step, n) && OnItsWay(t, n) && !PickedNow(t, n)
            && (t.worker.HasJob() ==> s.worker.HasJob() && BusyWith(t.worker, n))
  {
    StepKeepsIt(w, s, step, n);
    if step.W? {
      OldJobsWorker(w, s, step.work, n);
    } else {
      OthersLeaveTheWorker(w, s, step);
    }
  }

  lemma NoCrashLater(w: World, s: State, steps: seq<Step>, n: string)
    requires Crash !in steps
    ensures !CrashBeforePickup(w, s, steps, n)
    decreases |steps|
  {
  }

  lemma FreeIsNotLost(w: World, s: State, steps: seq<Step>, s': State, n: string)
    requires LogShape(s) && Run(w, s, steps, s') && SameBirth(s, s', n) && Crash !in steps
    requires OnItsWay(s, n) && !BusyWith(s.worker, n)
    ensures !LostIn(w, s, steps, n)
  {
    NoCrashLater(w, s, steps, n);
    FreeIsLostIff(w, s, steps, s', n);
  }

  lemma {:induction false} BusyIsLostIff(w: World, s: State, steps: seq<Step>, s': State, n: string)
    requires LogShape(s) && Run(w, s, steps, s') && SameBirth(s, s', n) && Crash !in steps
    requires OnItsWay(s, n) && BusyWith(s.worker, n)
    ensures LostIn(w, s, steps, n) <==> CarriesToReady(w, s, steps)
    decreases |steps|
  {
    if steps != [] && steps[0] != W(WriteReady) {
      var t := Next(w, s, steps[0]);
      FirstStepKeepsBirth(w, s, steps, s', n);
      BusyStep(w, s, steps[0], n);
      if BusyWith(t.worker, n) {
        BusyIsLostIff(w, t, steps[1..], s', n);
      } else {
        FreeIsNotLost(w, t, steps[1..], s', n);
      }
    }
  }

  /** Without a crash, decided by the warm in flight at the registration: at a halt
      the new row has been picked up if and only if no job of the name was in
      flight then that the run carries to its ready write. */
  lemma FetchedIffTheOlderWarmIsNotReady(w: World, s: State, h: nat, a: HandlerStep, t: State, steps: seq<Step>,
                                         s': State)
    requires Reachable(w, s) && a.RegisterWarm? && CanHandle(w, s, h, a) && t == Handle(w, s, h, a)
    requires Run(w, t, steps, s') && SameBirth(t, s', a.name) && Crash !in steps
    requires Halted(s') && !AboutToEnqueue(s', a.name)
    ensures PickedIn(w, t, steps, a.name) <==>
              !(s.worker.HasJob() && s.worker.name == a.name && CarriesToReady(w, t, steps))
  {
    ReachableHasLogShape(w, s);
    StartsOnItsWay(w, s, h, a);
    PickedOrLost(w, t, steps, s', a.name);
    if BusyWith(s.worker, a.name) {
      BusyIsLostIff(w, t, steps, s', a.name);
    } else {
      FreeIsLostIff(w, t, steps, s', a.name);
    }
  }

  // ----- after the older warm has failed

  /** If the worker is busy with an earlier row of a name, the new one waits. */
  ghost predicate NewRowWaits(s: State, n: string) {
    n in s.rows && HasSource(s.rows[n]) && BusyWith(s.worker, n) && !OwnBusiness(s, n) ==>
      n in s.queue || AboutToEnqueue(s, n)
  }

  lemma WorkKeepsNewRowWaiting(w: World, s: State, a: WorkerStep, n: string)
    requires LogShape(s) && CanWork(w, s, a) && NewRowWaits(s, n)
    ensures NewRowWaits(Work(w, s, a), n)
  {
    var t := Work(w, s, a);
    WorkHasFrame(w, s, a);
    WorkKeepsSources(w, s, a);
    if BusyWith(t.worker, n) {
      if s.worker == Popped(n) {
        PickupIsOwnBusiness(w, s, a, n);
      } else {
        BusinessGoesOn(w, s, a, n);
        WorkKeepsThePlace(w, s, a, n);
        assert n in t.rows ==> SameRegistration(s.rows[n], t.rows[n]);
      }
    }
  }

  lemma PickupIsOwnBusiness(w: World, s: State, a: WorkerStep, n: string)
    requires LogShape(s) && CanWork(w, s, a) && s.worker == Popped(n) && BusyWith(Work(w, s, a).worker, n)
    ensures OwnBusiness(Work(w, s, a), n)
  {
  }

  lemma BusinessGoesOn(w: World, s: State, a: WorkerStep, n: string)
    requires CanWork(w, s, a) && s.worker != Popped(n) && BusyWith(Work(w, s, a).worker, n)
    ensures BusyWith(s.worker, n) && s.worker.HasJob() && Work(w, s, a).worker.HasJob()
    ensures Work(w, s, a).worker.job == s.worker.job && !a.Pop?
  {
  }

  lemma HandlersKeepNewRowWaiting(w: World, s: State, h: nat, a: HandlerStep, n: string)
    requires LogShape(s) && CanHandle(w, s, h, a) && NewRowWaits(s, n)
    ensures NewRowWaits(Handle(w, s, h, a), n)
  {
    var t := Handle(w, s, h, a);
    HandleHasFrame(w, s, h, a);
    if a.RegisterWarm? && a.name == n {
      assert t.handlers[h] == Enqueueing(n);
    } else {
      HandleOtherRowsGeneration(w, s, h, a, n);
      if g :| g in s.handlers && s.handlers[g] == Enqueueing(n) {
        assert g == h || t.handlers[g] == Enqueueing(n);
      }
    }
  }

  /** Only a registration for warming makes a row with a source, or a new
      generation of one. */
  lemma HandleOtherRowsGeneration(w: World, s: State, h: nat, a: HandlerStep, n: string)
    requires LogShape(s) && CanHandle(w, s, h, a) && !(a.RegisterWarm? && a.name == n)
    ensures var t := Handle(w, s, h, a);
            n in t.rows && HasSource(t.rows[n]) ==>
              && n in s.rows && HasSource(s.rows[n])
              && n in s.log.born && n in t.log.born && t.log.born[n] == s.log.born[n]
  {
    HandleKeepsLogShape(w, s, h, a);
    if !WritesRow(a) || n != Subject(s, h, a) {
      HandleOtherRows(w, s, h, a, n);
    }
  }

  lemma SystemKeepsNewRowWaiting(w: World, s: State, step: Step, n: string)
    requires IsSystem(step) && CanSystem(w, s, step) && NewRowWaits(s, n)
    ensures NewRowWaits(System(w, s, step), n)
  {
    if step.Boot? && n in s.rows {
      BootListsIt(w, s, step, n);
    }
    if g :| g in s.handlers && s.handlers[g] == Enqueueing(n) {
      assert step.Crash? || System(w, s, step).handlers[g] == Enqueueing(n);
    }
  }

  lemma {:induction false} RunKeepsNewRowWaiting(w: World, s: State, steps: seq<Step>, s': State, n: string)
    requires LogShape(s) && Run(w, s, steps, s') && NewRowWaits(s, n)
    ensures NewRowWaits(s', n)
    decreases |steps|
  {
    if steps != [] {
      NextKeepsLogShape(w, s, steps[0]);
      if steps[0].H? {
        HandlersKeepNewRowWaiting(w, s, steps[0].h, steps[0].act, n);
      } else if steps[0].W? {
        WorkKeepsNewRowWaiting(w, s, steps[0].work, n);
      } else {
        SystemKeepsNewRowWaiting(w, s, steps[0], n);
      }
      RunKeepsNewRowWaiting(w, Next(w, s, steps[0]), steps[1..], s', n);
    }
  }

  lemma ReachableNewRowWaits(w: World, s: State, n: string)
    requires Reachable(w, s)
    ensures NewRowWaits(s, n)
  {
    var files: Files, steps :| Run(w, Init(files), steps, s);
    RunKeepsNewRowWaiting(w, Init(files), steps, s, n);
  }

  lemma FailedIsPickedUpIff(w: World, s: State, steps: seq<Step>, s': State, n: string)
    requires LogShape(s) && Run(w, s, steps, s') && SameBirth(s, s', n)
    requires OnItsWay(s, n) && !BusyWith(s.worker, n) && s.rows[n].status.Failed?
    ensures PickedIn(w, s, steps, n) ==> !CrashBeforePickup(w, s, steps, n)
    ensures Halted(s') && (InLine(s, n) || !AboutToEnqueue(s', n)) ==>
              (PickedIn(w, s, steps, n) <==> !CrashBeforePickup(w, s, steps, n))
  {
    FreeIsLostIff(w, s, steps, s', n);
    PickedOrLost(w, s, steps, s', n);
  }

  lemma AfterAFailure(w: World, s: State, reason: string)
    requires LogShape(s) && CanWork(w, s, WriteFailed(reason)) && NewRowWaits(s, s.worker.name)
    requires s.worker.name in s.rows && HasSource(s.rows[s.worker.name])
    requires !SameGeneration(s, s.worker.name, s.worker.job)
    ensures var t, n := Work(w, s, WriteFailed(reason)), s.worker.name;
            && LogShape(t) && OnItsWay(t, n) && t.rows[n].status.Failed? && !BusyWith(t.worker, n)
            && (n in s.queue ==> InLine(t, n))
  {
    WorkKeepsLogShape(w, s, WriteFailed(reason));
  }

  /** An older warm fails and writes `failed` to the row that was registered in the
      meantime. Over every run from there within the generation: at a halt (with the
      name enqueued by then) the worker has picked up the new registration if and
      only if no crash came before; a crash loses it, because a failed row is not
      resumed. */
  lemma FailedWarmDoesNotShadowANewRegistration(w: World, s: State, reason: string, t: State, steps: seq<Step>,
                                                s': State)
    requires Reachable(w, s) && Enabled(w, s, W(WriteFailed(reason))) && t == Next(w, s, W(WriteFailed(reason)))
    requires s.worker.name in s.rows && HasSource(s.rows[s.worker.name])
    requires !SameGeneration(s, s.worker.name, s.worker.job)
    requires Run(w, t, steps, s') && SameBirth(t, s', s.worker.name)
    ensures PickedIn(w, t, steps, s.worker.name) ==> !CrashBeforePickup(w, t, steps, s.worker.name)
    ensures Halted(s') && (s.worker.name in s.queue || !AboutToEnqueue(s', s.worker.name)) ==>
              (PickedIn(w, t, steps, s.worker.name) <==> !CrashBeforePickup(w, t, steps, s.worker.name))
  {
    ReachableHasLogShape(w, s);
    ReachableNewRowWaits(w, s, s.worker.name);
    AfterAFailure(w, s, reason);
    FailedIsPickedUpIff(w, t, steps, s', s.worker.name);
  }
}
