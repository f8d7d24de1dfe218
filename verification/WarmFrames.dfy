/**
 What single steps of the warm system leave alone. The invariants of the other
 modules are proved from these frames.
 */
module WarmFrames {
  import opened Wrappers
  import opened ExportStore
  import opened Supervision
  import opened WarmSystem

  /** Every column but the port. */
  predicate SameButPort(r: Row, r': Row) { r' == r.(nbdPort := r'.nbdPort) }

  ghost predicate PortsOnly(rows: Rows, rows': Rows) {
    rows'.Keys == rows.Keys && forall n :: n in rows ==> SameButPort(rows[n], rows'[n])
  }

  lemma WritePortsIsPortsOnly(rows: Rows, writes: map<string, Option<int>>)
    ensures PortsOnly(rows, WritePorts(rows, writes))
  {
  }

  lemma PortsOnlyKeepsStatus(rows: Rows, rows': Rows)
    requires PortsOnly(rows, rows')
    ensures ReadyNames(rows') == ReadyNames(rows) && PendingNames(rows') == PendingNames(rows)
    ensures InFlightNames(rows') == InFlightNames(rows)
  {
    forall n | n in rows
      ensures SameButPort(rows[n], rows'[n])
    {
    }
  }

  // ----- handlers

  /** The name a handler step is about. */
  function Subject(s: State, h: nat, a: HandlerStep): string {
    match a
    case RegisterWarm(name, _, _, _, _) => name
    case RegisterFile(name, _, _) => name
    case BeginDelete(name) => name
    case _ => if h in s.handlers then s.handlers[h].name else ""
  }

  predicate WritesRow(a: HandlerStep) { a.RegisterWarm? || a.RegisterFile? || a.DeleteRow? }

  ghost predicate HandlerFrame(s: State, t: State, h: nat, a: HandlerStep) {
    && t.worker == s.worker && t.phase == s.phase
    && (forall g :: g != h ==> (g in t.handlers <==> g in s.handlers))
    && (forall g :: g != h && g in s.handlers ==> t.handlers[g] == s.handlers[g])
    && t.log.interrupted == s.log.interrupted && t.log.restarts == s.log.restarts
    && (if a.Enqueue? then t.queue == Enqueued(s.queue, Subject(s, h, a)) else t.queue == s.queue)
    && (!a.Unlink? ==> t.files == s.files)
  }

  lemma HandleHasFrame(w: World, s: State, h: nat, a: HandlerStep)
    requires CanHandle(w, s, h, a)
    ensures HandlerFrame(s, Handle(w, s, h, a), h, a)
  {
  }

  /** Only registration and deletion write rows, and only their own. */
  lemma HandleRows(w: World, s: State, h: nat, a: HandlerStep)
    requires CanHandle(w, s, h, a)
    ensures var t, n := Handle(w, s, h, a), Subject(s, h, a);
            && (!WritesRow(a) ==> PortsOnly(s.rows, t.rows))
            && (WritesRow(a) ==> t.rows - {n} == s.rows - {n})
            && (a.RegisterWarm? ==> n in t.rows && t.rows[n].status.Queued? && t.handlers[h] == Enqueueing(n))
            && (a.RegisterFile? ==> n in t.rows && t.rows[n].status.Ready? && t.handlers[h] == Refreshing(n, None))
            && (a.DeleteRow? ==> n !in t.rows && t.handlers[h].Refreshing? && t.handlers[h].name == n)
  {
  }

  /** The other rows keep everything but the port. */
  lemma HandleOtherRows(w: World, s: State, h: nat, a: HandlerStep, n: string)
    requires CanHandle(w, s, h, a) && (!WritesRow(a) || n != Subject(s, h, a))
    ensures var t := Handle(w, s, h, a);
            (n in t.rows <==> n in s.rows) && (n in s.rows ==> n in t.rows && SameButPort(s.rows[n], t.rows[n]))
  {
    HandleRows(w, s, h, a);
    var t, subject := Handle(w, s, h, a), Subject(s, h, a);
    if WritesRow(a) {
      assert n in t.rows <==> n in t.rows - {subject};
      assert n in s.rows <==> n in s.rows - {subject};
      assert n in s.rows ==> (t.rows - {subject})[n] == (s.rows - {subject})[n];
    }
  }

  // ----- the worker

  ghost predicate WorkerFrame(s: State, t: State, a: WorkerStep) {
    && t.handlers == s.handlers && t.phase == s.phase
    && (t.worker.Idle? || s.worker.Idle? || t.worker.name == s.worker.name)
    && t.log.interrupted == s.log.interrupted && t.log.restarts == s.log.restarts
    && t.log.born == s.log.born && t.log.clock == s.log.clock
    && s.log.stranded <= t.log.stranded
    && (a.Pop? ==> s.queue != [] && t.queue == s.queue[1..] && t.worker == Popped(s.queue[0]))
    && (!a.Pop? ==> t.queue == s.queue && !s.worker.Idle?)
  }

  lemma WorkHasFrame(w: World, s: State, a: WorkerStep)
    requires CanWork(w, s, a)
    ensures WorkerFrame(s, Work(w, s, a), a)
  {
  }

  /** The worker writes at most the row it is busy with, and adds or removes none. */
  lemma WorkRows(w: World, s: State, a: WorkerStep)
    requires CanWork(w, s, a)
    ensures var t := Work(w, s, a);
            && t.rows.Keys == s.rows.Keys
            && forall n :: n in s.rows && (s.worker.Idle? || n != s.worker.name) ==> SameButPort(s.rows[n], t.rows[n])
  {
  }

  /** The row it is busy with is in flight only while it is warming it, and
      leaves the queued state only when it gets another status. */
  lemma WorkStatus(w: World, s: State, a: WorkerStep)
    requires CanWork(w, s, a) && !s.worker.Idle? && s.worker.name in s.rows
    ensures var t, n := Work(w, s, a), s.worker.name;
            n in t.rows ==>
              && (t.rows[n].status.InFlight() && !t.worker.Warming() ==>
                    !s.worker.Warming() && s.rows[n].status.InFlight())
              && (t.rows[n].status.Queued? ==> s.rows[n].status.Queued?)
              && (t.rows[n].status.Queued? && s.worker.Holds(n) ==> t.worker.Holds(n) || n in t.log.stranded)
  {
  }

  /** The columns that a registration sets and nothing else ever writes. */
  predicate SameRegistration(r: Row, r': Row) {
    && r'.file == r.file && r'.readonly == r.readonly
    && r'.srcUrl == r.srcUrl && r'.format == r.format && r'.netbootRef == r.netbootRef
  }

  lemma WorkKeepsSources(w: World, s: State, a: WorkerStep)
    requires CanWork(w, s, a)
    ensures var t := Work(w, s, a);
            t.rows.Keys == s.rows.Keys && forall n :: n in s.rows ==> SameRegistration(s.rows[n], t.rows[n])
  {
  }
}
