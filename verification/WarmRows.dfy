/**
 What the table and the image files say of an export, in terms of the request
 that registered it, over every run.
 */
module WarmRows {
  import opened Wrappers
  import opened ExportStore
  import opened Supervision
  import opened WarmSystem
  import opened WarmFrames
  import opened WarmGenerations
  import opened WarmSafety
  import opened WarmBytes

  // ----- the columns of a registration

  lemma {:induction false} RunKeepsRegistration(w: World, s: State, steps: seq<Step>, s': State, n: string)
    requires LogShape(s) && Run(w, s, steps, s') && SameBirth(s, s', n)
    ensures n in s.rows && n in s'.rows && SameRegistration(s.rows[n], s'.rows[n])
    decreases |steps|
  {
    if steps == [] {
      assert n in s.rows;
    } else {
      FirstStepKeepsBirth(w, s, steps, s', n);
      RowWithinBirth(w, s, steps[0], n);
      RunKeepsRegistration(w, Next(w, s, steps[0]), steps[1..], s', n);
    }
  }

  /** The other rows of the table are as they were. */
  ghost predicate OthersStay(rows: Rows, rows': Rows, n: string) {
    && (forall m :: m != n ==> (m in rows <==> m in rows'))
    && forall m :: m != n && m in rows ==> m in rows' && rows'[m] == rows[m]
  }

  /** A row registered for warming starts queued, with nothing fetched and no error,
      keeps the port of its predecessor, and for as long as it lasts has the
      columns the request carried, whatever the worker, other requests and
      restarts do. No other row is touched. */
  lemma WarmRowIsAsRequested(w: World, s: State, h: nat, a: HandlerStep, t: State, steps: seq<Step>, s': State)
    requires Reachable(w, s) && a.RegisterWarm? && CanHandle(w, s, h, a) && t == Handle(w, s, h, a)
    requires Run(w, t, steps, s') && SameBirth(t, s', a.name)
    ensures a.name in t.rows && t.rows[a.name].status.Queued? && t.rows[a.name].bytesDone == 0
    ensures t.rows[a.name].error == None
    ensures t.rows[a.name].nbdPort == if a.name in s.rows then s.rows[a.name].nbdPort else None
    ensures OthersStay(s.rows, t.rows, a.name)
    ensures a.name in s'.rows
    ensures s'.rows[a.name].file == w.imagesDir + "/" + a.name
    ensures s'.rows[a.name].readonly == a.readonly && s'.rows[a.name].netbootRef == a.netbootRef
    ensures s'.rows[a.name].srcUrl == Some(a.url) && s'.rows[a.name].format == Some(a.format)
  {
    ReachableHasLogShape(w, s);
    HandleKeepsLogShape(w, s, h, a);
    RunKeepsRegistration(w, t, steps, s', a.name);
  }

  /** A row registered for a file of the operator is ready at once, and for as long
      as it lasts has the file and the flag the request carried, no source, no
      format and no bundle. No other row is touched. */
  lemma FileRowIsAsRequested(w: World, s: State, h: nat, a: HandlerStep, t: State, steps: seq<Step>, s': State)
    requires Reachable(w, s) && a.RegisterFile? && CanHandle(w, s, h, a) && t == Handle(w, s, h, a)
    requires Run(w, t, steps, s') && SameBirth(t, s', a.name)
    ensures a.name in t.rows && t.rows[a.name].status.Ready? && t.rows[a.name].bytesDone == 0
    ensures t.rows[a.name].error == None
    ensures t.rows[a.name].nbdPort == if a.name in s.rows then s.rows[a.name].nbdPort else None
    ensures OthersStay(s.rows, t.rows, a.name)
    ensures a.name in s'.rows && s'.rows[a.name].file == a.path && s'.rows[a.name].readonly == a.readonly
    ensures s'.rows[a.name].srcUrl == None && s'.rows[a.name].format == None && s'.rows[a.name].netbootRef == None
  {
    ReachableHasLogShape(w, s);
    HandleKeepsLogShape(w, s, h, a);
    RunKeepsRegistration(w, t, steps, s', a.name);
  }

  // ----- the error column

  /** A failed row says why. */
  ghost predicate ReasonsGiven(rows: Rows) {
    forall n :: n in rows && rows[n].status.Failed? ==> rows[n].error.Some?
  }

  lemma WorkGivesReasons(w: World, s: State, a: WorkerStep)
    requires ReasonsGiven(s.rows) && CanWork(w, s, a)
    ensures ReasonsGiven(Work(w, s, a).rows)
  {
    var t := Work(w, s, a);
    WorkRows(w, s, a);
    forall n | n in t.rows && t.rows[n].status.Failed?
      ensures t.rows[n].error.Some?
    {
      if s.worker.Idle? || n != s.worker.name {
        assert SameButPort(s.rows[n], t.rows[n]);
      } else {
        OwnRowHasAReason(w, s, a);
      }
    }
  }

  lemma OwnRowHasAReason(w: World, s: State, a: WorkerStep)
    requires CanWork(w, s, a) && !s.worker.Idle? && s.worker.name in s.rows
    requires s.rows[s.worker.name].status.Failed? ==> s.rows[s.worker.name].error.Some?
    ensures var t, n := Work(w, s, a), s.worker.name;
            n in t.rows && (t.rows[n].status.Failed? ==> t.rows[n].error.Some?)
  {
  }

  lemma HandleGivesReasons(w: World, s: State, h: nat, a: HandlerStep)
    requires ReasonsGiven(s.rows) && CanHandle(w, s, h, a)
    ensures ReasonsGiven(Handle(w, s, h, a).rows)
  {
    var t := Handle(w, s, h, a);
    HandleRows(w, s, h, a);
    forall n | n in t.rows && t.rows[n].status.Failed?
      ensures t.rows[n].error.Some?
    {
      HandleOtherRows(w, s, h, a, n);
      assert SameButPort(s.rows[n], t.rows[n]);
    }
  }

  lemma SystemGivesReasons(w: World, s: State, step: Step)
    requires ReasonsGiven(s.rows) && IsSystem(step) && CanSystem(w, s, step)
    ensures ReasonsGiven(System(w, s, step).rows)
  {
    if step.Boot? {
      WritePortsIsPortsOnly(s.rows, SpawnAll(w.portBase, EMPTY, step.ready, step.host).writes);
      assert forall n :: n in s.rows ==> SameButPort(s.rows[n], System(w, s, step).rows[n]);
    }
  }

  lemma {:induction false} RunGivesReasons(w: World, s: State, steps: seq<Step>, s': State)
    requires ReasonsGiven(s.rows) && Run(w, s, steps, s')
    ensures ReasonsGiven(s'.rows)
    decreases |steps|
  {
    if steps != [] {
      if steps[0].H? {
        HandleGivesReasons(w, s, steps[0].h, steps[0].act);
      } else if steps[0].W? {
        WorkGivesReasons(w, s, steps[0].work);
      } else {
        SystemGivesReasons(w, s, steps[0]);
      }
      RunGivesReasons(w, Next(w, s, steps[0]), steps[1..], s');
    }
  }

  /** In every reachable state a failed row has its reason in the error column. */
  lemma FailedRowsSayWhy(w: World, s: State, n: string)
    requires Reachable(w, s) && n in s.rows && s.rows[n].status.Failed?
    ensures s.rows[n].error.Some?
  {
    var files: Files, steps :| Run(w, Init(files), steps, s);
    RunGivesReasons(w, Init(files), steps, s);
  }

  // ----- the bytes of a warmed row

  /** The format of a row: its own, unless it has none. */
  function ResolvedFormat(w: World, row: Row): string
    requires row.srcUrl.Some?
  {
    match row.format
    case Some(format) => if format == "" then w.detect(row.srcUrl.value) else format
    case None => w.detect(row.srcUrl.value)
  }

  /** In every reachable state, a row that its own warm made ready has, as long as
      its file is there, the bytes of its source in it, through the decompressor
      that its format asks for. */
  lemma WarmedFileIsTheDecompressedSource(w: World, s: State, n: string)
    requires CleanWorld(w) && Reachable(w, s) && n in s.log.warmed && w.imagesDir + "/" + n in s.files
    ensures n in s.rows && s.rows[n].srcUrl.Some? && s.rows[n].file == w.imagesDir + "/" + n
    ensures IsImageOf(w, s.rows[n].srcUrl.value, ResolvedFormat(w, s.rows[n]), s.files[w.imagesDir + "/" + n])
    ensures s.rows[n].bytesDone == |s.files[w.imagesDir + "/" + n]|
  {
    ReachableHasBytes(w, s);
    WarmedRowsAreFaithful(w, s, n);
    assert RowShape(w, n, s.rows[n]);
    var row := s.rows[n];
    DecodedIsTheImage(w, row.srcUrl.value, w.FormatOf(row.srcUrl.value, row.format));
  }

  // ----- a delete that comes second

  /** A delete whose row has gone in the meantime removes no file. */
  lemma SecondDeleteRemovesNothing(w: World, s: State, h: nat)
    requires CanHandle(w, s, h, DeleteRow) && s.handlers[h].name !in s.rows
    ensures var t := Handle(w, s, h, DeleteRow);
            t.handlers[h].Refreshing? && forall p :: !t.handlers[h].WillUnlink(p)
  {
  }
}
