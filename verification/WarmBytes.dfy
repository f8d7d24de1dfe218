/**
 What is in the image files: the destination of a warm is never partial, and a
 row that its own warm made ready has the right bytes.
 */
module WarmBytes {
  import opened Wrappers
  import opened ExportStore
  import opened Supervision
  import opened ExportNames
  import opened WarmSystem
  import opened WarmFrames
  import opened WarmSafety
  import opened WarmGenerations

  // ----- the managed paths

  /** No image is the temporary file of another, and operators place their files
      elsewhere. */
  ghost predicate CleanWorld(w: World) {
    && (forall m, n :: m in w.names && n in w.names ==> w.Image(m) != w.Image(n) + INFLIGHT)
    && (forall p, n :: p in w.paths && n in w.names ==> p != w.Image(n) && p != w.Image(n) + INFLIGHT)
  }

  /** Names that the normaliser derives keep the world clean, wherever operators
      put files outside the images directory. */
  lemma DerivedNamesAreClean(w: World)
    requires forall n :: n in w.names ==> exists basename :: Derived(basename) == Some(n)
    requires forall p :: p in w.paths ==> !(w.imagesDir + "/" <= p)
    ensures CleanWorld(w)
  {
    forall m, n | m in w.names && n in w.names
      ensures w.Image(m) != w.Image(n) + INFLIGHT
    {
      var a :| Derived(a) == Some(m);
      var b :| Derived(b) == Some(n);
      DerivedNamesAreDisjoint(w.imagesDir, a, b);
    }
    forall p, n | p in w.paths && n in w.names
      ensures p != w.Image(n) && p != w.Image(n) + INFLIGHT
    {
      assert w.imagesDir + "/" <= w.Image(n);
      assert w.imagesDir + "/" <= w.Image(n) + INFLIGHT;
    }
  }

  lemma ImageIsInjective(w: World, m: string, n: string)
    ensures w.Image(m) == w.Image(n) <==> m == n
  {
    PathsFollowNames(w.imagesDir, m, n, INFLIGHT);
  }

  // ----- the invariants

  /** A row that came from a warm registration owns the image file of its name. */
  ghost predicate RowShape(w: World, n: string, row: Row) {
    row.srcUrl.Some? ==> n in w.names && row.file == w.Image(n) && row.srcUrl.value != ""
  }

  ghost predicate HandlerShape(w: World, k: Handler) {
    && (k.Deleting? && k.row.Some? ==> RowShape(w, k.name, k.row.value))
    && forall p :: k.WillUnlink(p) ==> k.name in w.names && p == w.Image(k.name)
  }

  ghost predicate RowsShape(w: World, rows: Rows) {
    forall n :: n in rows ==> RowShape(w, n, rows[n])
  }

  ghost predicate HandlersShape(w: World, handlers: map<nat, Handler>) {
    forall h :: h in handlers ==> HandlerShape(w, handlers[h])
  }

  ghost predicate WorkerShape(w: World, k: Worker) {
    k.HasJob() ==> k.name in w.names && k.job.dest == w.Image(k.name)
  }

  ghost predicate ShapeInv(w: World, s: State) {
    LogShape(s) && RowsShape(w, s.rows) && HandlersShape(w, s.handlers) && WorkerShape(w, s.worker)
  }

  function Content(files: Files, path: string): Bytes { if path in files then files[path] else [] }

  function ImageOfRow(w: World, row: Row): Option<Bytes>
    requires row.srcUrl.Some?
  {
    w.Decoded(row.srcUrl.value, w.FormatOf(row.srcUrl.value, row.format))
  }

  predicate RawFormat(format: string) { format == "img" || format == "" }

  predicate GzipFormat(format: string) { format == "img.gz" || format == "gz" || format == ".gz" }

  predicate ZstdFormat(format: string) { format == "img.zst" || format == "zst" || format == ".zst" }

  predicate XzFormat(format: string) { format == "img.xz" || format == "xz" || format == ".xz" }

  /** The formats that have a decompressor, or need none. */
  predicate SupportedFormat(format: string) {
    RawFormat(format) || GzipFormat(format) || ZstdFormat(format) || XzFormat(format)
  }

  /** What a warm of `url` in `format` has to leave in the file: the bytes the cache
      serves, decompressed by the program the format asks for. */
  predicate IsImageOf(w: World, url: string, format: string, image: Bytes) {
    var served := w.source(url);
    || (RawFormat(format) && image == served)
    || (GzipFormat(format) && image == w.decode(Gunzip, served))
    || (ZstdFormat(format) && image == w.decode(Zstd, served))
    || (XzFormat(format) && image == w.decode(Xz, served))
  }

  lemma FormatsAreDistinct(format: string)
    ensures RawFormat(format) ==> !GzipFormat(format) && !ZstdFormat(format) && !XzFormat(format)
    ensures GzipFormat(format) ==> !ZstdFormat(format) && !XzFormat(format)
    ensures ZstdFormat(format) ==> !XzFormat(format)
  {
  }

  lemma DecodedIsTheImage(w: World, url: string, format: string)
    ensures w.Decoded(url, format).Some? <==> SupportedFormat(format)
    ensures DecoderFor(format).Some? <==> SupportedFormat(format)
    ensures forall image :: w.Decoded(url, format) == Some(image) <==> IsImageOf(w, url, format, image)
  {
    FormatsAreDistinct(format);
  }

  /** The file of row `n`, if it is there at all, is the complete image of the
      row's source, and `bytes_done` its length. */
  ghost predicate Faithful(w: World, s: State, n: string) {
    && n in s.rows && s.rows[n].srcUrl.Some?
    && var row, image := s.rows[n], ImageOfRow(w, s.rows[n]);
       image.Some? && row.bytesDone == |image.value| && (row.file in s.files ==> s.files[row.file] == image.value)
  }

  /** And it is there. */
  ghost predicate Right(w: World, s: State, n: string) { Faithful(w, s, n) && s.rows[n].file in s.files }

  /** A row whose own warm was written ready is ready and faithful. */
  ghost predicate RowBytes(w: World, s: State, n: string)
    requires n in s.rows
  {
    n in s.log.warmed ==> s.rows[n].status.Ready? && Faithful(w, s, n)
  }

  ghost predicate RowInv(w: World, s: State) { forall n :: n in s.rows ==> RowBytes(w, s, n) }

  /** The job still describes the row it was picked from. */
  ghost predicate JobMatchesRow(w: World, s: State, name: string, job: Job) {
    SameGeneration(s, name, job) ==>
      && s.rows[name].srcUrl == Some(job.url)
      && w.FormatOf(job.url, s.rows[name].format) == job.format
  }

  ghost predicate JobInv(w: World, s: State) {
    && (s.worker.HasJob() || s.worker.Doomed? ==> s.worker.name !in s.log.warmed)
    && (s.worker.HasJob() ==> JobMatchesRow(w, s, s.worker.name, s.worker.job) && JobFiles(w, s))
  }

  /** What the worker's two files hold at each of its program points. */
  ghost predicate JobFiles(w: World, s: State)
    requires s.worker.HasJob()
  {
    var k := s.worker;
    var image := w.Decoded(k.job.url, k.job.format);
    var temp := k.job.Temp();
    match k
    case Cleared(_, _) => temp !in s.files
    case Launching(_, _) => temp !in s.files
    case Pumping(_, _, plan, good, done, _) =>
      done <= |plan| && Content(s.files, temp) == plan[..done] && (good ==> image == Some(plan))
    case Pumped(_, _) => temp in s.files && image == Some(s.files[temp])
    case Replaced(_, _, size) => Installed(s.files, k.job.dest, image, size)
    case Returned(_, _, size) => Installed(s.files, k.job.dest, image, size)
    case AbortingTemp(_, _) => k.job.dest !in s.files
    case AbortingRow(_, _) => k.job.dest !in s.files && temp !in s.files
    case _ => true
  }

  /** The image has been moved into place; since then it can only have been removed. */
  ghost predicate Installed(files: Files, dest: string, image: Option<Bytes>, size: nat) {
    image.Some? && |image.value| == size && (dest in files ==> files[dest] == image.value)
  }

  ghost predicate BytesInv(w: World, s: State) { ShapeInv(w, s) && RowInv(w, s) && JobInv(w, s) }

  // ----- shapes

  lemma PortsOnlyKeepsShape(w: World, rows: Rows, rows': Rows)
    requires RowsShape(w, rows) && PortsOnly(rows, rows')
    ensures RowsShape(w, rows')
  {
    forall n | n in rows'
      ensures RowShape(w, n, rows'[n])
    {
      assert SameButPort(rows[n], rows'[n]) && RowShape(w, n, rows[n]);
    }
  }

  lemma HandleKeepsRowsShape(w: World, s: State, h: nat, a: HandlerStep)
    requires RowsShape(w, s.rows) && CanHandle(w, s, h, a)
    ensures RowsShape(w, Handle(w, s, h, a).rows)
  {
    HandleRows(w, s, h, a);
    if !WritesRow(a) {
      PortsOnlyKeepsShape(w, s.rows, Handle(w, s, h, a).rows);
    }
  }

  lemma HandleKeepsHandlersShape(w: World, s: State, h: nat, a: HandlerStep)
    requires RowsShape(w, s.rows) && HandlersShape(w, s.handlers) && CanHandle(w, s, h, a)
    ensures HandlersShape(w, Handle(w, s, h, a).handlers)
  {
    var t := Handle(w, s, h, a);
    HandleHasFrame(w, s, h, a);
    if h in t.handlers {
      if h in s.handlers && !a.DeleteRow? {
        assert forall p :: t.handlers[h].WillUnlink(p) ==> s.handlers[h].WillUnlink(p);
      }
      assert HandlerShape(w, t.handlers[h]);
    }
  }

  lemma HandleKeepsShape(w: World, s: State, h: nat, a: HandlerStep)
    requires ShapeInv(w, s) && CanHandle(w, s, h, a)
    ensures ShapeInv(w, Handle(w, s, h, a))
  {
    HandleKeepsRowsShape(w, s, h, a);
    HandleKeepsHandlersShape(w, s, h, a);
    HandleKeepsLogShape(w, s, h, a);
    HandleHasFrame(w, s, h, a);
  }

  lemma WorkKeepsWorkerShape(w: World, s: State, a: WorkerStep)
    requires ShapeInv(w, s) && CanWork(w, s, a)
    ensures WorkerShape(w, Work(w, s, a).worker)
  {
  }

  lemma WorkKeepsShape(w: World, s: State, a: WorkerStep)
    requires ShapeInv(w, s) && CanWork(w, s, a)
    ensures ShapeInv(w, Work(w, s, a))
  {
    WorkKeepsSources(w, s, a);
    WorkKeepsWorkerShape(w, s, a);
    WorkKeepsLogShape(w, s, a);
    WorkHasFrame(w, s, a);
    var t := Work(w, s, a);
    forall n | n in t.rows
      ensures RowShape(w, n, t.rows[n])
    {
      assert SameRegistration(s.rows[n], t.rows[n]) && RowShape(w, n, s.rows[n]);
    }
  }

  lemma BootKeepsShape(w: World, s: State, step: Step)
    requires ShapeInv(w, s) && step.Boot? && CanSystem(w, s, step)
    ensures RowsShape(w, System(w, s, step).rows)
  {
    var writes := SpawnAll(w.portBase, EMPTY, step.ready, step.host).writes;
    WritePortsIsPortsOnly(s.rows, writes);
    PortsOnlyKeepsShape(w, s.rows, WritePorts(s.rows, writes));
  }

  lemma SystemKeepsShape(w: World, s: State, step: Step)
    requires ShapeInv(w, s) && IsSystem(step) && CanSystem(w, s, step)
    ensures ShapeInv(w, System(w, s, step))
  {
    NextKeepsLogShape(w, s, step);
    if step.Boot? {
      BootKeepsShape(w, s, step);
    }
  }

  // ----- handler steps

  /** The only new obligation to unlink is that of a row deletion. */
  lemma PendingAfterHandler(w: World, s: State, h: nat, a: HandlerStep, p: string)
    requires ShapeInv(w, s) && CanHandle(w, s, h, a) && UnlinkPending(Handle(w, s, h, a), p)
    ensures UnlinkPending(s, p) || (a.DeleteRow? && p == w.Image(Subject(s, h, a)))
  {
    var t := Handle(w, s, h, a);
    HandleHasFrame(w, s, h, a);
    var g :| g in t.handlers && t.handlers[g].WillUnlink(p);
    if g != h {
      assert s.handlers[g].WillUnlink(p);
    } else if h in s.handlers && !a.DeleteRow? {
      assert s.handlers[h].WillUnlink(p);
    } else if a.DeleteRow? {
      assert HandlerShape(w, s.handlers[h]);
    }
  }

  /** What a registration or deletion does to the history of the other rows:
      nothing. */
  lemma HandleHistory(w: World, s: State, h: nat, a: HandlerStep)
    requires LogShape(s) && CanHandle(w, s, h, a)
    ensures var t, subject := Handle(w, s, h, a), Subject(s, h, a);
            && (forall n :: !WritesRow(a) || n != subject ==>
                  && (n in t.log.warmed <==> n in s.log.warmed)
                  && (n in t.log.born <==> n in s.log.born)
                  && (n in s.log.born ==> n in t.log.born && t.log.born[n] == s.log.born[n]))
            && (WritesRow(a) ==> subject !in t.log.warmed)
  {
  }

  /** A handler removes at most the image of a name with an unlink pending. */
  lemma HandleFiles(w: World, s: State, h: nat, a: HandlerStep)
    requires ShapeInv(w, s) && CanHandle(w, s, h, a)
    ensures var t := Handle(w, s, h, a);
            && (forall p :: p in t.files ==> p in s.files && t.files[p] == s.files[p])
            && forall p :: p in s.files && p !in t.files ==>
                 UnlinkPending(s, p) && exists k :: k in w.names && p == w.Image(k)
  {
    if a.Unlink? {
      var k := s.handlers[h];
      assert HandlerShape(w, k) && k.WillUnlink(k.path);
    }
  }

  lemma HandleKeepsOtherRow(w: World, s: State, h: nat, a: HandlerStep, n: string)
    requires ShapeInv(w, s) && CanHandle(w, s, h, a) && (!WritesRow(a) || n != Subject(s, h, a))
    requires n in s.rows && RowBytes(w, s, n)
    ensures n in Handle(w, s, h, a).rows && RowBytes(w, Handle(w, s, h, a), n)
  {
    HandleHistory(w, s, h, a);
    HandleOtherRows(w, s, h, a, n);
    HandleFiles(w, s, h, a);
  }

  lemma HandleKeepsJob(w: World, s: State, h: nat, a: HandlerStep)
    requires CleanWorld(w) && BytesInv(w, s) && CanHandle(w, s, h, a)
    ensures JobInv(w, Handle(w, s, h, a))
  {
    var t := Handle(w, s, h, a);
    HandleHasFrame(w, s, h, a);
    HandleHistory(w, s, h, a);
    HandleRows(w, s, h, a);
    if s.worker.HasJob() {
      var name, job := s.worker.name, s.worker.job;
      if !WritesRow(a) || name != Subject(s, h, a) {
        HandleOtherRows(w, s, h, a, name);
      }
      assert SameGeneration(t, name, job) ==> SameGeneration(s, name, job);
      HandleFiles(w, s, h, a);
      JobFilesAfterHandler(w, s, t);
    }
  }

  lemma JobFilesAfterHandler(w: World, s: State, t: State)
    requires CleanWorld(w) && BytesInv(w, s) && s.worker.HasJob() && t.worker == s.worker
    requires forall p :: p in t.files ==> p in s.files && t.files[p] == s.files[p]
    requires forall p :: p in s.files && p !in t.files ==>
               UnlinkPending(s, p) && exists k :: k in w.names && p == w.Image(k)
    ensures JobFiles(w, t)
  {
    assert s.worker.job.Temp() in s.files ==> s.worker.job.Temp() in t.files;
  }

  lemma HandleKeepsBytes(w: World, s: State, h: nat, a: HandlerStep)
    requires CleanWorld(w) && BytesInv(w, s) && CanHandle(w, s, h, a)
    ensures BytesInv(w, Handle(w, s, h, a))
  {
    HandleKeepsShape(w, s, h, a);
    HandleKeepsJob(w, s, h, a);
    HandleHistory(w, s, h, a);
    var t, subject := Handle(w, s, h, a), Subject(s, h, a);
    forall n | n in t.rows
      ensures RowBytes(w, t, n)
    {
      if !WritesRow(a) || n != subject {
        HandleOtherRows(w, s, h, a, n);
        HandleKeepsOtherRow(w, s, h, a, n);
      }
    }
  }

  // ----- worker steps

  /** The worker touches no file but the destination and the temporary of its job. */
  lemma WorkFiles(w: World, s: State, a: WorkerStep)
    requires CanWork(w, s, a)
    ensures forall p :: !s.worker.HasJob() || (p != s.worker.job.dest && p != s.worker.job.Temp()) ==>
              var t := Work(w, s, a);
              (p in t.files <==> p in s.files) && (p in s.files ==> p in t.files && t.files[p] == s.files[p])
  {
  }

  /** The worker's history writes: a row is recorded as warmed by its own
      generation's ready write only. */
  lemma WorkHistory(w: World, s: State, a: WorkerStep)
    requires CanWork(w, s, a)
    ensures var t := Work(w, s, a);
            && t.log.born == s.log.born
            && (forall n :: n in t.log.warmed <==>
                  n in s.log.warmed
                  || (a.WriteReady? && n == s.worker.name && SameGeneration(s, s.worker.name, s.worker.job)))
  {
  }

  /** A row that is not the one being warmed keeps its bytes. */
  lemma WorkKeepsOtherRow(w: World, s: State, a: WorkerStep, n: string)
    requires CleanWorld(w) && ShapeInv(w, s) && CanWork(w, s, a) && n in s.rows
    requires s.worker.Idle? || n != s.worker.name
    requires RowBytes(w, s, n)
    ensures n in Work(w, s, a).rows && RowBytes(w, Work(w, s, a), n)
  {
    WorkRows(w, s, a);
    WorkFiles(w, s, a);
    WorkHistory(w, s, a);
    assert SameButPort(s.rows[n], Work(w, s, a).rows[n]) && RowShape(w, n, s.rows[n]);
    if s.worker.HasJob() {
      ImageIsInjective(w, n, s.worker.name);
    }
  }

  /** The row being warmed: it is recorded as warmed only with the right bytes,
      and right exactly if nobody has removed the image in between. */
  lemma ReadyWriteIsFaithful(w: World, s: State)
    requires BytesInv(w, s) && CanWork(w, s, WriteReady) && s.worker.name in s.rows
    ensures var t, n := Work(w, s, WriteReady), s.worker.name;
            && n in t.rows && RowBytes(w, t, n)
            && (SameGeneration(s, n, s.worker.job) ==> Faithful(w, t, n) && t.rows[n].file == s.worker.job.dest)
  {
    var n := s.worker.name;
    assert RowBytes(w, s, n) && RowShape(w, n, s.rows[n]);
  }

  /** A warmed row is never the one the worker has a job for. */
  lemma WarmedRowIsLeftAlone(w: World, s: State, a: WorkerStep)
    requires BytesInv(w, s) && CanWork(w, s, a) && !s.worker.Idle? && s.worker.name in s.log.warmed
    ensures !s.worker.HasJob() && !a.WriteReady? && PortsOnly(s.rows, Work(w, s, a).rows)
  {
  }

  lemma WorkKeepsOwnRow(w: World, s: State, a: WorkerStep)
    requires BytesInv(w, s) && CanWork(w, s, a) && !a.WriteReady? && !s.worker.Idle? && s.worker.name in s.rows
    requires RowBytes(w, s, s.worker.name)
    ensures s.worker.name in Work(w, s, a).rows && RowBytes(w, Work(w, s, a), s.worker.name)
  {
    var n := s.worker.name;
    WorkRows(w, s, a);
    WorkHistory(w, s, a);
    if n in s.log.warmed {
      WarmedRowIsLeftAlone(w, s, a);
      WorkFiles(w, s, a);
      assert SameButPort(s.rows[n], Work(w, s, a).rows[n]);
    }
  }

  /** The job is taken from a row that has not been warmed. */
  lemma PickupMakesTheJob(w: World, s: State, configured: bool)
    requires BytesInv(w, s) && CanWork(w, s, Pickup(configured))
    ensures var t := Work(w, s, Pickup(configured));
            && (t.worker.HasJob() || t.worker.Doomed? ==> t.worker.name !in t.log.warmed)
            && (t.worker.HasJob() ==> JobMatchesRow(w, t, t.worker.name, t.worker.job))
  {
    if s.worker.name in s.rows {
      assert RowBytes(w, s, s.worker.name);
    }
  }

  lemma WorkKeepsJobRow(w: World, s: State, a: WorkerStep)
    requires BytesInv(w, s) && CanWork(w, s, a) && !a.Pickup?
    ensures var t := Work(w, s, a);
            && (t.worker.HasJob() || t.worker.Doomed? ==> t.worker.name !in t.log.warmed)
            && (t.worker.HasJob() ==> JobMatchesRow(w, t, t.worker.name, t.worker.job))
  {
    var t := Work(w, s, a);
    WorkHistory(w, s, a);
    WorkKeepsSources(w, s, a);
    if t.worker.HasJob() {
      assert s.worker.HasJob() && t.worker.name == s.worker.name && t.worker.job == s.worker.job;
      if s.worker.name in s.rows {
        assert SameRegistration(s.rows[s.worker.name], t.rows[s.worker.name]);
      }
    }
  }

  /** The download: `dest.inflight` holds what has been written of the plan. */
  lemma PipelineKeepsFiles(w: World, s: State, a: WorkerStep)
    requires JobInv(w, s) && CanWork(w, s, a) && (s.worker.Launching? || s.worker.Pumping?)
    ensures Work(w, s, a).worker.HasJob() && JobFiles(w, Work(w, s, a))
  {
    if a.Exit? {
      assert s.worker.plan[..|s.worker.plan|] == s.worker.plan;
    }
  }

  /** `os.replace` moves a complete image into place. */
  lemma ReplaceInstalls(w: World, s: State)
    requires JobInv(w, s) && CanWork(w, s, Replace)
    ensures Work(w, s, Replace).worker.HasJob() && JobFiles(w, Work(w, s, Replace))
  {
    assert |s.worker.job.Temp()| == |s.worker.job.dest| + |INFLIGHT|;
  }

  lemma OtherStepsKeepFiles(w: World, s: State, a: WorkerStep)
    requires JobInv(w, s) && CanWork(w, s, a) && !s.worker.Launching? && !s.worker.Pumping? && !a.Replace?
    requires Work(w, s, a).worker.HasJob()
    ensures JobFiles(w, Work(w, s, a))
  {
  }

  lemma WorkKeepsJob(w: World, s: State, a: WorkerStep)
    requires BytesInv(w, s) && CanWork(w, s, a)
    ensures JobInv(w, Work(w, s, a))
  {
    if a.Pickup? {
      PickupMakesTheJob(w, s, a.configured);
    } else {
      WorkKeepsJobRow(w, s, a);
    }
    if s.worker.Launching? || s.worker.Pumping? {
      PipelineKeepsFiles(w, s, a);
    } else if a.Replace? {
      ReplaceInstalls(w, s);
    } else if Work(w, s, a).worker.HasJob() {
      OtherStepsKeepFiles(w, s, a);
    }
  }

  lemma WorkKeepsBytes(w: World, s: State, a: WorkerStep)
    requires CleanWorld(w) && BytesInv(w, s) && CanWork(w, s, a)
    ensures BytesInv(w, Work(w, s, a))
  {
    WorkKeepsShape(w, s, a);
    WorkKeepsJob(w, s, a);
    WorkRows(w, s, a);
    WorkHistory(w, s, a);
    var t := Work(w, s, a);
    forall n | n in t.rows
      ensures RowBytes(w, t, n)
    {
      if s.worker.Idle? || n != s.worker.name {
        WorkKeepsOtherRow(w, s, a, n);
      } else if a.WriteReady? {
        ReadyWriteIsFaithful(w, s);
      } else {
        WorkKeepsOwnRow(w, s, a);
      }
    }
  }

  // ----- the other steps

  lemma SystemKeepsRow(w: World, s: State, step: Step, n: string)
    requires CleanWorld(w) && ShapeInv(w, s) && IsSystem(step) && CanSystem(w, s, step)
    requires n in s.rows && RowBytes(w, s, n)
    ensures n in System(w, s, step).rows && RowBytes(w, System(w, s, step), n)
  {
    assert RowShape(w, n, s.rows[n]);
    if step.Boot? {
      WritePortsIsPortsOnly(s.rows, SpawnAll(w.portBase, EMPTY, step.ready, step.host).writes);
      assert SameButPort(s.rows[n], System(w, s, step).rows[n]);
    }
  }

  lemma SystemKeepsJob(w: World, s: State, step: Step)
    requires CleanWorld(w) && BytesInv(w, s) && PhaseInv(s) && IsSystem(step) && CanSystem(w, s, step)
    ensures JobInv(w, System(w, s, step))
  {
    var t := System(w, s, step);
    if t.worker.HasJob() {
      assert t.worker == s.worker && t.rows == s.rows && t.log == s.log;
      UntouchedJobFiles(w, s, t);
    }
  }

  lemma UntouchedJobFiles(w: World, s: State, t: State)
    requires s.worker.HasJob() && JobFiles(w, s) && t.worker == s.worker && t.rows == s.rows && t.log == s.log
    requires forall p :: p == s.worker.job.dest || p == s.worker.job.Temp() ==>
               (p in t.files <==> p in s.files) && (p in s.files ==> p in t.files && t.files[p] == s.files[p])
    ensures JobFiles(w, t)
  {
  }

  lemma NextKeepsBytes(w: World, s: State, step: Step)
    requires CleanWorld(w) && PhaseInv(s) && BytesInv(w, s) && Enabled(w, s, step)
    ensures BytesInv(w, Next(w, s, step))
  {
    if step.H? {
      HandleKeepsBytes(w, s, step.h, step.act);
    } else if step.W? {
      WorkKeepsBytes(w, s, step.work);
    } else {
      SystemKeepsShape(w, s, step);
      SystemKeepsJob(w, s, step);
      var t := Next(w, s, step);
      forall n | n in t.rows
        ensures RowBytes(w, t, n)
      {
        SystemKeepsRow(w, s, step, n);
      }
    }
  }

  lemma {:induction false} RunKeepsBytes(w: World, s: State, steps: seq<Step>, s': State)
    requires CleanWorld(w) && PhaseInv(s) && BytesInv(w, s) && Run(w, s, steps, s')
    ensures PhaseInv(s') && BytesInv(w, s')
    decreases |steps|
  {
    if steps != [] {
      NextKeepsPhase(w, s, steps[0]);
      NextKeepsBytes(w, s, steps[0]);
      RunKeepsBytes(w, Next(w, s, steps[0]), steps[1..], s');
    }
  }

  lemma ReachableHasBytes(w: World, s: State)
    requires CleanWorld(w) && Reachable(w, s)
    ensures PhaseInv(s) && BytesInv(w, s)
  {
    var files: Files, steps :| Run(w, Init(files), steps, s);
    RunKeepsBytes(w, Init(files), steps, s);
  }

  // ----- ready means right bytes

  /** Warmed by its own generation, right, and with no delete still to unlink. */
  ghost predicate Settled(w: World, s: State, n: string) {
    n in s.rows && n in s.log.warmed && Right(w, s, n) && s.rows[n].status.Ready? && !UnlinkPending(s, w.Image(n))
  }

  /** Within the generation nobody starts to delete the row, so no new unlink of
      its image comes up. */
  lemma NoNewUnlink(w: World, s: State, step: Step, n: string)
    requires ShapeInv(w, s) && Enabled(w, s, step) && SameBirth(s, Next(w, s, step), n)
    requires !UnlinkPending(s, w.Image(n))
    ensures !UnlinkPending(Next(w, s, step), w.Image(n))
  {
    var t := Next(w, s, step);
    if step.H? {
      if UnlinkPending(t, w.Image(n)) {
        PendingAfterHandler(w, s, step.h, step.act, w.Image(n));
        ImageIsInjective(w, n, Subject(s, step.h, step.act));
        SubjectGetsANewBirth(w, s, step.h, step.act);
      }
    } else {
      if step.W? {
        WorkHasFrame(w, s, step.work);
      }
      assert UnlinkPending(t, w.Image(n)) ==> UnlinkPending(s, w.Image(n));
    }
  }

  /** Without a delete under way, only a warm of the name touches its image. */
  lemma ImageStays(w: World, s: State, step: Step, n: string)
    requires CleanWorld(w) && ShapeInv(w, s) && Enabled(w, s, step) && n in w.names
    requires !UnlinkPending(s, w.Image(n)) && w.Image(n) in s.files
    requires step.W? && s.worker.HasJob() ==> s.worker.name != n
    ensures var t, image := Next(w, s, step), w.Image(n);
            image in t.files && t.files[image] == s.files[image]
  {
    if step.H? {
      HandleFiles(w, s, step.h, step.act);
    } else if step.W? {
      WorkFiles(w, s, step.work);
      if s.worker.HasJob() {
        ImageIsInjective(w, n, s.worker.name);
      }
    }
  }

  lemma WarmedStaysWarmed(w: World, s: State, step: Step, n: string)
    requires LogShape(s) && Enabled(w, s, step) && SameBirth(s, Next(w, s, step), n) && n in s.log.warmed
    ensures n in Next(w, s, step).log.warmed
  {
    if step.H? {
      HandleHistory(w, s, step.h, step.act);
      if WritesRow(step.act) {
        SubjectGetsANewBirth(w, s, step.h, step.act);
      }
    } else if step.W? {
      WorkHistory(w, s, step.work);
    }
  }

  lemma NextKeepsSettled(w: World, s: State, step: Step, n: string)
    requires CleanWorld(w) && PhaseInv(s) && BytesInv(w, s) && Enabled(w, s, step)
    requires Settled(w, s, n) && SameBirth(s, Next(w, s, step), n)
    ensures Settled(w, Next(w, s, step), n)
  {
    NextKeepsBytes(w, s, step);
    WarmedStaysWarmed(w, s, step, n);
    RowWithinBirth(w, s, step, n);
    NoNewUnlink(w, s, step, n);
    assert RowShape(w, n, s.rows[n]) && RowBytes(w, Next(w, s, step), n);
    ImageStays(w, s, step, n);
  }

  lemma {:induction false} RunKeepsSettled(w: World, s: State, steps: seq<Step>, s': State, n: string)
    requires CleanWorld(w) && PhaseInv(s) && BytesInv(w, s) && Run(w, s, steps, s')
    requires Settled(w, s, n) && SameBirth(s, s', n)
    ensures Settled(w, s', n)
    decreases |steps|
  {
    if steps != [] {
      var t := Next(w, s, steps[0]);
      NextKeepsPhase(w, s, steps[0]);
      NextKeepsBytes(w, s, steps[0]);
      FirstStepKeepsBirth(w, s, steps, s', n);
      NextKeepsSettled(w, s, steps[0], n);
      RunKeepsSettled(w, t, steps[1..], s', n);
    }
  }

  /** The ready write of a warm whose row is still the one it picked up: the row
      is right if and only if the image is still where the warm has put it, and
      otherwise the image is missing, never another one. */
  lemma ReadyMeansRightBytes(w: World, s: State)
    requires CleanWorld(w) && Reachable(w, s) && Enabled(w, s, W(WriteReady))
    requires SameGeneration(s, s.worker.name, s.worker.job)
    ensures var t, n := Next(w, s, W(WriteReady)), s.worker.name;
            && n in t.log.warmed && n in t.rows && t.rows[n].status.Ready? && Faithful(w, t, n)
            && (Right(w, t, n) <==> s.worker.job.dest in s.files)
  {
    ReachableHasBytes(w, s);
    ReadyWriteIsFaithful(w, s);
  }

  /** In every reachable state a row that its own warm made ready is still ready
      and faithful: its file is the complete image of its source or missing. */
  lemma WarmedRowsAreFaithful(w: World, s: State, n: string)
    requires CleanWorld(w) && Reachable(w, s) && n in s.log.warmed
    ensures n in s.rows && s.rows[n].status.Ready? && Faithful(w, s, n)
    ensures Right(w, s, n) <==> w.Image(n) in s.files
  {
    ReachableHasBytes(w, s);
    assert RowBytes(w, s, n) && RowShape(w, n, s.rows[n]);
  }

  /** A warmed row with its image keeps it in every run that neither registers
      nor deletes it, restarts included, if no delete still has the file to remove. */
  lemma SettledRowStaysRight(w: World, s: State, steps: seq<Step>, s': State, n: string)
    requires CleanWorld(w) && Reachable(w, s) && Run(w, s, steps, s') && SameBirth(s, s', n)
    requires n in s.log.warmed && w.Image(n) in s.files && !UnlinkPending(s, w.Image(n))
    ensures n in s'.rows && s'.rows[n].status.Ready? && Right(w, s', n)
  {
    ReachableHasBytes(w, s);
    WarmedRowsAreFaithful(w, s, n);
    RunKeepsSettled(w, s, steps, s', n);
  }

  // ----- from registration to the ready write

  /** No delete is about to remove the image, and once the current generation's
      own warm has moved the image into place it is there. */
  ghost predicate Undisturbed(w: World, s: State, n: string) {
    && !UnlinkPending(s, w.Image(n))
    && ((s.worker.Replaced? || s.worker.Returned?) && s.worker.name == n && SameGeneration(s, n, s.worker.job) ==>
          w.Image(n) in s.files)
    && (n in s.log.warmed ==> w.Image(n) in s.files)
  }

  /** The worker's step on its own job. */
  lemma JobKeepsUndisturbed(w: World, s: State, a: WorkerStep)
    requires BytesInv(w, s) && CanWork(w, s, a) && s.worker.HasJob() && s.worker.name in s.rows
    requires Undisturbed(w, s, s.worker.name)
    ensures Undisturbed(w, Work(w, s, a), s.worker.name)
  {
    WorkHistory(w, s, a);
    WorkRows(w, s, a);
    SameHandlers(w, s, a, w.Image(s.worker.name));
    ReplaceFillsTheDestination(w, s, a);
  }

  lemma SameHandlers(w: World, s: State, a: WorkerStep, p: string)
    requires CanWork(w, s, a)
    ensures UnlinkPending(Work(w, s, a), p) <==> UnlinkPending(s, p)
  {
    WorkHasFrame(w, s, a);
  }

  /** And on anything else. */
  lemma WorkKeepsUndisturbed(w: World, s: State, a: WorkerStep, n: string)
    requires CleanWorld(w) && BytesInv(w, s) && CanWork(w, s, a) && Undisturbed(w, s, n) && n in w.names
    requires n in s.rows
    ensures Undisturbed(w, Work(w, s, a), n)
  {
    if s.worker.HasJob() && s.worker.name == n {
      JobKeepsUndisturbed(w, s, a);
    } else {
      WorkHistory(w, s, a);
      NotReplacing(w, s, a, n);
      SameHandlers(w, s, a, w.Image(n));
      if w.Image(n) in s.files {
        assert Enabled(w, s, W(a)) && Next(w, s, W(a)) == Work(w, s, a);
        ImageStays(w, s, W(a), n);
      }
    }
  }

  lemma NotReplacing(w: World, s: State, a: WorkerStep, n: string)
    requires CanWork(w, s, a) && !(s.worker.HasJob() && s.worker.name == n)
    ensures var k := Work(w, s, a).worker;
            !((k.Replaced? || k.Returned?) && k.name == n) && !(a.WriteReady? && s.worker.name == n)
  {
  }

  lemma ReplaceFillsTheDestination(w: World, s: State, a: WorkerStep)
    requires BytesInv(w, s) && CanWork(w, s, a) && s.worker.HasJob()
    ensures var t, dest := Work(w, s, a), s.worker.job.dest;
            && (t.worker.Replaced? ==> dest in t.files)
            && (s.worker.Replaced? || s.worker.Returned? ==> t.files == s.files && !t.worker.Replaced?)
            && (t.worker.Returned? ==>
                  s.worker.Replaced? && t.worker.name == s.worker.name && t.worker.job == s.worker.job)
            && (a.WriteReady? ==> s.worker.Returned?)
  {
  }

  lemma NextKeepsUndisturbed(w: World, s: State, step: Step, n: string)
    requires CleanWorld(w) && BytesInv(w, s) && PhaseInv(s) && Enabled(w, s, step) && n in w.names
    requires Undisturbed(w, s, n) && SameBirth(s, Next(w, s, step), n)
    ensures Undisturbed(w, Next(w, s, step), n)
  {
    NoNewUnlink(w, s, step, n);
    if step.W? {
      WorkKeepsUndisturbed(w, s, step.work, n);
    } else {
      if w.Image(n) in s.files {
        ImageStays(w, s, step, n);
      }
      if step.H? {
        HandleHasFrame(w, s, step.h, step.act);
        HandleHistory(w, s, step.h, step.act);
        if WritesRow(step.act) {
          SubjectGetsANewBirth(w, s, step.h, step.act);
        }
        HandleOtherRows(w, s, step.h, step.act, n);
      }
    }
  }

  lemma {:induction false} RunKeepsUndisturbed(w: World, s: State, steps: seq<Step>, s': State, n: string)
    requires CleanWorld(w) && BytesInv(w, s) && PhaseInv(s) && n in w.names
    requires Run(w, s, steps, s') && Undisturbed(w, s, n) && SameBirth(s, s', n)
    ensures Undisturbed(w, s', n)
    decreases |steps|
  {
    if steps != [] {
      FirstStepKeepsBirth(w, s, steps, s', n);
      NextKeepsUndisturbed(w, s, steps[0], n);
      NextKeepsBytes(w, s, steps[0]);
      NextKeepsPhase(w, s, steps[0]);
      RunKeepsUndisturbed(w, Next(w, s, steps[0]), steps[1..], s', n);
    }
  }

  /** A row registered for warming while no delete has its image to remove: over
      every run within its generation, once its own warm has been written ready
      the row is right. */
  lemma CleanRegistrationEndsRight(w: World, s: State, h: nat, a: HandlerStep, steps: seq<Step>, s': State)
    requires CleanWorld(w) && Reachable(w, s) && a.RegisterWarm? && CanHandle(w, s, h, a)
    requires !UnlinkPending(s, w.Image(a.name))
    requires var t := Handle(w, s, h, a);
             Run(w, t, steps, s') && SameBirth(t, s', a.name)
    ensures a.name in s'.log.warmed ==> a.name in s'.rows && s'.rows[a.name].status.Ready? && Right(w, s', a.name)
  {
    var t, n := Handle(w, s, h, a), a.name;
    ReachableHasBytes(w, s);
    assert Enabled(w, s, H(h, a)) && Next(w, s, H(h, a)) == t;
    NextKeepsPhase(w, s, H(h, a));
    NextKeepsBytes(w, s, H(h, a));
    HandleHistory(w, s, h, a);
    HandleHasFrame(w, s, h, a);
    if UnlinkPending(t, w.Image(n)) {
      PendingAfterHandler(w, s, h, a, w.Image(n));
    }
    RunKeepsUndisturbed(w, t, steps, s', n);
    RunKeepsBytes(w, t, steps, s');
    if n in s'.log.warmed {
      assert RowBytes(w, s', n) && RowShape(w, n, s'.rows[n]);
    }
  }

  /** That condition is needed: a delete that removed an earlier row of the name
      unlinks the file later, and the new row stays ready without its file. */
  lemma StaleDeleteRemovesTheNewImage(w: World, s: State, h: nat, n: string)
    requires CleanWorld(w) && Reachable(w, s) && Enabled(w, s, H(h, Unlink)) && s.handlers[h].WillUnlink(w.Image(n))
    requires n in s.log.warmed && Right(w, s, n)
    ensures var t := Next(w, s, H(h, Unlink));
            SameBirth(s, t, n) && n in t.rows && t.rows[n].status.Ready? && !Right(w, t, n)
  {
    ReachableHasBytes(w, s);
    assert RowShape(w, n, s.rows[n]) && RowBytes(w, s, n);
  }

  // ----- destination atomicity

  /** One step of anybody leaves the image file of a name as it is, or removes
      it, or is the `os.replace` of the worker and puts a complete image there. */
  lemma DestinationIsAtomic(w: World, s: State, step: Step, n: string)
    requires CleanWorld(w) && PhaseInv(s) && BytesInv(w, s) && Enabled(w, s, step) && n in w.names
    ensures var t, dest := Next(w, s, step), w.Image(n);
            || dest !in t.files
            || (dest in s.files && t.files[dest] == s.files[dest])
            || (step == W(Replace) && s.worker.name == n
                && Some(t.files[dest]) == w.Decoded(s.worker.job.url, s.worker.job.format))
  {
    var t := Next(w, s, step);
    if step.H? {
      HandleFiles(w, s, step.h, step.act);
    } else if step.W? {
      WorkFiles(w, s, step.work);
      if s.worker.HasJob() {
        ImageIsInjective(w, n, s.worker.name);
        WorkOnDestination(w, s, step.work);
      }
    }
  }

  lemma WorkOnDestination(w: World, s: State, a: WorkerStep)
    requires CleanWorld(w) && BytesInv(w, s) && CanWork(w, s, a) && s.worker.HasJob()
    ensures var t, dest := Work(w, s, a), s.worker.job.dest;
            || dest !in t.files
            || (dest in s.files && t.files[dest] == s.files[dest])
            || (a.Replace? && Some(t.files[dest]) == w.Decoded(s.worker.job.url, s.worker.job.format))
  {
    assert |s.worker.job.Temp()| == |s.worker.job.dest| + |INFLIGHT|;
  }

  /** Complete: what was there when the daemon was first started, or the image
      of some source. */
  ghost predicate CompleteImages(w: World, files0: Files, files: Files) {
    forall n :: n in w.names && w.Image(n) in files ==>
      || (w.Image(n) in files0 && files0[w.Image(n)] == files[w.Image(n)])
      || exists url, format :: w.Decoded(url, format) == Some(files[w.Image(n)])
  }

  lemma {:induction false} RunKeepsImagesComplete(w: World, files0: Files, s: State, steps: seq<Step>, s': State)
    requires CleanWorld(w) && PhaseInv(s) && BytesInv(w, s) && Run(w, s, steps, s')
    requires CompleteImages(w, files0, s.files)
    ensures CompleteImages(w, files0, s'.files)
    decreases |steps|
  {
    if steps != [] {
      var t := Next(w, s, steps[0]);
      NextKeepsPhase(w, s, steps[0]);
      NextKeepsBytes(w, s, steps[0]);
      forall n | n in w.names && w.Image(n) in t.files
        ensures || (w.Image(n) in files0 && files0[w.Image(n)] == t.files[w.Image(n)])
                || exists url, format :: w.Decoded(url, format) == Some(t.files[w.Image(n)])
      {
        DestinationIsAtomic(w, s, steps[0], n);
      }
      RunKeepsImagesComplete(w, files0, t, steps[1..], s');
    }
  }

  /** In every reachable state, crashes included, an image file is complete. */
  lemma ImagesAreAlwaysComplete(w: World, files0: Files, steps: seq<Step>, s: State)
    requires CleanWorld(w) && Run(w, Init(files0), steps, s)
    ensures CompleteImages(w, files0, s.files)
  {
    RunKeepsImagesComplete(w, files0, Init(files0), steps, s);
  }

  /** A failed warm leaves neither the image nor the temporary file. */
  lemma FailedWarmLeavesNothing(w: World, s: State, reason: string)
    requires CleanWorld(w) && Reachable(w, s) && Enabled(w, s, W(WriteFailed(reason)))
    ensures var t := Next(w, s, W(WriteFailed(reason)));
            && w.imagesDir + "/" + s.worker.name !in t.files
            && w.imagesDir + "/" + s.worker.name + ".inflight" !in t.files
  {
    ReachableHasBytes(w, s);
  }

  /** The progress the watcher reports is exactly what the pipeline has written. */
  lemma ProgressIsWhatWasWritten(w: World, s: State)
    requires CleanWorld(w) && Reachable(w, s) && Enabled(w, s, W(Tick)) && s.worker.name in s.rows
    ensures var row := Next(w, s, W(Tick)).rows[s.worker.name];
            && row.status.Decompressing? && row.bytesDone == s.worker.done <= |s.worker.plan|
            && row.bytesDone >= s.worker.seen + 32 * 1024 * 1024
  {
    ReachableHasBytes(w, s);
  }

  /** No step of the daemon touches a file that an operator placed. */
  lemma OperatorFilesAreSafe(w: World, s: State, step: Step, p: string)
    requires CleanWorld(w) && Reachable(w, s) && Enabled(w, s, step) && !step.Operator? && p in w.paths
    ensures var t := Next(w, s, step);
            (p in t.files <==> p in s.files) && (p in s.files ==> p in t.files && t.files[p] == s.files[p])
  {
    ReachableHasBytes(w, s);
    if step.H? {
      HandleFiles(w, s, step.h, step.act);
    } else if step.W? {
      WorkFiles(w, s, step.work);
    }
  }
}
