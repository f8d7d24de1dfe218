/**
 The request handlers that change the exports (src/nbdmux/_api.py, the admin
 forms of src/nbdmux/_app.py) and the start-up hook, each as one uninterrupted
 call. Every call is a run of handler or start-up steps of module WarmSystem;
 its contract says what the caller and the next reader of the table see.
 */
module ControlPlane {
  import opened Wrappers
  import opened ExportStore
  import opened Supervision
  import opened ExportNames
  import opened WarmSystem
  import opened WarmFrames
  import opened WarmSafety
  import opened WarmPorts
  import opened WarmBytes
  import opened WarmRows
  import opened WarmWorker

  /** A field of a JSON body: absent or null, a string, or something else. */
  datatype Field = Missing | Text(text: string) | NotText

  /** A POST /exports body. */
  datatype Body = Body(name: Field, file: Field, srcUrl: Field, readonly: bool)

  /** What the handler asks its environment: is the cache configured, is the
      given file there, what do the catalog lookups say, how does the host treat
      the children. */
  datatype Env = Env(withcache: bool, isFile: bool, format: string, netbootRef: Option<string>, host: Host)

  /** The characters that `str.strip` removes. */
  predicate IsSpace(c: char) {
    var k := c as int;
    || 0x09 <= k <= 0x0d || 0x1c <= k <= 0x20 || k == 0x85 || k == 0xa0 || k == 0x1680 || 0x2000 <= k <= 0x200a
    || k == 0x2028 || k == 0x2029 || k == 0x202f || k == 0x205f || k == 0x3000
  }

  lemma SpacesOfPython(c: char)
    ensures var k := c as int;
            IsSpace(c) <==>
              || c in " \t\n\r"
              || k in {0x0b, 0x0c, 0x1c, 0x1d, 0x1e, 0x1f, 0x85, 0xa0, 0x1680, 0x2000, 0x2001, 0x2002, 0x2003, 0x2004,
                       0x2005, 0x2006, 0x2007, 0x2008, 0x2009, 0x200a, 0x2028, 0x2029, 0x202f, 0x205f, 0x3000}
  {
  }

  predicate Blank(s: string) { forall i :: 0 <= i < |s| ==> IsSpace(s[i]) }

  predicate IsAbsolute(path: string) { path != [] && path[0] == '/' }

  /** The bodies that are accepted: a valid name and exactly one of an existing
      absolute file and a warmable source. */
  predicate Acceptable(body: Body, env: Env) {
    && body.name.Text? && ValidExportName(body.name.text)
    && match (body.file, body.srcUrl)
       case (Text(path), Missing) => IsAbsolute(path) && env.isFile
       case (Missing, Text(url)) => !Blank(url) && env.withcache && DecoderFor(env.format).Some?
       case _ => false
  }

  /** The names and files of the request are among those the world lists (a world
      may list them all). */
  ghost predicate Foreseen(w: World, body: Body) {
    (body.name.Text? ==> body.name.text in w.names) && (body.file.Text? ==> body.file.text in w.paths)
  }

  // ----- registration

  /** The table after a registration: the row has these columns, with nothing
      fetched, no error and the port of its predecessor; no other row is touched. */
  ghost predicate RegisteredAs(rows: Rows, rows': Rows, name: string, file: string, readonly: bool, status: Status,
                               srcUrl: Option<string>, format: Option<string>, netbootRef: Option<string>) {
    && name in rows' && OthersStay(rows, rows', name)
    && var row := rows'[name];
       && row.file == file && row.readonly == readonly && row.status == status && row.srcUrl == srcUrl
       && row.format == format && row.netbootRef == netbootRef && row.bytesDone == 0 && row.error == None
       && row.nbdPort == if name in rows then rows[name].nbdPort else None
  }

  /** The table after a file was registered and the supervisor has written ports. */
  ghost predicate RegisteredAndServed(rows: Rows, rows': Rows, name: string, file: string, readonly: bool) {
    && name in rows' && (forall m :: m != name ==> (m in rows <==> m in rows'))
    && (forall m :: m != name && m in rows ==> m in rows' && SameButPort(rows[m], rows'[m]))
    && var row := rows'[name];
       && row.file == file && row.readonly == readonly && row.status.Ready? && row.srcUrl == None
       && row.format == None && row.netbootRef == None && row.bytesDone == 0 && row.error == None
  }

  lemma RegisteredThenServed(rows: Rows, between: Rows, rows': Rows, name: string, file: string, readonly: bool)
    requires RegisteredAs(rows, between, name, file, readonly, Ready, None, None, None) && PortsOnly(between, rows')
    ensures RegisteredAndServed(rows, rows', name, file, readonly)
  {
    assert forall m :: m in between ==> SameButPort(between[m], rows'[m]);
  }

  lemma UpsertRegisters(rows: Rows, name: string, file: string, readonly: bool, status: Status,
                        srcUrl: Option<string>, format: Option<string>, netbootRef: Option<string>)
    ensures RegisteredAs(rows, Upsert(rows, name, file, readonly, status, srcUrl, format, netbootRef),
                         name, file, readonly, status, srcUrl, format, netbootRef)
  {
  }

  /** After a registration of `file` that was served at once: the child of the name
      serves this file if and only if no child of the name was alive before or the
      one that was served this file already. */
  ghost predicate ServesSince(s: State, t: State, name: string, file: string, host: Host) {
    name in t.log.served
    && (t.log.served[name] == file <==> !Lives(s.sup, name, host) || FileOf(s.log.served, name) == file)
  }

  /** The upsert and the enqueue that both warm registrations perform. */
  method QueueWarm(d: Warmer, ghost h: nat, name: string, url: string, format: string, readonly: bool,
                   netbootRef: Option<string>)
    requires d.Valid() && d.phase.Serving? && h !in d.handlers && url != "" && name in d.world.names
    modifies d, d.store
    ensures d.Valid() && Reaches(d.world, old(d.View()), d.View())
    ensures d.handlers == old(d.handlers) && d.at == old(d.at) && d.phase == old(d.phase)
    ensures d.queue == Enqueued(old(d.queue), name)
    ensures RegisteredAs(old(d.store.rows), d.store.rows, name, d.world.imagesDir + "/" + name, readonly, Queued,
                         Some(url), Some(format), netbootRef)
  {
    ghost var s := d.View();
    StaysPut(d.world, s);
    d.store.UpsertExport(name, d.world.Image(name), readonly, Queued, Some(url), Some(format), netbootRef);
    UpsertRegisters(s.rows, name, d.world.Image(name), readonly, Queued, Some(url), Some(format), netbootRef);
    d.DidHandle(s, s, h, RegisterWarm(name, url, format, readonly, netbootRef));
    ghost var s1 := d.View();
    d.Enqueue(name);
    d.DidHandle(s, s1, h, WarmSystem.Enqueue);
    assert s.handlers[h := Enqueueing(name)] - {h} == s.handlers;
  }

  /** A snapshot of the ready rows and the reload it is for. */
  method RefreshServer(d: Warmer, ghost h: nat, host: Host) returns (error: Option<Error>)
    requires d.Valid() && d.phase.Serving? && h in d.handlers && d.handlers[h].Refreshing?
    modifies d, d.store, d.nbd
    ensures d.Valid() && Reaches(d.world, old(d.View()), d.View())
    ensures d.at == old(d.at) && d.phase == old(d.phase) && d.queue == old(d.queue)
    ensures d.handlers == if error.None? && old(d.handlers)[h].unlink.Some?
                          then old(d.handlers)[h := Unlinking(old(d.handlers)[h].name, old(d.handlers)[h].unlink.value)]
                          else old(d.handlers) - {h}
    ensures PortsOnly(old(d.store.rows), d.store.rows)
    ensures error.None? ==> d.nbd.procs.Keys == ReadyNames(d.store.rows)
    ensures error.None? ==> forall n :: n in ReadyNames(d.store.rows) ==>
              ServesSince(old(d.View()), d.View(), n, old(d.store.rows)[n].file, host)
  {
    ghost var s := d.View();
    StaysPut(d.world, s);
    var ready := d.store.ListReadyExports();
    d.DidHandle(s, s, h, Snapshot(ready));
    ghost var s1 := d.View();
    error := d.nbd.Reload(ready, host);
    d.DidHandle(s, s1, h, HandlerReload(host));
    ReloadServesReady(d.world.portBase, s.sup, s.rows, ready, host);
    ChildrenAfterReload(d.world, s, d.View(), ready, host);
  }

  lemma ChildrenAfterReload(w: World, s: State, t: State, ready: seq<string>, host: Host)
    requires SupInv(w.portBase, s.sup) && Lists(ready, ReadyNames(s.rows))
    requires var e := Supervision.Reload(w.portBase, s.sup, ready, host);
             t.log.served == StartedWith(s.log.served, FilesOf(s.rows), e) && t.rows == WritePorts(s.rows, e.writes)
    ensures Supervision.Reload(w.portBase, s.sup, ready, host).error.None? ==>
              forall n :: n in ReadyNames(t.rows) ==> n in s.rows && ServesSince(s, t, n, s.rows[n].file, host)
  {
    ReloadContract(w.portBase, s.sup, ready, host);
    ReloadServesReady(w.portBase, s.sup, s.rows, ready, host);
    var e := Supervision.Reload(w.portBase, s.sup, ready, host);
    if e.error.None? {
      forall n | n in ReadyNames(t.rows)
        ensures n in s.rows && ServesSince(s, t, n, s.rows[n].file, host)
      {
        assert n in e.sup.procs && n in ready;
        assert n in e.writes <==> !Lives(s.sup, n, host);
      }
    }
  }

  method PostExport(d: Warmer, ghost h: nat, body: Body, env: Env) returns (status: int)
    requires d.Valid() && d.phase.Serving? && h !in d.handlers && Foreseen(d.world, body)
    modifies d, d.store, d.nbd
    ensures d.Valid() && Reaches(d.world, old(d.View()), d.View())
    ensures d.handlers == old(d.handlers) && status in {200, 400, 500}
    ensures status == 400 <==> !Acceptable(body, env)
    ensures status != 400 <==>
              && body.name.Text? && ValidExportName(body.name.text)
              && if body.srcUrl.Missing? then body.file.Text? && "/" <= body.file.text && env.isFile
                 else body.file.Missing? && body.srcUrl.Text? && !Blank(body.srcUrl.text)
                      && env.withcache && SupportedFormat(env.format)
    ensures status == 400 ==> d.View() == old(d.View())
    ensures Acceptable(body, env) && body.srcUrl.Text? ==>
              var name := body.name.text;
              && status == 200 && name in d.queue && d.queue == Enqueued(old(d.queue), name)
              && RegisteredAs(old(d.store.rows), d.store.rows, name, d.world.imagesDir + "/" + name, body.readonly,
                              Queued, Some(body.srcUrl.text), Some(env.format), env.netbootRef)
    ensures Acceptable(body, env) && body.file.Text? ==>
              && RegisteredAndServed(old(d.store.rows), d.store.rows, body.name.text, body.file.text, body.readonly)
              && (status == 200 ==> d.nbd.procs.Keys == ReadyNames(d.store.rows) && body.name.text in d.nbd.procs)
              && (status == 200 ==> ServesSince(old(d.View()), d.View(), body.name.text, body.file.text, env.host))
  {
    ghost var s := d.View();
    StaysPut(d.world, s);
    DecodedIsTheImage(d.world, "", env.format);
    if !body.name.Text? || !ValidExportName(body.name.text) {
      return 400;
    }
    var name := body.name.text;
    if body.file.Missing? == body.srcUrl.Missing? {
      return 400;
    }
    if !body.file.Missing? {
      if body.file.NotText? || !IsAbsolute(body.file.text) || !env.isFile {
        return 400;
      }
      status := RegisterExisting(d, h, name, body.file.text, body.readonly, env.host);
      return;
    }
    if body.srcUrl.NotText? || Blank(body.srcUrl.text) || !env.withcache || DecoderFor(env.format).None? {
      return 400;
    }
    QueueWarm(d, h, name, body.srcUrl.text, env.format, body.readonly, env.netbootRef);
    return 200;
  }

  /** A file the operator put there is ready at once; a child that fails to
      start makes the request fail, the row stays. */
  method RegisterExisting(d: Warmer, ghost h: nat, name: string, file: string, readonly: bool, host: Host)
    returns (status: int)
    requires d.Valid() && d.phase.Serving? && h !in d.handlers && file in d.world.paths
    modifies d, d.store, d.nbd
    ensures d.Valid() && Reaches(d.world, old(d.View()), d.View())
    ensures d.handlers == old(d.handlers) && status in {200, 500}
    ensures RegisteredAndServed(old(d.store.rows), d.store.rows, name, file, readonly)
    ensures status == 200 ==> d.nbd.procs.Keys == ReadyNames(d.store.rows) && name in d.nbd.procs
    ensures status == 200 ==> ServesSince(old(d.View()), d.View(), name, file, host)
  {
    ghost var s := d.View();
    StaysPut(d.world, s);
    d.store.UpsertExport(name, file, readonly, Ready, None, None, None);
    UpsertRegisters(s.rows, name, file, readonly, Ready, None, None, None);
    d.DidHandle(s, s, h, RegisterFile(name, file, readonly));
    ghost var s1 := d.View();
    var error := RefreshServer(d, h, host);
    RunsOn(d.world, s, s1, d.View());
    assert s.handlers[h := Refreshing(name, None)] - {h} == s.handlers;
    assert SameButPort(s1.rows[name], d.store.rows[name]);
    RegisteredThenServed(s.rows, s1.rows, d.store.rows, name, file, readonly);
    status := if error.None? then 200 else 500;
  }

  /** The admin form: the name comes from the source. `trimmed` is the stripped
      form field, `basename` what the URL parser finds in it. */
  method UiCreateExport(d: Warmer, ghost h: nat, trimmed: string, basename: string, env: Env)
    returns (created: Option<string>)
    requires d.Valid() && d.phase.Serving? && h !in d.handlers
    requires Derived(basename).Some? ==> Derived(basename).value in d.world.names
    modifies d, d.store
    ensures d.Valid() && Reaches(d.world, old(d.View()), d.View())
    ensures d.handlers == old(d.handlers)
    ensures created == if trimmed != "" && env.withcache then Derived(basename) else None
    ensures created.None? ==> d.View() == old(d.View())
    ensures created.Some? ==>
              && StrictName(created.value) && ImageName(created.value) && created.value in d.queue
              && RegisteredAs(old(d.store.rows), d.store.rows, created.value, d.world.imagesDir + "/" + created.value,
                              true, Queued, Some(trimmed), Some(env.format), None)
  {
    StaysPut(d.world, d.View());
    if trimmed == "" {
      return None;
    }
    var name := DeriveExportName(basename);
    DerivedIsSound(basename);
    if name.None? || !env.withcache {
      return None;
    }
    QueueWarm(d, h, name.value, trimmed, env.format, true, None);
    return name;
  }

  // ----- deletion

  lemma UpdateTwice<K, V>(m: map<K, V>, k: K, first: V, second: V)
    ensures m[k := first][k := second] == m[k := second]
  {
  }

  lemma UpdateAndRemove<K, V>(m: map<K, V>, k: K, v: V)
    requires k !in m
    ensures m[k := v] - {k} == m
  {
  }

  method UnlinkImage(d: Warmer, ghost h: nat, path: string)
    requires d.Valid() && d.phase.Serving? && h in d.handlers && d.handlers[h].Unlinking? && d.handlers[h].path == path
    modifies d, d.disk
    ensures d.Valid() && Reaches(d.world, old(d.View()), d.View())
    ensures d.handlers == old(d.handlers) - {h} && d.phase == old(d.phase)
    ensures d.disk.files == old(d.disk.files) - {path}
  {
    ghost var s := d.View();
    StaysPut(d.world, s);
    d.disk.Unlink(path);
    d.DidHandle(s, s, h, Unlink);
  }

  /** The file of the row is the product of a warm. */
  predicate HasImage(row: Row) { row.srcUrl.Some? && row.file != "" }

  /** Reads the row, then drops it: the read comes first because the unlink needs
      its columns. */
  method DropRow(d: Warmer, ghost h: nat, name: string) returns (existed: bool, unlink: Option<string>)
    requires d.Valid() && d.phase.Serving? && h !in d.handlers
    modifies d, d.store
    ensures d.Valid() && Reaches(d.world, old(d.View()), d.View())
    ensures d.phase == old(d.phase) && existed == (name in old(d.store.rows))
    ensures d.store.rows == old(d.store.rows) - {name}
    ensures d.handlers == old(d.handlers)[h := Refreshing(name, unlink)]
    ensures unlink == if name in old(d.store.rows) && HasImage(old(d.store.rows)[name])
                      then Some(old(d.store.rows)[name].file) else None
  {
    ghost var s := d.View();
    StaysPut(d.world, s);
    var row := d.store.GetExport(name);
    d.DidHandle(s, s, h, BeginDelete(name));
    ghost var s1 := d.View();
    existed := d.store.DeleteExport(name);
    d.DidHandle(s, s1, h, DeleteRow);
    unlink := UnlinkAfter(existed, row);
    UpdateTwice(s.handlers, h, Deleting(name, row), Refreshing(name, unlink));
  }

  /** DELETE /exports/{name} and the admin form: 204 and 404 say whether there
      was a row. The row is gone in any case; the image of a warm is removed
      unless the reload raised, an operator's file never. */
  method DeleteExport(d: Warmer, ghost h: nat, name: string, host: Host) returns (status: int)
    requires d.Valid() && d.phase.Serving? && h !in d.handlers
    modifies d, d.store, d.nbd, d.disk
    ensures d.Valid() && Reaches(d.world, old(d.View()), d.View())
    ensures d.handlers == old(d.handlers) && status in {204, 404, 500}
    ensures status != 500 ==> (status == 204 <==> name in old(d.store.rows))
    ensures name !in d.store.rows && PortsOnly(old(d.store.rows) - {name}, d.store.rows)
    ensures status != 500 ==> d.nbd.procs.Keys == ReadyNames(d.store.rows)
    ensures d.disk.files == if status == 204 && HasImage(old(d.store.rows)[name])
                            then old(d.disk.files) - {old(d.store.rows)[name].file} else old(d.disk.files)
  {
    ghost var s := d.View();
    var existed, unlink := DropRow(d, h, name);
    ghost var s1 := d.View();
    var error := RefreshServer(d, h, host);
    RunsOn(d.world, s, s1, d.View());
    if error.Some? {
      UpdateAndRemove(s.handlers, h, Refreshing(name, unlink));
      return 500;
    }
    if unlink.Some? {
      ghost var s2 := d.View();
      UnlinkImage(d, h, unlink.value);
      RunsOn(d.world, s, s2, d.View());
      UpdateTwice(s.handlers, h, Refreshing(name, unlink), Unlinking(name, unlink.value));
      UpdateAndRemove(s.handlers, h, Unlinking(name, unlink.value));
    } else {
      UpdateAndRemove(s.handlers, h, Refreshing(name, unlink));
    }
    status := if existed then 204 else 404;
  }

  // ----- start-up

  /** The start-up hook: start a child for every ready row, start the worker, and
      enqueue every row that is queued or was interrupted. A child that cannot
      be started stops the daemon. */
  method Lifespan(d: Warmer, host: Host) returns (up: bool)
    requires d.Valid() && d.phase.Down? && d.queue == [] && d.at == Idle && d.handlers == map[] && d.nbd.Maps() == EMPTY
    modifies d, d.store, d.nbd
    ensures up ==> d.Valid() && Reaches(d.world, old(d.View()), d.View())
    ensures up ==> d.phase == Serving && d.at == Idle
    ensures up ==> NoDuplicates(d.queue) && forall n :: n in d.queue <==> n in PendingNames(d.store.rows)
    ensures up ==> d.nbd.procs.Keys == ReadyNames(d.store.rows)
    ensures PortsOnly(old(d.store.rows), d.store.rows)
  {
    ghost var s := d.View();
    StaysPut(d.world, s);
    var ready := d.store.ListReadyExports();
    var error := d.nbd.Start(ready, host);
    StartServes(d.world.portBase, s.rows, ready, host);
    if error.Some? {
      return false;
    }
    var pending := d.store.ListPendingExports();
    d.DidSystem(s, s, Boot(ready, pending, host));
    ghost var s1 := d.View();
    ResumePending(d, pending);
    RunsOn(d.world, s, s1, d.View());
    return true;
  }

  lemma StartServes(base: int, rows: Rows, ready: seq<string>, host: Host)
    requires Lists(ready, ReadyNames(rows))
    ensures var e := SpawnAll(base, EMPTY, ready, host);
            var rows' := WritePorts(rows, e.writes);
            && PortsOnly(rows, rows') && PendingNames(rows') == PendingNames(rows)
            && (e.error.None? ==> e.sup.procs.Keys == ReadyNames(rows'))
  {
    var e := SpawnAll(base, EMPTY, ready, host);
    BootPorts(base, ready, host, rows);
    WritePortsIsPortsOnly(rows, e.writes);
    PortsOnlyKeepsStatus(rows, WritePorts(rows, e.writes));
    assert NameSet(ready) == ReadyNames(rows);
  }

  method ResumePending(d: Warmer, pending: seq<string>)
    requires d.Valid() && d.phase == Resuming(pending) && d.queue == []
    modifies d
    ensures d.Valid() && Reaches(d.world, old(d.View()), d.View())
    ensures d.phase == Serving && d.at == old(d.at) && d.handlers == old(d.handlers)
    ensures NoDuplicates(d.queue) && forall n :: n in d.queue <==> n in pending
  {
    ghost var s := d.View();
    StaysPut(d.world, s);
    for k := 0 to |pending|
      invariant d.Valid() && Reaches(d.world, s, d.View())
      invariant d.phase == Resuming(pending[k..]) && d.at == old(d.at) && d.handlers == old(d.handlers)
      invariant NoDuplicates(d.queue) && forall n :: n in d.queue <==> n in pending[..k]
    {
      ghost var s1 := d.View();
      EnqueuedFacts(d.queue, pending[k]);
      assert pending[..k + 1] == pending[..k] + [pending[k]];
      d.Enqueue(pending[k]);
      d.DidSystem(s, s1, Resume);
    }
    ghost var s2 := d.View();
    assert pending[..|pending|] == pending;
    d.DidSystem(s, s2, Resume);
  }
}
