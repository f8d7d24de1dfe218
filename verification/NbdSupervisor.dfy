/**
 The supervisor of the nbdkit children as the object it is: two maps updated in
 loops (class NbdServer of src/nbdmux/server.py). Each method is proved against
 the functions of module Supervision, whose contracts say what that means.
 */
module NbdSupervisor {
  import opened Wrappers
  import opened ExportStore
  import opened Supervision

  class NbdServer {
    const portBase: int
    const store: Store
    var procs: map<string, nat>
    var ports: map<string, int>

    ghost function Maps(): Sup
      reads this
    {
      Sup(procs, ports)
    }

    ghost predicate Valid()
      reads this
    {
      SupInv(portBase, Maps())
    }

    constructor (portBase: int, store: Store)
      ensures Valid() && Maps() == EMPTY && this.portBase == portBase && this.store == store
    {
      this.portBase, this.store := portBase, store;
      procs, ports := map[], map[];
    }

    method AllocatePort(name: string, host: Host) returns (r: Result<int, Error>)
      ensures r == ScanPorts(portBase, portBase + WINDOW, ports.Values, name, host)
      ensures r.Ok? ==>
                && portBase <= r.value < portBase + 256 && 0 <= r.value <= 65535
                && r.value !in ports.Values && host.free(name, r.value)
                && forall k :: portBase <= k < r.value ==> Unavailable(k, ports.Values, name, host)
    {
      ScanIsLeast(portBase, portBase + WINDOW, ports.Values, name, host);
      ScanGivesUnclaimed(portBase, portBase + WINDOW, ports.Values, name, host);
      var used := ports.Values;
      for p := portBase to portBase + WINDOW
        invariant ScanPorts(portBase, portBase + WINDOW, used, name, host)
               == ScanPorts(p, portBase + WINDOW, used, name, host)
      {
        if p in used {
          continue;
        }
        if !CanBind(p) {
          return Err(PortOutOfRange(p));
        }
        if host.free(name, p) {
          return Ok(p);
        }
      }
      return Err(NoFreePort);
    }

    method SpawnExport(name: string, host: Host) returns (error: Option<Error>)
      requires Valid()
      modifies this, store
      ensures Valid()
      ensures var e := Spawn(portBase, old(Maps()), name, host);
              Maps() == e.sup && error == e.error && store.rows == WritePorts(old(store.rows), e.writes)
    {
      SpawnFacts(portBase, Maps(), name, host);
      WritePortsCompose(store.rows, map[], map[]);
      if name in procs && host.alive(name) {
        return None;
      }
      if name in procs {
        procs := procs - {name};
        ports := ports - {name};
      }
      var port := AllocatePort(name, host);
      if port.Err? {
        return Some(port.error);
      }
      if !host.comesUp(name) {
        return Some(ChildDied(name));
      }
      procs := procs[name := host.pid(name)];
      ports := ports[name := port.value];
      store.UpdateNbdPort(name, Some(port.value));
      return None;
    }

    method TerminateExport(name: string)
      modifies this, store
      ensures Maps() == old(Maps()).Without(name)
      ensures store.rows == WritePorts(old(store.rows), map[name := None])
    {
      WritePortsCompose(store.rows, map[], map[]);
      procs := procs - {name};
      ports := ports - {name};
      store.UpdateNbdPort(name, None);
    }

    /** The spawning loop of `start` and `reload`. */
    method SpawnEach(names: seq<string>, host: Host) returns (error: Option<Error>)
      requires Valid()
      modifies this, store
      ensures Valid()
      ensures var e := SpawnAll(portBase, old(Maps()), names, host);
              Maps() == e.sup && error == e.error && store.rows == WritePorts(old(store.rows), e.writes)
    {
      ghost var maps0, rows0 := Maps(), store.rows;
      WritePortsCompose(rows0, map[], map[]);
      for k := 0 to |names|
        invariant Valid()
        invariant SpawnAll(portBase, maps0, names[..k], host).error.None?
        invariant Maps() == SpawnAll(portBase, maps0, names[..k], host).sup
        invariant store.rows == WritePorts(rows0, SpawnAll(portBase, maps0, names[..k], host).writes)
      {
        ghost var before := SpawnAll(portBase, maps0, names[..k], host);
        assert names[..k + 1][..k] == names[..k];
        WritePortsCompose(rows0, before.writes, Spawn(portBase, before.sup, names[k], host).writes);
        error := SpawnExport(names[k], host);
        if error.Some? {
          SpawnAllStops(portBase, maps0, names, k + 1, host);
          return;
        }
      }
      assert names[..|names|] == names;
      return None;
    }

    method Start(names: seq<string>, host: Host) returns (error: Option<Error>)
      requires Valid()
      modifies this, store
      ensures Valid()
      ensures var e := SpawnAll(portBase, old(Maps()), names, host);
              Maps() == e.sup && error == e.error && store.rows == WritePorts(old(store.rows), e.writes)
    {
      error := SpawnEach(names, host);
    }

    /** The killing loop of `reload` (and, with nothing desired, of `stop`). */
    method TerminateOthers(desired: set<string>)
      requires Valid()
      modifies this, store
      ensures Valid()
      ensures var e := KillUndesired(old(Maps()), desired);
              Maps() == e.sup && store.rows == WritePorts(old(store.rows), e.writes)
    {
      ghost var maps0, rows0 := Maps(), store.rows;
      NothingKilled(maps0, rows0);
      var todo := procs.Keys;
      while todo != {}
        invariant todo <= maps0.procs.Keys
        invariant KilledSoFar(maps0, rows0, maps0.procs.Keys - todo - desired, Maps(), store.rows)
        decreases todo
      {
        var name :| name in todo;
        ghost var gone := maps0.procs.Keys - todo - desired;
        OneLessToDo(maps0.procs.Keys, todo, desired, name);
        todo := todo - {name};
        if name !in desired {
          OneMoreKilled(maps0, rows0, gone, Maps(), store.rows, name);
          TerminateExport(name);
        }
      }
      AllKilled(portBase, maps0, rows0, desired, Maps(), store.rows);
    }

    method Reload(names: seq<string>, host: Host) returns (error: Option<Error>)
      requires Valid()
      modifies this, store
      ensures Valid()
      ensures var e := Supervision.Reload(portBase, old(Maps()), names, host);
              Maps() == e.sup && error == e.error && store.rows == WritePorts(old(store.rows), e.writes)
    {
      ghost var maps0, rows0 := Maps(), store.rows;
      var desired := [];
      for k := 0 to |names|
        invariant desired == Distinct(names[..k])
      {
        assert names[..k + 1][..k] == names[..k];
        if names[k] !in desired {
          desired := desired + [names[k]];
        }
      }
      assert names[..|names|] == names;
      ghost var killed := KillUndesired(maps0, NameSet(names));
      WritePortsCompose(rows0, killed.writes, SpawnAll(portBase, killed.sup, desired, host).writes);
      TerminateOthers(set n | n in names);
      error := SpawnEach(desired, host);
    }

    method Stop()
      requires Valid()
      modifies this, store
      ensures Valid() && Maps() == EMPTY
      ensures store.rows == WritePorts(old(store.rows), Cleared(old(procs).Keys))
    {
      TerminateOthers({});
      assert old(procs).Keys - {} == old(procs).Keys;
    }
  }

  /** The killing loop after the names in `gone`. */
  ghost predicate KilledSoFar(sup: Sup, rows: Rows, gone: set<string>, sup': Sup, rows': Rows) {
    sup' == Sup(sup.procs - gone, sup.ports - gone) && rows' == WritePorts(rows, Cleared(gone))
  }

  lemma OneLessToDo(all: set<string>, todo: set<string>, desired: set<string>, name: string)
    requires todo <= all && name in todo
    ensures all - (todo - {name}) - desired
         == if name in desired then all - todo - desired else all - todo - desired + {name}
    ensures todo == all ==> all - todo - desired == {}
  {
  }

  lemma NothingKilled(sup: Sup, rows: Rows)
    ensures forall gone :: gone == {} ==> KilledSoFar(sup, rows, gone, sup, rows)
  {
    assert sup.procs - {} == sup.procs && sup.ports - {} == sup.ports;
    WritePortsCompose(rows, map[], map[]);
    assert Cleared({}) == map[];
  }

  lemma OneMoreKilled(sup: Sup, rows: Rows, gone: set<string>, sup': Sup, rows': Rows, name: string)
    requires KilledSoFar(sup, rows, gone, sup', rows')
    ensures KilledSoFar(sup, rows, gone + {name}, sup'.Without(name), WritePorts(rows', map[name := None]))
  {
    assert sup.procs - gone - {name} == sup.procs - (gone + {name});
    assert sup.ports - gone - {name} == sup.ports - (gone + {name});
    WritePortsCompose(rows, Cleared(gone), map[name := None]);
    assert Cleared(gone) + map[name := None] == Cleared(gone + {name});
  }

  lemma AllKilled(base: int, sup: Sup, rows: Rows, desired: set<string>, sup': Sup, rows': Rows)
    requires SupInv(base, sup) && KilledSoFar(sup, rows, sup.procs.Keys - {} - desired, sup', rows')
    ensures var e := KillUndesired(sup, desired);
            sup' == e.sup && rows' == WritePorts(rows, e.writes) && SupInv(base, sup')
  {
    assert sup.procs.Keys - {} - desired == sup.procs.Keys - desired;
    KillFacts(base, sup, desired);
  }

  /** Once an exception is raised the rest of the list makes no difference. */
  lemma {:induction false} SpawnAllStops(base: int, sup: Sup, names: seq<string>, k: nat, host: Host)
    requires k <= |names| && SpawnAll(base, sup, names[..k], host).error.Some?
    ensures SpawnAll(base, sup, names, host) == SpawnAll(base, sup, names[..k], host)
    decreases |names|
  {
    if k == |names| {
      assert names[..k] == names;
    } else {
      var init := names[..|names| - 1];
      assert init[..k] == names[..k];
      SpawnAllStops(base, sup, init, k, host);
    }
  }
}
