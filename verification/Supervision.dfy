/**
 What the supervisor of the nbdkit children does to its two maps, as functions
 (class NbdServer of src/nbdmux/server.py; the class itself is in
 NbdSupervisor.dfy). Everything the host decides is an oracle.
 */
module Supervision {
  import opened Wrappers

  const WINDOW := 256
  const MAX_PORT := 65535

  /** `_procs` (name to process) and `_ports` (name to TCP port). */
  datatype Sup = Sup(procs: map<string, nat>, ports: map<string, int>) {
    function Without(name: string): Sup { Sup(procs - {name}, ports - {name}) }
  }

  const EMPTY := Sup(map[], map[])

  /** The host during one call: does the process recorded for a name still run,
      is a port free when it is probed for a name, does a new child come up and
      outlive its first 0.2 seconds, and which process does it get. */
  datatype Host = Host(alive: string -> bool, free: (string, int) -> bool, comesUp: string -> bool, pid: string -> nat)

  datatype Error = NoFreePort | PortOutOfRange(port: int) | ChildDied(name: string)

  /** The result of a supervisor call: maps, `nbd_port` writes, exception. */
  datatype Effect = Effect(sup: Sup, writes: map<string, Option<int>>, error: Option<Error>)

  ghost predicate SupInv(base: int, sup: Sup) {
    && sup.procs.Keys == sup.ports.Keys
    && (forall n :: n in sup.ports ==> base <= sup.ports[n] < base + WINDOW)
    && (forall m, n :: m in sup.ports && n in sup.ports && sup.ports[m] == sup.ports[n] ==> m == n)
  }

  // ----- port allocation

  predicate CanBind(p: int) { 0 <= p <= MAX_PORT }

  /** The scan from `p` up to `end` for a child of `name`: a claimed port is skipped, binding outside
      0..65535 raises, a busy port is skipped. */
  function ScanPorts(p: int, end: int, used: set<int>, name: string, host: Host): Result<int, Error>
    decreases end - p
  {
    if p >= end then Err(NoFreePort)
    else if p in used then ScanPorts(p + 1, end, used, name, host)
    else if !CanBind(p) then Err(PortOutOfRange(p))
    else if host.free(name, p) then Ok(p)
    else ScanPorts(p + 1, end, used, name, host)
  }

  predicate Unavailable(p: int, used: set<int>, name: string, host: Host) {
    p in used || (CanBind(p) && !host.free(name, p))
  }

  /** The allocator returns the least port of the window that is neither claimed
      nor taken; it runs out only when there is none, and trips over the 16-bit
      limit only when it reaches an unclaimed port beyond it. */
  lemma {:induction false} ScanContract(p: int, end: int, used: set<int>, name: string, host: Host)
    ensures forall q :: ScanPorts(p, end, used, name, host) == Ok(q) <==>
              p <= q < end && q !in used && CanBind(q) && host.free(name, q)
              && forall k :: p <= k < q ==> Unavailable(k, used, name, host)
    ensures ScanPorts(p, end, used, name, host) == Err(NoFreePort) <==>
              forall k :: p <= k < end ==> Unavailable(k, used, name, host)
    ensures forall q :: ScanPorts(p, end, used, name, host) == Err(PortOutOfRange(q)) <==>
              p <= q < end && q !in used && !CanBind(q)
              && forall k :: p <= k < q ==> Unavailable(k, used, name, host)
    decreases end - p
  {
    if p < end {
      ScanContract(p + 1, end, used, name, host);
      if Unavailable(p, used, name, host) {
        ScanSkips(p, end, used, name, host);
      }
    }
  }

  lemma ScanIsLeast(p: int, end: int, used: set<int>, name: string, host: Host)
    ensures var r := ScanPorts(p, end, used, name, host);
            r.Ok? ==> r.value !in used && CanBind(r.value) && host.free(name, r.value)
                      && forall k :: p <= k < r.value ==> Unavailable(k, used, name, host)
  {
    ScanContract(p, end, used, name, host);
  }

  lemma ScanSkips(p: int, end: int, used: set<int>, name: string, host: Host)
    requires p < end && Unavailable(p, used, name, host)
    ensures ScanPorts(p, end, used, name, host) == ScanPorts(p + 1, end, used, name, host)
  {
  }

  lemma ScanGivesUnclaimed(p: int, end: int, used: set<int>, name: string, host: Host)
    ensures var r := ScanPorts(p, end, used, name, host);
            r.Ok? ==> p <= r.value < end && r.value !in used
    decreases end - p
  {
  }

  // ----- the operations

  /** Reaping a dead entry so that its port can be reused. */
  function Reaped(sup: Sup, name: string): Sup {
    if name in sup.procs then sup.Without(name) else sup
  }

  function Launch(base: int, sup: Sup, name: string, host: Host): Effect {
    match ScanPorts(base, base + WINDOW, sup.ports.Values, name, host)
    case Err(e) => Effect(sup, map[], Some(e))
    case Ok(port) =>
      if host.comesUp(name) then
        Effect(Sup(sup.procs[name := host.pid(name)], sup.ports[name := port]), map[name := Some(port)], None)
      else Effect(sup, map[], Some(ChildDied(name)))
  }

  /** The name has a child, and it lives. */
  predicate Lives(sup: Sup, name: string, host: Host) { name in sup.procs && host.alive(name) }

  function Spawn(base: int, sup: Sup, name: string, host: Host): Effect {
    if Lives(sup, name, host) then Effect(sup, map[], None)
    else Launch(base, Reaped(sup, name), name, host)
  }

  /** Spawns in order and stops at the first exception. */
  function SpawnAll(base: int, sup: Sup, names: seq<string>, host: Host): Effect {
    if names == [] then Effect(sup, map[], None)
    else
      var before := SpawnAll(base, sup, names[..|names| - 1], host);
      if before.error.Some? then before
      else
        var last := Spawn(base, before.sup, names[|names| - 1], host);
        Effect(last.sup, before.writes + last.writes, last.error)
  }

  function KillUndesired(sup: Sup, desired: set<string>): Effect {
    var doomed := sup.procs.Keys - desired;
    Effect(Sup(sup.procs - doomed, sup.ports - doomed), Cleared(doomed), None)
  }

  /** The port column of each of `names` set to NULL. */
  function Cleared(names: set<string>): map<string, Option<int>> { map n | n in names :: None }

  /** The keys of a dict built from `names`, in insertion order. */
  function Distinct(names: seq<string>): seq<string> {
    if names == [] then []
    else
      var before := Distinct(names[..|names| - 1]);
      if names[|names| - 1] in before then before else before + [names[|names| - 1]]
  }

  function NameSet(names: seq<string>): set<string> { set n | n in names }

  function Reload(base: int, sup: Sup, names: seq<string>, host: Host): Effect {
    var killed := KillUndesired(sup, NameSet(names));
    var spawned := SpawnAll(base, killed.sup, Distinct(names), host);
    Effect(spawned.sup, killed.writes + spawned.writes, spawned.error)
  }

  lemma {:induction false} DistinctFacts(names: seq<string>)
    ensures NameSet(Distinct(names)) == NameSet(names)
    ensures forall n :: n in Distinct(names) <==> n in names
    ensures forall i, j :: 0 <= i < j < |Distinct(names)| ==> Distinct(names)[i] != Distinct(names)[j]
  {
    if names != [] {
      DistinctFacts(names[..|names| - 1]);
      assert names == names[..|names| - 1] + [names[|names| - 1]];
    }
  }

  /** A listing without repetitions is spawned in its own order. */
  lemma {:induction false} DistinctKeepsAListing(names: seq<string>)
    requires forall i, j :: 0 <= i < j < |names| ==> names[i] != names[j]
    ensures Distinct(names) == names
  {
    if names != [] {
      var init, last := names[..|names| - 1], names[|names| - 1];
      DistinctKeepsAListing(init);
      assert last !in init;
      assert names == init + [last];
    }
  }

  // ----- the invariant over every operation

  /** An entry of the maps is the same in both supervisors. */
  predicate SameEntry(a: Sup, b: Sup, n: string) {
    && (n in a.procs <==> n in b.procs) && (n in a.ports <==> n in b.ports)
    && (n in a.procs ==> n in b.procs && a.procs[n] == b.procs[n])
    && (n in a.ports ==> n in b.ports && a.ports[n] == b.ports[n])
  }

  /** One spawn: the other entries stay, the name runs unless an exception is
      raised, a live child stays as it is, any other that runs is the new process
      and has its port written. */
  ghost predicate SpawnStep(base: int, sup: Sup, name: string, host: Host, e: Effect) {
    && SupInv(base, e.sup)
    && (e.error.None? <==> name in e.sup.procs)
    && (forall n :: n != name ==> SameEntry(sup, e.sup, n))
    && (Lives(sup, name, host) ==> e.sup == sup)
    && (forall n :: n in e.writes <==> n == name && n in e.sup.ports && !Lives(sup, name, host))
    && (name in e.writes ==> e.writes[name] == Some(e.sup.ports[name]) && e.sup.procs[name] == host.pid(name))
  }

  lemma ReapedFacts(base: int, sup: Sup, name: string)
    requires SupInv(base, sup)
    ensures SupInv(base, Reaped(sup, name)) && name !in Reaped(sup, name).procs
    ensures forall n :: n != name ==> SameEntry(sup, Reaped(sup, name), n)
    ensures Reaped(sup, name).procs.Keys == sup.procs.Keys - {name}
  {
  }

  lemma LaunchFacts(base: int, sup: Sup, name: string, host: Host)
    requires SupInv(base, sup) && name !in sup.procs
    ensures SpawnStep(base, sup, name, host, Launch(base, sup, name, host))
  {
    ScanGivesUnclaimed(base, base + WINDOW, sup.ports.Values, name, host);
    var e := Launch(base, sup, name, host);
    if e.error.None? {
      var port := e.sup.ports[name];
      assert port !in sup.ports.Values;
      forall n | n in sup.ports
        ensures sup.ports[n] != port
      {
        assert sup.ports[n] in sup.ports.Values;
      }
    }
  }

  lemma StepAfterReap(base: int, sup: Sup, reaped: Sup, name: string, host: Host, e: Effect)
    requires !Lives(sup, name, host)
    requires SupInv(base, reaped) && name !in reaped.procs
    requires forall n :: n != name ==> SameEntry(sup, reaped, n)
    requires SpawnStep(base, reaped, name, host, e)
    ensures SpawnStep(base, sup, name, host, e)
  {
    forall n | n != name
      ensures SameEntry(sup, e.sup, n)
    {
      assert SameEntry(sup, reaped, n) && SameEntry(reaped, e.sup, n);
    }
  }

  lemma SpawnFacts(base: int, sup: Sup, name: string, host: Host)
    requires SupInv(base, sup)
    ensures SpawnStep(base, sup, name, host, Spawn(base, sup, name, host))
  {
    if !Lives(sup, name, host) {
      var reaped := Reaped(sup, name);
      ReapedFacts(base, sup, name);
      LaunchFacts(base, reaped, name, host);
      StepAfterReap(base, sup, reaped, name, host, Launch(base, reaped, name, host));
    }
  }

  /** A child of another name has the port. */
  predicate OthersPort(sup: Sup, name: string, p: int) {
    exists n :: n in sup.ports && n != name && sup.ports[n] == p
  }

  /** The port is nobody else's and free when it is probed, and the probe trips over
      none before it. */
  ghost predicate Available(base: int, sup: Sup, name: string, host: Host, q: int) {
    && base <= q < base + WINDOW && CanBind(q) && host.free(name, q) && !OthersPort(sup, name, q)
    && forall k :: base <= k < q ==> CanBind(k) || OthersPort(sup, name, k)
  }

  ghost predicate PortToBeHad(base: int, sup: Sup, name: string, host: Host) {
    exists q :: Available(base, sup, name, host, q)
  }

  lemma OthersPorts(base: int, sup: Sup, name: string, p: int)
    requires SupInv(base, sup)
    ensures p in Reaped(sup, name).ports.Values <==> OthersPort(sup, name, p)
  {
    var rest := Reaped(sup, name).ports;
    if n :| n in sup.ports && n != name && sup.ports[n] == p {
      assert n in rest && rest[n] == p;
    }
  }

  lemma {:induction false} FirstFree(p: int, end: int, q: int, used: set<int>, name: string, host: Host)
    requires p <= q < end && q !in used && CanBind(q) && host.free(name, q)
    requires forall k :: p <= k < q ==> CanBind(k) || k in used
    ensures ScanPorts(p, end, used, name, host).Ok?
    decreases q - p
  {
    if p < q {
      FirstFree(p + 1, end, q, used, name, host);
    }
  }

  lemma ScanSucceedsIff(base: int, sup: Sup, name: string, host: Host)
    requires SupInv(base, sup)
    ensures ScanPorts(base, base + WINDOW, Reaped(sup, name).ports.Values, name, host).Ok? <==>
              PortToBeHad(base, sup, name, host)
  {
    var used := Reaped(sup, name).ports.Values;
    var found := ScanPorts(base, base + WINDOW, used, name, host);
    forall p
      ensures p in used <==> OthersPort(sup, name, p)
    {
      OthersPorts(base, sup, name, p);
    }
    if found.Ok? {
      ScanIsLeast(base, base + WINDOW, used, name, host);
      ScanGivesUnclaimed(base, base + WINDOW, used, name, host);
      forall k | base <= k < found.value
        ensures CanBind(k) || OthersPort(sup, name, k)
      {
        assert Unavailable(k, used, name, host);
      }
      assert Available(base, sup, name, host, found.value);
    }
    if q :| Available(base, sup, name, host, q) {
      FirstFree(base, base + WINDOW, q, used, name, host);
    }
  }

  /** Exactly when a spawn succeeds: the child of the name lives, or a port can be
      had and the new child comes up. */
  lemma SpawnSucceedsIff(base: int, sup: Sup, name: string, host: Host)
    requires SupInv(base, sup)
    ensures var e := Spawn(base, sup, name, host);
            && (e.error.None? <==>
                  Lives(sup, name, host) || (PortToBeHad(base, sup, name, host) && host.comesUp(name)))
            && (e.error == Some(ChildDied(name)) <==>
                  !Lives(sup, name, host) && PortToBeHad(base, sup, name, host) && !host.comesUp(name))
  {
    ScanSucceedsIff(base, sup, name, host);
    ScanNeverBlamesAChild(base, base + WINDOW, Reaped(sup, name).ports.Values, name, host);
  }

  /** Killing what is not desired leaves the desired entries alone. */
  ghost predicate Killed(base: int, sup: Sup, desired: set<string>, e: Effect) {
    && SupInv(base, e.sup)
    && (forall n :: n in desired ==> SameEntry(sup, e.sup, n))
    && (forall n :: n !in desired ==> n !in e.sup.procs && n !in e.sup.ports)
    && (forall n :: n in e.writes <==> n in sup.procs && n !in desired)
    && (forall n :: n in e.writes ==> e.writes[n] == None)
  }

  lemma KillFacts(base: int, sup: Sup, desired: set<string>)
    requires SupInv(base, sup)
    ensures Killed(base, sup, desired, KillUndesired(sup, desired))
  {
  }

  /** The child of `n` was started by the call, and its port is written. */
  predicate Fresh(e: Effect, n: string, host: Host) {
    && n in e.writes && n in e.sup.procs && n in e.sup.ports
    && e.writes[n] == Some(e.sup.ports[n]) && e.sup.procs[n] == host.pid(n)
  }

  ghost predicate FailedAt(sup: Sup, after: Sup, names: seq<string>, k: nat) {
    && k < |names|
    && (forall i :: 0 <= i < k ==> names[i] in after.procs)
    && names[k] !in after.procs
    && (forall i :: k < i < |names| ==> SameEntry(sup, after, names[i]))
  }

  /** Spawning a list of names, whatever happens: the invariant holds; names
      outside the list and live children keep their entry; a port is written for
      new processes only. If no exception is raised all names run, and those
      without a live child got a new process; otherwise one name `names[k]`
      failed, all before it run, it has no entry, and those after it were not
      touched. */
  ghost predicate SpawnedAll(base: int, sup: Sup, names: seq<string>, host: Host, e: Effect) {
    && SupInv(base, e.sup)
    && (forall n :: n !in names || Lives(sup, n, host) ==> SameEntry(sup, e.sup, n))
    && (forall n :: n in e.writes ==> n in names && !Lives(sup, n, host) && Fresh(e, n, host))
    && (e.error.None? ==> forall n :: n in names && !Lives(sup, n, host) ==> n in e.writes)
    && (forall n :: n !in e.writes && n in e.sup.ports ==> SameEntry(sup, e.sup, n))
    && (e.error.None? ==> forall n :: n in names ==> n in e.sup.procs)
    && (e.error.Some? ==> exists k :: FailedAt(sup, e.sup, names, k))
  }

  lemma SpawnedOneMore(base: int, sup: Sup, init: seq<string>, last: string, host: Host, before: Effect, step: Effect)
    requires last !in init
    requires SpawnedAll(base, sup, init, host, before) && before.error.None?
    requires SpawnStep(base, before.sup, last, host, step)
    ensures SpawnedAll(base, sup, init + [last], host, Effect(step.sup, before.writes + step.writes, step.error))
  {
    var names := init + [last];
    assert SameEntry(sup, before.sup, last);
    forall n | n !in names || Lives(sup, n, host)
      ensures SameEntry(sup, step.sup, n)
    {
      assert SameEntry(sup, before.sup, n);
      if n != last {
        assert SameEntry(before.sup, step.sup, n);
      }
    }
    forall n | n !in before.writes + step.writes && n in step.sup.ports
      ensures SameEntry(sup, step.sup, n)
    {
      if n != last {
        assert SameEntry(before.sup, step.sup, n);
      }
      assert SameEntry(sup, before.sup, n);
    }
    forall n | n in init
      ensures n in step.sup.procs
    {
      assert SameEntry(before.sup, step.sup, n);
    }
    forall n | n in before.writes + step.writes
      ensures n in names && !Lives(sup, n, host)
      ensures Fresh(Effect(step.sup, before.writes + step.writes, step.error), n, host)
    {
      if n != last {
        assert SameEntry(before.sup, step.sup, n) && Fresh(before, n, host);
      }
    }
    if step.error.Some? {
      assert FailedAt(sup, step.sup, names, |init|);
    }
  }

  lemma {:induction false} SpawnAllContract(base: int, sup: Sup, names: seq<string>, host: Host)
    requires SupInv(base, sup)
    requires forall i, j :: 0 <= i < j < |names| ==> names[i] != names[j]
    ensures SpawnedAll(base, sup, names, host, SpawnAll(base, sup, names, host))
  {
    if names != [] {
      var init, last := names[..|names| - 1], names[|names| - 1];
      SpawnAllContract(base, sup, init, host);
      var before := SpawnAll(base, sup, init, host);
      assert names == init + [last];
      assert last !in init;
      if before.error.Some? {
        FailureStays(base, sup, init, last, host, before);
      } else {
        SpawnFacts(base, before.sup, last, host);
        SpawnedOneMore(base, sup, init, last, host, before, Spawn(base, before.sup, last, host));
      }
    }
  }

  lemma FailureStays(base: int, sup: Sup, init: seq<string>, last: string, host: Host, e: Effect)
    requires last !in init && SpawnedAll(base, sup, init, host, e) && e.error.Some?
    ensures SpawnedAll(base, sup, init + [last], host, e)
  {
    var k :| FailedAt(sup, e.sup, init, k);
    assert SameEntry(sup, e.sup, last);
    assert FailedAt(sup, e.sup, init + [last], k);
  }

  /** What `reload` guarantees of the maps, on normal return and when a spawn
      raises. */
  ghost predicate ReloadedMaps(base: int, sup: Sup, names: seq<string>, host: Host, e: Effect) {
    && SupInv(base, e.sup)
    && (forall n :: n in e.sup.procs ==> n in names)
    && (e.error.None? ==> e.sup.procs.Keys == NameSet(names))
    && (forall n :: n in names && Lives(sup, n, host) ==> SameEntry(sup, e.sup, n))
    && (e.error.Some? ==> exists k :: FailedAt(sup, e.sup, Distinct(names), k))
  }

  /** And of the port writes: they are for the killed and the newly started. */
  ghost predicate ReloadedWrites(sup: Sup, names: seq<string>, host: Host, e: Effect) {
    && (forall n :: n in e.writes && n in names ==> !Lives(sup, n, host) && Fresh(e, n, host))
    && (e.error.None? ==> forall n :: n in names && !Lives(sup, n, host) ==> n in e.writes)
    && (forall n :: n in e.writes ==> e.writes[n] == if n in e.sup.ports then Some(e.sup.ports[n]) else None)
    && (forall n :: n !in e.writes && n in e.sup.ports ==> SameEntry(sup, e.sup, n))
    && (forall n :: n in sup.procs && n !in names ==> n in e.writes)
    && (forall n :: n in e.writes ==> n in names || n in sup.procs)
  }

  ghost predicate Reloaded(base: int, sup: Sup, names: seq<string>, host: Host, e: Effect) {
    ReloadedMaps(base, sup, names, host, e) && ReloadedWrites(sup, names, host, e)
  }

  lemma EntriesAfterReload(base: int, sup: Sup, names: seq<string>, host: Host, killed: Effect, spawned: Effect,
                           n: string)
    requires Killed(base, sup, NameSet(names), killed)
    requires forall n :: n in Distinct(names) <==> n in names
    requires SpawnedAll(base, killed.sup, Distinct(names), host, spawned)
    ensures n in NameSet(names) <==> n in Distinct(names)
    ensures n !in names ==> n !in spawned.sup.procs && n !in spawned.sup.ports && n !in spawned.writes
    ensures n in names ==> SameEntry(sup, killed.sup, n) && n !in killed.writes
    ensures n in names ==> (Lives(sup, n, host) <==> Lives(killed.sup, n, host))
    ensures SameEntry(killed.sup, spawned.sup, n) && n in names ==> SameEntry(sup, spawned.sup, n)
  {
    if n !in names {
      assert SameEntry(killed.sup, spawned.sup, n);
    }
  }

  lemma MapsAfterReload(base: int, sup: Sup, names: seq<string>, host: Host, killed: Effect, spawned: Effect)
    requires Killed(base, sup, NameSet(names), killed)
    requires forall n :: n in Distinct(names) <==> n in names
    requires SpawnedAll(base, killed.sup, Distinct(names), host, spawned)
    ensures ReloadedMaps(base, sup, names, host, Effect(spawned.sup, killed.writes + spawned.writes, spawned.error))
  {
    forall n
      ensures n in NameSet(names) <==> n in Distinct(names)
      ensures n !in names ==> n !in spawned.sup.procs
      ensures n in names ==> SameEntry(sup, killed.sup, n)
      ensures n in names && Lives(sup, n, host) ==> SameEntry(sup, spawned.sup, n)
    {
      EntriesAfterReload(base, sup, names, host, killed, spawned, n);
    }
    if spawned.error.Some? {
      var k :| FailedAt(killed.sup, spawned.sup, Distinct(names), k);
      FailureAfterKill(sup, killed.sup, spawned.sup, Distinct(names), k);
    } else {
      assert spawned.sup.procs.Keys == NameSet(names);
    }
  }

  lemma WritesAfterReload(base: int, sup: Sup, names: seq<string>, host: Host, killed: Effect, spawned: Effect)
    requires Killed(base, sup, NameSet(names), killed)
    requires forall n :: n in Distinct(names) <==> n in names
    requires SpawnedAll(base, killed.sup, Distinct(names), host, spawned)
    ensures ReloadedWrites(sup, names, host, Effect(spawned.sup, killed.writes + spawned.writes, spawned.error))
  {
    forall n
      ensures n !in names ==> n !in spawned.sup.ports && n !in spawned.writes
      ensures n in names ==> n !in killed.writes && (Lives(sup, n, host) <==> Lives(killed.sup, n, host))
      ensures SameEntry(killed.sup, spawned.sup, n) && n in names ==> SameEntry(sup, spawned.sup, n)
    {
      EntriesAfterReload(base, sup, names, host, killed, spawned, n);
    }
  }

  lemma FailureAfterKill(sup: Sup, killed: Sup, after: Sup, names: seq<string>, k: nat)
    requires forall n :: n in names ==> SameEntry(sup, killed, n)
    requires FailedAt(killed, after, names, k)
    ensures FailedAt(sup, after, names, k)
  {
    forall i | k < i < |names|
      ensures SameEntry(sup, after, names[i])
    {
      assert SameEntry(killed, after, names[i]) && SameEntry(sup, killed, names[i]);
    }
  }

  lemma ReloadContract(base: int, sup: Sup, names: seq<string>, host: Host)
    requires SupInv(base, sup)
    ensures Reloaded(base, sup, names, host, Reload(base, sup, names, host))
  {
    DistinctFacts(names);
    KillFacts(base, sup, NameSet(names));
    var killed := KillUndesired(sup, NameSet(names));
    SpawnAllContract(base, killed.sup, Distinct(names), host);
    var spawned := SpawnAll(base, killed.sup, Distinct(names), host);
    MapsAfterReload(base, sup, names, host, killed, spawned);
    WritesAfterReload(base, sup, names, host, killed, spawned);
  }

  // ----- any sequence of calls

  datatype Call = Start(names: seq<string>, host: Host) | Sync(names: seq<string>, host: Host) | Stop

  /** One call of start, reload or stop; after an exception the maps stand as it
      left them. */
  function Called(base: int, sup: Sup, call: Call): Sup {
    match call
    case Start(names, host) => SpawnAll(base, sup, names, host).sup
    case Sync(names, host) => Reload(base, sup, names, host).sup
    case Stop => KillUndesired(sup, {}).sup
  }

  function CalledAll(base: int, sup: Sup, calls: seq<Call>): Sup
    decreases |calls|
  {
    if calls == [] then sup else CalledAll(base, Called(base, sup, calls[0]), calls[1..])
  }

  lemma {:induction false} SpawnAllKeepsInv(base: int, sup: Sup, names: seq<string>, host: Host)
    requires SupInv(base, sup)
    ensures SupInv(base, SpawnAll(base, sup, names, host).sup)
  {
    if names != [] {
      SpawnAllKeepsInv(base, sup, names[..|names| - 1], host);
      SpawnFacts(base, SpawnAll(base, sup, names[..|names| - 1], host).sup, names[|names| - 1], host);
    }
  }

  /** Over every sequence of calls (the empty supervisor is a fine start), with children
      dying and spawns failing in any way: the two maps have the same names, no
      port is used twice, and every port is in the window. */
  lemma {:induction false} CallsKeepInv(base: int, sup: Sup, calls: seq<Call>)
    requires SupInv(base, sup)
    ensures SupInv(base, CalledAll(base, sup, calls))
    ensures forall n :: n in CalledAll(base, sup, calls).ports ==>
              base <= CalledAll(base, sup, calls).ports[n] < base + 256
    decreases |calls|
  {
    if calls != [] {
      match calls[0] {
        case Start(names, host) => SpawnAllKeepsInv(base, sup, names, host);
        case Sync(names, host) => ReloadContract(base, sup, names, host);
        case Stop => KillFacts(base, sup, {});
      }
      CallsKeepInv(base, Called(base, sup, calls[0]), calls[1..]);
    }
  }

  // ----- capacity

  function Ports(base: int, n: nat): (r: set<int>)
    ensures forall p :: p in r <==> base <= p < base + n
    ensures |r| == n
  {
    if n == 0 then {} else Ports(base, n - 1) + {base + n - 1}
  }

  lemma {:induction false} ValuesAreFewer(ports: map<string, int>)
    ensures |ports.Values| <= |ports.Keys|
    decreases |ports.Keys|
  {
    if n :| n in ports {
      var rest := ports - {n};
      ValuesAreFewer(rest);
      assert rest.Keys == ports.Keys - {n};
      forall v | v in ports.Values
        ensures v in rest.Values + {ports[n]}
      {
        var m :| m in ports && ports[m] == v;
        if m != n {
          assert m in rest && rest[m] == v;
        }
      }
      SubsetIsSmaller(ports.Values, rest.Values + {ports[n]});
    } else {
      assert ports.Values == {};
    }
  }

  lemma {:induction false} SubsetIsSmaller<T>(a: set<T>, b: set<T>)
    requires a <= b
    ensures |a| <= |b|
    ensures a != b ==> |a| < |b|
  {
    if x :| x in a {
      SubsetIsSmaller(a - {x}, b - {x});
    } else if y :| y in b {
    }
  }

  /** Pigeonhole: with fewer than 256 entries some window port is unclaimed. */
  lemma UnclaimedPortExists(base: int, ports: map<string, int>) returns (p: int)
    requires |ports.Keys| < WINDOW
    ensures base <= p < base + WINDOW && p !in ports.Values
  {
    ValuesAreFewer(ports);
    if Ports(base, WINDOW) <= ports.Values {
      SubsetIsSmaller(Ports(base, WINDOW), ports.Values);
    }
    p :| p in Ports(base, WINDOW) && p !in ports.Values;
  }

  /** The host occupies no port of the window that a probe could meet, and the
      window lies within the 16-bit range. */
  ghost predicate WindowIsOurs(base: int, host: Host) {
    && 0 <= base && base + 255 <= 65535
    && forall n, p :: base <= p < base + 256 ==> host.free(n, p)
  }

  lemma {:induction false} ScanFinds(p: int, end: int, q: int, used: set<int>, name: string, host: Host)
    requires p <= q < end && q !in used && host.free(name, q)
    requires CanBind(p) && CanBind(end - 1)
    ensures ScanPorts(p, end, used, name, host).Ok?
    decreases q - p
  {
    if p < q {
      ScanFinds(p + 1, end, q, used, name, host);
    }
  }

  lemma LaunchFindsAPort(base: int, sup: Sup, name: string, host: Host)
    requires WindowIsOurs(base, host) && |sup.ports.Keys| < WINDOW
    ensures var e := Launch(base, sup, name, host);
            e.error.None? || e.error.value.ChildDied?
  {
    var p := UnclaimedPortExists(base, sup.ports);
    ScanFinds(base, base + WINDOW, p, sup.ports.Values, name, host);
  }

  lemma SpawnFindsAPort(base: int, sup: Sup, name: string, desired: set<string>, host: Host)
    requires SupInv(base, sup) && WindowIsOurs(base, host)
    requires sup.procs.Keys <= desired && name in desired && |desired| <= WINDOW
    ensures var e := Spawn(base, sup, name, host);
            && SupInv(base, e.sup) && e.sup.procs.Keys <= desired
            && (e.error.None? || e.error.value.ChildDied?)
  {
    SpawnFacts(base, sup, name, host);
    forall n | n in Spawn(base, sup, name, host).sup.procs && n != name
      ensures n in desired
    {
      assert SameEntry(sup, Spawn(base, sup, name, host).sup, n);
    }
    ReapedFacts(base, sup, name);
    SubsetIsSmaller(sup.procs.Keys - {name}, desired - {name});
    LaunchFindsAPort(base, Reaped(sup, name), name, host);
  }

  lemma {:induction false} SpawnAllFindsPorts(base: int, sup: Sup, names: seq<string>, desired: set<string>, host: Host)
    requires SupInv(base, sup) && WindowIsOurs(base, host)
    requires sup.procs.Keys <= desired && (forall n :: n in names ==> n in desired) && |desired| <= WINDOW
    ensures var e := SpawnAll(base, sup, names, host);
            && SupInv(base, e.sup) && e.sup.procs.Keys <= desired
            && (e.error.None? || e.error.value.ChildDied?)
  {
    if names != [] {
      var init, last := names[..|names| - 1], names[|names| - 1];
      assert last in names;
      SpawnAllFindsPorts(base, sup, init, desired, host);
      SpawnFindsAPort(base, SpawnAll(base, sup, init, host).sup, last, desired, host);
    }
  }

  /** Because undesired children are killed before any spawn, a reload of at
      most 256 names never runs out of ports: only a child that dies at birth
      can make it fail. */
  lemma ReloadNeverRunsOutOfPorts(base: int, sup: Sup, names: seq<string>, host: Host)
    requires SupInv(base, sup) && WindowIsOurs(base, host) && |NameSet(names)| <= 256
    ensures var e := Reload(base, sup, names, host);
            e.error.None? || e.error.value.ChildDied?
    ensures (forall n :: n in names ==> host.comesUp(n)) ==> Reload(base, sup, names, host).error.None?
  {
    DistinctFacts(names);
    KillFacts(base, sup, NameSet(names));
    var killed := KillUndesired(sup, NameSet(names)).sup;
    SpawnAllFindsPorts(base, killed, Distinct(names), NameSet(names), host);
    if forall n :: n in names ==> host.comesUp(n) {
      NobodyDies(base, killed, Distinct(names), host);
    }
  }

  lemma ScanNeverBlamesAChild(p: int, end: int, used: set<int>, name: string, host: Host)
    ensures ScanPorts(p, end, used, name, host).Err? ==> !ScanPorts(p, end, used, name, host).error.ChildDied?
    decreases end - p
  {
  }

  lemma {:induction false} NobodyDies(base: int, sup: Sup, names: seq<string>, host: Host)
    requires forall n :: n in names ==> host.comesUp(n)
    ensures var e := SpawnAll(base, sup, names, host);
            e.error.Some? ==> !e.error.value.ChildDied?
  {
    if names != [] {
      var init, last := names[..|names| - 1], names[|names| - 1];
      assert last in names;
      NobodyDies(base, sup, init, host);
      var before := SpawnAll(base, sup, init, host).sup;
      ScanNeverBlamesAChild(base, base + WINDOW, Reaped(before, last).ports.Values, last, host);
    }
  }
}
