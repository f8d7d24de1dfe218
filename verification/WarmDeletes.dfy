/**
 A delete that is late with its unlink, and when it hurts a newer row of the
 name.
 */
module WarmDeletes {
  import opened Wrappers
  import opened ExportStore
  import opened Supervision
  import opened WarmSystem
  import opened WarmFrames
  import opened WarmGenerations
  import opened WarmSafety
  import opened WarmPorts
  import opened WarmServing
  import opened WarmBytes
  import opened WarmDrain

  const GOOD_HOST := Host(_ => true, (_, _) => true, _ => true, _ => 0)

  /** No reload that is under way or could start now is too large for the port
      window, and the window lies in the 16-bit range. */
  ghost predicate WithinCapacity(w: World, s: State) {
    && CanBind(w.portBase) && CanBind(w.portBase + WINDOW - 1)
    && |ReadyNames(s.rows)| <= WINDOW
    && forall h :: h in s.handlers && s.handlers[h].WithSnapshot? ==> |NameSet(s.handlers[h].ready)| <= WINDOW
  }

  lemma GoodReloadSucceeds(w: World, s: State, names: seq<string>)
    requires SupInv(w.portBase, s.sup) && CanBind(w.portBase) && CanBind(w.portBase + WINDOW - 1)
    requires |NameSet(names)| <= WINDOW
    ensures Reload(w.portBase, s.sup, names, GOOD_HOST).error.None?
  {
    ReloadNeverRunsOutOfPorts(w.portBase, s.sup, names, GOOD_HOST);
  }

  lemma SnapshotTowardsUnlink(w: World, s: State, h: nat, path: string) returns (a: HandlerStep)
    requires s.phase.Serving? && h in s.handlers && s.handlers[h].Refreshing? && s.handlers[h].WillUnlink(path)
    requires WithinCapacity(w, s)
    ensures CanHandle(w, s, h, a)
    ensures var t := Handle(w, s, h, a);
            && h in t.handlers && t.handlers[h].WithSnapshot? && t.handlers[h].WillUnlink(path)
            && WithinCapacity(w, t) && t.log.born == s.log.born && t.sup == s.sup && t.phase == s.phase
  {
    var ready := EverySetHasAListing(ReadyNames(s.rows));
    ListsIsNameSet(ready, ReadyNames(s.rows));
    a := Snapshot(ready);
  }

  lemma ReloadTowardsUnlink(w: World, s: State, h: nat, path: string) returns (a: HandlerStep)
    requires s.phase.Serving? && h in s.handlers && s.handlers[h].WithSnapshot? && s.handlers[h].WillUnlink(path)
    requires SupInv(w.portBase, s.sup) && WithinCapacity(w, s)
    ensures CanHandle(w, s, h, a)
    ensures var t := Handle(w, s, h, a);
            && t.handlers == s.handlers[h := Unlinking(s.handlers[h].name, path)]
            && t.log.born == s.log.born && t.phase == s.phase
  {
    GoodReloadSucceeds(w, s, s.handlers[h].ready);
    a := HandlerReload(GOOD_HOST);
  }

  lemma UnlinkNow(w: World, s: State, h: nat, path: string)
    requires s.phase.Serving? && h in s.handlers && s.handlers[h].Unlinking? && s.handlers[h].WillUnlink(path)
    ensures CanHandle(w, s, h, Unlink)
    ensures var t := Handle(w, s, h, Unlink);
            path !in t.files && t.log.born == s.log.born
  {
  }

  lemma HandlerStepsOn(w: World, s: State, h: nat, a: HandlerStep)
    requires CanHandle(w, s, h, a)
    ensures Reaches(w, s, Handle(w, s, h, a))
  {
    StaysPut(w, s);
    assert Enabled(w, s, H(h, a));
    StepsOn(w, s, s, H(h, a));
  }

  lemma UnlinkingGetsThrough(w: World, s: State, h: nat, path: string) returns (s': State)
    requires s.phase.Serving? && h in s.handlers && s.handlers[h].Unlinking? && s.handlers[h].WillUnlink(path)
    ensures Reaches(w, s, s') && path !in s'.files && s'.log.born == s.log.born
  {
    UnlinkNow(w, s, h, path);
    HandlerStepsOn(w, s, h, Unlink);
    s' := Handle(w, s, h, Unlink);
  }

  lemma ReloadGetsThrough(w: World, s: State, h: nat, path: string) returns (s': State)
    requires s.phase.Serving? && h in s.handlers && s.handlers[h].WithSnapshot? && s.handlers[h].WillUnlink(path)
    requires SupInv(w.portBase, s.sup) && WithinCapacity(w, s)
    ensures Reaches(w, s, s') && path !in s'.files && s'.log.born == s.log.born
  {
    var a := ReloadTowardsUnlink(w, s, h, path);
    HandlerStepsOn(w, s, h, a);
    var t := Handle(w, s, h, a);
    s' := UnlinkingGetsThrough(w, t, h, path);
    RunsOn(w, s, t, s');
  }

  /** A pending unlink can be carried through without touching any row. */
  lemma PendingUnlinkGetsThrough(w: World, s: State, h: nat, path: string) returns (s': State)
    requires s.phase.Serving? && SupInv(w.portBase, s.sup)
    requires h in s.handlers && s.handlers[h].WillUnlink(path) && WithinCapacity(w, s)
    ensures Reaches(w, s, s') && path !in s'.files && s'.log.born == s.log.born
  {
    match s.handlers[h]
    case Unlinking(_, _) => s' := UnlinkingGetsThrough(w, s, h, path);
    case WithSnapshot(_, _, _, _) => s' := ReloadGetsThrough(w, s, h, path);
    case Refreshing(_, _) =>
      var a := SnapshotTowardsUnlink(w, s, h, path);
      HandlerStepsOn(w, s, h, a);
      var t := Handle(w, s, h, a);
      s' := ReloadGetsThrough(w, t, h, path);
      RunsOn(w, s, t, s');
  }

  /** A row whose image is gone does not hold the decoding of its source. */
  lemma RightNeedsTheImage(w: World, s: State, n: string)
    requires BytesInv(w, s) && Right(w, s, n)
    ensures w.Image(n) in s.files
  {
    assert RowShape(w, n, s.rows[n]);
  }

  /** A late delete takes the image of the row that replaced the deleted one. */
  lemma LateDeleteTakesTheImage(w: World, s: State, n: string) returns (steps: seq<Step>, s': State)
    requires CleanWorld(w) && Reachable(w, s) && WithinCapacity(w, s)
    requires UnlinkPending(s, w.Image(n)) && n in s.rows
    ensures Run(w, s, steps, s') && SameBirth(s, s', n) && w.Image(n) !in s'.files && !Right(w, s', n)
  {
    ReachableHasBytes(w, s);
    var h :| h in s.handlers && s.handlers[h].WillUnlink(w.Image(n));
    ReachableHasPorts(w, s);
    s' := PendingUnlinkGetsThrough(w, s, h, w.Image(n));
    steps :| Run(w, s, steps, s');
    RunKeepsBytes(w, s, steps, s');
    if Right(w, s', n) {
      RightNeedsTheImage(w, s', n);
    }
  }

  ghost predicate StaysRight(w: World, s: State, n: string) {
    forall steps, s' :: Run(w, s, steps, s') && SameBirth(s, s', n) ==> Right(w, s', n)
  }

  /** Exactly when a warmed row is safe: it keeps its image in every run that
      neither registers nor deletes it if and only if no delete of an earlier row
      of the name still has the file to remove. */
  lemma WarmedRowIsSafeIffNoDeleteIsLate(w: World, s: State, n: string)
    requires CleanWorld(w) && Reachable(w, s) && WithinCapacity(w, s)
    requires n in s.log.warmed && Right(w, s, n)
    ensures StaysRight(w, s, n) <==> !UnlinkPending(s, w.Image(n))
  {
    if UnlinkPending(s, w.Image(n)) {
      var steps, s' := LateDeleteTakesTheImage(w, s, n);
      assert !(Run(w, s, steps, s') && SameBirth(s, s', n) ==> Right(w, s', n));
    } else {
      forall steps, s' | Run(w, s, steps, s') && SameBirth(s, s', n)
        ensures Right(w, s', n)
      {
        WarmedRowsAreFaithful(w, s, n);
        SettledRowStaysRight(w, s, steps, s', n);
      }
    }
  }
}
