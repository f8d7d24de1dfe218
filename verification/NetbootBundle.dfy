/**
 Replacing the netboot bundle of one export (`Warmer._fetch_netboot_bundle` of
 src/nbdmux/server.py) while a JSON delete may remove it, with a crash possible
 at any point. Directories are removed file by file, archives extracted piece
 by piece; a step is one change of one directory.
 */
module NetbootBundle {
  import opened Wrappers

  type Bytes = seq<bv8>

  type Dir = map<string, Bytes>

  const MANIFEST := "manifest.json"

  /** Program points of the bundle stage. `leftover` is what clearing the staging
      directory did not remove. */
  datatype Stage =
    | Idle
    | Clearing
    | Extracting(bundle: Dir, leftover: Dir)
    | Checking(bundle: Dir, leftover: Dir)
    | Discarding
    | Emptying(bundle: Dir, leftover: Dir)
    | Renaming(bundle: Dir, leftover: Dir)
  {
    predicate Unpacked() { Checking? || Emptying? || Renaming? }
  }

  /** `<artifacts>/<name>`, `<artifacts>/<name>.tmp`, the worker, and (history)
      what the last completed swap installed. */
  datatype Slot = Slot(target: Option<Dir>, staging: Option<Dir>, stage: Stage, installed: Dir)

  datatype Step =
    | Begin
    | ClearFile(file: string)
    | ClearEnds(bundle: Dir)
    | Unpack(file: string, content: Bytes)
    | UnpackEnds
    | FetchFails
    | Check
    | DiscardFile(file: string)
    | DiscardEnds
    | EmptyFile(file: string)
    | EmptyEnds
    | Rename
    | Crash
    | DeleteFile(file: string)
    | DeleteEnds

  function Files(dir: Option<Dir>): Dir { if dir.Some? then dir.value else map[] }

  function Minus(dir: Option<Dir>, file: string): Option<Dir> {
    if dir.Some? then Some(dir.value - {file}) else None
  }

  /** The final rmdir of a recursive removal: it fails silently unless every
      file is gone. */
  function Rmdir(dir: Option<Dir>): Option<Dir> { if dir == Some(map[]) then None else dir }

  /** `bundles` are the archives the cache may serve. */
  ghost predicate Enabled(bundles: iset<Dir>, s: Slot, step: Step) {
    match step
    case Begin => s.stage.Idle?
    case ClearFile(_) => s.stage.Clearing?
    case ClearEnds(bundle) => s.stage.Clearing? && bundle in bundles
    case Unpack(file, _) => s.stage.Extracting? && file in s.stage.bundle
    case UnpackEnds =>
      // tar exits zero only after the last byte of every file
      s.stage.Extracting? && Files(s.staging) == s.stage.leftover + s.stage.bundle
    case FetchFails => s.stage.Extracting?
    case Check => s.stage.Checking?
    case DiscardFile(_) => s.stage.Discarding?
    case DiscardEnds => s.stage.Discarding?
    case EmptyFile(_) => s.stage.Emptying?
    case EmptyEnds => s.stage.Emptying?
    case Rename => s.stage.Renaming?
    case Crash => true
    case DeleteFile(_) => true
    case DeleteEnds => true
  }

  ghost function Next(bundles: iset<Dir>, s: Slot, step: Step): Slot
    requires Enabled(bundles, s, step)
  {
    match step
    case Begin => s.(stage := Clearing)
    case ClearFile(file) => s.(staging := Minus(s.staging, file))
    case ClearEnds(bundle) =>
      var left := Files(Rmdir(s.staging));
      s.(staging := Some(left), stage := Extracting(bundle, left))
    case Unpack(file, content) => s.(staging := Some(Files(s.staging)[file := content]))
    case UnpackEnds => s.(stage := Checking(s.stage.bundle, s.stage.leftover))
    case FetchFails => s.(stage := Discarding)
    case Check =>
      s.(stage := if MANIFEST in Files(s.staging) then Emptying(s.stage.bundle, s.stage.leftover) else Discarding)
    case DiscardFile(file) => s.(staging := Minus(s.staging, file))
    case DiscardEnds => s.(staging := Rmdir(s.staging), stage := Idle)
    case EmptyFile(file) => s.(target := Minus(s.target, file))
    case EmptyEnds => s.(target := Rmdir(s.target), stage := Renaming(s.stage.bundle, s.stage.leftover))
    case Rename =>
      // renaming onto a directory that is not empty raises
      if Files(s.target) != map[] then s.(stage := Idle)
      else s.(target := s.staging, staging := None, stage := Idle, installed := Files(s.staging))
    case Crash => s.(stage := Idle)
    case DeleteFile(file) => s.(target := Minus(s.target, file))
    case DeleteEnds => s.(target := Rmdir(s.target))
  }

  ghost predicate Run(bundles: iset<Dir>, s: Slot, steps: seq<Step>, s': Slot)
    decreases |steps|
  {
    if steps == [] then s' == s
    else Enabled(bundles, s, steps[0]) && Run(bundles, Next(bundles, s, steps[0]), steps[1..], s')
  }

  /** Every clearing of the staging directory removed all of it. */
  ghost predicate ClearsAll(s: Slot, step: Step) { step.ClearEnds? ==> Files(s.staging) == map[] }

  ghost predicate ClearingRun(bundles: iset<Dir>, s: Slot, steps: seq<Step>)
    decreases |steps|
  {
    steps != [] ==>
      && Enabled(bundles, s, steps[0]) && ClearsAll(s, steps[0])
      && ClearingRun(bundles, Next(bundles, s, steps[0]), steps[1..])
  }

  /** Some or all files of `whole`, each complete. */
  predicate PartOf(dir: Dir, whole: Dir) { forall f :: f in dir ==> f in whole && dir[f] == whole[f] }

  // ----- invariants

  ghost predicate Inv(s: Slot) {
    && PartOf(Files(s.target), s.installed)
    && (s.stage.Unpacked() ==> s.staging == Some(s.stage.leftover + s.stage.bundle))
    && (s.stage.Emptying? || s.stage.Renaming? ==> MANIFEST in s.stage.leftover + s.stage.bundle)
  }

  lemma NextKeepsInv(bundles: iset<Dir>, s: Slot, step: Step)
    requires Inv(s) && Enabled(bundles, s, step)
    requires s.stage.Extracting? ==> s.staging.Some?
    ensures Inv(Next(bundles, s, step))
    ensures Next(bundles, s, step).stage.Extracting? ==> Next(bundles, s, step).staging.Some?
  {
  }

  lemma {:induction false} RunKeepsInv(bundles: iset<Dir>, s: Slot, steps: seq<Step>, s': Slot)
    requires Inv(s) && (s.stage.Extracting? ==> s.staging.Some?) && Run(bundles, s, steps, s')
    ensures Inv(s') && (s'.stage.Extracting? ==> s'.staging.Some?)
    decreases |steps|
  {
    if steps != [] {
      NextKeepsInv(bundles, s, steps[0]);
      RunKeepsInv(bundles, Next(bundles, s, steps[0]), steps[1..], s');
    }
  }

  /** With complete clearings, what gets installed is one bundle of the cache,
      with its manifest. */
  ghost predicate OneBundle(bundles: iset<Dir>, first: Dir, s: Slot) {
    && (s.installed == first || (s.installed in bundles && MANIFEST in s.installed))
    && (s.stage.Extracting? || s.stage.Unpacked() ==> s.stage.bundle in bundles && s.stage.leftover == map[])
  }

  lemma NextKeepsOneBundle(bundles: iset<Dir>, first: Dir, s: Slot, step: Step)
    requires Inv(s) && OneBundle(bundles, first, s) && Enabled(bundles, s, step) && ClearsAll(s, step)
    ensures OneBundle(bundles, first, Next(bundles, s, step))
  {
    if s.stage.Extracting? || s.stage.Unpacked() {
      assert s.stage.leftover + s.stage.bundle == s.stage.bundle;
    }
  }

  lemma {:induction false} RunKeepsOneBundle(bundles: iset<Dir>, first: Dir, s: Slot, steps: seq<Step>, s': Slot)
    requires Inv(s) && OneBundle(bundles, first, s) && (s.stage.Extracting? ==> s.staging.Some?)
    requires Run(bundles, s, steps, s') && ClearingRun(bundles, s, steps)
    ensures Inv(s') && OneBundle(bundles, first, s')
    decreases |steps|
  {
    if steps != [] {
      NextKeepsInv(bundles, s, steps[0]);
      NextKeepsOneBundle(bundles, first, s, steps[0]);
      RunKeepsOneBundle(bundles, first, Next(bundles, s, steps[0]), steps[1..], s');
    }
  }

  /** A slot as a restart finds it: any directories, no stage under way. */
  function Found(target: Option<Dir>, staging: Option<Dir>): Slot { Slot(target, staging, Idle, Files(target)) }

  /** Over every run in which clearings are complete, with crashes and deletes
      anywhere: the artifacts of the export are part of what was there at first
      or part of one single bundle of the cache, never a mixture. */
  lemma ArtifactsNeverMix(bundles: iset<Dir>, target: Option<Dir>, staging: Option<Dir>, steps: seq<Step>, s: Slot)
    requires Run(bundles, Found(target, staging), steps, s) && ClearingRun(bundles, Found(target, staging), steps)
    ensures PartOf(Files(s.target), Files(target))
            || exists bundle :: bundle in bundles && MANIFEST in bundle && PartOf(Files(s.target), bundle)
  {
    RunKeepsOneBundle(bundles, Files(target), Found(target, staging), steps, s);
    assert s.installed == Files(target) || PartOf(Files(s.target), s.installed);
  }

  /** The moment of the swap, over every run, complete clearings or not: the
      rename takes effect exactly over an emptied target, and otherwise leaves both
      directories alone. If it does, the artifacts contain the manifest and are the
      leftover of the staging directory overlaid with the new bundle; that is the
      new bundle itself if and only if clearing left no file that the bundle does
      not replace. */
  lemma SwapInstalls(bundles: iset<Dir>, target: Option<Dir>, staging: Option<Dir>, steps: seq<Step>, s: Slot)
    requires Run(bundles, Found(target, staging), steps, s) && Enabled(bundles, s, Rename)
    ensures Files(s.target) != map[] ==>
              var t := Next(bundles, s, Rename);
              t.target == s.target && t.staging == s.staging
    ensures Files(s.target) == map[] ==>
              var t := Next(bundles, s, Rename);
              && t.target.Some? && t.staging == None && "manifest.json" in t.target.value
              && PartOf(s.stage.bundle, t.target.value)
              && (t.target == Some(s.stage.bundle) <==> s.stage.leftover.Keys <= s.stage.bundle.Keys)
  {
    RunKeepsInv(bundles, Found(target, staging), steps, s);
    var both := s.stage.leftover + s.stage.bundle;
    assert both.Keys == s.stage.leftover.Keys + s.stage.bundle.Keys;
    if s.stage.leftover.Keys <= s.stage.bundle.Keys {
      assert both == s.stage.bundle;
    }
  }

  // ----- when a clearing is incomplete

  lemma OneStep(bundles: iset<Dir>, s: Slot, step: Step, rest: seq<Step>, s': Slot)
    requires Enabled(bundles, s, step) && Run(bundles, Next(bundles, s, step), rest, s')
    ensures Run(bundles, s, [step] + rest, s')
  {
    assert ([step] + rest)[1..] == rest;
  }

  /** The archive is unpacked over what a clearing has left, and passes the check. */
  lemma UnpacksOver(bundles: iset<Dir>, s: Slot, content: Bytes) returns (steps: seq<Step>, s': Slot)
    requires s.stage == Extracting(map[MANIFEST := content], Files(s.staging)) && s.staging.Some? && s.target == None
    ensures Run(bundles, s, steps, s') && s'.stage == Idle
    ensures s'.target == Some(Files(s.staging)[MANIFEST := content])
  {
    var a := Next(bundles, s, Unpack(MANIFEST, content));
    assert Files(s.staging)[MANIFEST := content] == Files(s.staging) + map[MANIFEST := content];
    var b := Next(bundles, a, UnpackEnds);
    var c := Next(bundles, b, Check);
    var d := Next(bundles, c, EmptyEnds);
    s' := Next(bundles, d, Rename);
    OneStep(bundles, d, Rename, [], s');
    OneStep(bundles, c, EmptyEnds, [Rename], s');
    OneStep(bundles, b, Check, [EmptyEnds] + [Rename], s');
    OneStep(bundles, a, UnpackEnds, [Check] + ([EmptyEnds] + [Rename]), s');
    OneStep(bundles, s, Unpack(MANIFEST, content), [UnpackEnds] + ([Check] + ([EmptyEnds] + [Rename])), s');
    steps := [Unpack(MANIFEST, content)] + ([UnpackEnds] + ([Check] + ([EmptyEnds] + [Rename])));
  }

  /** A run into a mixture: a file that a clearing leaves in the staging directory
      is installed with a new bundle that does not have it. */
  lemma ABundleCanBeMixed(file: string, old': Bytes, new': Bytes)
    returns (bundles: iset<Dir>, steps: seq<Step>, s: Slot)
    requires file != MANIFEST
    ensures bundles == iset{map[MANIFEST := new']}
    ensures Run(bundles, Found(None, Some(map[file := old'])), steps, s) && s.stage == Idle
    ensures s.target == Some(map[file := old', MANIFEST := new'])
    ensures forall bundle :: bundle in bundles ==> !PartOf(Files(s.target), bundle)
  {
    var bundle: Dir := map[MANIFEST := new'];
    bundles := iset{bundle};
    var first := Found(None, Some(map[file := old']));
    var a := Next(bundles, first, Begin);
    var b := Next(bundles, a, ClearEnds(bundle));
    steps, s := UnpacksOver(bundles, b, new');
    OneStep(bundles, a, ClearEnds(bundle), steps, s);
    OneStep(bundles, first, Begin, [ClearEnds(bundle)] + steps, s);
    steps := [Begin] + ([ClearEnds(bundle)] + steps);
    assert file in Files(s.target);
  }
}
