/**
 Export names: the validator and the normaliser that derives a name from the
 basename of a source URL (src/nbdmux/server.py), and the file paths built
 from names.

 After folding, every character is ASCII, so `str.lower` and `str.isalnum` are
 modelled on ASCII letters and digits.
 */
module ExportNames {
  import opened Wrappers

  const EXPORT_NAME_MAX := 64
  const IMG := ".img"
  const COMPRESSION_SUFFIXES: seq<string> := [".img.gz", ".img.zst", ".img.xz", ".gz", ".zst", ".xz"]

  predicate IsAlnum(c: char) { 'a' <= c <= 'z' || 'A' <= c <= 'Z' || '0' <= c <= '9' }

  predicate Allowed(c: char) { IsAlnum(c) || c == '.' || c == '_' || c == '-' }

  predicate AllAllowed(s: string) { forall i :: 0 <= i < |s| ==> Allowed(s[i]) }

  predicate HasAlnum(s: string) { exists i :: 0 <= i < |s| && IsAlnum(s[i]) }

  /** The language the validator's pattern describes. */
  predicate StrictName(s: string) {
    0 < |s| <= EXPORT_NAME_MAX && IsAlnum(s[0]) && AllAllowed(s)
  }

  /** What the validator accepts: Python's `$` also matches before a final newline. */
  predicate ValidExportName(s: string) {
    StrictName(s) || (|s| > 0 && s[|s| - 1] == '\n' && StrictName(s[..|s| - 1]))
  }

  function LowerChar(c: char): char {
    if 'A' <= c <= 'Z' then (c as int + 32) as char else c
  }

  function Lower(s: string): (r: string)
    ensures |r| == |s|
  {
    seq(|s|, i requires 0 <= i < |s| => LowerChar(s[i]))
  }

  predicate EndsWith(s: string, suffix: string) {
    |suffix| <= |s| && s[|s| - |suffix|..] == suffix
  }

  /** The suffix policy: the name ends in `.img`, in any case. */
  predicate ImageName(s: string) { EndsWith(Lower(s), IMG) }

  // ----- the steps of the normaliser

  function SkipInvalid(s: string): (r: string)
    ensures |r| <= |s| && (r != [] ==> Allowed(r[0]))
    ensures s != [] && !Allowed(s[0]) ==> |r| < |s|
  {
    if s != [] && !Allowed(s[0]) then SkipInvalid(s[1..]) else s
  }

  /** Each maximal run of characters outside the allowlist becomes one dash. */
  function Fold(s: string): string
    decreases |s|
  {
    if s == [] then []
    else if Allowed(s[0]) then [s[0]] + Fold(s[1..])
    else ['-'] + Fold(SkipInvalid(s))
  }

  function LStrip(s: string): string {
    if s != [] && s[0] == '-' then LStrip(s[1..]) else s
  }

  function RStrip(s: string): string {
    if s != [] && s[|s| - 1] == '-' then RStrip(s[..|s| - 1]) else s
  }

  function Strip(s: string): string { LStrip(RStrip(s)) }

  function Peel(s: string): string {
    if s != [] && !IsAlnum(s[0]) then Peel(s[1..]) else s
  }

  function DropSuffix(s: string, suffixes: seq<string>): string {
    if suffixes == [] then s
    else if EndsWith(Lower(s), suffixes[0]) then s[..|s| - |suffixes[0]|]
    else DropSuffix(s, suffixes[1..])
  }

  function WithImg(s: string): string { if ImageName(s) then s else s + IMG }

  function Cap(s: string): string {
    if |s| > EXPORT_NAME_MAX then s[..EXPORT_NAME_MAX - |IMG|] + IMG else s
  }

  function Stem(basename: string): string { Peel(Strip(Fold(basename))) }

  function Uncompressed(stem: string): string { DropSuffix(stem, COMPRESSION_SUFFIXES) }

  function Derived(basename: string): Option<string> {
    if Stem(basename) == [] then None
    else Some(Cap(WithImg(Uncompressed(Stem(basename)))))
  }

  method RemoveFirstSuffix(s: string, suffixes: seq<string>) returns (r: string)
    ensures r == DropSuffix(s, suffixes)
  {
    r := s;
    for k := 0 to |suffixes|
      invariant r == s
      invariant DropSuffix(s, suffixes) == DropSuffix(s, suffixes[k..])
    {
      var suffix := suffixes[k];
      if EndsWith(Lower(r), suffix) {
        r := r[..|r| - |suffix|];
        break;
      }
    }
  }

  /** The normaliser, from the basename the URL parser extracted. */
  method DeriveExportName(basename: string) returns (name: Option<string>)
    ensures name == Derived(basename)
  {
    if basename == "" {
      return None;
    }
    var sanitised := Strip(Fold(basename));
    while sanitised != "" && !IsAlnum(sanitised[0])
      invariant Peel(sanitised) == Stem(basename)
      decreases |sanitised|
    {
      sanitised := sanitised[1..];
    }
    if sanitised == "" {
      return None;
    }
    sanitised := RemoveFirstSuffix(sanitised, COMPRESSION_SUFFIXES);
    if !EndsWith(Lower(sanitised), IMG) {
      sanitised := sanitised + IMG;
    }
    if |sanitised| > EXPORT_NAME_MAX {
      var head := sanitised[..EXPORT_NAME_MAX - |IMG|];
      sanitised := head + IMG;
    }
    return if sanitised == "" then None else Some(sanitised);
  }

  /** The validator takes the strict names, each also with one newline at the end,
      and nothing else. */
  lemma ValidatorAccepts(s: string)
    ensures ValidExportName(s) <==> exists name :: StrictName(name) && (s == name || s == name + "\n")
    ensures StrictName(s) ==> 1 <= |s| <= 64
  {
    if |s| > 0 && s[|s| - 1] == '\n' {
      assert s == s[..|s| - 1] + "\n";
    }
    forall name | StrictName(name) && s == name + "\n"
      ensures ValidExportName(s)
    {
      assert s[..|s| - 1] == name;
    }
  }

  // ----- soundness

  lemma {:induction false} SkipInvalidKeepsAlnum(s: string)
    ensures HasAlnum(SkipInvalid(s)) <==> HasAlnum(s)
  {
    if s != [] && !Allowed(s[0]) {
      SkipInvalidKeepsAlnum(s[1..]);
      HasAlnumSplit(s[..1], s[1..]);
      assert s == s[..1] + s[1..];
    }
  }

  lemma HasAlnumSplit(a: string, b: string)
    ensures HasAlnum(a + b) <==> HasAlnum(a) || HasAlnum(b)
  {
    var s := a + b;
    forall i | 0 <= i < |a|
      ensures s[i] == a[i]
    {
    }
    forall i | 0 <= i < |b|
      ensures s[|a| + i] == b[i]
    {
    }
  }

  lemma {:induction false} FoldIsAllowed(s: string)
    ensures AllAllowed(Fold(s))
    ensures HasAlnum(Fold(s)) <==> HasAlnum(s)
    decreases |s|
  {
    if s == [] {
    } else if Allowed(s[0]) {
      FoldIsAllowed(s[1..]);
      HasAlnumSplit([s[0]], s[1..]);
      HasAlnumSplit([s[0]], Fold(s[1..]));
      assert s == [s[0]] + s[1..];
    } else {
      SkipInvalidKeepsAlnum(s);
      FoldIsAllowed(SkipInvalid(s));
      HasAlnumSplit(['-'], Fold(SkipInvalid(s)));
    }
  }

  lemma {:induction false} LStripKeeps(s: string)
    ensures AllAllowed(s) ==> AllAllowed(LStrip(s))
    ensures HasAlnum(LStrip(s)) <==> HasAlnum(s)
  {
    if s != [] && s[0] == '-' {
      LStripKeeps(s[1..]);
      HasAlnumSplit(s[..1], s[1..]);
      assert s == s[..1] + s[1..];
    }
  }

  lemma {:induction false} RStripKeeps(s: string)
    ensures AllAllowed(s) ==> AllAllowed(RStrip(s))
    ensures HasAlnum(RStrip(s)) <==> HasAlnum(s)
  {
    if s != [] && s[|s| - 1] == '-' {
      RStripKeeps(s[..|s| - 1]);
      HasAlnumSplit(s[..|s| - 1], s[|s| - 1..]);
      assert s == s[..|s| - 1] + s[|s| - 1..];
    }
  }

  lemma {:induction false} PeelKeeps(s: string)
    ensures AllAllowed(s) ==> AllAllowed(Peel(s))
    ensures Peel(s) != [] <==> HasAlnum(s)
    ensures Peel(s) != [] ==> IsAlnum(Peel(s)[0])
  {
    if s != [] && !IsAlnum(s[0]) {
      PeelKeeps(s[1..]);
      HasAlnumSplit(s[..1], s[1..]);
      assert s == s[..1] + s[1..];
    }
  }

  lemma StemFacts(basename: string)
    ensures AllAllowed(Stem(basename))
    ensures Stem(basename) != [] <==> HasAlnum(basename)
    ensures Stem(basename) != [] ==> IsAlnum(Stem(basename)[0])
  {
    FoldIsAllowed(basename);
    RStripKeeps(Fold(basename));
    LStripKeeps(RStrip(Fold(basename)));
    PeelKeeps(Strip(Fold(basename)));
  }

  /** A suffix starts with a dot and the stem with a letter or digit, so
      dropping the suffix leaves the first character. */
  lemma {:induction false} DropSuffixKeepsHead(s: string, suffixes: seq<string>)
    requires s != [] && IsAlnum(s[0]) && AllAllowed(s)
    requires forall t :: t in suffixes ==> t != [] && t[0] == '.'
    ensures var r := DropSuffix(s, suffixes);
            r != [] && r[0] == s[0] && AllAllowed(r)
  {
    if suffixes != [] {
      var t := suffixes[0];
      assert t in suffixes;
      if EndsWith(Lower(s), t) {
        assert Lower(s)[0] != t[0];
      } else {
        forall u | u in suffixes[1..]
          ensures u in suffixes
        {
        }
        DropSuffixKeepsHead(s, suffixes[1..]);
      }
    }
  }

  lemma ImgIsImageName(head: string)
    ensures ImageName(head + IMG)
  {
    var s := head + IMG;
    assert Lower(s)[|head|..] == IMG;
  }

  lemma UncompressedKeepsHead(stem: string)
    requires stem != [] && IsAlnum(stem[0]) && AllAllowed(stem)
    ensures var r := Uncompressed(stem);
            r != [] && r[0] == stem[0] && AllAllowed(r)
  {
    DropSuffixKeepsHead(stem, COMPRESSION_SUFFIXES);
  }

  lemma WithImgKeepsHead(core: string)
    requires core != [] && IsAlnum(core[0]) && AllAllowed(core)
    ensures var r := WithImg(core);
            IsAlnum(r[0]) && AllAllowed(r) && ImageName(r)
  {
    ImgIsImageName(core);
  }

  lemma CapIsStrict(s: string)
    requires s != [] && IsAlnum(s[0]) && AllAllowed(s) && ImageName(s)
    ensures StrictName(Cap(s)) && ImageName(Cap(s))
  {
    if |s| > EXPORT_NAME_MAX {
      ImgIsImageName(s[..EXPORT_NAME_MAX - |IMG|]);
    }
  }

  lemma StrictImageLength(name: string)
    requires StrictName(name) && ImageName(name)
    ensures 5 <= |name| <= 64
  {
    if |name| == 4 {
      LowerAt(name, IMG, 0);
    }
  }

  /** Sound and exact: a name comes out if and only if the basename has a
      letter or digit, and it is always a strict name ending in `.img`. */
  lemma DerivedIsSound(basename: string)
    ensures Derived(basename).Some? <==> HasAlnum(basename)
    ensures Derived(basename).Some? ==>
              var name := Derived(basename).value;
              StrictName(name) && ImageName(name) && ValidExportName(name) && 5 <= |name| <= 64
  {
    StemFacts(basename);
    if Stem(basename) != [] {
      UncompressedKeepsHead(Stem(basename));
      WithImgKeepsHead(Uncompressed(Stem(basename)));
      CapIsStrict(WithImg(Uncompressed(Stem(basename))));
      StrictImageLength(Derived(basename).value);
    }
  }

  /** The characters that are kept, and those a name may start with. */
  lemma AllowedCharacters(c: char)
    ensures IsAlnum(c) <==> 0x30 <= c as int <= 0x39 || 0x41 <= c as int <= 0x5a || 0x61 <= c as int <= 0x7a
    ensures Allowed(c) <==> IsAlnum(c) || c in "._-"
  {
  }

  /** A name ends in `.img`, with each letter in either case. */
  lemma ImageNameLetters(s: string)
    ensures ImageName(s) <==>
              var n := |s|;
              n >= 4 && s[n - 4] == '.' && s[n - 3] in "iI" && s[n - 2] in "mM" && s[n - 1] in "gG"
  {
    var n := |s|;
    if n >= 4 {
      var end := Lower(s)[n - 4..];
      assert end == [LowerChar(s[n - 4]), LowerChar(s[n - 3]), LowerChar(s[n - 2]), LowerChar(s[n - 1])];
      assert end == IMG <==> end[0] == '.' && end[1] == 'i' && end[2] == 'm' && end[3] == 'g';
    }
  }

  // ----- canonicity

  lemma {:induction false} FoldOfAllowed(s: string)
    requires AllAllowed(s)
    ensures Fold(s) == s
  {
    if s != [] {
      FoldOfAllowed(s[1..]);
    }
  }

  lemma LowerAt(s: string, suffix: string, k: nat)
    requires EndsWith(Lower(s), suffix) && k < |suffix|
    ensures LowerChar(s[|s| - |suffix| + k]) == suffix[k]
  {
    assert Lower(s)[|s| - |suffix|..][k] == suffix[k];
  }

  /** A name that ends in `.img` carries none of the compression suffixes. */
  lemma ImageNameHasNoSuffix(s: string)
    requires ImageName(s)
    ensures Uncompressed(s) == s
  {
    LowerAt(s, IMG, 3);
    forall t | t in COMPRESSION_SUFFIXES
      ensures !EndsWith(Lower(s), t)
    {
      if EndsWith(Lower(s), t) {
        LowerAt(s, t, |t| - 1);
      }
    }
    NoSuffixApplies(s, COMPRESSION_SUFFIXES);
  }

  lemma {:induction false} NoSuffixApplies(s: string, suffixes: seq<string>)
    requires forall t :: t in suffixes ==> !EndsWith(Lower(s), t)
    ensures DropSuffix(s, suffixes) == s
  {
    if suffixes != [] {
      assert suffixes[0] in suffixes;
      NoSuffixApplies(s, suffixes[1..]);
    }
  }

  lemma StemOfClean(s: string)
    requires s != [] && IsAlnum(s[0]) && AllAllowed(s) && s[|s| - 1] != '-'
    ensures Stem(s) == s
  {
    FoldOfAllowed(s);
  }

  /** The fixed points are exactly the strict names that end in `.img`. */
  lemma DerivedFixedPoints(name: string)
    ensures Derived(name) == Some(name) <==> StrictName(name) && ImageName(name)
  {
    if StrictName(name) && ImageName(name) {
      LowerAt(name, IMG, 3);
      StemOfClean(name);
      ImageNameHasNoSuffix(name);
    } else {
      DerivedIsSound(name);
    }
  }

  /** Deriving again changes nothing. */
  lemma DerivedIsIdempotent(basename: string)
    requires Derived(basename).Some?
    ensures Derived(Derived(basename).value) == Derived(basename)
  {
    DerivedIsSound(basename);
    DerivedFixedPoints(Derived(basename).value);
  }

  lemma SuffixesNest(s: string, t: string, u: string)
    requires EndsWith(s, t) && EndsWith(s, u) && |t| <= |u|
    ensures EndsWith(u, t)
    ensures forall w :: u == w + t ==> EndsWith(s[..|s| - |t|], w)
  {
    forall k | 0 <= k < |t|
      ensures u[|u| - |t|..][k] == t[k]
    {
      assert s[|s| - |u|..][|u| - |t| + k] == s[|s| - |t|..][k];
    }
    forall w | u == w + t
      ensures EndsWith(s[..|s| - |t|], w)
    {
      forall k | 0 <= k < |w|
        ensures s[..|s| - |t|][|s| - |u|..][k] == w[k]
      {
        assert s[|s| - |u|..][k] == u[k];
      }
    }
  }

  lemma LastTwoOfSuffix(s: string, t: string)
    requires |t| >= 2
    ensures EndsWith(s, t) ==> s[|s| - 1] == t[|t| - 1] && s[|s| - 2] == t[|t| - 2]
  {
    if EndsWith(s, t) {
      assert s[|s| - |t|..][|t| - 1] == t[|t| - 1] && s[|s| - |t|..][|t| - 2] == t[|t| - 2];
    }
  }

  /** If two suffixes of the list nest, the longer one is `.img` plus the
      shorter one and comes first. */
  lemma KnownSuffixNesting(j: nat, k: nat)
    requires j < k < |COMPRESSION_SUFFIXES|
    ensures var t, u := COMPRESSION_SUFFIXES[j], COMPRESSION_SUFFIXES[k];
            !EndsWith(u, t) && (EndsWith(t, u) ==> t == IMG + u)
  {
    var t, u := COMPRESSION_SUFFIXES[j], COMPRESSION_SUFFIXES[k];
    LastTwoOfSuffix(t, u);
    LastTwoOfSuffix(u, t);
  }

  lemma SuffixIsDropped(stem: string, k: nat)
    requires !ImageName(stem) && k < |COMPRESSION_SUFFIXES|
    ensures Uncompressed(stem + COMPRESSION_SUFFIXES[k]) == stem
  {
    var suffix := COMPRESSION_SUFFIXES[k];
    var s := stem + suffix;
    var low := Lower(s);
    SuffixIsLower(k);
    assert low == Lower(stem) + suffix;
    assert low[..|low| - |suffix|] == Lower(stem);
    forall j | 0 <= j < k
      ensures !EndsWith(low, COMPRESSION_SUFFIXES[j])
    {
      var t := COMPRESSION_SUFFIXES[j];
      if EndsWith(low, t) {
        KnownSuffixNesting(j, k);
        if |t| <= |suffix| {
          SuffixesNest(low, t, suffix);
        } else {
          SuffixesNest(low, suffix, t);
        }
      }
    }
    FirstSuffixWins(s, COMPRESSION_SUFFIXES, k);
    assert s[..|s| - |suffix|] == stem;
  }

  lemma SuffixIsLower(k: nat)
    requires k < |COMPRESSION_SUFFIXES|
    ensures Lower(COMPRESSION_SUFFIXES[k]) == COMPRESSION_SUFFIXES[k]
  {
  }

  lemma {:induction false} FirstSuffixWins(s: string, suffixes: seq<string>, k: nat)
    requires k < |suffixes| && EndsWith(Lower(s), suffixes[k])
    requires forall j :: 0 <= j < k ==> !EndsWith(Lower(s), suffixes[j])
    ensures DropSuffix(s, suffixes) == s[..|s| - |suffixes[k]|]
  {
    if k > 0 {
      FirstSuffixWins(s, suffixes[1..], k - 1);
    }
  }

  /** What the validator asks of a name except its length. */
  predicate CleanName(s: string) { s != [] && IsAlnum(s[0]) && AllAllowed(s) }

  /** The export of `stem`: the tail goes if the name would be too long. */
  function ExportOf(stem: string): string { stem[..Min(|stem|, 60)] + ".img" }

  lemma CapCutsTheTail(stem: string)
    ensures Cap(stem + IMG) == ExportOf(stem)
  {
    var cut := EXPORT_NAME_MAX - |IMG|;
    if |stem| > cut {
      assert (stem + IMG)[..cut] == stem[..cut];
    } else {
      assert stem[..|stem|] == stem;
    }
  }

  predicate KnownSuffix(suffix: string) {
    || suffix == ".img.gz" || suffix == ".img.zst" || suffix == ".img.xz"
    || suffix == ".gz" || suffix == ".zst" || suffix == ".xz"
  }

  lemma KnownSuffixes(suffix: string)
    ensures KnownSuffix(suffix) <==> suffix in COMPRESSION_SUFFIXES
  {
  }

  /** Every compressed form of an image shares its export: `stem.img`,
      `stem.img.gz`, `stem.img.zst`, `stem.img.xz`, `stem.gz`, `stem.zst` and
      `stem.xz` all derive the export of `stem`, however long it is. */
  lemma CompressedFormsShareAnExport(stem: string, suffix: string)
    requires CleanName(stem) && !ImageName(stem)
    requires KnownSuffix(suffix) || suffix == ".img"
    ensures Derived(stem + suffix) == Some(ExportOf(stem))
  {
    StemOfClean(stem + suffix);
    ImgIsImageName(stem);
    CapCutsTheTail(stem);
    if suffix == IMG {
      ImageNameHasNoSuffix(stem + suffix);
    } else {
      KnownSuffixes(suffix);
      var k :| 0 <= k < |COMPRESSION_SUFFIXES| && COMPRESSION_SUFFIXES[k] == suffix;
      SuffixIsDropped(stem, k);
    }
  }

  /** And so does the stem itself, if it has no known suffix. */
  lemma PlainNameGetsImg(stem: string)
    requires CleanName(stem) && stem[|stem| - 1] != '-' && !ImageName(stem)
    requires forall t :: KnownSuffix(t) ==> !EndsWith(Lower(stem), t)
    ensures Derived(stem) == Some(ExportOf(stem))
  {
    StemOfClean(stem);
    forall t | t in COMPRESSION_SUFFIXES
      ensures !EndsWith(Lower(stem), t)
    {
      KnownSuffixes(t);
    }
    NoSuffixApplies(stem, COMPRESSION_SUFFIXES);
    CapCutsTheTail(stem);
  }

  // ----- characters around the name do not matter

  /** Characters that folding and stripping remove at the end of a basename. */
  predicate TrailingNoise(q: string) { forall i :: 0 <= i < |q| ==> !Allowed(q[i]) || q[i] == '-' }

  predicate LeadingNoise(p: string) { !HasAlnum(p) }

  lemma {:induction false} SkipInvalidSplit(x: string, y: string)
    requires y == [] || Allowed(y[0]) || (x != [] && Allowed(x[|x| - 1]))
    ensures SkipInvalid(x + y) == SkipInvalid(x) + y
    ensures x != [] && Allowed(x[|x| - 1]) ==>
              SkipInvalid(x) != [] && SkipInvalid(x)[|SkipInvalid(x)| - 1] == x[|x| - 1]
  {
    if x == [] {
      assert x + y == y;
    } else if !Allowed(x[0]) {
      SkipInvalidSplit(x[1..], y);
      assert (x + y)[1..] == x[1..] + y;
    }
  }

  lemma PrependToSplit(c: char, s: string, a: string, b: string)
    requires s == a + b
    ensures [c] + s == ([c] + a) + b
  {
  }

  lemma FoldKeepsAllowed(x: string, y: string)
    requires x != [] && Allowed(x[0])
    ensures Fold(x + y) == [x[0]] + Fold(x[1..] + y)
  {
    assert (x + y)[1..] == x[1..] + y;
  }

  /** Folding splits where no run of invalid characters crosses the cut. */
  lemma {:induction false} FoldSplit(x: string, y: string)
    requires y == [] || Allowed(y[0]) || x == [] || Allowed(x[|x| - 1])
    ensures Fold(x + y) == Fold(x) + Fold(y)
    decreases |x|
  {
    if x == [] {
      assert x + y == y;
    } else if Allowed(x[0]) {
      FoldKeepsAllowed(x, y);
      FoldSplit(x[1..], y);
      PrependToSplit(x[0], Fold(x[1..] + y), Fold(x[1..]), Fold(y));
    } else {
      SkipInvalidSplit(x, y);
      FoldSplit(SkipInvalid(x), y);
      PrependToSplit('-', Fold(SkipInvalid(x) + y), Fold(SkipInvalid(x)), Fold(y));
    }
  }

  lemma {:induction false} FoldOfTrailingNoise(q: string)
    requires TrailingNoise(q)
    ensures forall i :: 0 <= i < |Fold(q)| ==> Fold(q)[i] == '-'
    decreases |q|
  {
    if q == [] {
    } else if Allowed(q[0]) {
      FoldOfTrailingNoise(q[1..]);
    } else {
      SkipInvalidIsSuffix(q);
      FoldOfTrailingNoise(SkipInvalid(q));
    }
  }

  lemma {:induction false} SkipInvalidIsSuffix(s: string)
    ensures EndsWith(s, SkipInvalid(s))
  {
    if s != [] && !Allowed(s[0]) {
      SkipInvalidIsSuffix(s[1..]);
    }
  }

  lemma {:induction false} RStripDropsDashes(s: string, dashes: string)
    requires forall i :: 0 <= i < |dashes| ==> dashes[i] == '-'
    ensures RStrip(s + dashes) == RStrip(s)
  {
    if dashes == [] {
      assert s + dashes == s;
    } else {
      RStripDropsDashes(s, dashes[..|dashes| - 1]);
      assert (s + dashes)[..|s + dashes| - 1] == s + dashes[..|dashes| - 1];
    }
  }

  lemma {:induction false} PeelSkipsNoise(p: string, s: string)
    requires LeadingNoise(p)
    ensures Peel(p + s) == Peel(s)
  {
    if p == [] {
      assert p + s == s;
    } else {
      PeelSkipsNoise(p[1..], s);
      assert (p + s)[1..] == p[1..] + s;
    }
  }

  lemma {:induction false} PeelAbsorbsLStrip(s: string)
    ensures Peel(LStrip(s)) == Peel(s)
  {
    if s != [] && s[0] == '-' {
      PeelAbsorbsLStrip(s[1..]);
    }
  }

  lemma {:induction false} SkipInvalidSkipsARun(junk: string, b: string)
    requires (forall i :: 0 <= i < |junk| ==> !Allowed(junk[i])) && (b != [] ==> Allowed(b[0]))
    ensures SkipInvalid(junk + b) == b
  {
    if junk == [] {
      assert junk + b == b;
    } else {
      SkipInvalidSkipsARun(junk[1..], b);
      assert (junk + b)[1..] == junk[1..] + b;
    }
  }

  /** A run of foreign characters inside a basename counts as one dash. */
  lemma ForeignRunIsOneDash(a: string, junk: string, b: string)
    requires a != [] && Allowed(a[|a| - 1]) && b != [] && Allowed(b[0])
    requires junk != [] && forall i :: 0 <= i < |junk| ==> !Allowed(junk[i])
    ensures Derived(a + junk + b) == Derived(a + "-" + b)
  {
    assert a + junk + b == a + (junk + b) && a + "-" + b == a + ("-" + b);
    FoldSplit(a, junk + b);
    FoldSplit(a, "-" + b);
    SkipInvalidSkipsARun(junk, b);
    assert ("-" + b)[1..] == b;
    assert Fold(junk + b) == ['-'] + Fold(b) == Fold("-" + b);
  }

  lemma DashedStem(a: string, b: string) returns (stem: string)
    requires CleanName(a) && AllAllowed(b)
    ensures stem == a + "-" + b && CleanName(stem)
  {
    stem := a + "-" + b;
    forall i | 0 <= i < |stem|
      ensures Allowed(stem[i])
    {
      assert stem[i] == if i < |a| then a[i] else if i == |a| then '-' else b[i - |a| - 1];
    }
  }

  /** Two parts of a name with a run of foreign characters between them (a blank, a
      colon), with or without a compression suffix: the run becomes one dash. */
  lemma NameWithForeignRun(a: string, junk: string, b: string, suffix: string)
    requires CleanName(a) && b != [] && AllAllowed(b) && !ImageName(a + "-" + b)
    requires junk != [] && forall i :: 0 <= i < |junk| ==> !Allowed(junk[i])
    requires KnownSuffix(suffix) || suffix == ".img"
             || (suffix == "" && b[|b| - 1] != '-' && forall t :: KnownSuffix(t) ==> !EndsWith(Lower(a + "-" + b), t))
    ensures Derived(a + junk + b + suffix) == Some(ExportOf(a + "-" + b))
  {
    var stem := DashedStem(a, b);
    assert a + junk + b + suffix == a + junk + (b + suffix);
    ForeignRunIsOneDash(a, junk, b + suffix);
    assert a + "-" + (b + suffix) == stem + suffix;
    if suffix == "" {
      assert stem + suffix == stem && stem[|stem| - 1] == b[|b| - 1];
      PlainNameGetsImg(stem);
    } else {
      CompressedFormsShareAnExport(stem, suffix);
    }
  }

  /** Junk around a name disappears: leading characters up to the first letter
      or digit, and trailing dashes and characters outside the allowlist. */
  lemma NoiseAroundTheNameIsIgnored(p: string, b: string, q: string)
    requires LeadingNoise(p) && TrailingNoise(q)
    requires b != [] && IsAlnum(b[0]) && Allowed(b[|b| - 1]) && b[|b| - 1] != '-'
    ensures Derived(p + b + q) == Derived(b)
  {
    FoldSplit(p + b, q);
    FoldSplit(p, b);
    FoldOfTrailingNoise(q);
    RStripDropsDashes(Fold(p + b), Fold(q));
    FoldLast(b);
    assert RStrip(Fold(p) + Fold(b)) == Fold(p) + Fold(b);
    PeelAbsorbsLStrip(Fold(p) + Fold(b));
    FoldIsAllowed(p);
    PeelSkipsNoise(Fold(p), Fold(b));
    PeelAbsorbsLStrip(Fold(b));
    assert Stem(p + b + q) == Stem(b);
  }

  lemma FoldLast(b: string)
    requires b != [] && Allowed(b[|b| - 1])
    ensures Fold(b) != [] && Fold(b)[|Fold(b)| - 1] == b[|b| - 1]
  {
    var last := b[|b| - 1..];
    FoldSplit(b[..|b| - 1], last);
    assert b == b[..|b| - 1] + last;
    assert Fold(last) == [last[0]] + Fold(last[1..]);
  }

  // ----- the namespace of temporary files

  function Join(dir: string, name: string): string { dir + "/" + name }

  const INFLIGHT := ".inflight"
  const TMP := ".tmp"

  /** Two names share a managed path only if they are the same name; the image
      of one is the temporary of the other exactly when the names say so. */
  lemma PathsFollowNames(dir: string, m: string, n: string, extension: string)
    ensures Join(dir, m) == Join(dir, n) <==> m == n
    ensures Join(dir, m) == Join(dir, n) + extension <==> m == n + extension
  {
    var d := dir + "/";
    assert Join(dir, n) + extension == d + (n + extension);
    forall x: string
      ensures (d + x)[|d|..] == x
    {
    }
  }

  /** Names the normaliser derives never collide with each other's temporaries:
      an image name is no image name plus `.inflight` or `.tmp`. */
  lemma DerivedNamesAreDisjoint(dir: string, a: string, b: string)
    requires Derived(a).Some? && Derived(b).Some?
    ensures var m, n := Derived(a).value, Derived(b).value;
            && dir + "/" + m != dir + "/" + n + ".inflight"
            && dir + "/" + m != dir + "/" + n + ".tmp"
            && (m != n ==> dir + "/" + m != dir + "/" + n
                           && dir + "/" + m + ".inflight" != dir + "/" + n + ".inflight"
                           && dir + "/" + m + ".tmp" != dir + "/" + n + ".tmp")
  {
    var m, n := Derived(a).value, Derived(b).value;
    DerivedIsSound(a);
    ImageNamesAreDisjoint(m, n);
    PathsFollowNames(dir, m, n, INFLIGHT);
    PathsFollowNames(dir, m, n, TMP);
    if m != n {
      SameExtension(Join(dir, m), Join(dir, n), INFLIGHT);
      SameExtension(Join(dir, m), Join(dir, n), TMP);
    }
  }

  lemma ImageNamesAreDisjoint(m: string, n: string)
    requires ImageName(m)
    ensures m != n + INFLIGHT && m != n + TMP
  {
    LowerAt(m, IMG, 3);
  }

  lemma SameExtension(x: string, y: string, extension: string)
    ensures x + extension == y + extension <==> x == y
  {
    assert (x + extension)[..|x|] == x && (y + extension)[..|y|] == y;
    if x + extension == y + extension {
      assert |x| == |y|;
    }
  }

  /** The JSON endpoint takes any valid name, and the validator does not keep
      the namespace apart: these two names are valid and collide. */
  lemma ValidNamesCanCollide(dir: string)
    ensures var m, n := "disk.inflight", "disk";
            ValidExportName(m) && ValidExportName(n) && Join(dir, m) == Join(dir, n) + INFLIGHT
  {
    PathsFollowNames(dir, "disk.inflight", "disk", INFLIGHT);
  }
}
