/**
 Unpadded base64url as the daemon uses it: `_b64e` and `_b64d` of
 src/nbdmux/server.py (RFC 4648 section 5, with the padding omitted as section
 3.2 allows). The decoder is CPython's lenient one: it skips characters outside
 the alphabet, takes both `+/` and `-_`, and stops at a complete padding.
 */
module Base64Url {
  import opened Wrappers

  type byte = b: int | 0 <= b < 256

  const PAD := '='

  function EncodeSextet(v: int): char
    requires 0 <= v < 64
  {
    if v < 26 then (65 + v) as char
    else if v < 52 then (97 + v - 26) as char
    else if v < 62 then (48 + v - 52) as char
    else if v == 62 then '-' else '_'
  }

  function SextetOf(c: char): Option<int> {
    if 'A' <= c <= 'Z' then Some(c as int - 65)
    else if 'a' <= c <= 'z' then Some(c as int - 97 + 26)
    else if '0' <= c <= '9' then Some(c as int - 48 + 52)
    else if c == '-' || c == '+' then Some(62)
    else if c == '_' || c == '/' then Some(63)
    else None
  }

  function Group(a: byte, b: byte, c: byte): (r: string) {
    [EncodeSextet(a / 4), EncodeSextet(a % 4 * 16 + b / 16),
     EncodeSextet(b % 16 * 4 + c / 64), EncodeSextet(c % 64)]
  }

  /** The data characters of a last group of one or two bytes. */
  function Tail(x: seq<byte>): (r: string)
    requires 1 <= |x| <= 2
  {
    if |x| == 1 then [EncodeSextet(x[0] / 4), EncodeSextet(x[0] % 4 * 16)]
    else [EncodeSextet(x[0] / 4), EncodeSextet(x[0] % 4 * 16 + x[1] / 16), EncodeSextet(x[1] % 16 * 4)]
  }

  function EncodePadded(x: seq<byte>): string {
    if x == [] then []
    else if |x| <= 2 then Tail(x) + Pads(3 - |x|)
    else Group(x[0], x[1], x[2]) + EncodePadded(x[3..])
  }

  function Pads(n: nat): string { seq(n, _ => PAD) }

  function RStripPad(s: string): string {
    if s != [] && s[|s| - 1] == PAD then RStripPad(s[..|s| - 1]) else s
  }

  function B64e(x: seq<byte>): string { RStripPad(EncodePadded(x)) }

  /** The decoder's registers: position in the current group of four, bits
      carried over, padding characters seen since the last data character. */
  datatype Scanner = Scanner(quad: int, left: int, pads: int) {
    predicate Valid() {
      0 <= quad < 4 && 0 <= left < (match quad case 0 => 1 case 1 => 64 case 2 => 16 case 3 => 4)
    }
  }

  function Scan(s: string, z: Scanner, out: seq<byte>): Result<seq<byte>, string>
    requires z.Valid()
    decreases |s|
  {
    if s == [] then
      if z.quad != 0 then Err("Incorrect padding") else Ok(out)
    else if s[0] == PAD then
      if z.quad >= 2 then
        if z.quad + z.pads + 1 >= 4 then Ok(out) else Scan(s[1..], z.(pads := z.pads + 1), out)
      else Scan(s[1..], z, out)
    else
      match SextetOf(s[0])
      case None => Scan(s[1..], z, out)
      case Some(v) =>
        match z.quad
        case 0 => Scan(s[1..], Scanner(1, v, 0), out)
        case 1 => Scan(s[1..], Scanner(2, v % 16, 0), out + [z.left * 4 + v / 16])
        case 2 => Scan(s[1..], Scanner(3, v % 4, 0), out + [z.left * 16 + v / 4])
        case 3 => Scan(s[1..], Scanner(0, 0, 0), out + [z.left * 64 + v])
  }

  const START := Scanner(0, 0, 0)

  function B64d(s: string): Result<seq<byte>, string> {
    Scan(s + Pads(-|s| % 4), START, [])
  }

  // ----- round trip

  lemma SextetRoundTrip(v: int)
    requires 0 <= v < 64
    ensures SextetOf(EncodeSextet(v)) == Some(v) && EncodeSextet(v) != PAD
  {
  }

  /** One data character moves the decoder one step. */
  lemma ScanSextet(v: int, rest: string, z: Scanner, out: seq<byte>)
    requires 0 <= v < 64 && z.Valid()
    ensures Scan([EncodeSextet(v)] + rest, z, out)
         == match z.quad
            case 0 => Scan(rest, Scanner(1, v, 0), out)
            case 1 => Scan(rest, Scanner(2, v % 16, 0), out + [z.left * 4 + v / 16])
            case 2 => Scan(rest, Scanner(3, v % 4, 0), out + [z.left * 16 + v / 4])
            case 3 => Scan(rest, Scanner(0, 0, 0), out + [z.left * 64 + v])
  {
    SextetRoundTrip(v);
    assert ([EncodeSextet(v)] + rest)[1..] == rest;
  }

  /** The first two characters carry one byte and four bits of the next. */
  lemma ScanPair(a: byte, hi: int, rest: string, out: seq<byte>)
    requires 0 <= hi < 16
    ensures Scan([EncodeSextet(a / 4), EncodeSextet(a % 4 * 16 + hi)] + rest, START, out)
         == Scan(rest, Scanner(2, hi, 0), out + [a])
  {
    var c := EncodeSextet(a % 4 * 16 + hi);
    ScanSextet(a / 4, [c] + rest, START, out);
    assert [EncodeSextet(a / 4), c] + rest == [EncodeSextet(a / 4)] + ([c] + rest);
    ScanSextet(a % 4 * 16 + hi, rest, Scanner(1, a / 4, 0), out);
    assert (a % 4 * 16 + hi) / 16 == a % 4;
    assert a / 4 * 4 + a % 4 == a;
  }

  lemma ScanTriple(a: byte, b: byte, hi: int, rest: string, out: seq<byte>)
    requires 0 <= hi < 4
    ensures Scan([EncodeSextet(a / 4), EncodeSextet(a % 4 * 16 + b / 16), EncodeSextet(b % 16 * 4 + hi)] + rest,
                 START, out)
         == Scan(rest, Scanner(3, hi, 0), out + [a, b])
  {
    var c := EncodeSextet(b % 16 * 4 + hi);
    ScanPair(a, b / 16, [c] + rest, out);
    assert [EncodeSextet(a / 4), EncodeSextet(a % 4 * 16 + b / 16), c] + rest
        == [EncodeSextet(a / 4), EncodeSextet(a % 4 * 16 + b / 16)] + ([c] + rest);
    ScanSextet(b % 16 * 4 + hi, rest, Scanner(2, b / 16, 0), out + [a]);
    assert (b % 16 * 4 + hi) / 4 == b % 16;
    assert b / 16 * 16 + b % 16 == b;
    assert out + [a] + [b] == out + [a, b];
  }

  lemma ScanGroup(a: byte, b: byte, c: byte, rest: string, out: seq<byte>)
    ensures Scan(Group(a, b, c) + rest, START, out) == Scan(rest, START, out + [a, b, c])
  {
    var d := EncodeSextet(c % 64);
    ScanTriple(a, b, c / 64, [d] + rest, out);
    var head := [EncodeSextet(a / 4), EncodeSextet(a % 4 * 16 + b / 16), EncodeSextet(b % 16 * 4 + c / 64)];
    assert Group(a, b, c) + rest == head + ([d] + rest);
    ScanSextet(c % 64, rest, Scanner(3, c / 64, 0), out + [a, b]);
    assert c / 64 * 64 + c % 64 == c;
    assert out + [a, b] + [c] == out + [a, b, c];
  }

  lemma ScanTail(x: seq<byte>, out: seq<byte>)
    requires 1 <= |x| <= 2
    ensures Scan(Tail(x) + Pads(3 - |x|), START, out) == Ok(out + x)
  {
    if |x| == 1 {
      ScanPair(x[0], 0, Pads(2), out);
      assert Pads(2) == [PAD, PAD];
      assert Scan([PAD, PAD], Scanner(2, 0, 0), out + x) == Scan([PAD], Scanner(2, 0, 1), out + x);
      assert x == [x[0]];
    } else {
      ScanTriple(x[0], x[1], 0, Pads(1), out);
      assert x == [x[0], x[1]];
    }
  }

  lemma {:induction false} PaddedRoundTrip(x: seq<byte>, out: seq<byte>)
    ensures Scan(EncodePadded(x), START, out) == Ok(out + x)
  {
    if x == [] {
      assert out + x == out;
    } else if |x| <= 2 {
      ScanTail(x, out);
    } else {
      var head := [x[0], x[1], x[2]];
      ScanGroup(x[0], x[1], x[2], EncodePadded(x[3..]), out);
      PaddedRoundTrip(x[3..], out + head);
      assert out + head + x[3..] == out + x;
    }
  }

  /** The characters of a URL path segment that needs no quoting. */
  predicate UrlSafe(c: char) { 'A' <= c <= 'Z' || 'a' <= c <= 'z' || '0' <= c <= '9' || c == '-' || c == '_' }

  predicate AllUrlSafe(s: string) { forall i :: 0 <= i < |s| ==> UrlSafe(s[i]) }

  lemma GroupIsUrlSafe(a: byte, b: byte, c: byte)
    ensures AllUrlSafe(Group(a, b, c))
  {
  }

  lemma TailIsUrlSafe(x: seq<byte>)
    requires 1 <= |x| <= 2
    ensures AllUrlSafe(Tail(x))
  {
  }

  lemma NegatedLength(k: int)
    ensures -(k + 4) % 4 == -k % 4
  {
  }

  lemma PrependGroup(group: string, rest: string, n: nat)
    requires |group| == 4 && AllUrlSafe(group) && AllUrlSafe(rest) && n == -|rest| % 4
    ensures group + (rest + Pads(n)) == group + rest + Pads(n)
    ensures AllUrlSafe(group + rest) && n == -|group + rest| % 4
  {
    NegatedLength(|rest|);
  }

  /** The padded code is a url-safe word plus exactly the padding that `_b64d`
      adds back, which is what `rstrip("=")` removes. */
  lemma {:induction false} PaddedShape(x: seq<byte>) returns (word: string, n: nat)
    ensures EncodePadded(x) == word + Pads(n) && AllUrlSafe(word) && n == -|word| % 4
    ensures |word| == (4 * |x| + 2) / 3
  {
    if x == [] {
      word, n := "", 0;
    } else if |x| <= 2 {
      word, n := Tail(x), 3 - |x|;
      TailIsUrlSafe(x);
    } else {
      var rest;
      rest, n := PaddedShape(x[3..]);
      word := Group(x[0], x[1], x[2]) + rest;
      GroupIsUrlSafe(x[0], x[1], x[2]);
      PrependGroup(Group(x[0], x[1], x[2]), rest, n);
    }
  }

  lemma {:induction false} RStripPadRemovesPads(word: string, n: nat)
    requires AllUrlSafe(word)
    ensures RStripPad(word + Pads(n)) == word
  {
    if n == 0 {
      assert word + Pads(n) == word;
    } else {
      RStripPadRemovesPads(word, n - 1);
      assert (word + Pads(n))[..|word| + n - 1] == word + Pads(n - 1);
    }
  }

  lemma EncodedShape(x: seq<byte>)
    ensures AllUrlSafe(B64e(x)) && B64e(x) + Pads(-|B64e(x)| % 4) == EncodePadded(x)
    ensures |B64e(x)| == (4 * |x| + 2) / 3
  {
    var word, n := PaddedShape(x);
    RStripPadRemovesPads(word, n);
  }

  /** Decoding undoes encoding, for every byte string; so encoding is injective. */
  lemma RoundTrip(x: seq<byte>)
    ensures B64d(B64e(x)) == Ok(x)
  {
    EncodedShape(x);
    PaddedRoundTrip(x, []);
    assert [] + x == x;
  }

  // ----- the encoding of RFC 4648

  function CharRange(first: char, n: nat): string
    requires first as int + n <= 128
  {
    seq(n, i requires 0 <= i < n => (first as int + i) as char)
  }

  /** Table 2 of RFC 4648. */
  function Letter(v: int): char
    requires 0 <= v < 64
  {
    (CharRange('A', 26) + CharRange('a', 26) + CharRange('0', 10) + "-_")[v]
  }

  lemma SextetsFollowTheTable(v: int)
    requires 0 <= v < 64
    ensures EncodeSextet(v) == Letter(v)
  {
  }

  /** The decoder reads the table, and the last two characters also in the form of
      the standard alphabet. */
  lemma DecodedAlphabet(c: char, v: int)
    ensures SextetOf(c) == Some(v) <==>
              (0 <= v < 64 && Letter(v) == c) || (c == '+' && v == 62) || (c == '/' && v == 63)
  {
    if 0 <= v < 64 {
      SextetsFollowTheTable(v);
      SextetRoundTrip(v);
    }
  }

  /** `s` is the number `n` in base 64, most significant digit first. */
  predicate Digits(s: string, n: int)
    decreases |s|
  {
    if s == [] then n == 0
    else n >= 0 && s[|s| - 1] == Letter(n % 64) && Digits(s[..|s| - 1], n / 64)
  }

  lemma OneMoreDigit(s: string, k: nat, n: int, v: int)
    requires k < |s| && 0 <= v < 64 && n >= 0 && Digits(s[..k], n) && s[k] == EncodeSextet(v)
    ensures Digits(s[..k + 1], n * 64 + v)
  {
    SextetsFollowTheTable(v);
    assert s[..k + 1][..k] == s[..k];
    assert (n * 64 + v) / 64 == n && (n * 64 + v) % 64 == v;
  }

  lemma TwoDigits(s: string, v0: int, v1: int)
    requires 0 <= v0 < 64 && 0 <= v1 < 64
    requires |s| >= 2 && s[0] == EncodeSextet(v0) && s[1] == EncodeSextet(v1)
    ensures Digits(s[..2], v0 * 64 + v1)
  {
    OneMoreDigit(s, 0, 0, v0);
    OneMoreDigit(s, 1, v0, v1);
  }

  /** The numbers that the first characters of a code make. */
  lemma DigitsOf(s: string, v0: int, v1: int, v2: int, v3: int)
    requires 0 <= v0 < 64 && 0 <= v1 < 64 && 0 <= v2 < 64 && 0 <= v3 < 64
    requires |s| >= 2 && s[0] == EncodeSextet(v0) && s[1] == EncodeSextet(v1)
    requires |s| >= 3 ==> s[2] == EncodeSextet(v2)
    requires |s| >= 4 ==> s[3] == EncodeSextet(v3)
    ensures Digits(s[..2], v0 * 64 + v1)
    ensures |s| >= 3 ==> Digits(s[..3], (v0 * 64 + v1) * 64 + v2)
    ensures |s| >= 4 ==> Digits(s[..4], ((v0 * 64 + v1) * 64 + v2) * 64 + v3)
  {
    TwoDigits(s, v0, v1);
    if |s| >= 3 {
      OneMoreDigit(s, 2, v0 * 64 + v1, v2);
    }
    if |s| >= 4 {
      OneMoreDigit(s, 3, (v0 * 64 + v1) * 64 + v2, v3);
    }
  }

  /** Three bytes are the digits of the number they make. */
  lemma GroupDigits(a: int, b: int, c: int)
    requires 0 <= a < 256 && 0 <= b < 256 && 0 <= c < 256
    ensures Digits(Group(a, b, c), (a * 256 + b) * 256 + c)
  {
    var v0, v1, v2, v3 := a / 4, a % 4 * 16 + b / 16, b % 16 * 4 + c / 64, c % 64;
    var s := Group(a, b, c);
    DigitsOf(s, v0, v1, v2, v3);
    assert s[..4] == s;
    assert a == v0 * 4 + a % 4 && b == b / 16 * 16 + b % 16 && c == c / 64 * 64 + c % 64;
    assert ((v0 * 64 + v1) * 64 + v2) * 64 + v3 == (a * 256 + b) * 256 + c;
  }

  /** One or two bytes are filled up with zero bits. */
  lemma TailDigits(a: int, b: int)
    requires 0 <= a < 256 && 0 <= b < 256
    ensures Digits(Tail([a, b]), (a * 256 + b) * 4)
    ensures Digits(Tail([a]), a * 16)
  {
    var s, t := Tail([a, b]), Tail([a]);
    DigitsOf(s, a / 4, a % 4 * 16 + b / 16, b % 16 * 4, 0);
    DigitsOf(t, a / 4, a % 4 * 16, 0, 0);
    assert s[..3] == s && t[..2] == t;
    assert a == a / 4 * 4 + a % 4 && b == b / 16 * 16 + b % 16;
  }

  lemma {:induction false} EncodedGroup(x: seq<byte>, i: nat)
    requires 3 * i + 3 <= |x|
    ensures |EncodePadded(x)| >= 4 * i + 4
    ensures EncodePadded(x)[4 * i..4 * i + 4] == Group(x[3 * i], x[3 * i + 1], x[3 * i + 2])
  {
    var head, rest := Group(x[0], x[1], x[2]), EncodePadded(x[3..]);
    if i == 0 {
      assert (head + rest)[..4] == head;
    } else {
      EncodedGroup(x[3..], i - 1);
      assert (head + rest)[4 * i..4 * i + 4] == rest[4 * (i - 1)..4 * (i - 1) + 4];
    }
  }

  lemma {:induction false} EncodedTail(x: seq<byte>)
    ensures var k, m := |x| / 3, |x| % 3;
            && |EncodePadded(x)| == 4 * k + (if m == 0 then 0 else 4)
            && (m != 0 ==> EncodePadded(x)[4 * k..] == Tail(x[3 * k..]) + Pads(3 - m))
  {
    if |x| > 2 {
      var head, rest := Group(x[0], x[1], x[2]), EncodePadded(x[3..]);
      EncodedTail(x[3..]);
      var k := |x| / 3;
      assert |x[3..]| / 3 == k - 1 && |x[3..]| % 3 == |x| % 3;
      assert x[3..][3 * (k - 1)..] == x[3 * k..];
      assert (head + rest)[4 * k..] == rest[4 * (k - 1)..];
    } else if |x| > 0 {
      assert x[0..] == x;
    }
  }

  lemma CodeIsAPrefix(x: seq<byte>)
    ensures |B64e(x)| == (4 * |x| + 2) / 3 <= |EncodePadded(x)|
    ensures B64e(x) == EncodePadded(x)[..|B64e(x)|]
  {
    EncodedShape(x);
    EncodedTail(x);
  }

  /** Section 4 of RFC 4648 with the alphabet of its section 5 and no padding: every
      three bytes become the four digits of their number in base 64. */
  lemma EncodingOfThreeBytes(x: seq<byte>, i: nat)
    requires 3 * i + 3 <= |x|
    ensures 4 * i + 4 <= |B64e(x)| == (4 * |x| + 2) / 3
    ensures var a: int, b: int, c: int := x[3 * i], x[3 * i + 1], x[3 * i + 2];
            Digits(B64e(x)[4 * i..4 * i + 4], (a * 256 + b) * 256 + c)
  {
    CodeIsAPrefix(x);
    EncodedGroup(x, i);
    GroupDigits(x[3 * i], x[3 * i + 1], x[3 * i + 2]);
    assert B64e(x)[4 * i..4 * i + 4] == EncodePadded(x)[4 * i..4 * i + 4];
  }

  lemma SuffixOfPrefix(s: string, i: nat, j: nat)
    requires i <= j <= |s|
    ensures s[..j][i..] == s[i..][..j - i]
  {
  }

  lemma CodeEndsWithTheTail(x: seq<byte>, k: nat)
    requires 3 * k < |x| < 3 * k + 3
    ensures 4 * k <= |B64e(x)| == (4 * |x| + 2) / 3 && B64e(x)[4 * k..] == Tail(x[3 * k..])
  {
    CodeIsAPrefix(x);
    EncodedTail(x);
    SuffixOfPrefix(EncodePadded(x), 4 * k, |B64e(x)|);
  }

  /** One or two last bytes become two or three digits, filled up with zero bits. */
  lemma EncodingOfTheLastBytes(x: seq<byte>, k: nat)
    requires 3 * k < |x| < 3 * k + 3
    ensures 4 * k <= |B64e(x)| == (4 * |x| + 2) / 3
    ensures var a: int := x[3 * k];
            |x| == 3 * k + 1 ==> Digits(B64e(x)[4 * k..], a * 16)
    ensures |x| == 3 * k + 2 ==>
              var a: int, b: int := x[3 * k], x[3 * k + 1];
              Digits(B64e(x)[4 * k..], (a * 256 + b) * 4)
  {
    CodeEndsWithTheTail(x, k);
    if |x| == 3 * k + 1 {
      TailDigits(x[3 * k], 0);
      assert x[3 * k..] == [x[3 * k]];
    } else {
      TailDigits(x[3 * k], x[3 * k + 1]);
      assert x[3 * k..] == [x[3 * k], x[3 * k + 1]];
    }
  }

  // ----- the cache URL of a source

  datatype ResolveError = WithcacheUrlUnset

  function RStripSlash(s: string): string {
    if s != [] && s[|s| - 1] == '/' then RStripSlash(s[..|s| - 1]) else s
  }

  /** `configured` is $NBDMUX_WITHCACHE_URL without surrounding blanks (empty
      when unset), `src` the UTF-8 bytes of the source URL. */
  function ResolveWithcacheUrl(configured: string, src: seq<byte>): Result<string, ResolveError> {
    var base := RStripSlash(configured);
    if base == "" then Err(WithcacheUrlUnset) else Ok(base + "/b/" + B64e(src))
  }

  /** The cache can tell sources apart: from the path segment after the base it
      decodes exactly the bytes of the source, and the segment has no slash. */
  lemma CacheUrlNamesTheSource(configured: string, src: seq<byte>)
    requires ResolveWithcacheUrl(configured, src).Ok?
    ensures var url := ResolveWithcacheUrl(configured, src).value;
            var prefix := RStripSlash(configured) + "/b/";
            && |prefix| <= |url| && url[..|prefix|] == prefix
            && AllUrlSafe(url[|prefix|..])
            && B64d(url[|prefix|..]) == Ok(src)
  {
    EncodedShape(src);
    RoundTrip(src);
    var prefix := RStripSlash(configured) + "/b/";
    assert (prefix + B64e(src))[|prefix|..] == B64e(src);
  }

  /** Slashes at the end of the configured base make no difference, and there is no
      cache URL exactly if nothing else is configured. */
  lemma {:induction false} TrailingSlashesAreIgnored(base: string, slashes: nat, src: seq<byte>)
    requires base == "" || base[|base| - 1] != '/'
    ensures ResolveWithcacheUrl(base + seq(slashes, _ => '/'), src)
         == if base == "" then Err(WithcacheUrlUnset) else Ok(base + "/b/" + B64e(src))
  {
    if slashes == 0 {
      assert base + seq(slashes, _ => '/') == base;
    } else {
      TrailingSlashesAreIgnored(base, slashes - 1, src);
      var s := base + seq(slashes, _ => '/');
      assert s[..|s| - 1] == base + seq(slashes - 1, _ => '/');
    }
  }

  lemma CacheUrlIsInjective(configured: string, a: seq<byte>, b: seq<byte>)
    requires ResolveWithcacheUrl(configured, a).Ok?
    requires ResolveWithcacheUrl(configured, a) == ResolveWithcacheUrl(configured, b)
    ensures a == b
  {
    CacheUrlNamesTheSource(configured, a);
    CacheUrlNamesTheSource(configured, b);
  }
}
