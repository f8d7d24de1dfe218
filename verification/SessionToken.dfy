/** The signed session token (class Auth of src/nbdmux/server.py). */
module SessionToken {
  import opened Wrappers
  import opened Base64Url

  const MAX_AGE := 604800

  /** What parsing a payload and reading its `iat` gives: a time, a ValueError, or an
      exception of another kind (a JSON value that is not an object, an `iat` that
      is not a number). */
  datatype Parsed = Iat(time: int) | Malformed | Foreign

  /** The signing function of a secret, and the JSON codec of the payload
      `{"a": 1, "iat": n}`. */
  datatype Crypto = Crypto(mac: string -> seq<byte>, dumps: int -> seq<byte>, loads: seq<byte> -> Parsed) {
    ghost predicate CodecWorks() { forall n: int :: loads(dumps(n)) == Iat(n) }
  }

  /** Only ValueError is caught; comparing a signature that is not ASCII raises
      TypeError. */
  datatype Verdict = Accepted | Rejected | Raises

  predicate IsAscii(s: string) { forall i :: 0 <= i < |s| ==> s[i] as int < 128 }

  /** Python's int() of a clock reading: truncation toward zero. */
  function Trunc(t: real): int {
    if t >= 0.0 then t.Floor else -(-t).Floor
  }

  function Sign(c: Crypto, payload: string): string { B64e(c.mac(payload)) }

  function MakeToken(c: Crypto, now: real): string {
    var payload := B64e(c.dumps(Trunc(now)));
    payload + "." + Sign(c, payload)
  }

  /** `token.split(".", 1)`, None when there is no dot to unpack two parts. */
  function SplitAtDot(token: string): Option<(string, string)> {
    if token == [] then None
    else if token[0] == '.' then Some(("", token[1..]))
    else
      match SplitAtDot(token[1..])
      case None => None
      case Some(parts) => Some(([token[0]] + parts.0, parts.1))
  }

  function Check(c: Crypto, token: string, now: real): Verdict {
    match SplitAtDot(token)
    case None => Rejected
    case Some((payload, sig)) =>
      if !IsAscii(payload) then Rejected
      else if !IsAscii(sig) then Raises
      else if sig != Sign(c, payload) then Rejected
      else
        match B64d(payload)
        case Err(_) => Rejected
        case Ok(bytes) =>
          match c.loads(bytes)
          case Malformed => Rejected
          case Foreign => Raises
          case Iat(iat) => if now - iat as real < MAX_AGE as real then Accepted else Rejected
  }

  lemma {:induction false} SplitRecovers(payload: string, sig: string)
    requires '.' !in payload
    ensures SplitAtDot(payload + "." + sig) == Some((payload, sig))
  {
    var token := payload + "." + sig;
    if payload == [] {
      assert token[1..] == sig;
    } else {
      assert '.' !in payload[1..];
      SplitRecovers(payload[1..], sig);
      assert token[0] == payload[0] && token[1..] == payload[1..] + "." + sig;
      assert [payload[0]] + payload[1..] == payload;
    }
  }

  lemma {:induction false} SplitGivesBack(token: string)
    ensures SplitAtDot(token).None? ==> '.' !in token
    ensures SplitAtDot(token).Some? ==>
              var (payload, sig) := SplitAtDot(token).value;
              token == payload + "." + sig && '.' !in payload
  {
    if token != [] && token[0] != '.' {
      SplitGivesBack(token[1..]);
      assert token == [token[0]] + token[1..];
      if SplitAtDot(token[1..]).Some? {
        var (payload, sig) := SplitAtDot(token[1..]).value;
        assert [token[0]] + (payload + "." + sig) == ([token[0]] + payload) + "." + sig;
      }
    }
  }

  /** The parts are what stands before and after the first dot. */
  lemma SplitIsAtTheFirstDot(token: string, payload: string, sig: string)
    ensures SplitAtDot(token) == Some((payload, sig)) <==> token == payload + "." + sig && '.' !in payload
    ensures SplitAtDot(token) == None <==> '.' !in token
  {
    SplitGivesBack(token);
    if token == payload + "." + sig && '.' !in payload {
      SplitRecovers(payload, sig);
    }
    if SplitAtDot(token).Some? {
      assert token[|SplitAtDot(token).value.0|] == '.';
    }
  }

  /** The token has two parts and the second is the first one's signature. */
  predicate SignedBy(c: Crypto, token: string, payload: string) {
    IsAscii(payload) && '.' !in payload && token == payload + "." + B64e(c.mac(payload))
  }

  lemma SignatureIsAscii(c: Crypto, payload: string)
    ensures IsAscii(B64e(c.mac(payload)))
  {
    EncodedShape(c.mac(payload));
  }

  /** Exactly the tokens that are accepted, for every MAC: a payload and its
      signature, the payload decoding to a time less than MAX_AGE ago. */
  lemma AcceptedIff(c: Crypto, token: string, now: real)
    ensures Check(c, token, now) == Accepted <==>
              exists payload :: SignedBy(c, token, payload) && B64d(payload).Ok? && c.loads(B64d(payload).value).Iat?
                                && now - c.loads(B64d(payload).value).time as real < 604800.0
  {
    match SplitAtDot(token)
    case None =>
      SplitIsAtTheFirstDot(token, "", "");
      forall payload
        ensures !SignedBy(c, token, payload)
      {
        SplitIsAtTheFirstDot(token, payload, B64e(c.mac(payload)));
      }
    case Some((first, sig)) =>
      SplitIsAtTheFirstDot(token, first, sig);
      SignatureIsAscii(c, first);
      forall payload | SignedBy(c, token, payload)
        ensures payload == first && sig == B64e(c.mac(payload))
      {
        SplitIsAtTheFirstDot(token, payload, B64e(c.mac(payload)));
      }
      assert SignedBy(c, token, first) <==> IsAscii(first) && sig == B64e(c.mac(first));
  }

  /** Exactly the tokens whose check raises: an ASCII payload with a signature that
      is not ASCII, or a good signature over a payload of a foreign kind. */
  lemma RaisesIff(c: Crypto, token: string, now: real)
    ensures Check(c, token, now) == Raises <==>
              || (exists payload, sig ::
                    token == payload + "." + sig && '.' !in payload && IsAscii(payload) && !IsAscii(sig))
              || (exists payload ::
                    SignedBy(c, token, payload) && B64d(payload).Ok? && c.loads(B64d(payload).value).Foreign?)
  {
    match SplitAtDot(token)
    case None =>
      SplitIsAtTheFirstDot(token, "", "");
      forall payload: string, sig: string
        ensures '.' !in payload ==> token != payload + "." + sig
      {
        SplitIsAtTheFirstDot(token, payload, sig);
      }
    case Some((first, sig)) =>
      SplitIsAtTheFirstDot(token, first, sig);
      SignatureIsAscii(c, first);
      forall payload, rest | token == payload + "." + rest && '.' !in payload
        ensures payload == first && rest == sig
      {
        SplitIsAtTheFirstDot(token, payload, rest);
      }
  }

  /** So a token is never accepted if it was signed with another MAC that differs
      on its payload. */
  lemma ForeignSignatureIsNeverAccepted(c: Crypto, forger: Crypto, payload: string, now: real)
    requires forger.mac(payload) != c.mac(payload) && '.' !in payload
    ensures Check(c, payload + "." + B64e(forger.mac(payload)), now) != Accepted
  {
    var token := payload + "." + B64e(forger.mac(payload));
    AcceptedIff(c, token, now);
    RoundTrip(forger.mac(payload));
    RoundTrip(c.mac(payload));
    forall other | SignedBy(c, token, other)
      ensures false
    {
      SplitIsAtTheFirstDot(token, payload, B64e(forger.mac(payload)));
      SplitIsAtTheFirstDot(token, other, B64e(c.mac(other)));
    }
  }

  /** `int()` cuts toward zero. */
  lemma TruncCutsTowardZero(t: real)
    ensures t >= 0.0 ==> Trunc(t) as real <= t < Trunc(t) as real + 1.0
    ensures t <= 0.0 ==> Trunc(t) as real - 1.0 < t <= Trunc(t) as real
  {
  }

  /** For any MAC, a token is accepted exactly until MAX_AGE after the whole
      second in which it was made, and never raises. */
  lemma TokenLifetime(c: Crypto, made: real, now: real)
    requires c.CodecWorks()
    ensures Check(c, MakeToken(c, made), now)
         == if now - Trunc(made) as real < 604800.0 then Accepted else Rejected
  {
    var iat := Trunc(made);
    var payload := B64e(c.dumps(iat));
    EncodedShape(c.dumps(iat));
    EncodedShape(c.mac(payload));
    assert '.' !in payload;
    SplitRecovers(payload, Sign(c, payload));
    RoundTrip(c.dumps(iat));
    assert c.loads(c.dumps(iat)) == Iat(iat);
  }

  /** Every reading before MAX_AGE has elapsed is accepted if and only if the
      token was made on a whole second: the stored time is cut to seconds. */
  lemma FullLifetimeOnlyOnWholeSeconds(c: Crypto, made: real)
    requires c.CodecWorks() && made >= 0.0
    ensures (forall now: real :: now - made < 604800.0 ==> Check(c, MakeToken(c, made), now) == Accepted)
            <==> Trunc(made) as real == made
  {
    forall now: real
      ensures Check(c, MakeToken(c, made), now) == Accepted <==> now - Trunc(made) as real < MAX_AGE as real
    {
      TokenLifetime(c, made, now);
    }
    if Trunc(made) as real != made {
      var late := Trunc(made) as real + MAX_AGE as real;
      assert late - made < MAX_AGE as real && Check(c, MakeToken(c, made), late) != Accepted;
    }
  }
}
