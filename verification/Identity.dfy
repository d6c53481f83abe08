/**
 The HS256 tokens between the gate and its backends (internal/identity/identity.go): the
 assertion the gate mints on every request, and the control token a backend may present.
 */
module Identity {
  import opened Wrappers
  import opened Records
  import opened Base64
  import opened Json
  import Gate
  import Text

  const ASSERTION_ISSUER := "appshield"
  const CONTROL_ISSUER := "appshield-backend"
  const CONTROL_AUDIENCE := "appshield-control"

  // Seconds.
  const CONTROL_MAX_LIFETIME := 300
  const SKEW := 30

  /** `mac` is HMAC-SHA-256; nothing is assumed of it. */
  datatype Env = Env(mac: (seq<Byte>, string) -> seq<Byte>, codec: Codec)

  /** `ttl` is in whole seconds. */
  datatype Propagator = Propagator(secret: seq<Byte>, ttl: int, audience: string)

  const HEADER: Object := map["alg" := Str("HS256"), "typ" := Str("JWT")]

  function Sign(env: Env, secret: seq<Byte>, claims: Object): string {
    var input := Encode(env.codec.encode(HEADER)) + ['.'] + Encode(env.codec.encode(claims));
    input + ['.'] + Encode(env.mac(secret, input))
  }

  // --- assertions ----------------------------------------------------------------

  /** Drops the control characters that would let a display name inject a header. */
  function HeaderSafe(s: string): string {
    if s == "" then ""
    else (if s[0] < ' ' || '\U{7f}' <= s[0] <= '\U{9f}' then "" else [s[0]]) + HeaderSafe(s[1..])
  }

  function MeansName(m: Gate.Means): string {
    match m
    case ByOidc => "oidc"
    case ByPassword => "password"
    case ByOAuth => "oauth"
  }

  function AssertionSubject(id: Gate.Identity): string {
    if id.sub != "" then id.sub else if id.user != "" then id.user else MeansName(id.means)
  }

  /** The members every assertion has. */
  function Basics(p: Propagator, id: Gate.Identity, now: int): Object {
    map["method" := Str(HeaderSafe(MeansName(id.means))),
        "iss" := Str(ASSERTION_ISSUER),
        "aud" := Str(if p.audience == "" then ASSERTION_ISSUER else p.audience),
        "sub" := Str(HeaderSafe(AssertionSubject(id))),
        "iat" := Num(Unix(now)),
        "exp" := Num(Unix(now) + p.ttl)]
  }

  function AssertionObject(p: Propagator, id: Gate.Identity, now: int): Object {
    var o := Basics(p, id, now);
    var named := WithText(WithText(WithText(o, "user", HeaderSafe(id.user)), "email", HeaderSafe(id.email)),
      "name", HeaderSafe(id.name));
    if id.groups == [] then named else named["groups" := Strs(id.groups)]
  }

  function MintAssertion(env: Env, p: Propagator, id: Gate.Identity, now: int): Option<string> {
    if p.secret == [] then None else Some(Sign(env, p.secret, AssertionObject(p, id, now)))
  }

  /** Without a secret nothing is signed. */
  lemma NothingIsMintedWithoutASecret(env: Env, p: Propagator, id: Gate.Identity, c: ControlClaims, now: int)
    ensures MintAssertion(env, p, id, now).None? <==> p.secret == []
    ensures SignControlToken(env, p, c).None? <==> p.secret == []
  {
  }

  // --- control tokens ----------------------------------------------------------------

  datatype ControlClaims = ControlClaims(iss: string, aud: string, iat: int, exp: int)

  datatype ControlError =
    | NoSecret | MalformedToken | MalformedHeader | UnsupportedAlg | MalformedSignature | BadSignature
    | MalformedPayload | WrongIssuer | WrongAudience | TimesRequired | LifetimeTooLong | TokenExpired | NotYetValid

  function ControlObject(c: ControlClaims): Object {
    map["iss" := Str(c.iss), "aud" := Str(c.aud), "iat" := Num(c.iat), "exp" := Num(c.exp)]
  }

  function ControlOf(codec: Codec, payload: seq<Byte>): Option<ControlClaims> {
    match codec.parse(payload)
    case None => None
    case Some(o) =>
      match (StringOf(o, "iss"), StringOf(o, "aud"), IntOf(o, "iat"), IntOf(o, "exp"))
      case (Some(iss), Some(aud), Some(iat), Some(exp)) => Some(ControlClaims(iss, aud, iat, exp))
      case _ => None
  }

  function SignControlToken(env: Env, p: Propagator, c: ControlClaims): Option<string> {
    if p.secret == [] then None
    else
      Some(Sign(env, p.secret, ControlObject(Completed(c))))
  }

  /** The claims of a token whose algorithm, signature, issuer and audience are in order. */
  function Authentic(env: Env, p: Propagator, token: string): Result<ControlClaims, ControlError> {
    if p.secret == [] then Err(NoSecret)
    else
      var parts := Text.Split(token, '.');
      if |parts| != 3 then Err(MalformedToken)
      else
        match Decode(parts[0])
        case None => Err(MalformedHeader)
        case Some(raw) =>
          match AlgOf(env.codec, raw)
          case None => Err(MalformedHeader)
          case Some(alg) =>
            if alg != "HS256" then Err(UnsupportedAlg)
            else
              match Decode(parts[2])
              case None => Err(MalformedSignature)
              case Some(got) =>
                if got != env.mac(p.secret, parts[0] + ['.'] + parts[1]) then Err(BadSignature)
                else
                  match Decode(parts[1])
                  case None => Err(MalformedPayload)
                  case Some(payload) =>
                    match ControlOf(env.codec, payload)
                    case None => Err(MalformedPayload)
                    case Some(c) =>
                      if c.iss != CONTROL_ISSUER then Err(WrongIssuer)
                      else if c.aud != CONTROL_AUDIENCE then Err(WrongAudience)
                      else Ok(c)
  }

  /** The header struct has a typ member too, which must at least be a string. */
  function AlgOf(codec: Codec, raw: seq<Byte>): Option<string> {
    match codec.parse(raw)
    case None => None
    case Some(o) => if StringOf(o, "typ").None? then None else StringOf(o, "alg")
  }

  /** int64 subtraction wraps around. */
  function Wrap(n: int): (r: int)
    ensures InInt64(r) && (InInt64(n) ==> r == n) && (r - n) % 0x1_0000_0000_0000_0000 == 0
  {
    (n + 0x8000_0000_0000_0000) % 0x1_0000_0000_0000_0000 - 0x8000_0000_0000_0000
  }

  /** `None` when the token may be used in this second. */
  function TimeError(c: ControlClaims, second: int): Option<ControlError> {
    if c.iat == 0 || c.exp == 0 then Some(TimesRequired)
    else if Wrap(c.exp - c.iat) > CONTROL_MAX_LIFETIME then Some(LifetimeTooLong)
    else if second >= c.exp then Some(TokenExpired)
    else if second < Wrap(c.iat - SKEW) then Some(NotYetValid)
    else None
  }

  function VerifyControlToken(env: Env, p: Propagator, token: string, now: int): Option<ControlError> {
    match Authentic(env, p, token)
    case Err(e) => Some(e)
    case Ok(c) => TimeError(c, Unix(now))
  }

  // --- what is signed is read back ------------------------------------------------------

  lemma SignedParts(env: Env, secret: seq<Byte>, claims: Object)
    ensures Text.Split(Sign(env, secret, claims), '.') ==
      var header, payload := Encode(env.codec.encode(HEADER)), Encode(env.codec.encode(claims));
      [header, payload, Encode(env.mac(secret, header + ['.'] + payload))]
  {
    var header, payload := Encode(env.codec.encode(HEADER)), Encode(env.codec.encode(claims));
    var mac := env.mac(secret, header + ['.'] + payload);
    EncodedText(env.codec.encode(HEADER));
    EncodedText(env.codec.encode(claims));
    EncodedText(mac);
    Text.SplitThree(header, payload, Encode(mac), '.');
  }

  /** A token signed here is judged by its claims alone, or by its signature under another secret. */
  lemma JudgedByClaims(env: Env, p: Propagator, secret: seq<Byte>, claims: Object)
    requires Lawful(env.codec) && p.secret != []
    ensures
      var verdict := Authentic(env, p, Sign(env, secret, claims));
      || (verdict == Err(BadSignature) && p.secret != secret)
      || verdict == match ControlOf(env.codec, env.codec.encode(claims))
                    case None => Err(MalformedPayload)
                    case Some(c) =>
                      if c.iss != CONTROL_ISSUER then Err(WrongIssuer)
                      else if c.aud != CONTROL_AUDIENCE then Err(WrongAudience)
                      else Ok(c)
  {
    SignedParts(env, secret, claims);
    var header, payload := env.codec.encode(HEADER), env.codec.encode(claims);
    DecodeEncode(header);
    DecodeEncode(payload);
    DecodeEncode(env.mac(secret, Encode(header) + ['.'] + Encode(payload)));
    HeaderAlg(env.codec);
  }

  lemma HeaderAlg(codec: Codec)
    requires Lawful(codec)
    ensures AlgOf(codec, codec.encode(HEADER)) == Some("HS256")
  {
    assert codec.parse(codec.encode(HEADER)) == Some(HEADER);
    assert HEADER["typ"] == Str("JWT");
  }

  // --- token kinds never cross ------------------------------------------------------------

  lemma AssertionIssuer(p: Propagator, id: Gate.Identity, now: int)
    ensures StringOf(AssertionObject(p, id, now), "iss") == Some(ASSERTION_ISSUER)
  {
    assert "iss" != "user" && "iss" != "email" && "iss" != "name" && "iss" != "groups" by {
      assert "iss"[0] == 'i' && "user"[0] == 'u' && "email"[0] == 'e' && "name"[0] == 'n' && "groups"[0] == 'g';
    }
  }

  /**
   No assertion the gate ever mints, for any identity, audience, lifetime or instant, is taken
   for a control token, by this gate or by one with another secret, at any instant.
   */
  lemma AssertionIsNoControlToken(env: Env, p: Propagator, id: Gate.Identity, minted: int, p': Propagator, now: int)
    requires Lawful(env.codec) && p.secret != []
    ensures MintAssertion(env, p, id, minted).Some?
    ensures VerifyControlToken(env, p', MintAssertion(env, p, id, minted).value, now).Some?
  {
    var o := AssertionObject(p, id, minted);
    AssertionIssuer(p, id, minted);
    assert env.codec.parse(env.codec.encode(o)) == Some(o);
    assert ASSERTION_ISSUER != CONTROL_ISSUER by {
      assert |ASSERTION_ISSUER| == 9 && |CONTROL_ISSUER| == 17;
    }
    if p'.secret != [] {
      JudgedByClaims(env, p', p.secret, o);
    }
  }

  // --- the window of a control token --------------------------------------------------------

  predicate Accepted(env: Env, p: Propagator, token: string, now: int) {
    VerifyControlToken(env, p, token, now).None?
  }

  /** The claims with the gate's own issuer and audience filled in. */
  function Completed(c: ControlClaims): ControlClaims {
    c.(iss := if c.iss == "" then CONTROL_ISSUER else c.iss, aud := if c.aud == "" then CONTROL_AUDIENCE else c.aud)
  }

  lemma ControlRead(codec: Codec, c: ControlClaims)
    requires Lawful(codec) && InInt64(c.iat) && InInt64(c.exp)
    ensures ControlOf(codec, codec.encode(ControlObject(c))) == Some(c)
  {
    var o := ControlObject(c);
    assert codec.parse(codec.encode(o)) == Some(o);
    assert o["iss"] == Str(c.iss) && o["aud"] == Str(c.aud) && o["iat"] == Num(c.iat) && o["exp"] == Num(c.exp);
  }

  lemma ControlVerdict(env: Env, p: Propagator, d: ControlClaims)
    requires Lawful(env.codec) && p.secret != [] && InInt64(d.iat) && InInt64(d.exp)
    ensures Authentic(env, p, Sign(env, p.secret, ControlObject(d))) ==
      if d.iss != CONTROL_ISSUER then Err(WrongIssuer)
      else if d.aud != CONTROL_AUDIENCE then Err(WrongAudience)
      else Ok(d)
  {
    ControlRead(env.codec, d);
    JudgedByClaims(env, p, p.secret, ControlObject(d));
  }

  lemma CompletedTimes(c: ControlClaims, second: int)
    ensures TimeError(Completed(c), second) == TimeError(c, second)
  {
  }

  /**
   Both times are there, the life is at most five minutes, and the second lies before the expiry
   and at most 30 seconds before the issue; the differences are those of 64-bit arithmetic.
   */
  predicate InItsTimes(c: ControlClaims, now: int) {
    && c.iat != 0 && c.exp != 0 && Wrap(c.exp - c.iat) <= 300
    && now / 1000 < c.exp && Wrap(c.iat - 30) <= now / 1000
  }

  /** A backend's token is accepted exactly while its times allow. */
  lemma ControlRoundTrip(env: Env, p: Propagator, c: ControlClaims, now: int)
    requires Lawful(env.codec) && p.secret != [] && InInt64(c.iat) && InInt64(c.exp)
    ensures SignControlToken(env, p, c).Some?
    ensures Accepted(env, p, SignControlToken(env, p, c).value, now) <==>
      && (c.iss == "" || c.iss == "appshield-backend") && (c.aud == "" || c.aud == "appshield-control")
      && InItsTimes(c, now)
  {
    ControlVerdict(env, p, Completed(c));
    CompletedTimes(c, Unix(now));
  }

  /** exp - iat does not fit 64 bits and comes out negative, while iat - 30 still fits. */
  predicate Overflows(c: ControlClaims) {
    c.exp - c.iat >= 0x8000_0000_0000_0000 && InInt64(c.iat - SKEW)
  }

  ghost predicate Brief(env: Env, p: Propagator, token: string) {
    forall t1: int, t2: int :: Accepted(env, p, token, t1) && Accepted(env, p, token, t2) ==> t2 - t1 < 330_000
  }

  lemma SecondsApart(c: ControlClaims, s1: int, s2: int)
    requires InInt64(c.iat) && InInt64(c.exp) && !Overflows(c)
    requires TimeError(c, s1).None? && TimeError(c, s2).None?
    ensures s2 - s1 < 330
  {
    if InInt64(c.exp - c.iat) {
      assert InInt64(c.iat - SKEW) || Wrap(c.iat - SKEW) == c.iat - SKEW + 0x1_0000_0000_0000_0000;
    } else if c.exp > c.iat {
      assert Wrap(c.iat - SKEW) == c.iat - SKEW + 0x1_0000_0000_0000_0000;
    }
  }

  /**
   Any two instants at which one control token is accepted are less than 330 seconds apart,
   except exactly when the lifetime check overflows.
   */
  lemma ControlTokensAreBrief(env: Env, p: Propagator, token: string)
    requires Authentic(env, p, token).Ok?
    ensures Brief(env, p, token) <==> !Overflows(Authentic(env, p, token).value)
  {
    var c := Authentic(env, p, token).value;
    TimesFit(env, p, token);
    if Overflows(c) {
      OverflowedLifetime(c);
      var t1, t2 := (c.iat - SKEW) * 1000, (c.exp - 1) * 1000;
      assert Unix(t1) == c.iat - SKEW && Unix(t2) == c.exp - 1;
      assert Accepted(env, p, token, t1) && Accepted(env, p, token, t2);
    } else {
      forall t1: int, t2: int | Accepted(env, p, token, t1) && Accepted(env, p, token, t2) ensures t2 - t1 < 330_000 {
        SecondsApart(c, Unix(t1), Unix(t2));
      }
    }
  }

  lemma OverflowedLifetime(c: ControlClaims)
    requires InInt64(c.iat) && InInt64(c.exp) && Overflows(c)
    ensures TimeError(c, c.iat - SKEW).None? && TimeError(c, c.exp - 1).None?
    ensures c.exp - 1 - (c.iat - SKEW) >= 330
  {
    assert Wrap(c.exp - c.iat) == c.exp - c.iat - 0x1_0000_0000_0000_0000;
  }

  const LONG_LIVED := ControlClaims(CONTROL_ISSUER, CONTROL_AUDIENCE, -0x4000_0000_0000_0000, 0x4000_0000_0000_0000)

  /** Such a token: issued and expiring some 146 billion years off, it is good at every instant of any clock. */
  lemma LongLivedTokenIsAccepted(env: Env, p: Propagator, now: int)
    requires Lawful(env.codec) && p.secret != [] && 0 <= now < 0x1000_0000_0000_0000
    ensures Overflows(LONG_LIVED)
    ensures SignControlToken(env, p, LONG_LIVED).Some?
    ensures Accepted(env, p, SignControlToken(env, p, LONG_LIVED).value, now)
  {
    ControlRoundTrip(env, p, LONG_LIVED, now);
    LongLivedTimes(Unix(now));
  }

  lemma LongLivedTimes(second: int)
    requires 0 <= second < 0x1000_0000_0000_0000
    ensures TimeError(LONG_LIVED, second).None? && Overflows(LONG_LIVED)
  {
    assert Wrap(LONG_LIVED.exp - LONG_LIVED.iat) == -0x8000_0000_0000_0000;
  }

  lemma TimesFit(env: Env, p: Propagator, token: string)
    requires Authentic(env, p, token).Ok?
    ensures InInt64(Authentic(env, p, token).value.iat) && InInt64(Authentic(env, p, token).value.exp)
  {
  }

  // --- what is accepted, and only that -------------------------------------------------------

  /** Three parts that carry an HS256 header, a payload, and the MAC of both under the secret. */
  ghost predicate Carries(
    env: Env, secret: seq<Byte>, token: string, a: string, b: string, s: string, payload: seq<Byte>)
  {
    && '.' !in a && '.' !in b && '.' !in s && token == a + ['.'] + b + ['.'] + s
    && Decode(a).Some? && env.codec.parse(Decode(a).value).Some?
    && StringOf(env.codec.parse(Decode(a).value).value, "alg") == Some("HS256")
    && StringOf(env.codec.parse(Decode(a).value).value, "typ").Some?
    && Decode(s) == Some(env.mac(secret, a + ['.'] + b))
    && Decode(b) == Some(payload)
  }

  /** Claims of a backend, for this gate, that may be used now. */
  ghost predicate Usable(codec: Codec, payload: seq<Byte>, now: int) {
    && ControlOf(codec, payload).Some?
    && ControlOf(codec, payload).value.iss == "appshield-backend"
    && ControlOf(codec, payload).value.aud == "appshield-control"
    && InItsTimes(ControlOf(codec, payload).value, now)
  }

  lemma AcceptedCarries(env: Env, p: Propagator, token: string, now: int)
    requires Accepted(env, p, token, now)
    ensures p.secret != [] && exists a, b, s, payload ::
      Carries(env, p.secret, token, a, b, s, payload) && Usable(env.codec, payload, now)
  {
    var parts := Text.Split(token, '.');
    Text.SplitIntoThree(token, '.');
    assert Carries(env, p.secret, token, parts[0], parts[1], parts[2], Decode(parts[1]).value);
    assert Usable(env.codec, Decode(parts[1]).value, now);
  }

  lemma CarriedIsAccepted(
    env: Env, p: Propagator, token: string, now: int, a: string, b: string, s: string, payload: seq<Byte>)
    requires p.secret != [] && Carries(env, p.secret, token, a, b, s, payload) && Usable(env.codec, payload, now)
    ensures Accepted(env, p, token, now)
  {
    Text.SplitThree(a, b, s, '.');
  }

  /**
   A control token is accepted exactly if it carries the MAC of its header and payload under the
   gate's own secret, and claims for this gate whose times allow it.
   */
  lemma AcceptsExactly(env: Env, p: Propagator, token: string, now: int)
    ensures Accepted(env, p, token, now) <==>
      p.secret != [] && exists a, b, s, payload ::
        Carries(env, p.secret, token, a, b, s, payload) && Usable(env.codec, payload, now)
  {
    if Accepted(env, p, token, now) {
      AcceptedCarries(env, p, token, now);
    }
    forall a, b, s, payload |
      p.secret != [] && Carries(env, p.secret, token, a, b, s, payload) && Usable(env.codec, payload, now)
      ensures Accepted(env, p, token, now)
    {
      CarriedIsAccepted(env, p, token, now, a, b, s, payload);
    }
  }

  /** A token signed with another secret, whose MAC of that text differs, is refused for its signature. */
  lemma ForgedTokenIsRefused(env: Env, p: Propagator, secret: seq<Byte>, claims: Object, now: int)
    requires Lawful(env.codec) && p.secret != []
    requires
      var text := Encode(env.codec.encode(HEADER)) + ['.'] + Encode(env.codec.encode(claims));
      env.mac(secret, text) != env.mac(p.secret, text)
    ensures VerifyControlToken(env, p, Sign(env, secret, claims), now) == Some(BadSignature)
  {
    SignedParts(env, secret, claims);
    var header, payload := env.codec.encode(HEADER), env.codec.encode(claims);
    DecodeEncode(header);
    DecodeEncode(payload);
    DecodeEncode(env.mac(secret, Encode(header) + ['.'] + Encode(payload)));
    HeaderAlg(env.codec);
  }

  // --- what a backend reads in an assertion ------------------------------------------------------

  predicate Control(c: char) {
    c < ' ' || '\U{7f}' <= c <= '\U{9f}'
  }

  lemma {:induction false} HeaderSafeJoins(s: string, t: string)
    ensures HeaderSafe(s + t) == HeaderSafe(s) + HeaderSafe(t)
    decreases |s|
  {
    if s == "" {
      assert s + t == t;
    } else {
      assert (s + t)[1..] == s[1..] + t;
      HeaderSafeJoins(s[1..], t);
    }
  }

  /** Cleaning a header value drops its control characters and keeps every other, in place. */
  lemma HeaderSafeDrops(s: string, c: char, t: string)
    ensures HeaderSafe(s + [c] + t) == HeaderSafe(s) + (if Control(c) then "" else [c]) + HeaderSafe(t)
    ensures HeaderSafe("") == ""
  {
    HeaderSafeJoins(s + [c], t);
    HeaderSafeJoins(s, [c]);
    assert [c][1..] == "";
  }

  /** The members a backend finds, each an empty string or list where there is nothing to say. */
  ghost predicate Tells(o: Object, p: Propagator, id: Gate.Identity, now: int) {
    var who :=
      if id.sub != "" then id.sub
      else if id.user != "" then id.user
      else match id.means case ByOidc => "oidc" case ByPassword => "password" case ByOAuth => "oauth";
    && StringOf(o, "iss") == Some("appshield")
    && StringOf(o, "aud") == Some(if p.audience == "" then "appshield" else p.audience)
    && StringOf(o, "sub") == Some(HeaderSafe(who))
    && StringOf(o, "user") == Some(HeaderSafe(id.user))
    && StringOf(o, "email") == Some(HeaderSafe(id.email))
    && StringOf(o, "name") == Some(HeaderSafe(id.name))
    && (if id.groups == [] then "groups" !in o else "groups" in o && o["groups"] == Strs(id.groups))
    && "iat" in o && o["iat"] == Num(now / 1000) && "exp" in o && o["exp"] == Num(now / 1000 + p.ttl)
  }

  predicate Optional(name: string) {
    name == "user" || name == "email" || name == "name" || name == "groups"
  }

  lemma NamesDiffer()
    ensures !Optional("method") && !Optional("iss") && !Optional("aud") && !Optional("sub")
    ensures !Optional("iat") && !Optional("exp")
    ensures "user" != "email" && "user" != "name" && "user" != "groups"
    ensures "email" != "name" && "email" != "groups" && "name" != "groups"
  {
    assert "user"[0] == 'u' && "name"[0] == 'n' && "groups"[0] == 'g' && "email"[0] == 'e' && "email"[1] == 'm';
    assert "iss"[0] == 'i' && "iat"[0] == 'i' && "exp"[1] == 'x' && "sub"[0] == 's' && "aud"[0] == 'a';
    assert "method"[0] == 'm';
  }

  lemma BasicsHave(p: Propagator, id: Gate.Identity, now: int, name: string)
    ensures Optional(name) ==> name !in Basics(p, id, now)
    ensures
      var o := Basics(p, id, now);
      && "iss" in o && o["iss"] == Str("appshield")
      && "aud" in o && o["aud"] == Str(if p.audience == "" then "appshield" else p.audience)
      && "sub" in o && o["sub"] == Str(HeaderSafe(AssertionSubject(id)))
      && "iat" in o && o["iat"] == Num(now / 1000) && "exp" in o && o["exp"] == Num(now / 1000 + p.ttl)
  {
    NamesDiffer();
    assert "iss"[1] == 's' && "iat"[1] == 'a' && "exp"[0] == 'e' && "sub"[0] == 's' && "aud"[0] == 'a';
    assert "iss"[0] == 'i' && "iat"[0] == 'i' && "method"[0] == 'm';
  }

  /** An optional member reads as its own text, and no other member changes. */
  lemma NamedReads(p: Propagator, id: Gate.Identity, now: int, other: string)
    ensures
      var o := Basics(p, id, now);
      var named := WithText(WithText(WithText(o, "user", HeaderSafe(id.user)), "email", HeaderSafe(id.email)),
        "name", HeaderSafe(id.name));
      && StringOf(named, "user") == Some(HeaderSafe(id.user))
      && StringOf(named, "email") == Some(HeaderSafe(id.email))
      && StringOf(named, "name") == Some(HeaderSafe(id.name))
      && "groups" !in named
      && (!Optional(other) ==> (other in named <==> other in o) && (other in o ==> named[other] == o[other]))
  {
    NamesDiffer();
    var o := Basics(p, id, now);
    BasicsHave(p, id, now, "user");
    BasicsHave(p, id, now, "email");
    BasicsHave(p, id, now, "name");
    BasicsHave(p, id, now, "groups");
    var o1 := WithText(o, "user", HeaderSafe(id.user));
    var o2 := WithText(o1, "email", HeaderSafe(id.email));
    assert "email" !in o1 && "name" !in o2;
    WithTextReads(o, "user", HeaderSafe(id.user), other);
    WithTextReads(o1, "email", HeaderSafe(id.email), other);
    WithTextReads(o2, "name", HeaderSafe(id.name), other);
    WithTextReads(o1, "email", HeaderSafe(id.email), "user");
    WithTextReads(o2, "name", HeaderSafe(id.name), "user");
    WithTextReads(o2, "name", HeaderSafe(id.name), "email");
  }

  lemma AssertionTells(p: Propagator, id: Gate.Identity, now: int)
    ensures Tells(AssertionObject(p, id, now), p, id, now)
  {
    NamesDiffer();
    BasicsHave(p, id, now, "iss");
    NamedReads(p, id, now, "iss");
    NamedReads(p, id, now, "aud");
    NamedReads(p, id, now, "sub");
    NamedReads(p, id, now, "iat");
    NamedReads(p, id, now, "exp");
  }

  /**
   A backend with the gate's secret finds, in every assertion the gate mints, the MAC of its first
   two parts, and reads who the caller is, with control characters dropped, and for how long.
   */
  lemma BackendReads(env: Env, p: Propagator, id: Gate.Identity, now: int)
    requires Lawful(env.codec) && p.secret != []
    ensures MintAssertion(env, p, id, now).Some?
    ensures exists a, b, s, payload ::
      && Carries(env, p.secret, MintAssertion(env, p, id, now).value, a, b, s, payload)
      && env.codec.parse(payload).Some? && Tells(env.codec.parse(payload).value, p, id, now)
  {
    var o := AssertionObject(p, id, now);
    var header, payload := env.codec.encode(HEADER), env.codec.encode(o);
    var a, b := Encode(header), Encode(payload);
    var mac := env.mac(p.secret, a + ['.'] + b);
    AssertionTells(p, id, now);
    EncodedText(header);
    EncodedText(payload);
    EncodedText(mac);
    DecodeEncode(header);
    DecodeEncode(payload);
    DecodeEncode(mac);
    HeaderAlg(env.codec);
    assert Carries(env, p.secret, MintAssertion(env, p, id, now).value, a, b, Encode(mac), payload);
  }
}
