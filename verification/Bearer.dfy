/** Access tokens as strings, and the check the gate makes of them (internal/broker/broker.go). */
module Bearer {
  import opened Wrappers
  import opened Records
  import opened TokenPolicy
  import opened Handlers
  import opened Base64
  import opened Json
  import opened Jose
  import Text

  /** The claims as they are marshalled; every member of an access token is always written. */
  function AccessObject(a: AccessClaims): Object {
    map["jti" := Str(a.jti), "sub" := Str(a.sub), "iat" := Num(a.iat), "exp" := Num(a.exp),
        "scope" := Str(a.scope), "client_id" := Str(a.clientId), "iss" := Str(a.iss), "aud" := Str(a.aud)]
  }

  function IdObject(i: IdClaims): Object {
    var o := map["iss" := Str(i.iss), "sub" := Str(i.sub), "aud" := Str(i.aud), "exp" := Num(i.exp),
      "iat" := Num(i.iat)];
    WithText(WithText(o, "nonce", i.nonce), "at_hash", i.atHash)
  }

  /** Decoding into the access token struct; members it does not know are ignored. */
  function AccessOf(codec: Codec, payload: seq<Byte>): Option<AccessClaims> {
    match codec.parse(payload)
    case None => None
    case Some(o) =>
      match (StringOf(o, "jti"), StringOf(o, "sub"), IntOf(o, "iat"), IntOf(o, "exp"),
             StringOf(o, "scope"), StringOf(o, "client_id"), StringOf(o, "iss"), StringOf(o, "aud"))
      case (Some(jti), Some(sub), Some(iat), Some(exp), Some(scope), Some(clientId), Some(iss), Some(aud)) =>
        Some(AccessClaims(jti, sub, iat, exp, scope, clientId, iss, aud))
      case _ => None
  }

  function Count(s: string, c: char): nat {
    if s == "" then 0 else (if s[0] == c then 1 else 0) + Count(s[1..], c)
  }

  /** The subject of a live access token of this broker. */
  function VerifyBearer(c: Crypto, codec: Codec, cfg: Config, pub: PublicKey, token: string, now: int): Option<string> {
    if Count(token, '.') != 2 then None
    else
      match Verify(c, codec, token, pub)
      case Err(_) => None
      case Ok((_, payload)) =>
        match AccessOf(codec, payload)
        case None => None
        case Some(claims) =>
          if claims.iss != cfg.issuer || claims.aud != cfg.resource then None
          else if claims.exp <= Unix(now) then None
          else Some(claims.sub)
  }

  lemma {:induction false} CountParts(s: string, c: char)
    ensures |Text.Split(s, c)| == Count(s, c) + 1
    decreases |s|
  {
    if c !in s {
      Text.SplitWithout(s, c);
      CountNone(s, c);
    } else {
      var i := FirstIndex(s, c);
      var a, rest := s[..i], s[i + 1..];
      assert s == a + [c] + rest;
      Text.SplitAtSeparator(a, c, rest);
      CountParts(rest, c);
      CountAfter(a, c, rest);
    }
  }

  function FirstIndex(s: string, c: char): (i: nat)
    requires c in s
    ensures i < |s| && s[i] == c && c !in s[..i]
  {
    if s[0] == c then 0 else FirstIndex(s[1..], c) + 1
  }

  lemma {:induction false} CountNone(s: string, c: char)
    requires c !in s
    ensures Count(s, c) == 0
  {
    if s != "" {
      CountNone(s[1..], c);
    }
  }

  lemma {:induction false} CountAfter(a: string, c: char, rest: string)
    requires c !in a
    ensures Count(a + [c] + rest, c) == 1 + Count(rest, c)
  {
    if a == "" {
      assert ([c] + rest)[1..] == rest && a + [c] + rest == [c] + rest;
    } else {
      CountAfter(a[1..], c, rest);
      assert (a + [c] + rest)[1..] == a[1..] + [c] + rest;
    }
  }

  /** Counting separators first refuses nothing that verification would not. */
  lemma CountIsRedundant(c: Crypto, codec: Codec, token: string, pub: PublicKey)
    requires Verify(c, codec, token, pub).Ok?
    ensures Count(token, '.') == 2
  {
    CountParts(token, '.');
  }

  lemma AccessSurvives(codec: Codec, a: AccessClaims)
    requires Lawful(codec) && InInt64(a.iat) && InInt64(a.exp)
    ensures AccessOf(codec, codec.encode(AccessObject(a))) == Some(a)
  {
    var o := AccessObject(a);
    assert codec.parse(codec.encode(o)) == Some(o);
    assert o["jti"] == Str(a.jti) && o["sub"] == Str(a.sub) && o["scope"] == Str(a.scope);
    assert o["iat"] == Num(a.iat) && o["exp"] == Num(a.exp);
    assert o["client_id"] == Str(a.clientId) && o["iss"] == Str(a.iss) && o["aud"] == Str(a.aud);
  }

  /**
   An access token issued at `t0` is accepted, for its own subject, at exactly the instants
   whose second lies before the hour counted from the second of issue is over.
   */
  lemma BearerWindow(
    c: Crypto, codec: Codec, cfg: Config, k: Jose.Key, client: Client, account: string, scopes: seq<string>,
    jti: string, t0: int, t: int)
    requires Sound(c) && Lawful(codec) && c.consistent(k.private)
    requires InInt64(Unix(t0)) && InInt64(Unix(t0) + ACCESS_TTL)
    ensures
      var token := Sign(c, codec, k, "at+jwt", AccessObject(NewAccess(cfg, client, account, scopes, jti, t0)));
      VerifyBearer(c, codec, cfg, Public(k.private), token, t) ==
        if Unix(t) < Unix(t0) + 3600 then Some(account) else None
  {
    var claims := NewAccess(cfg, client, account, scopes, jti, t0);
    VerifySign(c, codec, k, "at+jwt", AccessObject(claims));
    AccessSurvives(codec, claims);
    CountIsRedundant(c, codec, Sign(c, codec, k, "at+jwt", AccessObject(claims)), Public(k.private));
  }

  /** An id token, signed with the same key, passes for an access token only if the client is named as the resource. */
  lemma IdTokenIsNoBearer(
    c: Crypto, codec: Codec, cfg: Config, k: Jose.Key, client: Client, account: string, nonce: string,
    access: AccessClaims, t0: int, t: int)
    requires Sound(c) && Lawful(codec) && c.consistent(k.private)
    requires InInt64(Unix(t0)) && InInt64(Unix(t0) + ACCESS_TTL)
    ensures
      var token := Sign(c, codec, k, "JWT", IdObject(NewIdToken(cfg, client, account, nonce, access, t0)));
      VerifyBearer(c, codec, cfg, Public(k.private), token, t).Some? <==>
        client.id == cfg.resource && Unix(t) < Unix(t0) + 3600
  {
    var claims := NewIdToken(cfg, client, account, nonce, access, t0);
    var o := IdObject(claims);
    VerifySign(c, codec, k, "JWT", o);
    IdRead(codec, claims);
    CountIsRedundant(c, codec, Sign(c, codec, k, "JWT", o), Public(k.private));
  }

  lemma IdRead(codec: Codec, i: IdClaims)
    requires Lawful(codec) && InInt64(i.iat) && InInt64(i.exp)
    ensures AccessOf(codec, codec.encode(IdObject(i)))
      == Some(AccessClaims("", i.sub, i.iat, i.exp, "", "", i.iss, i.aud))
  {
    var o := IdObject(i);
    assert codec.parse(codec.encode(o)) == Some(o);
    assert "at_hash"[2] == '_' && "aud"[2] == 'd' && "at_hash"[0] == 'a' && |"at_hash"| == 7;
    assert "nonce"[0] == 'n' && "iss"[0] == 'i' && "sub"[0] == 's' && "aud"[0] == 'a' && "exp"[0] == 'e'
      && "iat"[0] == 'i';
    assert o["sub"] == Str(i.sub) && o["iss"] == Str(i.iss) && o["aud"] == Str(i.aud);
    assert o["iat"] == Num(i.iat) && o["exp"] == Num(i.exp);
    assert "jti"[0] == 'j' && "scope"[1] == 'c' && "sub"[1] == 'u' && "client_id"[0] == 'c';
    assert "jti" !in o && "scope" !in o && "client_id" !in o;
  }

  /** The claims of an access token of this broker that has not expired. */
  ghost predicate Current(codec: Codec, cfg: Config, payload: seq<Byte>, now: int, sub: string) {
    && AccessOf(codec, payload).Some?
    && var claims := AccessOf(codec, payload).value;
    && claims.iss == cfg.issuer && claims.aud == cfg.resource && now / 1000 < claims.exp && claims.sub == sub
  }

  /**
   A bearer token is worth a subject exactly if the broker's key signed it and its claims name
   this issuer, this resource, that subject and an expiry still to come.
   */
  lemma BearersExactly(
    c: Crypto, codec: Codec, cfg: Config, pub: PublicKey, token: string, now: int, sub: string)
    ensures VerifyBearer(c, codec, cfg, pub, token, now) == Some(sub) <==>
      exists a, b, s, payload ::
        && Carries(c, codec, pub, token, a, b, s, payload) && PlainHeader(codec, Decode(a).value)
        && Current(codec, cfg, payload, now, sub)
  {
    if VerifyBearer(c, codec, cfg, pub, token, now) == Some(sub) {
      var payload := Verify(c, codec, token, pub).value.1;
      VerifiesExactly(c, codec, token, pub, payload);
      var a, b, s :| Carries(c, codec, pub, token, a, b, s, payload) && PlainHeader(codec, Decode(a).value);
      assert Current(codec, cfg, payload, now, sub);
    }
    forall a, b, s, payload |
      && Carries(c, codec, pub, token, a, b, s, payload) && PlainHeader(codec, Decode(a).value)
      && Current(codec, cfg, payload, now, sub)
      ensures VerifyBearer(c, codec, cfg, pub, token, now) == Some(sub)
    {
      VerifiesExactly(c, codec, token, pub, payload);
      CountIsRedundant(c, codec, token, pub);
    }
  }

  /** A key that accepts no signature lets nobody in, whatever a token says. */
  lemma ForgedBearerIsNobody(c: Crypto, codec: Codec, cfg: Config, pub: PublicKey, token: string, now: int)
    requires forall text, signature :: !c.verify(pub, text, signature)
    ensures VerifyBearer(c, codec, cfg, pub, token, now).None?
  {
    if VerifyBearer(c, codec, cfg, pub, token, now).Some? {
      BearersExactly(c, codec, cfg, pub, token, now, VerifyBearer(c, codec, cfg, pub, token, now).value);
    }
  }

  /** What a client reads in its id token. */
  lemma IdTokenTells(codec: Codec, i: IdClaims)
    requires Lawful(codec)
    ensures codec.parse(codec.encode(IdObject(i))).Some?
    ensures
      var o := codec.parse(codec.encode(IdObject(i))).value;
      && StringOf(o, "iss") == Some(i.iss) && StringOf(o, "sub") == Some(i.sub) && StringOf(o, "aud") == Some(i.aud)
      && StringOf(o, "nonce") == Some(i.nonce) && StringOf(o, "at_hash") == Some(i.atHash)
      && "exp" in o && o["exp"] == Num(i.exp) && "iat" in o && o["iat"] == Num(i.iat)
  {
    var o := IdObject(i);
    assert codec.parse(codec.encode(o)) == Some(o);
    assert "at_hash"[2] == '_' && "aud"[2] == 'd' && |"at_hash"| == 7 && |"nonce"| == 5;
    assert "iss"[1] == 's' && "iat"[1] == 'a' && "sub"[0] == 's' && "exp"[0] == 'e' && "iat"[0] == 'i'
      && "iss"[0] == 'i';
  }
}
