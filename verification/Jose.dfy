/**
 Compact RS256 JWS and RSA keys as JWK (internal/jose/jose.go). RSA and SHA-256 are the
 functions of `Crypto`, of which only one law is used: a signature verifies under its key.
 */
module Jose {
  import opened Wrappers
  import opened Base64
  import opened Json
  import Text

  datatype PublicKey = PublicKey(n: nat, e: nat)

  datatype PrivateKey = PrivateKey(n: nat, e: nat, d: nat, p: nat, q: nat)

  datatype Key = Key(private: PrivateKey, kid: string)

  datatype Derived = Derived(dp: nat, dq: nat, qi: nat)

  /** `consistent` is `rsa.PrivateKey.Validate`. */
  datatype Crypto = Crypto(
    sign: (PrivateKey, string) -> seq<Byte>,
    verify: (PublicKey, string, seq<Byte>) -> bool,
    consistent: PrivateKey -> bool,
    derived: PrivateKey -> Derived)

  function Public(k: PrivateKey): PublicKey {
    PublicKey(k.n, k.e)
  }

  ghost predicate Sound(c: Crypto) {
    forall k, text {:trigger c.sign(k, text)} :: c.consistent(k) ==> c.verify(Public(k), text, c.sign(k, text))
  }

  // --- keys ------------------------------------------------------------------

  datatype Jwk = Jwk(
    kty: string, n: string, e: string, d: string, p: string, q: string,
    dp: string, dq: string, qi: string, use: string, alg: string, kid: string)

  const MAX_EXPONENT := 0x7fff_ffff

  /** Unlike the other numbers a zero exponent is written as one zero byte. */
  function EncodeExponent(e: nat): string {
    if e == 0 then Encode([0]) else EncodeInt(e)
  }

  function MarshalJwk(c: Crypto, k: Key): Jwk {
    var x := k.private;
    var derived := c.derived(x);
    Jwk("RSA", EncodeInt(x.n), EncodeExponent(x.e), EncodeInt(x.d), EncodeInt(x.p), EncodeInt(x.q),
        EncodeInt(derived.dp), EncodeInt(derived.dq), EncodeInt(derived.qi), "sig", "RS256", k.kid)
  }

  function PublicJwk(c: Crypto, k: Key): Jwk {
    MarshalJwk(c, k).(d := "", p := "", q := "", dp := "", dq := "", qi := "")
  }

  datatype KeyError = NotRsa | NotPrivate | BadNumber | ExponentTooLarge | Inconsistent

  function ParseKey(c: Crypto, j: Jwk): Result<Key, KeyError> {
    if j.kty != "RSA" then Err(NotRsa)
    else if j.d == "" || j.p == "" || j.q == "" then Err(NotPrivate)
    else
      match (DecodeInt(j.n), DecodeInt(j.e), DecodeInt(j.d), DecodeInt(j.p), DecodeInt(j.q))
      case (Some(n), Some(e), Some(d), Some(p), Some(q)) =>
        if e > MAX_EXPONENT then Err(ExponentTooLarge)
        else if !c.consistent(PrivateKey(n, e, d, p, q)) then Err(Inconsistent)
        else Ok(Key(PrivateKey(n, e, d, p, q), j.kid))
      case _ => Err(BadNumber)
  }

  function PublicKeyFromJwk(j: Jwk): Result<PublicKey, KeyError> {
    if j.kty != "RSA" then Err(NotRsa)
    else
      match (DecodeInt(j.n), DecodeInt(j.e))
      case (Some(n), Some(e)) => if e > MAX_EXPONENT then Err(ExponentTooLarge) else Ok(PublicKey(n, e))
      case _ => Err(BadNumber)
  }

  /** Which JWKs parse: RSA, every number in base64url, an exponent of 31 bits, and a key that is one. */
  lemma ParsesExactly(c: Crypto, j: Jwk, k: Key)
    ensures ParseKey(c, j) == Ok(k) <==>
      && j.kty == "RSA" && j.d != "" && j.p != "" && j.q != ""
      && DecodeInt(j.n) == Some(k.private.n) && DecodeInt(j.e) == Some(k.private.e)
      && DecodeInt(j.d) == Some(k.private.d) && DecodeInt(j.p) == Some(k.private.p)
          && DecodeInt(j.q) == Some(k.private.q)
      && k.private.e <= 2147483647 && c.consistent(k.private) && k.kid == j.kid
  {
    var x := k.private;
    assert x == PrivateKey(x.n, x.e, x.d, x.p, x.q) && k == Key(x, k.kid);
  }

  lemma ParsesPublicExactly(j: Jwk, x: PublicKey)
    ensures PublicKeyFromJwk(j) == Ok(x) <==>
      j.kty == "RSA" && DecodeInt(j.n) == Some(x.n) && DecodeInt(j.e) == Some(x.e) && x.e <= 2147483647
  {
    assert x == PublicKey(x.n, x.e);
  }

  lemma IntSurvives(n: nat)
    ensures DecodeInt(EncodeInt(n)) == Some(n) && (EncodeInt(n) == "" <==> n == 0)
  {
    DecodeEncodeInt(n, 0);
    assert EncodeInt(n) + Padding(0) == EncodeInt(n);
    EncodedText(ToBigEndian(n));
    if n > 0 {
      assert |ToBigEndian(n)| > 0;
    }
  }

  lemma ExponentSurvives(e: nat)
    ensures DecodeInt(EncodeExponent(e)) == Some(e)
  {
    IntSurvives(e);
    if e == 0 {
      DecodeEncode([0]);
      EncodedText([0]);
      assert TrimPadding(Encode([0])) == Encode([0]);
      assert FromBigEndian([0]) == FromBigEndian([]) * 256 + 0;
    }
  }

  lemma MarshalledNumbers(c: Crypto, k: Key)
    ensures
      var j, x := MarshalJwk(c, k), k.private;
      && DecodeInt(j.n) == Some(x.n) && DecodeInt(j.e) == Some(x.e) && DecodeInt(j.d) == Some(x.d)
      && DecodeInt(j.p) == Some(x.p) && DecodeInt(j.q) == Some(x.q)
      && (j.d == "" <==> x.d == 0) && (j.p == "" <==> x.p == 0) && (j.q == "" <==> x.q == 0)
  {
    IntSurvives(k.private.n);
    ExponentSurvives(k.private.e);
    IntSurvives(k.private.d);
    IntSurvives(k.private.p);
    IntSurvives(k.private.q);
  }

  /**
   A key survives being written and read back exactly when it is consistent, its private
   members are not zero and its exponent fits 31 bits.
   */
  lemma KeyRoundTrip(c: Crypto, k: Key)
    ensures ParseKey(c, MarshalJwk(c, k)) == Ok(k) <==>
      && k.private.d > 0 && k.private.p > 0 && k.private.q > 0
      && k.private.e <= MAX_EXPONENT && c.consistent(k.private)
  {
    MarshalledNumbers(c, k);
    var x := k.private;
    assert x == PrivateKey(x.n, x.e, x.d, x.p, x.q) && k == Key(x, k.kid);
  }

  /** The published half gives back the verification key and never parses as a private one. */
  lemma PublicHalf(c: Crypto, k: Key)
    ensures PublicKeyFromJwk(PublicJwk(c, k)) == Ok(Public(k.private)) <==> k.private.e <= MAX_EXPONENT
    ensures ParseKey(c, PublicJwk(c, k)) == Err(NotPrivate)
    ensures forall k': Key :: k'.private.n == k.private.n && k'.private.e == k.private.e && k'.kid == k.kid ==>
      PublicJwk(c, k') == PublicJwk(c, k)
  {
    IntSurvives(k.private.n);
    ExponentSurvives(k.private.e);
  }

  // --- tokens ----------------------------------------------------------------

  datatype Header = Header(alg: string, typ: string, kid: string)

  function HeaderObject(h: Header): Object {
    WithText(map["alg" := Str(h.alg), "typ" := Str(h.typ)], "kid", h.kid)
  }

  function HeaderOf(codec: Codec, raw: seq<Byte>): Option<Header> {
    match codec.parse(raw)
    case None => None
    case Some(o) =>
      match (StringOf(o, "alg"), StringOf(o, "typ"), StringOf(o, "kid"))
      case (Some(alg), Some(typ), Some(kid)) => Some(Header(alg, typ, kid))
      case _ => None
  }

  function SigningInput(header: seq<Byte>, payload: seq<Byte>): string {
    Encode(header) + ['.'] + Encode(payload)
  }

  function Compact(c: Crypto, k: PrivateKey, header: seq<Byte>, payload: seq<Byte>): string {
    SigningInput(header, payload) + ['.'] + Encode(c.sign(k, SigningInput(header, payload)))
  }

  function Sign(c: Crypto, codec: Codec, k: Key, typ: string, claims: Object): string {
    Compact(c, k.private, codec.encode(HeaderObject(Header("RS256", typ, k.kid))), codec.encode(claims))
  }

  datatype VerifyError =
    | NotCompact | MalformedHeader | UnsupportedAlg | MalformedSignature | BadSignature | MalformedPayload

  function Verify(c: Crypto, codec: Codec, token: string, pub: PublicKey): Result<(Header, seq<Byte>), VerifyError> {
    var parts := Text.Split(token, '.');
    if |parts| != 3 then Err(NotCompact)
    else
      match Decode(parts[0])
      case None => Err(MalformedHeader)
      case Some(raw) =>
        match HeaderOf(codec, raw)
        case None => Err(MalformedHeader)
        case Some(header) =>
          if header.alg != "RS256" then Err(UnsupportedAlg)
          else
            match Decode(parts[2])
            case None => Err(MalformedSignature)
            case Some(signature) =>
              if !c.verify(pub, parts[0] + ['.'] + parts[1], signature) then Err(BadSignature)
              else
                match Decode(parts[1])
                case None => Err(MalformedPayload)
                case Some(payload) => Ok((header, payload))
  }

  /** The three parts of a compact token are found again, whatever bytes they carry. */
  lemma PartsOfCompact(header: seq<Byte>, payload: seq<Byte>, signature: seq<Byte>)
    ensures Text.Split(SigningInput(header, payload) + ['.'] + Encode(signature), '.')
      == [Encode(header), Encode(payload), Encode(signature)]
  {
    EncodedText(header);
    EncodedText(payload);
    EncodedText(signature);
    Text.SplitThree(Encode(header), Encode(payload), Encode(signature), '.');
  }

  /**
   Verifying what was signed returns the payload unchanged, for every header and payload byte
   string; it fails for one reason only, that the header does not name RS256.
   */
  lemma VerifySigned(c: Crypto, codec: Codec, k: PrivateKey, header: seq<Byte>, payload: seq<Byte>)
    requires Sound(c) && c.consistent(k)
    ensures Verify(c, codec, Compact(c, k, header, payload), Public(k)) ==
      match HeaderOf(codec, header)
      case None => Err(MalformedHeader)
      case Some(h) => if h.alg == "RS256" then Ok((h, payload)) else Err(UnsupportedAlg)
  {
    var signature := c.sign(k, SigningInput(header, payload));
    PartsOfCompact(header, payload, signature);
    DecodeEncode(header);
    DecodeEncode(payload);
    DecodeEncode(signature);
  }

  lemma HeaderSurvives(codec: Codec, h: Header)
    requires Lawful(codec)
    ensures HeaderOf(codec, codec.encode(HeaderObject(h))) == Some(h)
  {
    assert "alg" != "typ" && "kid" != "alg" && "kid" != "typ" by {
      assert "alg"[0] == 'a' && "typ"[0] == 't' && "kid"[0] == 'k';
    }
  }

  /** What `Sign` produces, `Verify` accepts, with the claims as they were printed. */
  lemma VerifySign(c: Crypto, codec: Codec, k: Key, typ: string, claims: Object)
    requires Sound(c) && Lawful(codec) && c.consistent(k.private)
    ensures Verify(c, codec, Sign(c, codec, k, typ, claims), Public(k.private))
      == Ok((Header("RS256", typ, k.kid), codec.encode(claims)))
  {
    HeaderSurvives(codec, Header("RS256", typ, k.kid));
    VerifySigned(c, codec, k.private, codec.encode(HeaderObject(Header("RS256", typ, k.kid))), codec.encode(claims));
  }

  /** Three parts that carry a header naming RS256, a payload, and a signature of both under the key. */
  ghost predicate Carries(
    c: Crypto, codec: Codec, pub: PublicKey, token: string, a: string, b: string, s: string, payload: seq<Byte>)
  {
    && '.' !in a && '.' !in b && '.' !in s && token == a + ['.'] + b + ['.'] + s
    && Decode(a).Some? && codec.parse(Decode(a).value).Some?
    && StringOf(codec.parse(Decode(a).value).value, "alg") == Some("RS256")
    && Decode(s).Some? && c.verify(pub, a + ['.'] + b, Decode(s).value)
    && Decode(b) == Some(payload)
  }

  lemma CarriedIsJudged(
    c: Crypto, codec: Codec, pub: PublicKey, token: string, a: string, b: string, s: string, payload: seq<Byte>)
    requires Carries(c, codec, pub, token, a, b, s, payload)
    ensures
      var header := HeaderOf(codec, Decode(a).value);
      Verify(c, codec, token, pub) == if header.Some? then Ok((header.value, payload)) else Err(MalformedHeader)
  {
    Text.SplitThree(a, b, s, '.');
  }

  /** The other members of the header are strings, where they are there. */
  ghost predicate PlainHeader(codec: Codec, raw: seq<Byte>) {
    codec.parse(raw).Some? && StringOf(codec.parse(raw).value, "typ").Some?
      && StringOf(codec.parse(raw).value, "kid").Some?
  }

  /**
   A token verifies with a payload exactly if it is three dot-free parts that decode: a header
   naming RS256, that payload, and a signature of the first two that the key accepts.
   */
  lemma VerifiesExactly(c: Crypto, codec: Codec, token: string, pub: PublicKey, payload: seq<Byte>)
    ensures (Verify(c, codec, token, pub).Ok? && Verify(c, codec, token, pub).value.1 == payload) <==>
      exists a, b, s :: Carries(c, codec, pub, token, a, b, s, payload) && PlainHeader(codec, Decode(a).value)
  {
    if Verify(c, codec, token, pub).Ok? && Verify(c, codec, token, pub).value.1 == payload {
      var p := Text.Split(token, '.');
      Text.SplitIntoThree(token, '.');
      assert Carries(c, codec, pub, token, p[0], p[1], p[2], payload) && PlainHeader(codec, Decode(p[0]).value);
    }
    forall a, b, s | Carries(c, codec, pub, token, a, b, s, payload) && PlainHeader(codec, Decode(a).value)
      ensures Verify(c, codec, token, pub).Ok? && Verify(c, codec, token, pub).value.1 == payload
    {
      CarriedIsJudged(c, codec, pub, token, a, b, s, payload);
    }
  }
}
