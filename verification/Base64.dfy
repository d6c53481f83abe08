/**
 Unpadded base64url (section 5 of RFC 4648) as the tokens use it, and the big-endian
 integers of section 6.3 of RFC 7518.

 The decoder is the lenient one of the Go library: it skips line breaks and ignores the
 spare bits of the last character.
 */
module Base64 {
  import opened Wrappers

  type Byte = x: int | 0 <= x < 256

  // --- the alphabet ----------------------------------------------------------

  /** The character for a six-bit value. */
  function Digit(v: int): (c: char)
    requires 0 <= v < 64
    ensures c != '.' && c != '=' && c != '\n' && c != '\r'
  {
    if v < 26 then 'A' + v as char
    else if v < 52 then 'a' + (v - 26) as char
    else if v < 62 then '0' + (v - 52) as char
    else if v == 62 then '-'
    else '_'
  }

  /** Its inverse; -1 for a character outside the alphabet. */
  function SixOf(c: char): (v: int)
    ensures -1 <= v < 64
    ensures v >= 0 ==> Digit(v) == c
  {
    if 'A' <= c <= 'Z' then c as int - 'A' as int
    else if 'a' <= c <= 'z' then c as int - 'a' as int + 26
    else if '0' <= c <= '9' then c as int - '0' as int + 52
    else if c == '-' then 62
    else if c == '_' then 63
    else -1
  }

  lemma SixOfDigit(v: int)
    requires 0 <= v < 64
    ensures SixOf(Digit(v)) == v
  {
  }

  // --- three bytes, four digits --------------------------------------------------

  type Six = v: int | 0 <= v < 64

  function Six0(x: Byte): Six { x / 4 }
  function Six1(x: Byte, y: Byte): Six { x % 4 * 16 + y / 16 }
  function Six2(y: Byte, z: Byte): Six { y % 16 * 4 + z / 64 }
  function Six3(z: Byte): Six { z % 64 }

  // The last digit of a group that stops after one or two bytes.
  function Tail1(x: Byte): Six { x % 4 * 16 }
  function Tail2(y: Byte): Six { y % 16 * 4 }

  function Byte0(a: Six, b: Six): Byte { a * 4 + b / 16 }
  function Byte1(b: Six, c: Six): Byte { b % 16 * 16 + c / 4 }
  function Byte2(c: Six, d: Six): Byte { c % 4 * 64 + d }

  lemma Repacked(x: Byte, y: Byte, z: Byte)
    ensures Byte0(Six0(x), Six1(x, y)) == x
    ensures Byte1(Six1(x, y), Six2(y, z)) == y
    ensures Byte2(Six2(y, z), Six3(z)) == z
  {
  }

  /** Taking apart what was put together in base `m`. */
  lemma Digits(a: int, r: int, m: int)
    requires m == 4 || m == 16
    requires 0 <= r < m
    ensures (a * m + r) / m == a && (a * m + r) % m == r
  {
  }

  lemma RepackedTail(x: Byte, y: Byte)
    ensures Byte0(Six0(x), Tail1(x)) == x
    ensures Byte1(Six1(x, y), Tail2(y)) == y
  {
    LastOfPair(x);
    var hi, lo := y / 16, y % 16;
    Digits(x % 4, hi, 16);
    Digits(lo, 0, 4);
    assert Byte1(Six1(x, y), Tail2(y)) == hi * 16 + lo;
  }

  lemma LastOfPair(x: Byte)
    ensures Byte0(Six0(x), Tail1(x)) == x
  {
    var hi, lo := x / 4, x % 4;
    assert lo * 16 / 16 == lo;
  }

  lemma Unpacked0(a: Six, b: Six)
    ensures Six0(Byte0(a, b)) == a
  {
  }

  lemma Unpacked1(a: Six, b: Six, c: Six)
    ensures Six1(Byte0(a, b), Byte1(b, c)) == b
  {
    var hi, lo := b / 16, b % 16;
    assert (a * 4 + hi) % 4 == hi && (lo * 16 + c / 4) / 16 == lo;
  }

  lemma Unpacked2(b: Six, c: Six, d: Six)
    ensures Six2(Byte1(b, c), Byte2(c, d)) == c
    ensures Six3(Byte2(c, d)) == d
  {
    var hi, lo := c / 4, c % 4;
    assert (b % 16 * 16 + hi) % 16 == hi && (lo * 64 + d) / 64 == lo;
  }

  lemma SpareBits1(a: Six, b: Six)
    ensures b % 16 == 0 <==> Tail1(Byte0(a, b)) == b
  {
    var q := b / 16;
    assert (a * 4 + q) % 4 == q && b == q * 16 + b % 16;
  }

  lemma SpareBits2(b: Six, c: Six)
    ensures c % 4 == 0 <==> Tail2(Byte1(b, c)) == c
  {
    var q, r := c / 4, b % 16;
    assert (r * 16 + q) % 16 == q && c == q * 4 + c % 4;
  }

  // --- encoding --------------------------------------------------------------

  /** The missing bits of a short last group are zero. */
  function EncodeLast(b: seq<Byte>): string
    requires |b| < 3
  {
    if |b| == 0 then ""
    else if |b| == 1 then [Digit(Six0(b[0])), Digit(Tail1(b[0]))]
    else [Digit(Six0(b[0])), Digit(Six1(b[0], b[1])), Digit(Tail2(b[1]))]
  }

  function Group(x: Byte, y: Byte, z: Byte): string {
    [Digit(Six0(x)), Digit(Six1(x, y)), Digit(Six2(y, z)), Digit(Six3(z))]
  }

  function Encode(b: seq<Byte>): string
    decreases |b|
  {
    if |b| < 3 then EncodeLast(b) else Group(b[0], b[1], b[2]) + Encode(b[3..])
  }

  // --- decoding --------------------------------------------------------------

  predicate LineBreak(c: char) {
    c == '\n' || c == '\r'
  }

  function Unbroken(s: string): string {
    if s == "" then ""
    else (if LineBreak(s[0]) then "" else [s[0]]) + Unbroken(s[1..])
  }

  predicate InAlphabet(s: string) {
    forall i :: 0 <= i < |s| ==> SixOf(s[i]) >= 0
  }

  /** What is left over carries no byte, one or two; a single character is an error. */
  function DecodeLast(s: string): Option<seq<Byte>>
    requires |s| < 4
  {
    if |s| == 0 then Some([])
    else if |s| == 1 || !InAlphabet(s) then None
    else if |s| == 2 then Some([Byte0(SixOf(s[0]), SixOf(s[1]))])
    else Some([Byte0(SixOf(s[0]), SixOf(s[1])), Byte1(SixOf(s[1]), SixOf(s[2]))])
  }

  function Ungroup(s: string): seq<Byte>
    requires |s| == 4 && InAlphabet(s)
  {
    [Byte0(SixOf(s[0]), SixOf(s[1])), Byte1(SixOf(s[1]), SixOf(s[2])), Byte2(SixOf(s[2]), SixOf(s[3]))]
  }

  function DecodeGroups(s: string): Option<seq<Byte>>
    decreases |s|
  {
    if |s| < 4 then DecodeLast(s)
    else if !InAlphabet(s[..4]) then None
    else
      match DecodeGroups(s[4..])
      case None => None
      case Some(rest) => Some(Ungroup(s[..4]) + rest)
  }

  function Decode(s: string): Option<seq<Byte>> {
    DecodeGroups(Unbroken(s))
  }

  // --- round trips -----------------------------------------------------------

  predicate Plain(s: string) {
    forall i :: 0 <= i < |s| ==> s[i] != '.' && s[i] != '=' && !LineBreak(s[i])
  }

  lemma {:induction false} EncodedText(b: seq<Byte>)
    ensures Plain(Encode(b))
    ensures |Encode(b)| == |b| / 3 * 4 + (if |b| % 3 == 0 then 0 else |b| % 3 + 1)
    decreases |b|
  {
    if |b| >= 3 {
      EncodedText(b[3..]);
    }
  }

  lemma {:induction false} UnbrokenIsItself(s: string)
    requires forall i :: 0 <= i < |s| ==> !LineBreak(s[i])
    ensures Unbroken(s) == s
  {
    if s != "" {
      UnbrokenIsItself(s[1..]);
    }
  }

  lemma LastRoundTrip(b: seq<Byte>)
    requires |b| < 3
    ensures |EncodeLast(b)| < 4 && DecodeLast(EncodeLast(b)) == Some(b)
  {
    if |b| == 1 {
      TwoDecode(Six0(b[0]), Tail1(b[0]));
      RepackedTail(b[0], b[0]);
      assert b == [b[0]];
    } else if |b| == 2 {
      ThreeDecode(Six0(b[0]), Six1(b[0], b[1]), Tail2(b[1]));
      Repacked(b[0], b[1], b[1]);
      RepackedTail(b[0], b[1]);
      assert b == [b[0], b[1]];
    }
  }

  lemma TwoDecode(u: Six, v: Six)
    ensures DecodeLast([Digit(u), Digit(v)]) == Some([Byte0(u, v)])
  {
    SixOfDigit(u);
    SixOfDigit(v);
  }

  lemma ThreeDecode(u: Six, v: Six, w: Six)
    ensures DecodeLast([Digit(u), Digit(v), Digit(w)]) == Some([Byte0(u, v), Byte1(v, w)])
  {
    SixOfDigit(u);
    SixOfDigit(v);
    SixOfDigit(w);
  }

  lemma GroupRoundTrip(x: Byte, y: Byte, z: Byte)
    ensures InAlphabet(Group(x, y, z)) && Ungroup(Group(x, y, z)) == [x, y, z]
  {
    Repacked(x, y, z);
    SixOfDigit(Six0(x));
    SixOfDigit(Six1(x, y));
    SixOfDigit(Six2(y, z));
    SixOfDigit(Six3(z));
  }

  lemma {:induction false} GroupsRoundTrip(b: seq<Byte>)
    ensures DecodeGroups(Encode(b)) == Some(b)
    decreases |b|
  {
    if |b| < 3 {
      LastRoundTrip(b);
    } else {
      var group, rest := Group(b[0], b[1], b[2]), Encode(b[3..]);
      GroupRoundTrip(b[0], b[1], b[2]);
      GroupsRoundTrip(b[3..]);
      assert (group + rest)[..4] == group && (group + rest)[4..] == rest;
      assert b == [b[0], b[1], b[2]] + b[3..];
    }
  }

  /** Decoding inverts encoding for every byte string. */
  lemma DecodeEncode(b: seq<Byte>)
    ensures Decode(Encode(b)) == Some(b)
  {
    EncodedText(b);
    UnbrokenIsItself(Encode(b));
    GroupsRoundTrip(b);
  }

  // --- what else decodes to the same bytes --------------------------------------

  predicate SpareClear(s: string) {
    && (|s| % 4 == 2 ==> SixOf(s[|s| - 1]) % 16 == 0)
    && (|s| % 4 == 3 ==> SixOf(s[|s| - 1]) % 4 == 0)
  }

  /** No line break anywhere and no spare bit set. */
  predicate Canonical(s: string) {
    (forall i :: 0 <= i < |s| ==> !LineBreak(s[i])) && SpareClear(s)
  }

  lemma DigitIs(u: Six, c: char)
    requires SixOf(c) >= 0
    ensures Digit(u) == c <==> u == SixOf(c)
  {
    SixOfDigit(u);
  }

  lemma TwoCanonical(p: char, q: char)
    requires SixOf(p) >= 0 && SixOf(q) >= 0
    ensures EncodeLast([Byte0(SixOf(p), SixOf(q))]) == [p, q] <==> SixOf(q) % 16 == 0
  {
    var a, b := SixOf(p), SixOf(q);
    Unpacked0(a, b);
    SpareBits1(a, b);
    var x := Byte0(a, b);
    DigitIs(Tail1(x), q);
    assert EncodeLast([x]) == [p, Digit(Tail1(x))];
    LastEqual([p], Digit(Tail1(x)), q);
  }

  lemma ThreeCanonical(p: char, q: char, r: char)
    requires SixOf(p) >= 0 && SixOf(q) >= 0 && SixOf(r) >= 0
    ensures EncodeLast([Byte0(SixOf(p), SixOf(q)), Byte1(SixOf(q), SixOf(r))]) == [p, q, r] <==> SixOf(r) % 4 == 0
  {
    var a, b, c := SixOf(p), SixOf(q), SixOf(r);
    Unpacked0(a, b);
    Unpacked1(a, b, c);
    SpareBits2(b, c);
    var x, y := Byte0(a, b), Byte1(b, c);
    DigitIs(Tail2(y), r);
    assert EncodeLast([x, y]) == [p, q, Digit(Tail2(y))];
    LastEqual([p, q], Digit(Tail2(y)), r);
  }

  lemma LastEqual(s: string, c: char, d: char)
    ensures s + [c] == s + [d] <==> c == d
  {
    assert (s + [c])[|s|] == c && (s + [d])[|s|] == d;
  }

  lemma LastCanonical(s: string)
    requires |s| < 4 && DecodeLast(s).Some?
    ensures |DecodeLast(s).value| < 3
    ensures EncodeLast(DecodeLast(s).value) == s <==> SpareClear(s)
  {
    if |s| == 2 {
      TwoCanonical(s[0], s[1]);
      assert s == [s[0], s[1]];
    } else if |s| == 3 {
      ThreeCanonical(s[0], s[1], s[2]);
      assert s == [s[0], s[1], s[2]];
    }
  }

  lemma GroupCanonical(s: string)
    requires |s| == 4 && InAlphabet(s)
    ensures var b := Ungroup(s); |b| == 3 && Group(b[0], b[1], b[2]) == s
  {
    Unpacked0(SixOf(s[0]), SixOf(s[1]));
    Unpacked1(SixOf(s[0]), SixOf(s[1]), SixOf(s[2]));
    Unpacked2(SixOf(s[1]), SixOf(s[2]), SixOf(s[3]));
  }

  lemma SpareClearTail(s: string)
    requires |s| >= 4
    ensures SpareClear(s[4..]) <==> SpareClear(s)
  {
    assert |s[4..]| % 4 == |s| % 4;
    if |s| > 4 {
      assert s[4..][|s| - 5] == s[|s| - 1];
    }
  }

  lemma {:induction false} GroupsCanonical(s: string)
    requires DecodeGroups(s).Some?
    ensures Encode(DecodeGroups(s).value) == s <==> SpareClear(s)
    decreases |s|
  {
    if |s| < 4 {
      LastCanonical(s);
    } else {
      GroupsCanonical(s[4..]);
      GroupCanonical(s[..4]);
      SpareClearTail(s);
      var rest := DecodeGroups(s[4..]).value;
      assert (Ungroup(s[..4]) + rest)[3..] == rest;
      SamePrefix(s[..4], Encode(rest), s[4..]);
      assert s == s[..4] + s[4..];
    }
  }

  lemma SamePrefix(p: string, x: string, y: string)
    ensures p + x == p + y <==> x == y
  {
    assert (p + x)[|p|..] == x && (p + y)[|p|..] == y;
  }

  /** Of all texts that decode to some bytes exactly the canonical one is their encoding. */
  lemma EncodeDecode(s: string)
    requires Decode(s).Some?
    ensures Encode(Decode(s).value) == s <==> Canonical(s)
  {
    if forall i :: 0 <= i < |s| ==> !LineBreak(s[i]) {
      UnbrokenIsItself(s);
      GroupsCanonical(s);
    } else {
      EncodedText(Decode(s).value);
    }
  }

  // --- integers ----------------------------------------------------------------

  /** The shortest big-endian form; no byte at all for zero. */
  function ToBigEndian(n: nat): seq<Byte>
    decreases n
  {
    if n == 0 then [] else ToBigEndian(n / 256) + [n % 256]
  }

  function FromBigEndian(b: seq<Byte>): nat {
    if b == [] then 0 else FromBigEndian(b[..|b| - 1]) * 256 + b[|b| - 1]
  }

  lemma {:induction false} BigEndianRoundTrip(n: nat)
    ensures FromBigEndian(ToBigEndian(n)) == n
    decreases n
  {
    if n > 0 {
      BigEndianRoundTrip(n / 256);
      assert ToBigEndian(n)[..|ToBigEndian(n)| - 1] == ToBigEndian(n / 256);
    }
  }

  function EncodeInt(n: nat): string {
    Encode(ToBigEndian(n))
  }

  function TrimPadding(s: string): string {
    if s != "" && s[|s| - 1] == '=' then TrimPadding(s[..|s| - 1]) else s
  }

  function DecodeInt(s: string): Option<nat> {
    match Decode(TrimPadding(s))
    case None => None
    case Some(b) => Some(FromBigEndian(b))
  }

  function Padding(k: nat): string {
    if k == 0 then "" else Padding(k - 1) + "="
  }

  lemma {:induction false} TrimPadded(s: string, k: nat)
    requires s == "" || s[|s| - 1] != '='
    ensures TrimPadding(s + Padding(k)) == s
  {
    if k == 0 {
      assert s + Padding(0) == s;
    } else {
      TrimPadded(s, k - 1);
      assert s + Padding(k) == s + Padding(k - 1) + "=";
      TrimOne(s + Padding(k - 1));
    }
  }

  lemma TrimOne(t: string)
    ensures TrimPadding(t + "=") == TrimPadding(t)
  {
    assert (t + "=")[..|t|] == t;
  }

  /** Every natural number survives, padded or not, zero included. */
  lemma DecodeEncodeInt(n: nat, k: nat)
    ensures DecodeInt(EncodeInt(n) + Padding(k)) == Some(n)
  {
    var s := EncodeInt(n);
    EncodedText(ToBigEndian(n));
    TrimPadded(s, k);
    DecodeEncode(ToBigEndian(n));
    BigEndianRoundTrip(n);
  }

  // --- against the standard ------------------------------------------------------

  /** Table 2 of RFC 4648: the capital letters, the small ones, the digits, then - and _. */
  lemma AlphabetIsTheStandards(v: Six)
    ensures v <= 25 ==> 'A' <= Digit(v) <= 'Z' && Digit(v) as int - 'A' as int == v
    ensures 26 <= v <= 51 ==> 'a' <= Digit(v) <= 'z' && Digit(v) as int - 'a' as int == v - 26
    ensures 52 <= v <= 61 ==> '0' <= Digit(v) <= '9' && Digit(v) as int - '0' as int == v - 52
    ensures Digit(62) == '-' && Digit(63) == '_'
  {
  }

  lemma ShortVectors()
    ensures Encode([102]) == "Zg" && Encode([102, 111]) == "Zm8"
    ensures Encode([98]) == "Yg" && Encode([98, 97]) == "YmE"
  {
  }

  lemma GroupVectors()
    ensures Group(102, 111, 111) == "Zm9v" && Group(98, 97, 114) == "YmFy" && Group(1, 0, 1) == "AQAB"
  {
  }

  lemma GroupThen(x: Byte, y: Byte, z: Byte, rest: seq<Byte>)
    ensures Encode([x, y, z] + rest) == Group(x, y, z) + Encode(rest)
  {
    assert ([x, y, z] + rest)[3..] == rest;
  }

  /** The test vectors of section 10 of RFC 4648. */
  lemma TestVectors()
    ensures Encode([102]) == "Zg" && Encode([102, 111]) == "Zm8" && Encode([102, 111, 111] + []) == "Zm9v"
    ensures Encode([102, 111, 111] + [98]) == "Zm9v" + "Yg" && Encode([102, 111, 111] + [98, 97]) == "Zm9v" + "YmE"
    ensures Encode([102, 111, 111] + ([98, 97, 114] + [])) == "Zm9v" + "YmFy"
  {
    ShortVectors();
    GroupVectors();
    GroupThen(102, 111, 111, []);
    GroupThen(102, 111, 111, [98]);
    GroupThen(102, 111, 111, [98, 97]);
    GroupThen(102, 111, 111, [98, 97, 114] + []);
    GroupThen(98, 97, 114, []);
    assert Encode([]) == "";
  }

  /** The usual RSA exponent, 65537, as every JWK prints it. */
  lemma UsualExponent()
    ensures EncodeInt(65537) == "AQAB"
  {
    assert ToBigEndian(1) == [1] && ToBigEndian(256) == [1, 0] && ToBigEndian(65537) == [1, 0, 1];
    GroupVectors();
    GroupThen(1, 0, 1, []);
    assert [1, 0, 1] + [] == [1, 0, 1] && Encode([]) == "";
  }
}
