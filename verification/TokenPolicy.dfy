/**
 The arithmetic and string rules of token issuing (internal/broker/token.go and
 internal/broker/broker.go): lifetimes, rotation, PKCE and scope selection.
 */
module TokenPolicy {
  import opened Records
  import opened ClientPolicy
  import Text

  // Seconds.
  const ACCESS_TTL := 3600
  const REFRESH_TTL := 7776000
  const ABSOLUTE_MAX := 31557600
  const GRACE := 30

  // Milliseconds.
  const CODE_TTL_MS := 600000
  const REQUEST_TTL_MS := 3600000
  const REFRESH_TTL_MS := 7776000000

  /** Broker configuration; the functions stand for SHA-256, the hash of a signed token and URL parsing. */
  datatype Config = Config(
    issuer: string,
    resource: string,
    scope: string,
    s256: string -> string,
    atHash: AccessClaims -> string,
    validResource: string -> bool,
    validRedirect: (string, string) -> bool)

  predicate ShouldRotate(c: Client, rt: RefreshToken, now: int) {
    if rt.iiat != 0 && now - rt.iiat * 1000 > ABSOLUTE_MAX * 1000 then false
    else if IsPublic(c) then true
    else if rt.iat == 0 || rt.exp == 0 || rt.exp <= rt.iat then false
    else 10 * (Unix(now) - rt.iat) > 7 * (rt.exp - rt.iat)
  }

  /** Milliseconds left until `exp`, never less than the one-second fallback once past it. */
  function Remaining(exp: int, now: int): int {
    if exp == 0 then REFRESH_TTL_MS
    else if exp * 1000 - now > 0 then exp * 1000 - now
    else 1000
  }

  predicate PastGrace(rt: RefreshToken, now: int) {
    rt.consumed != 0 && now - rt.consumed * 1000 > GRACE * 1000
  }

  /** The successor of a rotated token. */
  function Rotated(rt: RefreshToken, now: int): RefreshToken {
    rt.(rotations := rt.rotations + 1, iat := Unix(now), exp := Unix(now) + REFRESH_TTL, consumed := 0)
  }

  // --- PKCE ----------------------------------------------------------------

  predicate VerifierChar(c: char) {
    'A' <= c <= 'Z' || 'a' <= c <= 'z' || '0' <= c <= '9' || c == '-' || c == '.' || c == '_' || c == '~'
  }

  predicate VerifyPKCE(cfg: Config, verifier: string, challenge: string) {
    && 43 <= |verifier| <= 128
    && (forall i :: 0 <= i < |verifier| ==> VerifierChar(verifier[i]))
    && cfg.s256(verifier) == challenge
  }

  // --- scopes --------------------------------------------------------------

  function Supported(cfg: Config): seq<string> {
    ["openid", "offline_access", "profile", "email", cfg.scope]
  }

  /** The supported words among `words`, each once, in order of first appearance. */
  function Kept(cfg: Config, words: seq<string>): seq<string> {
    if words == [] then []
    else
      var before := Kept(cfg, words[..|words| - 1]);
      var last := words[|words| - 1];
      if last in Supported(cfg) && last !in before then before + [last] else before
  }

  function GrantableScopes(cfg: Config, requested: string): seq<string> {
    var out := Kept(cfg, Text.Fields(requested));
    if |out| == 0 then [cfg.scope] else out
  }

  method SelectScopes(cfg: Config, requested: string) returns (out: seq<string>)
    ensures out == GrantableScopes(cfg, requested)
  {
    var words := Text.Fields(requested);
    out := [];
    for i := 0 to |words|
      invariant out == Kept(cfg, words[..i])
    {
      assert words[..i + 1][..i] == words[..i];
      if words[i] in Supported(cfg) && words[i] !in out {
        out := out + [words[i]];
      }
    }
    assert words[..|words|] == words;
    if |out| == 0 {
      out := [cfg.scope];
    }
  }

  lemma {:induction false} KeptIsSelection(cfg: Config, words: seq<string>)
    ensures forall w :: w in Kept(cfg, words) <==> w in words && w in Supported(cfg)
    ensures forall i, j :: 0 <= i < j < |Kept(cfg, words)| ==> Kept(cfg, words)[i] != Kept(cfg, words)[j]
    decreases |words|
  {
    if words != [] {
      KeptIsSelection(cfg, words[..|words| - 1]);
      assert words == words[..|words| - 1] + [words[|words| - 1]];
    }
  }

  /**
   A grant is never empty, never repeats a scope and never leaves the supported set; the
   configured scope stands in exactly when nothing the client asked for is supported.
   */
  lemma GrantableScopesAreSound(cfg: Config, requested: string)
    ensures
      var out := GrantableScopes(cfg, requested);
      var supported := {"openid", "offline_access", "profile", "email", cfg.scope};
      && |out| > 0
      && (forall i, j :: 0 <= i < j < |out| ==> out[i] != out[j])
      && (forall w :: w in out ==> w in supported)
      && (forall w :: w in Text.Fields(requested) && w in supported ==> w in out)
      && ((exists w :: w in Text.Fields(requested) && w in supported)
          ==> forall w :: w in out ==> w in Text.Fields(requested))
      && ((forall w :: w in Text.Fields(requested) ==> w !in supported) ==> out == [cfg.scope])
  {
    var words := Text.Fields(requested);
    KeptIsSelection(cfg, words);
    assert forall w :: w in Supported(cfg) <==> w in {"openid", "offline_access", "profile", "email", cfg.scope};
    if |Kept(cfg, words)| == 0 {
      assert forall w :: !(w in words && w in Supported(cfg)) by {
        forall w ensures !(w in words && w in Supported(cfg)) {
          assert w !in Kept(cfg, words);
        }
      }
    } else {
      assert Kept(cfg, words)[0] in Kept(cfg, words);
    }
  }

  /** Where a word first occurs. */
  function FirstAt(words: seq<string>, w: string): (i: nat)
    requires w in words
    ensures i < |words| && words[i] == w && w !in words[..i]
  {
    if words[0] == w then 0 else FirstAt(words[1..], w) + 1
  }

  lemma {:induction false} KeptInOrder(cfg: Config, words: seq<string>)
    ensures forall w :: w in Kept(cfg, words) ==> w in words
    ensures forall i, j :: 0 <= i < j < |Kept(cfg, words)| ==>
      FirstAt(words, Kept(cfg, words)[i]) < FirstAt(words, Kept(cfg, words)[j])
    decreases |words|
  {
    if words != [] {
      var before, last := words[..|words| - 1], words[|words| - 1];
      KeptInOrder(cfg, before);
      KeptIsSelection(cfg, words);
      KeptIsSelection(cfg, before);
      forall w | w in before ensures FirstAt(words, w) == FirstAt(before, w) {
        FirstStays(before, last, w);
        assert words == before + [last];
      }
    }
  }

  lemma {:induction false} FirstStays(words: seq<string>, last: string, w: string)
    requires w in words
    ensures FirstAt(words + [last], w) == FirstAt(words, w)
  {
    if words[0] != w {
      assert (words + [last])[1..] == words[1..] + [last];
      FirstStays(words[1..], last, w);
    }
  }

  /** Granted scopes keep the order in which they were first asked for. */
  lemma GrantKeepsOrder(cfg: Config, requested: string, i: nat, j: nat)
    requires i < j < |GrantableScopes(cfg, requested)|
    ensures
      var out, words := GrantableScopes(cfg, requested), Text.Fields(requested);
      out[i] in words && out[j] in words && FirstAt(words, out[i]) < FirstAt(words, out[j])
  {
    KeptInOrder(cfg, Text.Fields(requested));
  }

  /** The scope string an authorization request carries. */
  function RequestScope(cfg: Config, requested: string): string {
    Text.Join(GrantableScopes(cfg, requested))
  }

  /**
   The authorized scope string reaches every token unchanged unless the request selects
   nothing and OAUTH_SCOPE itself is not single-spaced.
   */
  lemma RequestScopeIsStable(cfg: Config, requested: string)
    ensures Text.Normalised(RequestScope(cfg, requested)) == RequestScope(cfg, requested)
      <==> (Text.SingleSpaced(cfg.scope) || exists w :: w in Text.Fields(requested) && w in Supported(cfg))
  {
    var words := Text.Fields(requested);
    Text.FieldsFromAreWords(requested, "");
    KeptIsSelection(cfg, words);
    var kept := Kept(cfg, words);
    if |kept| == 0 {
      Text.NormalisedIffSingleSpaced(cfg.scope);
      assert Text.Join([cfg.scope]) == cfg.scope;
      forall w ensures !(w in words && w in Supported(cfg)) {
        assert w !in kept;
      }
    } else {
      assert kept[0] in kept;
      forall i | 0 <= i < |kept| ensures Text.Word(kept[i]) {
        assert kept[i] in words;
      }
      Text.FieldsOfJoin(kept);
    }
  }

  /** An OAUTH_SCOPE with two spaces in it, and a request for nothing, end up as another string. */
  lemma DoubleSpacedScopeChanges(cfg: Config)
    requires cfg.scope == "a  b"
    ensures RequestScope(cfg, "") == "a  b" && Text.Normalised(RequestScope(cfg, "")) == "a b"
  {
    assert Text.Fields("") == [];
    assert Text.Join([cfg.scope]) == cfg.scope;
    assert Text.FieldsFrom("b", "") == ["b"] by {
      assert "b"[1..] == "" && "" + ['b'] == "b";
    }
    assert Text.FieldsFrom(" b", "") == ["b"] by {
      assert " b"[1..] == "b";
    }
    assert Text.FieldsFrom("  b", "a") == ["a", "b"] by {
      assert "  b"[1..] == " b";
    }
    assert "a  b"[1..] == "  b" && "" + ['a'] == "a";
    assert Text.Fields("a  b") == ["a", "b"];
    assert ["a", "b"][1..] == ["b"] && "a" + " " + "b" == "a b";
  }
}
