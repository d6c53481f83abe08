/** Runs from the empty store that show what interleaving can do to a refresh token. */
module InterleavedExamples {
  import opened Wrappers
  import opened Records
  import opened DocumentStore
  import opened TokenPolicy
  import opened Handlers
  import opened Interleaving
  import opened InterleavingTheorems
  import opened InterleavedRevocation
  import opened ClaimSweeping
  import opened RevocationEmpties
  import Text

  const APP := Client("app", "", ["https://app"], ["authorization_code", "refresh_token"], [], "none", "web", "", "", 0)
  const CODE := "c0"
  const GRANT := "a0"
  const FIRST := "d1"
  const SECOND := "d2"
  const THIRD := "d3"

  function Verifier(): string {
    seq(43, _ => 'a')
  }

  function TheCode(cfg: Config): AuthCode {
    AuthCode("app", "https://app", cfg.s256(Verifier()), "", "sub", "", GRANT)
  }

  function TheToken(): RefreshToken {
    NewRefresh(APP, "sub", [], "", GRANT, 1000)
  }

  const REDEEM := RedeemRequest(APP, CODE, "https://app", Verifier())

  lemma Reaches(cfg: Config, s: State, step: Step)
    requires Reachable(cfg, s) && Enabled(s, step)
    ensures Reachable(cfg, Next(cfg, s, step))
  {
    var steps :| Runnable(cfg, START, steps) && s == Run(cfg, START, steps);
    OneStep(cfg, s, step, []);
    RunConcat(cfg, START, steps, [step] + []);
  }

  /** One code redeemed, its refresh token stored and listed. */
  function Redeemed(): State {
    State(
      map[RefreshKey(FIRST) := Stored(Document(RefreshDoc(TheToken()), 1000 + REFRESH_TTL_MS), 1000)],
      map[GRANT := {FIRST}], None, map[0 := Thread(REDEEM, Finished)], 1000, {CODE, GRANT, FIRST},
      [Claimed(0, CodeKey(CODE)), Succeeded(0, REDEEM, GRANT)])
  }

  function Claiming(cfg: Config): State {
    State(
      map[], map[], None,
      map[0 := Thread(REDEEM, Renamed(Stored(Document(CodeDoc(TheCode(cfg)), 601000), 1000), true))],
      1000, {CODE, GRANT}, [Claimed(0, CodeKey(CODE))])
  }

  lemma ClaimingIsReached(cfg: Config)
    ensures Reachable(cfg, Claiming(cfg))
  {
    assert Runnable(cfg, START, []) && Run(cfg, START, []) == START;
    Reaches(cfg, START, NewCode(CODE, TheCode(cfg)));
    var s1 := Next(cfg, START, NewCode(CODE, TheCode(cfg)));
    Reaches(cfg, s1, Spawn(0, REDEEM));
    var s2 := Next(cfg, s1, Spawn(0, REDEEM));
    Reaches(cfg, s2, Rename(0));
    var s3 := Next(cfg, s2, Rename(0));
    assert s3.files == map[] && s3.used == {CODE, GRANT};
    assert s3 == Claiming(cfg);
  }

  lemma CodeIsGood(cfg: Config)
    ensures VerifyPKCE(cfg, Verifier(), TheCode(cfg).challenge)
    ensures AfterCode(cfg, APP, REDEEM, TheCode(cfg), 1000) == Minting(TheToken(), NoBack)
  {
    assert Text.Fields("") == [];
    assert "refresh_token" in APP.grantTypes by {
      assert APP.grantTypes[1] == "refresh_token";
    }
  }

  /** The new token is stored but not yet listed. */
  function Unlisted(): State {
    Redeemed().(index := map[], threads := map[0 := Thread(REDEEM, Indexing(GRANT, FIRST, NoBack))],
                log := [Claimed(0, CodeKey(CODE))])
  }

  lemma UnlistedIsReached(cfg: Config)
    ensures Reachable(cfg, Unlisted())
  {
    ClaimingIsReached(cfg);
    CodeIsGood(cfg);
    var s0 := Claiming(cfg);
    Reaches(cfg, s0, Read(0));
    var s1 := Next(cfg, s0, Read(0));
    assert s1.threads == map[0 := Thread(REDEEM, Minting(TheToken(), NoBack))];
    Reaches(cfg, s1, PutNew(0, FIRST));
    var s2 := Next(cfg, s1, PutNew(0, FIRST));
    assert s2.files == Unlisted().files && s2.used == Unlisted().used && s2.threads == Unlisted().threads;
  }

  lemma RedeemedIsReached(cfg: Config)
    ensures Reachable(cfg, Redeemed())
  {
    UnlistedIsReached(cfg);
    var s2 := Unlisted();
    assert GRANT[0] == 'a' && Listed(s2, GRANT) + {FIRST} == {FIRST};
    Reaches(cfg, s2, AddIndex(0));
    var s3 := Next(cfg, s2, AddIndex(0));
    Reaches(cfg, s3, Respond(0));
    assert Next(cfg, s3, Respond(0)) == Redeemed();
  }

  // --- a refresh token lost to the sweeper --------------------------------------------

  const REFRESH := RefreshRequest(APP, FIRST)

  /** An hour and a millisecond later a refresh has renamed the token's file. */
  function Late(): State {
    Redeemed().(
      files := map[],
      threads := map[
        0 := Thread(REDEEM, Finished),
        1 := Thread(REFRESH, Renamed(Redeemed().files[RefreshKey(FIRST)], true))],
      now := 1000 + HOUR_MS + 1,
      log := Redeemed().log + [Claimed(1, RefreshKey(FIRST))])
  }

  lemma LateIsReached(cfg: Config)
    ensures Reachable(cfg, Late())
  {
    RedeemedIsReached(cfg);
    var s0 := Redeemed();
    Reaches(cfg, s0, Tick(HOUR_MS + 1));
    var s1 := Next(cfg, s0, Tick(HOUR_MS + 1));
    Reaches(cfg, s1, Spawn(1, REFRESH));
    var s2 := Next(cfg, s1, Spawn(1, REFRESH));
    Reaches(cfg, s2, Rename(1));
    var s3 := Next(cfg, s2, Rename(1));
    assert s3.files == map[] && s3.threads == Late().threads;
    assert s3 == Late();
  }

  /**
   The store can be reached with a live refresh token that was never revoked in the hands of its
   own client's refresh, and the sweeper then loses it: no continuation ever stores it again.
   */
  lemma LiveTokenLost(cfg: Config, later: seq<Step>)
    ensures Reachable(cfg, Late()) && Late().threads[1].request == REFRESH && !RevokedIn(Late().log, GRANT)
    ensures Good(cfg, Late(), 1, Redeemed().files[RefreshKey(FIRST)])
    ensures
      var swept := [SweepClaim(1), Read(1)];
      && Runnable(cfg, Late(), swept) && LosesBy(cfg, Late(), 1, Run(cfg, Late(), swept))
      && (Runnable(cfg, Run(cfg, Late(), swept), later) ==>
            RefreshKey(FIRST) !in Run(cfg, Run(cfg, Late(), swept), later).files)
  {
    LateIsReached(cfg);
    var entry := Redeemed().files[RefreshKey(FIRST)];
    assert AfterRead(cfg, REFRESH, entry, true, Late().now) == AfterToken(APP, TheToken(), Late().now);
    assert ShouldRotate(APP, TheToken(), Late().now);
    SweptClaimLosesTheToken(cfg, Late(), 1, entry, later);
  }

  // --- a token that a second revocation misses -----------------------------------------------

  const REVOKE_SECOND := RevokeRequest(APP, SECOND)
  const REVOKE_THIRD := RevokeRequest(APP, THIRD)

  function Spent(): RefreshToken {
    TheToken().(consumed := 1)
  }

  function StoredNow(rt: RefreshToken): Stored {
    Stored(Document(RefreshDoc(rt), 1000 + REFRESH_TTL_MS), 1000)
  }

  lemma RotationNow(rt: RefreshToken)
    requires rt == TheToken() || rt == Spent()
    ensures AfterToken(APP, rt, 1000) == Minting(Rotated(TheToken(), 1000), Back(Spent(), REFRESH_TTL_MS))
  {
    assert ShouldRotate(APP, rt, 1000);
    assert Remaining(rt.exp, 1000) == REFRESH_TTL_MS;
  }

  lemma Distinct()
    ensures FIRST != SECOND && SECOND != THIRD && FIRST != THIRD
    ensures GRANT != "" && FIRST != "" && SECOND != "" && THIRD != ""
    ensures CODE !in {FIRST, SECOND, THIRD} && GRANT !in {FIRST, SECOND, THIRD}
    ensures Minted(SECOND) && Minted(THIRD)
  {
    assert FIRST[1] == '1' && SECOND[1] == '2' && THIRD[1] == '3' && GRANT[0] == 'a' && CODE[0] == 'c';
    assert FIRST[0] == 'd' && SECOND[0] == 'd' && THIRD[0] == 'd';
  }

  /** A handler of a refresh has claimed the first token. */
  lemma RefreshBegins(cfg: Config, s: State, t: nat)
    requires Reachable(cfg, s) && t !in s.threads && s.now == 1000
    requires RefreshKey(FIRST) in s.files && s.files[RefreshKey(FIRST)] in {StoredNow(TheToken()), StoredNow(Spent())}
    ensures
      var s' := s.(
        files := s.files - {RefreshKey(FIRST)},
        threads := s.threads[t := Thread(REFRESH, Minting(Rotated(TheToken(), 1000), Back(Spent(), REFRESH_TTL_MS)))],
        log := s.log + [Claimed(t, RefreshKey(FIRST))]);
      Reachable(cfg, s')
  {
    Distinct();
    RotationNow(TheToken());
    RotationNow(Spent());
    Reaches(cfg, s, Spawn(t, REFRESH));
    var s1 := Next(cfg, s, Spawn(t, REFRESH));
    Reaches(cfg, s1, Rename(t));
    var s2 := Next(cfg, s1, Rename(t));
    Reaches(cfg, s2, Read(t));
    var s3 := Next(cfg, s2, Read(t));
    assert s3.threads == s.threads[
      t := Thread(REFRESH, Minting(Rotated(TheToken(), 1000), Back(Spent(), REFRESH_TTL_MS)))];
  }

  /** And has stored and listed a successor. */
  lemma RefreshMints(cfg: Config, s: State, t: nat, id: string)
    requires Reachable(cfg, s) && t in s.threads && s.now == 1000 && s.lock == None
    requires s.threads[t] == Thread(REFRESH, Minting(Rotated(TheToken(), 1000), Back(Spent(), REFRESH_TTL_MS)))
    requires Minted(id) && id !in s.used
    ensures
      var s' := s.(
        files := s.files[RefreshKey(id) := StoredNow(Rotated(TheToken(), 1000))],
        index := s.index[GRANT := Listed(s, GRANT) + {id}],
        threads := s.threads[t := Thread(REFRESH, PuttingBack(Spent(), REFRESH_TTL_MS))],
        used := s.used + {id});
      Reachable(cfg, s')
  {
    Distinct();
    Reaches(cfg, s, PutNew(t, id));
    var s1 := Next(cfg, s, PutNew(t, id));
    assert s1.threads[t].phase == Indexing(GRANT, id, Back(Spent(), REFRESH_TTL_MS));
    Reaches(cfg, s1, AddIndex(t));
    var s2 := Next(cfg, s1, AddIndex(t));
    assert s2.threads == s.threads[t := Thread(REFRESH, PuttingBack(Spent(), REFRESH_TTL_MS))];
    assert Listed(s1, GRANT) == Listed(s, GRANT);
  }

  /** And puts the first token back and answers. */
  lemma RefreshEnds(cfg: Config, s: State, t: nat)
    requires Reachable(cfg, s) && t in s.threads && s.now == 1000
    requires s.threads[t] == Thread(REFRESH, PuttingBack(Spent(), REFRESH_TTL_MS))
    ensures
      var s' := s.(
        files := s.files[RefreshKey(FIRST) := StoredNow(Spent())],
        threads := s.threads[t := Thread(REFRESH, Finished)],
        log := s.log + [Restored(t, RefreshKey(FIRST)), Succeeded(t, REFRESH, GRANT)]);
      Reachable(cfg, s')
  {
    Reaches(cfg, s, PutBack(t));
    var s1 := Next(cfg, s, PutBack(t));
    Reaches(cfg, s1, Respond(t));
    var s2 := Next(cfg, s1, Respond(t));
    assert s2.threads == s.threads[t := Thread(REFRESH, Finished)];
    assert s2.log == s.log + [Restored(t, RefreshKey(FIRST)), Succeeded(t, REFRESH, GRANT)];
  }

  /** A revocation request for a stored token is about to lock the index. */
  lemma RevocationBegins(cfg: Config, s: State, t: nat, r: Request)
    requires Reachable(cfg, s) && t !in s.threads && s.now == 1000 && r in {REVOKE_SECOND, REVOKE_THIRD}
    requires KeyOfRequest(r) in s.files && s.files[KeyOfRequest(r)] == StoredNow(Rotated(TheToken(), 1000))
    ensures Reachable(cfg, s.(threads := s.threads[t := Thread(r, Revoking(GRANT))]))
  {
    Distinct();
    Reaches(cfg, s, Spawn(t, r));
    var s1 := Next(cfg, s, Spawn(t, r));
    Reaches(cfg, s1, Look(t));
    var s2 := Next(cfg, s1, Look(t));
    assert s2.threads == s.threads[t := Thread(r, Revoking(GRANT))];
    assert s2.files == s.files;
  }

  /** It locks the index, destroys both listed tokens, lets go and drops its own. */
  lemma FirstRevocationRuns(cfg: Config, s: State, t: nat)
    requires Reachable(cfg, s) && t in s.threads && s.lock == None && GRANT in s.index
        && s.index[GRANT] == {FIRST, SECOND}
    requires s.threads[t] == Thread(REVOKE_SECOND, Revoking(GRANT))
    ensures
      var s' := s.(
        files := s.files - {RefreshKey(FIRST), RefreshKey(SECOND)},
        index := s.index - {GRANT},
        threads := s.threads[t := Thread(REVOKE_SECOND, Finished)],
        log := s.log + [Revoked(t, GRANT)]);
      Reachable(cfg, s')
  {
    Distinct();
    Reaches(cfg, s, Lock(t));
    var s1 := Next(cfg, s, Lock(t));
    assert s1.threads[t].phase == Destroying(GRANT, {FIRST, SECOND});
    Reaches(cfg, s1, Remove(t, FIRST));
    var s2 := Next(cfg, s1, Remove(t, FIRST));
    assert {FIRST, SECOND} - {FIRST} == {SECOND};
    assert s2.threads[t].phase == Destroying(GRANT, {SECOND});
    Reaches(cfg, s2, Remove(t, SECOND));
    var s3 := Next(cfg, s2, Remove(t, SECOND));
    assert s3.threads[t].phase == Destroying(GRANT, {});
    FirstRevocationLetsGo(cfg, s, s3, t);
  }

  lemma FirstRevocationLetsGo(cfg: Config, s: State, s3: State, t: nat)
    requires t in s.threads && Reachable(cfg, s3) && s.lock == None
    requires s3 == s.(
      files := (s.files - {RefreshKey(FIRST)}) - {RefreshKey(SECOND)}, lock := Some(t),
      threads := s.threads[t := Thread(REVOKE_SECOND, Destroying(GRANT, {}))])
    ensures
      var s' := s.(
        files := s.files - {RefreshKey(FIRST), RefreshKey(SECOND)},
        index := s.index - {GRANT},
        threads := s.threads[t := Thread(REVOKE_SECOND, Finished)],
        log := s.log + [Revoked(t, GRANT)]);
      Reachable(cfg, s')
  {
    Reaches(cfg, s3, Unlock(t));
    var s4 := Next(cfg, s3, Unlock(t));
    assert s4.threads == s.threads[t := Thread(REVOKE_SECOND, Dropping)];
    Reaches(cfg, s4, Drop(t));
    var s5 := Next(cfg, s4, Drop(t));
    assert s5.threads == s.threads[t := Thread(REVOKE_SECOND, Finished)];
    assert s5.files == s.files - {RefreshKey(FIRST), RefreshKey(SECOND)};
  }

  /** The first revocation is over, and the refresh has put its token back. */
  function PutBackAfterwards(): State {
    State(
      map[RefreshKey(FIRST) := StoredNow(Spent())], map[], None,
      map[0 := Thread(REDEEM, Finished), 1 := Thread(REFRESH, Finished), 2 := Thread(REVOKE_SECOND, Finished)],
      1000, {CODE, GRANT, FIRST, SECOND},
      [Claimed(0, CodeKey(CODE)), Succeeded(0, REDEEM, GRANT), Claimed(1, RefreshKey(FIRST)), Revoked(2, GRANT),
       Restored(1, RefreshKey(FIRST)), Succeeded(1, REFRESH, GRANT)])
  }

  /** Both tokens are listed, the first in a refresh's hands, the second about to be revoked. */
  function RevokedWhileInHand(): State {
    State(
      map[RefreshKey(SECOND) := StoredNow(Rotated(TheToken(), 1000))], map[GRANT := {FIRST, SECOND}], None,
      map[0 := Thread(REDEEM, Finished), 1 := Thread(REFRESH, PuttingBack(Spent(), REFRESH_TTL_MS)),
          2 := Thread(REVOKE_SECOND, Revoking(GRANT))],
      1000, {CODE, GRANT, FIRST, SECOND},
      [Claimed(0, CodeKey(CODE)), Succeeded(0, REDEEM, GRANT), Claimed(1, RefreshKey(FIRST))])
  }

  lemma RevokedWhileInHandIsReached(cfg: Config)
    ensures Reachable(cfg, RevokedWhileInHand())
  {
    Distinct();
    RedeemedIsReached(cfg);
    var s0 := Redeemed();
    RefreshBegins(cfg, s0, 1);
    var s1 := s0.(
      files := map[],
      threads := s0.threads[1 := Thread(REFRESH, Minting(Rotated(TheToken(), 1000), Back(Spent(), REFRESH_TTL_MS)))],
      log := s0.log + [Claimed(1, RefreshKey(FIRST))]);
    assert s0.files - {RefreshKey(FIRST)} == map[];
    RefreshMints(cfg, s1, 1, SECOND);
    var s2 := RevokedWhileInHand().(threads := RevokedWhileInHand().threads - {2});
    assert Listed(s1, GRANT) + {SECOND} == {FIRST, SECOND};
    assert s2.threads == s1.threads[1 := Thread(REFRESH, PuttingBack(Spent(), REFRESH_TTL_MS))];
    assert s1.index[GRANT := {FIRST, SECOND}] == s2.index && s1.used + {SECOND} == s2.used;
    assert s2.log == s1.log;
    RevocationBegins(cfg, s2, 2, REVOKE_SECOND);
    assert s2.threads[2 := Thread(REVOKE_SECOND, Revoking(GRANT))] == RevokedWhileInHand().threads;
  }

  lemma PutBackAfterwardsIsReached(cfg: Config)
    ensures Reachable(cfg, PutBackAfterwards())
  {
    Distinct();
    RevokedWhileInHandIsReached(cfg);
    var s0 := RevokedWhileInHand();
    FirstRevocationRuns(cfg, s0, 2);
    var s1 := s0.(
      files := map[], index := map[], threads := s0.threads[2 := Thread(REVOKE_SECOND, Finished)],
      log := s0.log + [Revoked(2, GRANT)]);
    assert s0.files - {RefreshKey(FIRST), RefreshKey(SECOND)} == map[] && s0.index - {GRANT} == map[];
    RefreshEnds(cfg, s1, 1);
    assert s1.threads[1 := Thread(REFRESH, Finished)] == PutBackAfterwards().threads;
    assert s1.log + [Restored(1, RefreshKey(FIRST)), Succeeded(1, REFRESH, GRANT)] == PutBackAfterwards().log;
  }

  /** A second refresh of the surviving token has been answered, and its successor is about to be revoked. */
  function RevokedAgain(): State {
    State(
      map[RefreshKey(FIRST) := StoredNow(Spent()), RefreshKey(THIRD) := StoredNow(Rotated(TheToken(), 1000))],
      map[GRANT := {THIRD}], None,
      PutBackAfterwards().threads[3 := Thread(REFRESH, Finished)][4 := Thread(REVOKE_THIRD, Revoking(GRANT))],
      1000, {CODE, GRANT, FIRST, SECOND, THIRD},
      PutBackAfterwards().log
      + [Claimed(3, RefreshKey(FIRST)), Restored(3, RefreshKey(FIRST)), Succeeded(3, REFRESH, GRANT)])
  }

  lemma RevokedAgainIsReached(cfg: Config)
    ensures Reachable(cfg, RevokedAgain())
  {
    Distinct();
    PutBackAfterwardsIsReached(cfg);
    var s0 := PutBackAfterwards();
    RefreshBegins(cfg, s0, 3);
    var s1 := s0.(
      files := map[],
      threads := s0.threads[3 := Thread(REFRESH, Minting(Rotated(TheToken(), 1000), Back(Spent(), REFRESH_TTL_MS)))],
      log := s0.log + [Claimed(3, RefreshKey(FIRST))]);
    assert s0.files - {RefreshKey(FIRST)} == map[];
    RefreshMints(cfg, s1, 3, THIRD);
    var s2 := s1.(
      files := map[RefreshKey(THIRD) := StoredNow(Rotated(TheToken(), 1000))], index := map[GRANT := {THIRD}],
      threads := s0.threads[3 := Thread(REFRESH, PuttingBack(Spent(), REFRESH_TTL_MS))], used := RevokedAgain().used);
    assert Listed(s1, GRANT) + {THIRD} == {THIRD} && s1.used + {THIRD} == s2.used;
    assert s1.threads[3 := Thread(REFRESH, PuttingBack(Spent(), REFRESH_TTL_MS))] == s2.threads;
    RevokedAgainEnds(cfg, s2);
  }

  lemma RevokedAgainEnds(cfg: Config, s2: State)
    requires Reachable(cfg, s2)
    requires s2 == RevokedAgain().(
      files := map[RefreshKey(THIRD) := StoredNow(Rotated(TheToken(), 1000))],
      threads := PutBackAfterwards().threads[3 := Thread(REFRESH, PuttingBack(Spent(), REFRESH_TTL_MS))],
      log := PutBackAfterwards().log + [Claimed(3, RefreshKey(FIRST))])
    ensures Reachable(cfg, RevokedAgain())
  {
    Distinct();
    RefreshEnds(cfg, s2, 3);
    var s3 := RevokedAgain().(threads := PutBackAfterwards().threads[3 := Thread(REFRESH, Finished)]);
    assert s2.files[RefreshKey(FIRST) := StoredNow(Spent())] == s3.files;
    assert s2.threads[3 := Thread(REFRESH, Finished)] == s3.threads;
    assert s2.log + [Restored(3, RefreshKey(FIRST)), Succeeded(3, REFRESH, GRANT)] == s3.log;
    RevocationBegins(cfg, s3, 4, REVOKE_THIRD);
  }

  /** The state of the second revocation once its handler is in `phase`. */
  function Second(phase: Phase): State {
    var s := RevokedAgain();
    var held := if phase.Destroying? then Some(4) else None;
    var first := map[RefreshKey(FIRST) := StoredNow(Spent())];
    s.(threads := s.threads[4 := Thread(REVOKE_THIRD, phase)],
       lock := held,
       files := if phase.Revoking? || (phase.Destroying? && THIRD in phase.left) then s.files else first,
       index := if phase.Dropping? || phase.Finished? then map[] else s.index,
       log := if phase.Dropping? || phase.Finished? then s.log + [Revoked(4, GRANT)] else s.log)
  }

  lemma SecondStarts(cfg: Config)
    ensures Second(Revoking(GRANT)) == RevokedAgain() && Enabled(RevokedAgain(), Lock(4))
    ensures Next(cfg, RevokedAgain(), Lock(4)) == Second(Destroying(GRANT, {THIRD}))
  {
    var s := RevokedAgain();
    assert s.threads[4 := Thread(REVOKE_THIRD, Revoking(GRANT))] == s.threads;
  }

  lemma SecondRemoves(cfg: Config)
    ensures
      var s := Second(Destroying(GRANT, {THIRD}));
      Enabled(s, Remove(4, THIRD)) && Next(cfg, s, Remove(4, THIRD)) == Second(Destroying(GRANT, {}))
  {
    Distinct();
    var s := Second(Destroying(GRANT, {THIRD}));
    assert {THIRD} - {THIRD} == {};
    assert s.files - {RefreshKey(THIRD)} == map[RefreshKey(FIRST) := StoredNow(Spent())];
    assert Moved(s, 4, Destroying(GRANT, {})) == Second(Destroying(GRANT, {})).threads;
  }

  lemma SecondLetsGo(cfg: Config)
    ensures
      var s := Second(Destroying(GRANT, {}));
      Enabled(s, Unlock(4)) && Next(cfg, s, Unlock(4)) == Second(Dropping)
  {
    var s := Second(Destroying(GRANT, {}));
    assert s.index - {GRANT} == map[];
    assert Moved(s, 4, Dropping) == Second(Dropping).threads;
  }

  lemma SecondDrops(cfg: Config)
    ensures Enabled(Second(Dropping), Drop(4)) && Next(cfg, Second(Dropping), Drop(4)) == Second(Finished)
  {
    Distinct();
    var s := Second(Dropping);
    assert s.files - {RefreshKey(THIRD)} == s.files;
    assert Moved(s, 4, Finished) == Second(Finished).threads;
  }

  lemma SecondIsCalm(cfg: Config, phase: Phase)
    requires phase.Revoking? || phase.Destroying? || phase.Dropping? || phase.Finished?
    ensures NobodyInFlight(cfg, Second(phase), GRANT)
  {
  }

  lemma SecondEnds(cfg: Config)
    ensures
      var s := Second(Destroying(GRANT, {}));
      && Runnable(cfg, s, [Unlock(4), Drop(4)]) && Calm(cfg, s, [Unlock(4), Drop(4)], GRANT)
      && Run(cfg, s, [Unlock(4), Drop(4)]) == Second(Finished)
  {
    var end := Second(Finished);
    SecondIsCalm(cfg, Finished);
    CalmStep(cfg, end, [], end);
    SecondDrops(cfg);
    SecondIsCalm(cfg, Dropping);
    CalmStep(cfg, Second(Dropping), [Unlock(4), Drop(4)][1..], end);
    SecondLetsGo(cfg);
    SecondIsCalm(cfg, Destroying(GRANT, {}));
    CalmStep(cfg, Second(Destroying(GRANT, {})), [Unlock(4), Drop(4)], end);
  }

  const SECOND_REVOCATION: seq<Step> := [Lock(4), Remove(4, THIRD), Unlock(4), Drop(4)]

  lemma SecondRuns(cfg: Config)
    ensures Runnable(cfg, RevokedAgain(), SECOND_REVOCATION) && Calm(cfg, RevokedAgain(), SECOND_REVOCATION, GRANT)
    ensures Run(cfg, RevokedAgain(), SECOND_REVOCATION) == Second(Finished)
  {
    var end := Second(Finished);
    SecondEnds(cfg);
    SecondRemoves(cfg);
    SecondIsCalm(cfg, Destroying(GRANT, {THIRD}));
    assert SECOND_REVOCATION[1..][1..] == [Unlock(4), Drop(4)];
    CalmStep(cfg, Second(Destroying(GRANT, {THIRD})), SECOND_REVOCATION[1..], end);
    SecondStarts(cfg);
    SecondIsCalm(cfg, Revoking(GRANT));
    CalmStep(cfg, RevokedAgain(), SECOND_REVOCATION, end);
  }

  /**
   Why `FirstRevocationIsFinal` speaks of the first: a token that was in hand during a revocation
   and put back afterwards is in no list. A later revocation of its grant, undisturbed and run
   to the end, leaves it stored and live.
   */
  lemma SecondRevocationMissesAToken(cfg: Config)
    ensures Reachable(cfg, RevokedAgain()) && RevokedAgain().threads[4].phase == Revoking(GRANT)
    ensures Runnable(cfg, RevokedAgain(), SECOND_REVOCATION) && Calm(cfg, RevokedAgain(), SECOND_REVOCATION, GRANT)
    ensures
      var s' := Run(cfg, RevokedAgain(), SECOND_REVOCATION);
      && 4 in s'.threads && s'.threads[4].phase.Finished?
      && StoredOf(s', RefreshKey(FIRST), GRANT) && !Expired(s'.files[RefreshKey(FIRST)].doc, s'.now)
  {
    RevokedAgainIsReached(cfg);
    SecondRuns(cfg);
  }

  lemma CalmStep(cfg: Config, s: State, steps: seq<Step>, end: State)
    requires NobodyInFlight(cfg, s, GRANT)
    requires steps == [] ==> s == end
    requires steps != [] ==>
      && Enabled(s, steps[0]) && Runnable(cfg, Next(cfg, s, steps[0]), steps[1..])
      && Calm(cfg, Next(cfg, s, steps[0]), steps[1..], GRANT) && Run(cfg, Next(cfg, s, steps[0]), steps[1..]) == end
    ensures Runnable(cfg, s, steps) && Calm(cfg, s, steps, GRANT) && Run(cfg, s, steps) == end
  {
  }
}
