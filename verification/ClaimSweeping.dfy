/**
 The sweeper and claim files. A claim file keeps the modification time of the document it was
 renamed from, so the sweeper may take one that a refresh has not read yet.
 */
module ClaimSweeping {
  import opened Wrappers
  import opened Records
  import opened TokenPolicy
  import opened Interleaving
  import opened InterleavingTheorems

  /** Read now, the claimed document would be written back: it is live, the client's own and not reused. */
  predicate Good(cfg: Config, s: State, t: nat, entry: Stored)
    requires t in s.threads
  {
    Returning(AfterRead(cfg, s.threads[t].request, entry, true, s.now))
  }

  /** The handler has the token in hand, or has put it back. */
  predicate Kept(cfg: Config, s: State, t: nat) {
    && t in s.threads
    && var phase := s.threads[t].phase;
    || (phase.Renamed? && phase.present && Good(cfg, s, t, phase.entry))
    || Returning(phase)
    || Restored(t, KeyOfRequest(s.threads[t].request)) in s.log
  }

  /** The sweeper does not yet take the document's claim file. */
  predicate InTime(s: State, entry: Stored) {
    s.now - entry.writtenAt <= 3600000
  }

  /** As long as `t` has not read its claim, the clock leaves it unswept and good. */
  predicate Unhurried(cfg: Config, s: State, t: nat) {
    t in s.threads && s.threads[t].phase.Renamed? ==>
      InTime(s, s.threads[t].phase.entry) && Good(cfg, s, t, s.threads[t].phase.entry)
  }

  /** In every state a run visits. */
  predicate Timely(cfg: Config, s: State, steps: seq<Step>, t: nat)
    decreases |steps|
  {
    Unhurried(cfg, s, t) && (steps != [] ==> Timely(cfg, Next(cfg, s, steps[0]), steps[1..], t))
  }

  /** Kept, and not in reach of the sweeper. */
  predicate Safe(cfg: Config, s: State, t: nat) {
    Kept(cfg, s, t) && (Unhurried(cfg, s, t) || Restored(t, KeyOfRequest(s.threads[t].request)) in s.log)
  }

  lemma OwnStepIsSafe(cfg: Config, s: State, step: Step)
    requires OfThread(step) && Safe(cfg, s, step.t) && Enabled(s, step)
    ensures Safe(cfg, Next(cfg, s, step), step.t)
  {
    var s', t := Next(cfg, s, step), step.t;
    ThreadsMove(cfg, s, step);
    assert s'.threads[t].phase == PhaseAfter(cfg, s, step, s.threads[t].request, s.threads[t].phase);
    assert s'.log == s.log + Events(s, step, s.threads[t].request, s.threads[t].phase);
  }

  lemma SafeNext(cfg: Config, s: State, step: Step, t: nat)
    requires Safe(cfg, s, t) && Enabled(s, step)
    requires step.Tick? ==> Unhurried(cfg, Next(cfg, s, step), t)
    ensures Safe(cfg, Next(cfg, s, step), t)
  {
    LogAppends(cfg, s, step);
    if OfThread(step) {
      ThreadsMove(cfg, s, step);
      if step.t == t {
        OwnStepIsSafe(cfg, s, step);
      }
    }
  }

  /**
   A refresh that reads its claim while the document was last written at most an hour ago,
   and while the token is good, has it in hand or restored in every continuation.
   */
  lemma {:induction false} TimelyReadKeepsTheToken(cfg: Config, s: State, steps: seq<Step>, t: nat)
    requires Kept(cfg, s, t) && Runnable(cfg, s, steps) && Timely(cfg, s, steps, t)
    ensures Kept(cfg, Run(cfg, s, steps), t)
    decreases |steps|
  {
    if steps != [] {
      SafeNext(cfg, s, steps[0], t);
      TimelyReadKeepsTheToken(cfg, Next(cfg, s, steps[0]), steps[1..], t);
    }
  }

  predicate NoTick(steps: seq<Step>) {
    forall i :: 0 <= i < |steps| ==> !steps[i].Tick?
  }

  lemma {:induction false} AtOnceIsSafe(cfg: Config, s: State, steps: seq<Step>, t: nat)
    requires Safe(cfg, s, t) && Runnable(cfg, s, steps) && NoTick(steps)
    ensures Safe(cfg, Run(cfg, s, steps), t)
    decreases |steps|
  {
    if steps != [] {
      SafeNext(cfg, s, steps[0], t);
      AtOnceIsSafe(cfg, Next(cfg, s, steps[0]), steps[1..], t);
    }
  }

  // --- losing a token ------------------------------------------------------------

  /** Nobody has the document, and its name is spent. */
  ghost predicate Gone(s: State, k: Key) {
    && Exclusive(s) && k.id in s.used && k !in s.files
    && forall t :: t in s.threads ==> Holds(s.threads[t]) != Some(k)
  }

  lemma {:induction false} GoneForGood(cfg: Config, s: State, steps: seq<Step>, k: Key)
    requires Gone(s, k) && Runnable(cfg, s, steps)
    ensures Gone(Run(cfg, s, steps), k)
    decreases |steps|
  {
    if steps != [] {
      var s' := Next(cfg, s, steps[0]);
      ExclusiveKept(cfg, s, steps[0]);
      if k in s'.files {
        FileOrigin(cfg, s, steps[0], k);
      }
      forall u | u in s'.threads && Holds(s'.threads[u]) == Some(k) ensures false {
        HolderOrigin(cfg, s, steps[0], k, u);
      }
      UsedGrows(cfg, s, steps[0]);
      GoneForGood(cfg, s', steps[1..], k);
    }
  }

  lemma UsedGrows(cfg: Config, s: State, step: Step)
    ensures s.used <= Next(cfg, s, step).used
  {
  }

  /** Nothing has been restored or revoked, no time has passed, and the token is not kept. */
  predicate LosesBy(cfg: Config, s: State, t: nat, s': State) {
    s'.now == s.now && s'.log == s.log && !Kept(cfg, s', t)
  }

  lemma SweptAndRead(cfg: Config, s: State, t: nat, entry: Stored)
    requires LogOk(s) && t in s.threads && s.threads[t].phase == Renamed(entry, true) && !InTime(s, entry)
    ensures
      var s' := Run(cfg, s, [SweepClaim(t), Read(t)]);
      && Runnable(cfg, s, [SweepClaim(t), Read(t)]) && LosesBy(cfg, s, t, s')
      && Gone(s', KeyOfRequest(s.threads[t].request))
  {
    var s1 := Next(cfg, s, SweepClaim(t));
    var s2 := Next(cfg, s1, Read(t));
    var k := KeyOfRequest(s.threads[t].request);
    assert [SweepClaim(t), Read(t)][1..] == [Read(t)];
    assert Run(cfg, s1, [Read(t)]) == Run(cfg, s2, []) == s2;
    assert Runnable(cfg, s2, []);
    assert Runnable(cfg, s1, [Read(t)]);
    ExclusiveKept(cfg, s, SweepClaim(t));
    ExclusiveKept(cfg, s1, Read(t));
    assert Restored(t, k) in s.log ==> EventOk(s, Restored(t, k));
  }

  /** Without any time passing, whatever happens leaves the token in hand or restored. */
  ghost predicate Survives(cfg: Config, s: State, t: nat) {
    forall steps {:trigger Runnable(cfg, s, steps)} :: Runnable(cfg, s, steps) && NoTick(steps) ==>
      Kept(cfg, Run(cfg, s, steps), t)
  }

  /**
   However the others go on, a claimed token that is still good stays in hand or is restored,
   without any time passing, exactly when its document was last written at most an hour ago.
   Otherwise two steps lose it, unexpired and unrevoked, and then for good.
   */
  lemma SweptClaimLosesTheToken(cfg: Config, s: State, t: nat, entry: Stored, later: seq<Step>)
    requires Reachable(cfg, s)
    requires t in s.threads && s.threads[t].phase == Renamed(entry, true) && Good(cfg, s, t, entry)
    ensures Survives(cfg, s, t) <==> InTime(s, entry)
    ensures
      var swept := [SweepClaim(t), Read(t)];
      var s' := Run(cfg, s, swept);
      !InTime(s, entry) ==>
        && Runnable(cfg, s, swept) && LosesBy(cfg, s, t, s')
        && (Runnable(cfg, s', later) ==> KeyOfRequest(s.threads[t].request) !in Run(cfg, s', later).files)
  {
    ReachableLogOk(cfg, s);
    if InTime(s, entry) {
      forall steps {:trigger Runnable(cfg, s, steps)} | Runnable(cfg, s, steps) && NoTick(steps)
        ensures Kept(cfg, Run(cfg, s, steps), t)
      {
        AtOnceIsSafe(cfg, s, steps, t);
      }
    } else {
      SweptAndRead(cfg, s, t, entry);
      var swept := [SweepClaim(t), Read(t)];
      assert Runnable(cfg, s, swept) && NoTick(swept) && !Kept(cfg, Run(cfg, s, swept), t);
      if Runnable(cfg, Run(cfg, s, swept), later) {
        GoneForGood(cfg, Run(cfg, s, swept), later, KeyOfRequest(s.threads[t].request));
      }
    }
  }
}
