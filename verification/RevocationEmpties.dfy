/**
 What a revocation reaches while handlers interleave: the grant index lists every refresh
 token a first revocation has to remove, so if nobody has one in flight nothing is left.
 */
module RevocationEmpties {
  import opened Wrappers
  import opened Records
  import opened TokenPolicy
  import opened Handlers
  import opened Interleaving
  import opened InterleavingTheorems
  import opened InterleavedRevocation
  import HandlersAlone

  predicate RevokedIn(log: seq<Event>, g: string) {
    exists i :: 0 <= i < |log| && log[i].Revoked? && log[i].grant == g
  }

  /** The handler is about a document or an answer of this grant. */
  predicate Concerns(phase: Phase, g: string) {
    match phase
    case Renamed(entry, _) => GrantOf(entry.doc.payload) == Some(g)
    case Minting(next, _) => next.grantId == g
    case Indexing(grant, _, _) => grant == g
    case PuttingBack(token, _) => token.grantId == g
    case Responding(grant) => grant == g
    case Revoking(grant) => grant == g
    case Destroying(grant, _) => grant == g
    case _ => false
  }

  predicate StoredOf(s: State, k: Key, g: string) {
    k in s.files && GrantOf(s.files[k].doc.payload) == Some(g)
  }

  // --- where documents and phases of a grant come from ------------------------------

  lemma FileGrantOrigin(cfg: Config, s: State, step: Step, k: Key, g: string)
    requires Enabled(s, step) && StoredOf(Next(cfg, s, step), k, g)
    ensures
      || (StoredOf(s, k, g) && Next(cfg, s, step).files[k] == s.files[k])
      || (step.NewCode? && step.code.grantId == g && k == CodeKey(step.id))
      || (step.PutNew? && s.threads[step.t].phase.next.grantId == g && k == RefreshKey(step.id))
      || (step.PutBack? && s.threads[step.t].phase.token.grantId == g && k == KeyOfRequest(s.threads[step.t].request))
  {
  }

  lemma PhaseGrantOrigin(cfg: Config, s: State, step: Step, g: string)
    requires Orderly(s) && Enabled(s, step) && OfThread(step)
    requires
      var r, phase := s.threads[step.t].request, s.threads[step.t].phase;
      Concerns(PhaseAfter(cfg, s, step, r, phase), g)
    ensures
      || Concerns(s.threads[step.t].phase, g)
      || (StoredOf(s, KeyOfRequest(s.threads[step.t].request), g)
          && (step.Rename? || s.files[KeyOfRequest(s.threads[step.t].request)].doc.payload.RefreshDoc?))
  {
    assert BackAgrees(s.threads[step.t].phase);
  }

  // --- a code comes first -------------------------------------------------------------

  ghost predicate Known(s: State) {
    && (forall k, g :: StoredOf(s, k, g) ==> g in s.used)
    && (forall t, g :: t in s.threads && Concerns(s.threads[t].phase, g) ==> g in s.used)
    && (forall k :: k in s.files ==>
        if s.files[k].doc.payload.CodeDoc? then k.model.CodeModel?
        else s.files[k].doc.payload.RefreshDoc? && k.model.RefreshModel?)
  }

  /** As long as a grant's code is stored, nothing else is about the grant. */
  ghost predicate CodesAlone(s: State) {
    forall k, g :: StoredOf(s, k, g) && s.files[k].doc.payload.CodeDoc? ==>
      && (forall k' :: StoredOf(s, k', g) ==> k' == k)
      && (forall t :: t in s.threads ==> !Concerns(s.threads[t].phase, g))
  }

  lemma ThreadGrantOrigin(cfg: Config, s: State, step: Step, t: nat, g: string)
    requires Orderly(s) && Enabled(s, step) && t in Next(cfg, s, step).threads
    requires Concerns(Next(cfg, s, step).threads[t].phase, g)
    ensures
      || (t in s.threads && Concerns(s.threads[t].phase, g))
      || (OfThread(step) && StoredOf(s, KeyOfRequest(s.threads[step.t].request), g)
          && (step.Rename? || s.files[KeyOfRequest(s.threads[step.t].request)].doc.payload.RefreshDoc?))
  {
    if OfThread(step) {
      ThreadsMove(cfg, s, step);
      var r, phase := s.threads[step.t].request, s.threads[step.t].phase;
      assert Next(cfg, s, step).threads[step.t].phase == PhaseAfter(cfg, s, step, r, phase);
      if t == step.t {
        PhaseGrantOrigin(cfg, s, step, g);
      }
    }
  }

  lemma StoredKnown(cfg: Config, s: State, step: Step, k: Key, g: string)
    requires Known(s) && Enabled(s, step) && StoredOf(Next(cfg, s, step), k, g)
    ensures g in Next(cfg, s, step).used
  {
    FileGrantOrigin(cfg, s, step, k, g);
    OwnGrantKnown(s, step);
  }

  lemma ConcernKnown(cfg: Config, s: State, step: Step, t: nat, g: string)
    requires Orderly(s) && Known(s) && Enabled(s, step) && t in Next(cfg, s, step).threads
    requires Concerns(Next(cfg, s, step).threads[t].phase, g)
    ensures g in Next(cfg, s, step).used
  {
    ThreadGrantOrigin(cfg, s, step, t, g);
    OwnGrantKnown(s, step);
  }

  lemma KnownKept(cfg: Config, s: State, step: Step)
    requires LogOk(s) && Orderly(s) && Known(s) && Enabled(s, step)
    ensures Known(Next(cfg, s, step))
  {
    var s' := Next(cfg, s, step);
    forall k, g | StoredOf(s', k, g) ensures g in s'.used {
      StoredKnown(cfg, s, step, k, g);
    }
    forall t, g | t in s'.threads && Concerns(s'.threads[t].phase, g) ensures g in s'.used {
      ConcernKnown(cfg, s, step, t, g);
    }
    forall k | k in s'.files
      ensures if s'.files[k].doc.payload.CodeDoc? then k.model.CodeModel?
        else s'.files[k].doc.payload.RefreshDoc? && k.model.RefreshModel?
    {
      KindOrigin(cfg, s, step, k);
    }
  }

  /** Only a real grant is ever revoked. */
  predicate RevokesSome(s: State) {
    forall t :: t in s.threads && s.threads[t].phase.Revoking? ==> s.threads[t].phase.grant != ""
  }

  lemma RevokesSomeKept(cfg: Config, s: State, step: Step)
    requires RevokesSome(s) && Enabled(s, step)
    ensures RevokesSome(Next(cfg, s, step))
  {
    if OfThread(step) {
      ThreadsMove(cfg, s, step);
      assert Next(cfg, s, step).threads[step.t].phase ==
        PhaseAfter(cfg, s, step, s.threads[step.t].request, s.threads[step.t].phase);
    }
  }

  lemma OwnGrantKnown(s: State, step: Step)
    requires Known(s) && Enabled(s, step)
    ensures OfThread(step) ==> forall g :: Concerns(s.threads[step.t].phase, g) ==> g in s.used
  {
  }

  lemma KindOrigin(cfg: Config, s: State, step: Step, k: Key)
    requires LogOk(s) && Enabled(s, step) && k in Next(cfg, s, step).files
    ensures
      var s' := Next(cfg, s, step);
      || (k in s.files && s'.files[k].doc == s.files[k].doc)
      || (s'.files[k].doc.payload.CodeDoc? && k.model.CodeModel?)
      || (s'.files[k].doc.payload.RefreshDoc? && k.model.RefreshModel?)
  {
    if step.PutBack? {
      assert ThreadOk(s, step.t);
    }
  }

  lemma CodesAloneKept(cfg: Config, s: State, step: Step)
    requires LogOk(s) && Orderly(s) && Known(s) && CodesAlone(s) && Enabled(s, step)
    ensures CodesAlone(Next(cfg, s, step))
  {
    var s' := Next(cfg, s, step);
    forall k, g | StoredOf(s', k, g) && s'.files[k].doc.payload.CodeDoc?
      ensures forall k' :: StoredOf(s', k', g) ==> k' == k
      ensures forall t :: t in s'.threads ==> !Concerns(s'.threads[t].phase, g)
    {
      CodeStaysAlone(cfg, s, step, k, g);
    }
  }

  lemma CodeStaysAlone(cfg: Config, s: State, step: Step, k: Key, g: string)
    requires LogOk(s) && Orderly(s) && Known(s) && CodesAlone(s) && Enabled(s, step)
    requires StoredOf(Next(cfg, s, step), k, g) && Next(cfg, s, step).files[k].doc.payload.CodeDoc?
    ensures forall k' :: StoredOf(Next(cfg, s, step), k', g) ==> k' == k
    ensures forall t :: t in Next(cfg, s, step).threads ==> !Concerns(Next(cfg, s, step).threads[t].phase, g)
  {
    var s' := Next(cfg, s, step);
    FileGrantOrigin(cfg, s, step, k, g);
    assert (step.NewCode? && step.code.grantId == g && k == CodeKey(step.id)) || StoredOf(s, k, g) by {
      if OfThread(step) && (step.PutNew? || step.PutBack?) {
        KindOrigin(cfg, s, step, k);
      }
    }
    forall k' | StoredOf(s', k', g) ensures k' == k {
      FileGrantOrigin(cfg, s, step, k', g);
    }
    forall t | t in s'.threads ensures !Concerns(s'.threads[t].phase, g) {
      if Concerns(s'.threads[t].phase, g) {
        ThreadGrantOrigin(cfg, s, step, t, g);
      }
    }
  }

  // --- the index lists what is stored or in hand ------------------------------------------

  /** The grant of the refresh token the handler has taken and may write back. */
  function InHand(phase: Phase): Option<string> {
    match phase
    case Renamed(entry, _) => if entry.doc.payload.RefreshDoc? then Some(entry.doc.payload.token.grantId) else None
    case Minting(_, Back(token, _)) => Some(token.grantId)
    case Indexing(_, _, Back(token, _)) => Some(token.grantId)
    case PuttingBack(token, _) => Some(token.grantId)
    case _ => None
  }

  predicate IndexingId(s: State, g: string, id: string) {
    exists u :: u in s.threads && s.threads[u].phase.Indexing? && s.threads[u].phase.grant == g
      && s.threads[u].phase.id == id
  }

  /** Listed under the grant, or its handler is about to list it. */
  predicate ListedSoon(s: State, g: string, id: string) {
    id in Listed(s, g) || IndexingId(s, g, id)
  }

  /** Of a grant that was never revoked every refresh token, stored or in hand, is listed. */
  ghost predicate Listing(s: State, g: string) {
    g != "" && !RevokedIn(s.log, g) ==>
      && (forall k :: StoredOf(s, k, g) && k.model.RefreshModel? ==> ListedSoon(s, g, k.id))
      && (forall t :: t in s.threads && InHand(s.threads[t].phase) == Some(g) ==>
          ListedSoon(s, g, KeyOfRequest(s.threads[t].request).id))
  }

  lemma IndexStays(cfg: Config, s: State, step: Step, g: string, id: string)
    requires Enabled(s, step) && OfThread(step) && g != "" && id in Listed(s, g)
    requires !(step.Unlock? && s.threads[step.t].phase.Destroying? && s.threads[step.t].phase.grant == g)
    ensures id in Listed(Next(cfg, s, step), g)
  {
    assert Next(cfg, s, step).index == IndexAfter(s, step, s.threads[step.t].phase);
  }

  lemma IndexingEnds(cfg: Config, s: State, step: Step, g: string, id: string)
    requires Enabled(s, step) && OfThread(step) && g != "" && IndexingId(s, g, id)
    ensures ListedSoon(Next(cfg, s, step), g, id)
  {
    var s' := Next(cfg, s, step);
    ThreadsMove(cfg, s, step);
    assert s'.index == IndexAfter(s, step, s.threads[step.t].phase);
    var u :| u in s.threads && s.threads[u].phase.Indexing? && s.threads[u].phase.grant == g
      && s.threads[u].phase.id == id;
    assert u != step.t ==> s'.threads[u] == s.threads[u];
  }

  lemma ListedStays(cfg: Config, s: State, step: Step, g: string, id: string)
    requires Enabled(s, step) && g != "" && ListedSoon(s, g, id) && !RevokedIn(Next(cfg, s, step).log, g)
    ensures ListedSoon(Next(cfg, s, step), g, id)
  {
    var s' := Next(cfg, s, step);
    if OfThread(step) {
      LogAppends(cfg, s, step);
      if step.Unlock? {
        assert s'.log[|s.log|] == Revoked(step.t, s.threads[step.t].phase.grant);
      }
      if id in Listed(s, g) {
        IndexStays(cfg, s, step, g, id);
      } else {
        IndexingEnds(cfg, s, step, g, id);
      }
    } else if id !in Listed(s, g) {
      var u :| u in s.threads && s.threads[u].phase.Indexing? && s.threads[u].phase.grant == g
        && s.threads[u].phase.id == id;
      assert s'.threads[u] == s.threads[u];
    }
  }

  lemma NeverRevoked(cfg: Config, s: State, step: Step, g: string)
    requires Enabled(s, step) && !RevokedIn(Next(cfg, s, step).log, g)
    ensures !RevokedIn(s.log, g)
  {
    LogAppends(cfg, s, step);
    assert forall i :: 0 <= i < |s.log| ==> Next(cfg, s, step).log[i] == s.log[i];
  }

  lemma InHandAfter(cfg: Config, s: State, step: Step, g: string)
    requires Orderly(s) && Enabled(s, step) && OfThread(step)
    requires
      var r, phase := s.threads[step.t].request, s.threads[step.t].phase;
      InHand(PhaseAfter(cfg, s, step, r, phase)) == Some(g)
    ensures
      var k := KeyOfRequest(s.threads[step.t].request);
      InHand(s.threads[step.t].phase) == Some(g) || (StoredOf(s, k, g) && s.files[k].doc.payload.RefreshDoc?)
  {
    assert BackAgrees(s.threads[step.t].phase);
  }

  lemma InHandOrigin(cfg: Config, s: State, step: Step, t: nat, g: string)
    requires Orderly(s) && Known(s) && Enabled(s, step) && t in Next(cfg, s, step).threads
    requires InHand(Next(cfg, s, step).threads[t].phase) == Some(g)
    ensures t in s.threads && Next(cfg, s, step).threads[t].request == s.threads[t].request
    ensures
      var k := KeyOfRequest(s.threads[t].request);
      || InHand(s.threads[t].phase) == Some(g)
      || (StoredOf(s, k, g) && k.model.RefreshModel?)
  {
    if OfThread(step) {
      ThreadsMove(cfg, s, step);
      var r, phase := s.threads[step.t].request, s.threads[step.t].phase;
      assert Next(cfg, s, step).threads[step.t].phase == PhaseAfter(cfg, s, step, r, phase);
      if t == step.t {
        InHandAfter(cfg, s, step, g);
      }
    }
  }

  lemma ListingKept(cfg: Config, s: State, step: Step, g: string)
    requires LogOk(s) && Orderly(s) && Known(s) && Listing(s, g) && Enabled(s, step)
    ensures Listing(Next(cfg, s, step), g)
  {
    var s' := Next(cfg, s, step);
    if g != "" && !RevokedIn(s'.log, g) {
      NeverRevoked(cfg, s, step, g);
      forall k | StoredOf(s', k, g) && k.model.RefreshModel? ensures ListedSoon(s', g, k.id) {
        StoredListed(cfg, s, step, g, k);
      }
      forall t | t in s'.threads && InHand(s'.threads[t].phase) == Some(g)
        ensures ListedSoon(s', g, KeyOfRequest(s'.threads[t].request).id)
      {
        InHandOrigin(cfg, s, step, t, g);
        ListedStays(cfg, s, step, g, KeyOfRequest(s.threads[t].request).id);
      }
    }
  }

  lemma StoredListed(cfg: Config, s: State, step: Step, g: string, k: Key)
    requires Known(s) && Listing(s, g) && Enabled(s, step) && g != ""
    requires !RevokedIn(s.log, g) && !RevokedIn(Next(cfg, s, step).log, g)
    requires StoredOf(Next(cfg, s, step), k, g) && k.model.RefreshModel?
    ensures ListedSoon(Next(cfg, s, step), g, k.id)
  {
    var s' := Next(cfg, s, step);
    FileGrantOrigin(cfg, s, step, k, g);
    if OfThread(step) && step.PutNew? && k == RefreshKey(step.id) && s.threads[step.t].phase.next.grantId == g {
      var phase := s.threads[step.t].phase;
      assert s'.threads[step.t].phase == Indexing(g, k.id, phase.back);
    } else {
      ListedStays(cfg, s, step, g, k.id);
    }
  }

  // --- every reachable state ------------------------------------------------------------

  ghost predicate Books(s: State, g: string) {
    LogOk(s) && Orderly(s) && Known(s) && RevokesSome(s) && CodesAlone(s) && Listing(s, g)
  }

  lemma {:induction false} RunKeepsBooks(cfg: Config, s: State, steps: seq<Step>, g: string)
    requires Books(s, g) && Runnable(cfg, s, steps)
    ensures Books(Run(cfg, s, steps), g)
    decreases |steps|
  {
    if steps != [] {
      LogKept(cfg, s, steps[0]);
      OrderlyKept(cfg, s, steps[0]);
      KnownKept(cfg, s, steps[0]);
      RevokesSomeKept(cfg, s, steps[0]);
      CodesAloneKept(cfg, s, steps[0]);
      ListingKept(cfg, s, steps[0], g);
      RunKeepsBooks(cfg, Next(cfg, s, steps[0]), steps[1..], g);
    }
  }

  lemma ReachableBooks(cfg: Config, s: State, g: string)
    requires Reachable(cfg, s)
    ensures Books(s, g)
  {
    var steps :| Runnable(cfg, START, steps) && s == Run(cfg, START, steps);
    RunKeepsBooks(cfg, START, steps, g);
  }

  /** The index agreement: of a grant never revoked, every stored refresh token is listed or about to be. */
  lemma UnrevokedIsListed(cfg: Config, s: State, g: string, k: Key)
    requires Reachable(cfg, s) && g != "" && !RevokedIn(s.log, g)
    requires StoredOf(s, k, g) && s.files[k].doc.payload.RefreshDoc?
    ensures k.model.RefreshModel? && ListedSoon(s, g, k.id)
  {
    ReachableBooks(cfg, s, g);
    assert k in s.files;
  }

  // --- a revocation under way --------------------------------------------------------------

  ghost predicate NobodyInFlight(cfg: Config, s: State, g: string) {
    forall t :: t in s.threads ==> !InFlight(cfg, s, t, g)
  }

  /** In no state of the run is a handler in flight with a document of the grant. */
  ghost predicate Calm(cfg: Config, s: State, steps: seq<Step>, g: string)
    decreases |steps|
  {
    NobodyInFlight(cfg, s, g) && (steps != [] ==> Calm(cfg, Next(cfg, s, steps[0]), steps[1..], g))
  }

  /** Every stored document of the grant is a refresh token the index lists. */
  ghost predicate AllListed(s: State, g: string) {
    forall k :: StoredOf(s, k, g) ==> k.model.RefreshModel? && k.id in Listed(s, g)
  }

  /** What the handler drops by itself after destroying what the index lists. */
  function OwnKeys(r: Request): set<Key> {
    if r.RevokeRequest? then {KeyOfRequest(r)} else {}
  }

  /**
   What is stored of the grant is still on the revoking handler's list, or one of `own`, which the
   handler drops last; once it is done, nothing is stored.
   */
  ghost predicate OnTheList(s: State, t: nat, g: string, own: set<Key>) {
    && t in s.threads && own <= OwnKeys(s.threads[t].request)
    && match s.threads[t].phase
       case Destroying(grant, left) =>
         grant == g && forall k :: StoredOf(s, k, g) ==> (k.model.RefreshModel? && k.id in left) || k in own
       case Dropping => forall k :: StoredOf(s, k, g) ==> k in own
       case Finished => Absent(s.files, g)
       case _ => false
  }

  lemma NothingNewStored(cfg: Config, s: State, step: Step, k: Key, g: string)
    requires NobodyInFlight(cfg, s, g) && g in s.used && Enabled(s, step) && StoredOf(Next(cfg, s, step), k, g)
    ensures StoredOf(s, k, g)
  {
    FileGrantOrigin(cfg, s, step, k, g);
    if OfThread(step) {
      assert !InFlight(cfg, s, step.t, g);
    }
  }

  lemma ListShrinks(cfg: Config, s: State, step: Step, t: nat, g: string, own: set<Key>)
    requires OnTheList(s, t, g, own) && NobodyInFlight(cfg, s, g) && g in s.used && Enabled(s, step)
    ensures OnTheList(Next(cfg, s, step), t, g, own)
  {
    var s' := Next(cfg, s, step);
    forall k | StoredOf(s', k, g) ensures StoredOf(s, k, g) {
      NothingNewStored(cfg, s, step, k, g);
    }
    if OfThread(step) {
      ThreadsMove(cfg, s, step);
      if step.t == t {
        var r, phase := s.threads[t].request, s.threads[t].phase;
        assert s'.threads[t].phase == PhaseAfter(cfg, s, step, r, phase) && s'.files == FilesAfter(s, step, r, phase);
        assert step.Remove? ==> !StoredOf(s', RefreshKey(step.id), g);
        assert step.Drop? ==> !StoredOf(s', KeyOfRequest(r), g);
      }
    }
    assert forall k :: k in s'.files && GrantOf(s'.files[k].doc.payload) == Some(g) ==> StoredOf(s', k, g);
  }

  lemma {:induction false} CalmRevocation(cfg: Config, s: State, t: nat, steps: seq<Step>, g: string, own: set<Key>)
    requires OnTheList(s, t, g, own) && g in s.used && Runnable(cfg, s, steps) && Calm(cfg, s, steps, g)
    ensures OnTheList(Run(cfg, s, steps), t, g, own) && NobodyInFlight(cfg, Run(cfg, s, steps), g)
    ensures g in Run(cfg, s, steps).used
    decreases |steps|
  {
    if steps != [] {
      ListShrinks(cfg, s, steps[0], t, g, own);
      CalmRevocation(cfg, Next(cfg, s, steps[0]), t, steps[1..], g, own);
    }
  }

  /** Every stored document of the grant is a refresh token the index lists, or one of `own`. */
  ghost predicate ListedOr(s: State, g: string, own: set<Key>) {
    forall k :: StoredOf(s, k, g) ==> (k.model.RefreshModel? && k.id in Listed(s, g)) || k in own
  }

  lemma Locks(cfg: Config, s: State, t: nat, g: string, own: set<Key>)
    requires Enabled(s, Lock(t)) && s.threads[t].phase == Revoking(g)
    requires ListedOr(s, g, own) && own <= OwnKeys(s.threads[t].request)
    ensures OnTheList(Next(cfg, s, Lock(t)), t, g, own)
  {
    var s' := Next(cfg, s, Lock(t));
    assert s'.threads[t].phase == Destroying(g, Listed(s, g)) && s'.files == s.files;
    assert forall k :: StoredOf(s', k, g) ==> StoredOf(s, k, g);
  }

  lemma LockedRun(cfg: Config, s: State, t: nat, g: string, steps: seq<Step>, own: set<Key>)
    requires Reachable(cfg, s) && t in s.threads && s.threads[t].phase == Revoking(g) && s.lock == None
    requires ListedOr(s, g, own) && own <= OwnKeys(s.threads[t].request)
    requires Runnable(cfg, s, [Lock(t)] + steps) && Calm(cfg, s, [Lock(t)] + steps, g)
    ensures
      var s' := Run(cfg, s, [Lock(t)] + steps);
      && OnTheList(s', t, g, own) && Orderly(s')
      && (Absent(s'.files, g) ==> Final(cfg, s', g))
  {
    ReachableBooks(cfg, s, g);
    assert ([Lock(t)] + steps)[1..] == steps;
    Locks(cfg, s, t, g, own);
    var s1 := Next(cfg, s, Lock(t));
    OrderlyKept(cfg, s, Lock(t));
    assert Concerns(s.threads[t].phase, g);
    assert g in s1.used;
    CalmRevocation(cfg, s1, t, steps, g, own);
    RunKeepsOrder(cfg, s1, steps);
    var s' := Run(cfg, s1, steps);
    if Absent(s'.files, g) {
      EmptiedIsFinal(cfg, s', g);
    }
  }

  /**
   A revocation that finds everything of the grant in the index, and meets no handler in flight
   with one of its documents, leaves nothing once it is done, and is final from then on.
   */
  lemma ListedGrantIsEmptied(cfg: Config, s: State, t: nat, g: string, steps: seq<Step>)
    requires Reachable(cfg, s) && AllListed(s, g)
    requires t in s.threads && s.threads[t].phase == Revoking(g) && s.lock == None
    requires Runnable(cfg, s, [Lock(t)] + steps) && Calm(cfg, s, [Lock(t)] + steps, g)
    ensures
      var s' := Run(cfg, s, [Lock(t)] + steps);
      t in s'.threads && (!s'.threads[t].phase.Destroying? ==> Absent(s'.files, g) && Final(cfg, s', g))
  {
    LockedRun(cfg, s, t, g, steps, {});
    var s' := Run(cfg, s, [Lock(t)] + steps);
    if s'.threads[t].phase.Dropping? {
      assert forall k :: k in s'.files && GrantOf(s'.files[k].doc.payload) == Some(g) ==> StoredOf(s', k, g);
    }
  }

  lemma EmptiedIsFinal(cfg: Config, s: State, g: string)
    requires Orderly(s) && g in s.used && Absent(s.files, g) && NobodyInFlight(cfg, s, g)
    ensures Final(cfg, s, g)
  {
    forall steps {:trigger Runnable(cfg, s, steps)} | Runnable(cfg, s, steps)
      ensures Absent(Run(cfg, s, steps).files, g) && NoneAnswered(Run(cfg, s, steps).log, |s.log|, g)
    {
      DeadForever(cfg, s, steps, g);
    }
  }

  /** Before a grant's first revocation the index lists all there is to remove. */
  lemma FirstRevocationFindsAll(cfg: Config, s: State, t: nat, g: string)
    requires Reachable(cfg, s) && t in s.threads && s.threads[t].phase == Revoking(g)
    requires !RevokedIn(s.log, g) && NobodyInFlight(cfg, s, g)
    ensures AllListed(s, g)
  {
    ReachableBooks(cfg, s, g);
    assert Concerns(s.threads[t].phase, g);
    forall k | StoredOf(s, k, g) ensures k.model.RefreshModel? && k.id in Listed(s, g) {
      assert k in s.files;
      assert !s.files[k].doc.payload.CodeDoc?;
      assert ListedSoon(s, g, k.id);
      if IndexingId(s, g, k.id) {
        var u :| u in s.threads && s.threads[u].phase.Indexing? && s.threads[u].phase.grant == g
          && s.threads[u].phase.id == k.id;
        assert InFlight(cfg, s, u, g);
      }
    }
  }

  /**
   So the first revocation of a grant, from taking the index mutex on, empties the grant and is
   final, whatever else runs, unless a handler is or comes in flight with one of its documents.
   */
  lemma FirstRevocationIsFinal(cfg: Config, s: State, t: nat, g: string, steps: seq<Step>)
    requires Reachable(cfg, s) && !RevokedIn(s.log, g)
    requires t in s.threads && s.threads[t].phase == Revoking(g) && s.lock == None
    requires Runnable(cfg, s, [Lock(t)] + steps) && Calm(cfg, s, [Lock(t)] + steps, g)
    ensures
      var s' := Run(cfg, s, [Lock(t)] + steps);
      t in s'.threads && (!s'.threads[t].phase.Destroying? ==> Absent(s'.files, g) && Final(cfg, s', g))
  {
    FirstRevocationFindsAll(cfg, s, t, g);
    ListedGrantIsEmptied(cfg, s, t, g, steps);
  }

  // --- exactly when a revocation empties its grant --------------------------------------------

  /** Every calm run from taking the mutex to the end of the handler leaves the grant empty, for good. */
  ghost predicate Empties(cfg: Config, s: State, t: nat, g: string) {
    forall steps {:trigger Runnable(cfg, s, [Lock(t)] + steps)} ::
      && Runnable(cfg, s, [Lock(t)] + steps) && Calm(cfg, s, [Lock(t)] + steps, g)
      && HandlersAlone.Done(Run(cfg, s, [Lock(t)] + steps), t)
      ==> Absent(Run(cfg, s, [Lock(t)] + steps).files, g) && Final(cfg, Run(cfg, s, [Lock(t)] + steps), g)
  }

  /** A document of the grant that the revoking handler will not touch, and nobody else is in flight. */
  ghost predicate PassedOver(cfg: Config, s: State, t: nat, g: string, k: Key) {
    && StoredOf(s, k, g) && NobodyInFlight(cfg, s, g)
    && t in s.threads && k !in OwnKeys(s.threads[t].request)
    && match s.threads[t].phase
       case Destroying(_, left) => !(k.model.RefreshModel? && k.id in left)
       case Dropping => s.threads[t].request.RevokeRequest?
       case Finished => true
       case _ => false
  }

  lemma StillPassedOver(cfg: Config, s: State, step: Step, t: nat, g: string, k: Key)
    requires PassedOver(cfg, s, t, g, k) && Enabled(s, step) && HandlersAlone.OwnStep(step, t)
    ensures PassedOver(cfg, Next(cfg, s, step), t, g, k)
  {
    var r, phase, s' := s.threads[t].request, s.threads[t].phase, Next(cfg, s, step);
    ThreadsMove(cfg, s, step);
    assert s' == NextOf(cfg, s, step, r, phase);
    forall u | u in s'.threads ensures !InFlight(cfg, s', u, g) {
      if u != t {
        assert s'.threads[u] == s.threads[u] && !InFlight(cfg, s, u, g);
      }
    }
  }

  lemma {:induction false} OwnRunPassesOver(cfg: Config, s: State, steps: seq<Step>, t: nat, g: string, k: Key)
    requires PassedOver(cfg, s, t, g, k) && Runnable(cfg, s, steps) && HandlersAlone.Own(steps, t)
    ensures PassedOver(cfg, Run(cfg, s, steps), t, g, k) && Calm(cfg, s, steps, g)
    decreases |steps|
  {
    if steps != [] {
      assert HandlersAlone.OwnStep(steps[0], t);
      StillPassedOver(cfg, s, steps[0], t, g, k);
      OwnRunPassesOver(cfg, Next(cfg, s, steps[0]), steps[1..], t, g, k);
    }
  }

  /** The handler by itself finishes and leaves a document that is on no list. */
  lemma MissedIsLeft(cfg: Config, s: State, t: nat, g: string, k: Key)
    requires NobodyInFlight(cfg, s, g) && s.lock == None && t in s.threads && s.threads[t].phase == Revoking(g)
    requires StoredOf(s, k, g) && !(k.model.RefreshModel? && k.id in Listed(s, g))
    requires k !in OwnKeys(s.threads[t].request)
    ensures !Empties(cfg, s, t, g)
  {
    var s1 := Next(cfg, s, Lock(t));
    var r := s.threads[t].request;
    assert s1 == NextOf(cfg, s, Lock(t), r, Revoking(g));
    forall u | u in s1.threads ensures !InFlight(cfg, s1, u, g) {
      if u != t {
        assert s1.threads[u] == s.threads[u] && !InFlight(cfg, s, u, g);
      }
    }
    var steps := HandlersAlone.OwnScheduleExists(cfg, s1, t);
    OwnRunPassesOver(cfg, s1, steps, t, g, k);
    OneStep(cfg, s, Lock(t), steps);
    assert ([Lock(t)] + steps)[1..] == steps;
    assert Runnable(cfg, s, [Lock(t)] + steps) && Calm(cfg, s, [Lock(t)] + steps, g);
    assert StoredOf(Run(cfg, s1, steps), k, g);
  }

  /**
   With nobody in flight, a revocation that gets the mutex empties its grant, in every run that
   stays so, if and only if each stored document of the grant is listed or is the one the
   request names.
   */
  lemma RevocationEmptiesExactly(cfg: Config, s: State, t: nat, g: string)
    requires Reachable(cfg, s) && NobodyInFlight(cfg, s, g)
    requires t in s.threads && s.threads[t].phase == Revoking(g) && s.lock == None
    ensures Empties(cfg, s, t, g) <==>
      forall k :: StoredOf(s, k, g) ==>
        || (k.model.RefreshModel? && k.id in Listed(s, g))
        || (s.threads[t].request.RevokeRequest? && k == KeyOfRequest(s.threads[t].request))
  {
    var own := OwnKeys(s.threads[t].request);
    if ListedOr(s, g, own) {
      forall steps {:trigger Runnable(cfg, s, [Lock(t)] + steps)} |
        && Runnable(cfg, s, [Lock(t)] + steps) && Calm(cfg, s, [Lock(t)] + steps, g)
        && HandlersAlone.Done(Run(cfg, s, [Lock(t)] + steps), t)
        ensures Absent(Run(cfg, s, [Lock(t)] + steps).files, g) && Final(cfg, Run(cfg, s, [Lock(t)] + steps), g)
      {
        LockedRun(cfg, s, t, g, steps, own);
      }
    } else {
      var k :| StoredOf(s, k, g) && !(k.model.RefreshModel? && k.id in Listed(s, g)) && k !in own;
      MissedIsLeft(cfg, s, t, g, k);
    }
  }
}
