/**
 The file-backed document store (internal/broker/store.go).

 `Files` is the content of the data directory: the documents, keyed by directory and
 file name, and the grant index. The functions on it say what each store operation
 does; `FileStore` performs the operations in place and is proved against them.
 Identifiers written by the broker come from `randomID`, which prints hexadecimal.
 */
module DocumentStore {
  import opened Wrappers
  import opened Records
  import Text

  datatype Files = Files(docs: map<Key, Document>, grants: map<string, seq<string>>)

  const EMPTY := Files(map[], map[])

  /** What `randomID` can return: non-empty, lower-case hexadecimal. */
  predicate Minted(id: string) {
    id != "" && forall i :: 0 <= i < |id| ==> '0' <= id[i] <= '9' || 'a' <= id[i] <= 'f'
  }

  function Zeros(n: nat): (id: string)
    ensures |id| == n && forall i :: 0 <= i < n ==> id[i] == '0'
  {
    if n == 0 then "" else ['0'] + Zeros(n - 1)
  }

  lemma LongerThanAll(used: set<string>) returns (n: nat)
    ensures n > 0 && forall id :: id in used ==> |id| < n
    decreases |used|
  {
    n := 1;
    if id :| id in used {
      var m := LongerThanAll(used - {id});
      n := if |id| < m then m else |id| + 1;
    }
  }

  /** `randomID` never runs out. */
  lemma FreshExists(used: set<string>) returns (id: string)
    ensures Minted(id) && id !in used
  {
    var n := LongerThanAll(used);
    id := Zeros(n);
  }

  // --- single documents ----------------------------------------------------

  predicate Expired(d: Document, now: int) {
    d.expiresAt != 0 && d.expiresAt < now
  }

  predicate Live(f: Files, k: Key, now: int) {
    k.id != "" && k in f.docs && !Expired(f.docs[k], now)
  }

  function AfterPut(f: Files, k: Key, payload: Payload, ttl: int, now: int): Files {
    f.(docs := f.docs[k := Document(payload, if ttl > 0 then now + ttl else 0)])
  }

  function Found(f: Files, k: Key, now: int): Option<Payload> {
    if Live(f, k, now) then Some(f.docs[k].payload) else None
  }

  function AfterDestroy(f: Files, k: Key): Files {
    f.(docs := f.docs - {k})
  }

  /** Reading an expired document removes it. */
  function AfterGet(f: Files, k: Key, now: int): Files {
    if k.id != "" && k in f.docs && Expired(f.docs[k], now) then AfterDestroy(f, k) else f
  }

  /** A claim takes the document out of the directory whether or not it turns out to be live. */
  function AfterClaim(f: Files, k: Key): Files {
    if k.id == "" then f else AfterDestroy(f, k)
  }

  // --- bulk reads ----------------------------------------------------------

  const EXPIRING := [RefreshModel, CodeModel, RequestModel, RegistrationModel]

  /** `f` without the expired documents of the given directories. */
  function Cleaned(f: Files, models: seq<Model>, now: int): Files {
    f.(docs := map k | k in f.docs && !(k.model in models && Expired(f.docs[k], now)) :: f.docs[k])
  }

  function LiveIds(f: Files, model: Model, now: int): set<string> {
    set k | k in f.docs && k.model == model && Live(f, k, now) :: k.id
  }

  // --- the grant index -----------------------------------------------------

  function DirName(m: Model): string {
    match m
    case ClientModel => "Client"
    case RefreshModel => "RefreshToken"
    case CodeModel => "AuthorizationCode"
    case RequestModel => "AuthRequest"
    case RegistrationModel => "RegistrationAccessToken"
  }

  function ModelOf(dir: string): Option<Model> {
    if dir == "Client" then Some(ClientModel)
    else if dir == "RefreshToken" then Some(RefreshModel)
    else if dir == "AuthorizationCode" then Some(CodeModel)
    else if dir == "AuthRequest" then Some(RequestModel)
    else if dir == "RegistrationAccessToken" then Some(RegistrationModel)
    else None
  }

  function RefOf(k: Key): string {
    DirName(k.model) + ['/'] + k.id
  }

  function KeyOf(ref: string): Option<Key> {
    var cut := Text.Cut(ref, '/');
    var model := ModelOf(cut.before);
    if cut.found && model.Some? then Some(Key(model.value, cut.after)) else None
  }

  /** A reference decodes to the pair it was printed from, whatever characters the id holds. */
  lemma RefDecodes(k: Key)
    ensures KeyOf(RefOf(k)) == Some(k)
  {
    var dir := DirName(k.model);
    assert '/' !in dir;
    Text.CutOfJoined(dir, '/', k.id);
    assert ModelOf(dir) == Some(k.model) by {
      match k.model {
        case ClientModel =>
        case RefreshModel => assert dir[0] != "Client"[0];
        case CodeModel => assert dir[0] != "Client"[0] && dir[0] != "RefreshToken"[0];
        case RequestModel =>
          assert dir[0] != "Client"[0] && dir[0] != "RefreshToken"[0];
          assert |dir| != |"AuthorizationCode"|;
        case RegistrationModel =>
          assert dir[0] != "Client"[0] && |dir| != |"RefreshToken"|;
          assert dir[0] != "AuthorizationCode"[0] && dir[0] != "AuthRequest"[0];
      }
    }
  }

  function RefsOf(f: Files, grant: string): seq<string> {
    if grant in f.grants then f.grants[grant] else []
  }

  function AfterAddToGrant(f: Files, grant: string, k: Key): Files {
    if grant == "" || RefOf(k) in RefsOf(f, grant) then f
    else f.(grants := f.grants[grant := RefsOf(f, grant) + [RefOf(k)]])
  }

  /** The documents a list of references names. */
  function Named(refs: seq<string>): set<Key> {
    set i | 0 <= i < |refs| && KeyOf(refs[i]).Some? :: KeyOf(refs[i]).value
  }

  lemma NamedHas(refs: seq<string>, k: Key)
    requires RefOf(k) in refs
    ensures k in Named(refs)
  {
    var i :| 0 <= i < |refs| && refs[i] == RefOf(k);
    RefDecodes(k);
    assert KeyOf(refs[i]).value == k;
  }

  function AfterRevokeGrant(f: Files, grant: string): Files {
    Files(f.docs - Named(RefsOf(f, grant)), f.grants - {grant})
  }

  // --- files a crash leaves behind -------------------------------------------

  datatype Stray = Stray(model: Model, name: string)

  const STRAY_MS := 3600000

  function Recent(strays: map<Stray, int>, models: seq<Model>, now: int): map<Stray, int> {
    map x | x in strays && !(x.model in models && now - strays[x] > STRAY_MS) :: strays[x]
  }

  // --- directories of the 2.x store ------------------------------------------

  /** A document with its expiry, or a stray file with its modification time. */
  datatype LegacyFile = LegacyDoc(expiresAt: int) | LegacyStray(writtenAt: int)

  datatype LegacyName = LegacyName(dir: string, name: string)

  const LEGACY := ["AccessToken", "Session", "Grant", "Interaction", "DeviceCode"]

  predicate Stale(file: LegacyFile, now: int) {
    match file
    case LegacyDoc(expiresAt) => expiresAt != 0 && expiresAt < now
    case LegacyStray(writtenAt) => now - writtenAt > STRAY_MS
  }

  /** What is left of the legacy directories once `dirs` have been swept. */
  function Unswept(files: map<LegacyName, LegacyFile>, dirs: seq<string>, now: int): map<LegacyName, LegacyFile> {
    map x | x in files && !(x.dir in dirs && Stale(files[x], now)) :: files[x]
  }

  // --- what a sweep takes, spelled out -----------------------------------------

  /** Registrations of clients never expire; of the rest exactly what is past its expiry goes. */
  lemma SweepsExactly(f: Files, k: Key, now: int)
    ensures k in Cleaned(f, EXPIRING, now).docs <==>
      k in f.docs && (k.model.ClientModel? || f.docs[k].expiresAt == 0 || now <= f.docs[k].expiresAt)
    ensures k in Cleaned(f, EXPIRING, now).docs ==> Cleaned(f, EXPIRING, now).docs[k] == f.docs[k]
    ensures Cleaned(f, EXPIRING, now).grants == f.grants
  {
    assert k.model in EXPIRING <==> !k.model.ClientModel? by {
      assert EXPIRING[0].RefreshModel? && EXPIRING[1].CodeModel? && EXPIRING[2].RequestModel?;
      assert EXPIRING[3].RegistrationModel? && |EXPIRING| == 4;
    }
  }

  /** Stray files go after an hour, also those of the 2.x directories. */
  lemma StraysExactly(
    strays: map<Stray, int>, x: Stray, files: map<LegacyName, LegacyFile>, y: LegacyName, now: int)
    ensures x in Recent(strays, EXPIRING, now) <==> x in strays && (x.model.ClientModel? || now - strays[x] <= 3600000)
    ensures y in Unswept(files, LEGACY, now) <==>
      && y in files
      && (y.dir !in {"AccessToken", "Session", "Grant", "Interaction", "DeviceCode"}
          || match files[y]
             case LegacyDoc(expiresAt) => expiresAt == 0 || now <= expiresAt
             case LegacyStray(writtenAt) => now - writtenAt <= 3600000)
  {
    assert x.model in EXPIRING <==> !x.model.ClientModel? by {
      assert EXPIRING[0].RefreshModel? && EXPIRING[1].CodeModel? && EXPIRING[2].RequestModel?;
      assert EXPIRING[3].RegistrationModel? && |EXPIRING| == 4;
    }
    assert y.dir in LEGACY <==> y.dir in {"AccessToken", "Session", "Grant", "Interaction", "DeviceCode"};
  }

  // --- the store itself ----------------------------------------------------

  class FileStore {
    var docs: map<Key, Document>
    var grants: map<string, seq<string>>
    /** Modification times of claim and temporary files that a crash left behind. */
    var strays: map<Stray, int>
    var legacy: map<LegacyName, LegacyFile>

    ghost function Contents(): Files
      reads this
    {
      Files(docs, grants)
    }

    /** Every file is named after a minted id, so no document hides behind a leading dot. */
    ghost predicate Valid()
      reads this
    {
      forall k :: k in docs ==> Minted(k.id)
    }

    constructor ()
      ensures Valid() && Contents() == EMPTY && strays == map[] && legacy == map[]
    {
      docs := map[];
      grants := map[];
      strays := map[];
      legacy := map[];
    }

    method Put(k: Key, payload: Payload, ttl: int, now: int)
      requires Valid() && Minted(k.id)
      modifies this`docs, this`grants
      ensures Valid() && Contents() == AfterPut(old(Contents()), k, payload, ttl, now)
    {
      var doc := Document(payload, 0);
      if ttl > 0 {
        doc := doc.(expiresAt := now + ttl);
      }
      docs := docs[k := doc];
    }

    method Get(k: Key, now: int) returns (r: Option<Payload>)
      requires Valid()
      modifies this`docs, this`grants
      ensures Valid() && r == Found(old(Contents()), k, now)
      ensures Contents() == AfterGet(old(Contents()), k, now)
    {
      if k.id == "" || k !in docs {
        return None;
      }
      var doc := docs[k];
      if doc.expiresAt != 0 && doc.expiresAt < now {
        Destroy(k);
        return None;
      }
      return Some(doc.payload);
    }

    method Destroy(k: Key)
      requires Valid()
      modifies this`docs, this`grants
      ensures Valid() && Contents() == AfterDestroy(old(Contents()), k)
    {
      docs := docs - {k};
    }

    method Claim(k: Key, now: int) returns (r: Option<Payload>)
      requires Valid()
      modifies this`docs, this`grants
      ensures Valid() && r == Found(old(Contents()), k, now)
      ensures Contents() == AfterClaim(old(Contents()), k)
    {
      if k.id == "" {
        return None;
      }
      if k !in docs {
        assert docs - {k} == docs;
        return None;
      }
      var doc := docs[k];
      docs := docs - {k};
      if doc.expiresAt != 0 && doc.expiresAt < now {
        return None;
      }
      return Some(doc.payload);
    }

    /** The names in one directory, in no particular order. */
    method ReadDir(model: Model) returns (names: seq<string>)
      ensures forall i, j :: 0 <= i < j < |names| ==> names[i] != names[j]
      ensures forall id :: id in names <==> Key(model, id) in docs
    {
      names := [];
      var rest := docs.Keys;
      while rest != {}
        invariant rest <= docs.Keys
        invariant forall i, j :: 0 <= i < j < |names| ==> names[i] != names[j]
        invariant forall id :: id in names <==> Key(model, id) in docs.Keys - rest
        decreases |rest|
      {
        var k :| k in rest;
        rest := rest - {k};
        if k.model == model {
          names := names + [k.id];
        }
      }
    }

    method List(model: Model, now: int) returns (ids: seq<string>)
      requires Valid()
      modifies this`docs, this`grants
      ensures Valid() && Contents() == Cleaned(old(Contents()), [model], now)
      ensures forall i, j :: 0 <= i < j < |ids| ==> ids[i] != ids[j]
      ensures forall id :: id in ids <==> id in LiveIds(old(Contents()), model, now)
    {
      ghost var f := Contents();
      var names := ReadDir(model);
      ids := [];
      for i := 0 to |names|
        invariant Valid() && grants == f.grants
        invariant forall k :: k in docs ==> k in f.docs && docs[k] == f.docs[k]
        invariant forall k :: k in f.docs ==>
          (k in docs <==> !(k.model == model && k.id in names[..i] && Expired(f.docs[k], now)))
        invariant forall id :: id in ids <==> id in names[..i] && Live(f, Key(model, id), now)
        invariant forall a, b :: 0 <= a < b < |ids| ==> ids[a] != ids[b]
      {
        var name := names[i];
        assert names[..i + 1] == names[..i] + [name];
        assert Minted(name) by { assert Minted(Key(model, name).id); }
        if name == "" || name[0] == '.' {
          continue;
        }
        var found := Get(Key(model, name), now);
        if found.None? {
          continue;
        }
        ids := ids + [name];
      }
      assert names[..|names|] == names;
      ListedAll(f, docs, model, names, ids, now);
    }

    method AddToGrant(grant: string, k: Key)
      requires Valid()
      modifies this`docs, this`grants
      ensures Valid() && Contents() == AfterAddToGrant(old(Contents()), grant, k)
    {
      if grant == "" {
        return;
      }
      var refs := GrantRefs(grant);
      var ref := RefOf(k);
      for i := 0 to |refs|
        invariant ref !in refs[..i]
      {
        if refs[i] == ref {
          return;
        }
        assert refs[..i + 1] == refs[..i] + [refs[i]];
      }
      assert refs[..|refs|] == refs;
      grants := grants[grant := refs + [ref]];
    }

    function GrantRefs(grant: string): seq<string>
      reads this
    {
      if grant in grants then grants[grant] else []
    }

    /** Returns how many references it worked through, as the source's log line reports. */
    method RevokeGrant(grant: string) returns (n: nat)
      requires Valid()
      modifies this`docs, this`grants
      ensures Valid() && Contents() == AfterRevokeGrant(old(Contents()), grant)
      ensures n <= |RefsOf(old(Contents()), grant)|
      ensures (forall i :: 0 <= i < |RefsOf(old(Contents()), grant)| ==> KeyOf(RefsOf(old(Contents()), grant)[i]).Some?)
        ==> n == |RefsOf(old(Contents()), grant)|
    {
      ghost var f := Contents();
      n := 0;
      if grant !in grants {
        assert docs - Named([]) == docs && grants - {grant} == grants;
        return;
      }
      var refs := grants[grant];
      for i := 0 to |refs|
        invariant Valid() && n <= i && grants == f.grants
        invariant (forall j :: 0 <= j < i ==> KeyOf(refs[j]).Some?) ==> n == i
        invariant docs == f.docs - Named(refs[..i])
      {
        var k := KeyOf(refs[i]);
        NamedStep(refs, i);
        if k.None? {
          continue;
        }
        Destroy(k.value);
        n := n + 1;
      }
      assert refs[..|refs|] == refs;
      grants := grants - {grant};
    }

    /** One file of the sweep: reading it removes it if it has expired. */
    method SweepFile(k: Key, now: int) returns (gone: bool)
      requires Valid() && k in docs
      modifies this`docs, this`grants
      ensures Valid() && gone == Expired(old(docs)[k], now)
      ensures Contents() == if gone then AfterDestroy(old(Contents()), k) else old(Contents())
      ensures |docs| == |old(docs)| - if gone then 1 else 0
    {
      assert Minted(k.id);
      RemoveOne(docs, k);
      var found := Get(k, now);
      gone := found.None?;
    }

    /** The inner loop of the sweep: one directory. */
    method SweepDir(model: Model, now: int) returns (n: nat)
      requires Valid()
      modifies this`docs, this`grants
      ensures Valid() && Contents() == Cleaned(old(Contents()), [model], now)
      ensures n == |old(docs)| - |docs|
    {
      ghost var f := Contents();
      n := 0;
      var names := ReadDir(model);
      for i := 0 to |names|
        invariant Valid() && grants == f.grants && n == |f.docs| - |docs|
        invariant forall k :: k in docs ==> k in f.docs && docs[k] == f.docs[k]
        invariant forall k :: k in f.docs && k !in docs ==> k.model == model && Expired(f.docs[k], now)
        invariant forall j :: 0 <= j < i ==>
          (Key(model, names[j]) in docs <==> !Expired(f.docs[Key(model, names[j])], now))
        invariant forall j :: i <= j < |names| ==> Key(model, names[j]) in docs
      {
        var gone := SweepFile(Key(model, names[i]), now);
        if gone {
          n := n + 1;
        }
      }
      SweptDir(f, docs, model, names, now);
    }

    /** Claim and temporary files of one directory go once they are over an hour old. */
    method SweepStrays(model: Model, now: int) returns (n: nat)
      modifies this`strays
      ensures strays == Recent(old(strays), [model], now) && n == |old(strays)| - |strays|
    {
      ghost var before := strays;
      var left := strays.Keys;
      n := 0;
      while left != {}
        invariant left <= strays.Keys && strays.Keys <= before.Keys && n == |before| - |strays|
        invariant forall x :: x in strays ==> strays[x] == before[x]
        invariant forall x :: x in before && x !in left ==>
          (x in strays <==> !(x.model == model && now - before[x] > STRAY_MS))
        decreases |left|
      {
        var x :| x in left;
        left := left - {x};
        if x.model == model && now - strays[x] > STRAY_MS {
          RemoveOne(strays, x);
          strays := strays - {x};
          n := n + 1;
        }
      }
      assert strays == Recent(before, [model], now);
    }

    /** One directory of the 2.x store: expired documents and stray files alike. */
    method SweepLegacy(dir: string, now: int) returns (n: nat)
      modifies this`legacy
      ensures legacy == Unswept(old(legacy), [dir], now) && n == |old(legacy)| - |legacy|
    {
      ghost var before := legacy;
      var left := legacy.Keys;
      n := 0;
      while left != {}
        invariant left <= legacy.Keys && legacy.Keys <= before.Keys && n == |before| - |legacy|
        invariant forall x :: x in legacy ==> legacy[x] == before[x]
        invariant forall x :: x in before && x !in left ==> (x in legacy <==> !(x.dir == dir && Stale(before[x], now)))
        decreases |left|
      {
        var x :| x in left;
        left := left - {x};
        if x.dir == dir && Stale(legacy[x], now) {
          RemoveOne(legacy, x);
          legacy := legacy - {x};
          n := n + 1;
        }
      }
      assert legacy == Unswept(before, [dir], now);
    }

    method SweepAllLegacy(now: int) returns (n: nat)
      modifies this`legacy
      ensures legacy == Unswept(old(legacy), LEGACY, now) && n == |old(legacy)| - |legacy|
    {
      ghost var before := legacy;
      n := 0;
      assert legacy == Unswept(before, [], now);
      for m := 0 to |LEGACY|
        invariant n == |before| - |legacy| && legacy == Unswept(before, LEGACY[..m], now)
      {
        var swept := SweepLegacy(LEGACY[m], now);
        n := n + swept;
        assert LEGACY[..m + 1] == LEGACY[..m] + [LEGACY[m]];
      }
      assert LEGACY[..|LEGACY|] == LEGACY;
    }

    /** The expiring directories: every expired document and old stray file. */
    method SweepExpiring(now: int) returns (n: nat)
      requires Valid()
      modifies this`docs, this`grants, this`strays
      ensures Valid() && Contents() == Cleaned(old(Contents()), EXPIRING, now)
      ensures strays == Recent(old(strays), EXPIRING, now)
      ensures n == |old(docs)| - |docs| + |old(strays)| - |strays|
    {
      ghost var f, older := Contents(), strays;
      n := 0;
      assert docs == Cleaned(f, [], now).docs;
      assert strays == Recent(older, [], now);
      for m := 0 to |EXPIRING|
        invariant Valid() && n == |f.docs| - |docs| + |older| - |strays|
        invariant Contents() == Cleaned(f, EXPIRING[..m], now)
        invariant strays == Recent(older, EXPIRING[..m], now)
      {
        var swept := SweepDir(EXPIRING[m], now);
        var cleared := SweepStrays(EXPIRING[m], now);
        n := n + swept + cleared;
        CleanedStep(f, EXPIRING, m, now);
        RecentStep(older, EXPIRING, m, now);
      }
      assert EXPIRING[..|EXPIRING|] == EXPIRING;
    }

    /** Removes what has expired or been left behind, in the 2.x directories only on request, and counts it. */
    method Sweep(now: int, includeLegacy: bool) returns (n: nat)
      requires Valid()
      modifies this
      ensures Valid() && Contents() == Cleaned(old(Contents()), EXPIRING, now)
      ensures strays == Recent(old(strays), EXPIRING, now)
      ensures legacy == if includeLegacy then Unswept(old(legacy), LEGACY, now) else old(legacy)
      ensures n == |old(docs)| - |docs| + |old(strays)| - |strays| + |old(legacy)| - |legacy|
    {
      n := SweepExpiring(now);
      if includeLegacy {
        var more := SweepAllLegacy(now);
        n := n + more;
      }
    }
  }

  lemma ListedAll(f: Files, docs: map<Key, Document>, model: Model, names: seq<string>, ids: seq<string>, now: int)
    requires forall k :: k in docs ==> k in f.docs && docs[k] == f.docs[k]
    requires forall k :: k in f.docs ==>
      (k in docs <==> !(k.model == model && k.id in names && Expired(f.docs[k], now)))
    requires forall id :: id in names <==> Key(model, id) in f.docs
    requires forall id :: id in ids <==> id in names && Live(f, Key(model, id), now)
    ensures docs == Cleaned(f, [model], now).docs
    ensures forall id :: id in ids <==> id in LiveIds(f, model, now)
  {
    forall id ensures id in ids <==> id in LiveIds(f, model, now) {
      if id in LiveIds(f, model, now) {
        assert Live(f, Key(model, id), now);
      }
      if id in ids {
        assert Key(model, id) in f.docs && Live(f, Key(model, id), now);
      }
    }
    forall k | k in f.docs && k.model == model ensures k.id in names {
      assert k == Key(model, k.id);
    }
  }

  lemma SweptDir(f: Files, docs: map<Key, Document>, model: Model, names: seq<string>, now: int)
    requires forall k :: k in docs ==> k in f.docs && docs[k] == f.docs[k]
    requires forall k :: k in f.docs && k !in docs ==> k.model == model && Expired(f.docs[k], now)
    requires forall j | 0 <= j < |names| ::
      Key(model, names[j]) in f.docs && (Key(model, names[j]) in docs <==> !Expired(f.docs[Key(model, names[j])], now))
    requires forall k :: k in f.docs && k.model == model ==> k.id in names
    ensures docs == Cleaned(f, [model], now).docs
  {
    forall k | k in docs && k.model == model ensures !Expired(f.docs[k], now) {
      var j :| 0 <= j < |names| && names[j] == k.id;
      assert Key(model, names[j]) == k;
    }
  }

  lemma CleanedStep(f: Files, models: seq<Model>, m: nat, now: int)
    requires m < |models|
    ensures Cleaned(Cleaned(f, models[..m], now), [models[m]], now) == Cleaned(f, models[..m + 1], now)
  {
    assert models[..m + 1] == models[..m] + [models[m]];
  }

  lemma RecentStep(strays: map<Stray, int>, models: seq<Model>, m: nat, now: int)
    requires m < |models|
    ensures Recent(Recent(strays, models[..m], now), [models[m]], now) == Recent(strays, models[..m + 1], now)
  {
    assert models[..m + 1] == models[..m] + [models[m]];
  }

  lemma RemoveOne<K, V>(m: map<K, V>, k: K)
    requires k in m
    ensures |m - {k}| == |m| - 1
  {
    assert (m - {k}).Keys == m.Keys - {k};
    assert |m.Keys - {k}| == |m.Keys| - 1;
  }

  lemma NamedStep(refs: seq<string>, i: nat)
    requires i < |refs|
    ensures Named(refs[..i + 1]) ==
      Named(refs[..i]) + (if KeyOf(refs[i]).Some? then {KeyOf(refs[i]).value} else {})
  {
    var before, after := refs[..i], refs[..i + 1];
    forall k ensures k in Named(after) <==> k in Named(before) || KeyOf(refs[i]) == Some(k) {
      if k in Named(after) {
        var j :| 0 <= j < |after| && KeyOf(after[j]) == Some(k);
        if j < i {
          assert before[j] == after[j];
        }
      }
      if k in Named(before) {
        var j :| 0 <= j < |before| && KeyOf(before[j]) == Some(k);
        assert after[j] == before[j];
      }
      if KeyOf(refs[i]) == Some(k) {
        assert after[i] == refs[i];
      }
    }
  }
}
