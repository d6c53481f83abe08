/**
 The browser session store (internal/session/session.go): an expiring map in memory, and
 a file it is saved to some time after a change.
 */
module Sessions {
  import opened Wrappers
  import opened Records

  type Table = map<string, Session>

  /** The parsed session file; `nulls` are the ids whose entry is a JSON null. */
  datatype Stored = Stored(entries: Table, nulls: set<string>)

  /** `None`: there is no readable file. */
  type File = Option<Stored>

  predicate Lapsed(s: Session, now: int) {
    s.expires < now
  }

  /** AUTH_HASH-only sessions of older versions carry neither credential. */
  predicate Usable(s: Session, now: int) {
    !Lapsed(s, now) && (s.passwordHash != "" || s.oidcSub != "")
  }

  /** What a process started at `now` takes over from the file. */
  function Reopened(file: File, now: int): Table {
    match file
    case None => map[]
    case Some(stored) =>
      map id | id in stored.entries && id !in stored.nulls && Usable(stored.entries[id], now) :: stored.entries[id]
  }

  /** The sessions that are unexpired and carry a credential. */
  function StillUsable(m: Table, now: int): Table {
    map id | id in m && Usable(m[id], now) :: m[id]
  }

  /** The file a flush of `m` leaves. */
  function Written(m: Table): File {
    Some(Stored(m, {}))
  }

  function Found(m: Table, id: string, now: int): Option<Session> {
    if id != "" && id in m && !Lapsed(m[id], now) then Some(m[id]) else None
  }

  function AfterGet(m: Table, id: string, now: int): Table {
    if id != "" && id in m && Lapsed(m[id], now) then m - {id} else m
  }

  function Without(m: Table, pred: (string, Session) -> bool): Table {
    map id | id in m && !pred(id, m[id]) :: m[id]
  }

  function Matching(m: Table, pred: (string, Session) -> bool): set<string> {
    set id | id in m && pred(id, m[id])
  }

  /** What comes back after a restart: the sessions written that have not lapsed and carry a credential. */
  lemma ReopensExactly(m: Table, id: string, now: int)
    ensures id in Reopened(Written(m), now) <==>
      id in m && now <= m[id].expires && (m[id].passwordHash != "" || m[id].oidcSub != "")
    ensures id in Reopened(Written(m), now) ==> Reopened(Written(m), now)[id] == m[id]
  {
  }

  /** A file of any origin gives back the same, and no entry that is a JSON null. */
  lemma LoadsExactly(stored: Stored, id: string, now: int)
    ensures id in Reopened(Some(stored), now) <==>
      && id in stored.entries && id !in stored.nulls && now <= stored.entries[id].expires
      && (stored.entries[id].passwordHash != "" || stored.entries[id].oidcSub != "")
    ensures id in Reopened(Some(stored), now) ==> Reopened(Some(stored), now)[id] == stored.entries[id]
  {
  }

  /** A cookie finds its session exactly up to the millisecond in which it expires. */
  lemma FindsExactly(m: Table, id: string, now: int)
    ensures Found(m, id, now) == if id != "" && id in m && now <= m[id].expires then Some(m[id]) else None
  {
  }

  /** From `since` on, reopening the file gives what reopening a fresh copy of `m` would. */
  ghost predicate Saved(file: File, m: Table, since: int) {
    forall now :: since <= now ==> Reopened(file, now) == Reopened(Written(m), now)
  }

  lemma ReopenedIsSaved(file: File, since: int)
    ensures Saved(file, Reopened(file, since), since)
  {
  }

  class Store {
    var sessions: Table
    var file: File
    var armed: bool
    var closed: bool
    const persistent: bool
    ghost const openedAt: int

    /** Until it is closed, the store either has a save coming or a file as good as its memory. */
    ghost predicate Valid()
      reads this
    {
      persistent && !closed && !armed ==> Saved(file, sessions, openedAt)
    }

    /** `found` is the file on disk, if the directory is there and the file parses. */
    constructor (persistent: bool, found: File, now: int)
      ensures Valid() && this.persistent == persistent && file == found && openedAt == now
      ensures sessions == if persistent then Reopened(found, now) else map[]
      ensures !armed && !closed
    {
      this.persistent := persistent;
      this.file := found;
      this.armed := false;
      this.closed := false;
      this.sessions := map[];
      openedAt := now;
      new;
      if persistent && found.Some? {
        Load(found.value, now);
        ReopenedIsSaved(found, now);
      } else if persistent {
        assert Reopened(found, now) == map[];
        ReopenedIsSaved(found, now);
      }
    }

    method Load(stored: Stored, now: int)
      requires sessions == map[]
      modifies this`sessions
      ensures sessions == Reopened(Some(stored), now)
    {
      var left := stored.entries.Keys;
      while left != {}
        invariant left <= stored.entries.Keys
        invariant sessions == map id | id in Reopened(Some(stored), now) && id !in left :: stored.entries[id]
        decreases |left|
      {
        var id :| id in left;
        left := left - {id};
        if id in stored.nulls || Lapsed(stored.entries[id], now) {
          continue;
        }
        if stored.entries[id].passwordHash == "" && stored.entries[id].oidcSub == "" {
          continue;
        }
        sessions := sessions[id := stored.entries[id]];
      }
    }

    method Get(id: string, now: int) returns (r: Option<Session>)
      requires Valid()
      modifies this
      ensures Valid() && r == Found(old(sessions), id, now)
      ensures sessions == AfterGet(old(sessions), id, now)
      ensures file == old(file) && closed == old(closed)
      ensures armed == (old(armed) || (persistent && !closed && sessions != old(sessions)))
    {
      if id == "" || id !in sessions {
        return None;
      }
      var s := sessions[id];
      if Lapsed(s, now) {
        Delete(id);
        return None;
      }
      return Some(s);
    }

    /** `id` is the fresh random identifier. */
    method Create(s: Session, id: string)
      requires Valid()
      modifies this
      ensures Valid() && sessions == old(sessions)[id := s]
      ensures file == old(file) && closed == old(closed) && armed == (old(armed) || (persistent && !closed))
    {
      sessions := sessions[id := s];
      SaveSoon();
    }

    method Delete(id: string)
      requires Valid()
      modifies this
      ensures Valid() && sessions == old(sessions) - {id}
      ensures file == old(file) && closed == old(closed)
      ensures armed == (old(armed) || (persistent && !closed && id in old(sessions)))
    {
      var existed := id in sessions;
      sessions := sessions - {id};
      if existed {
        SaveSoon();
      } else {
        assert sessions == old(sessions);
      }
    }

    method Revoke(pred: (string, Session) -> bool) returns (gone: nat)
      requires Valid()
      modifies this
      ensures Valid() && sessions == Without(old(sessions), pred)
      ensures gone == |Matching(old(sessions), pred)|
      ensures file == old(file) && closed == old(closed)
      ensures armed == (old(armed) || (persistent && !closed && sessions != old(sessions)))
    {
      gone := RemoveMatching(pred);
      if gone > 0 {
        assert sessions.Keys != old(sessions).Keys by {
          MatchingCounted(old(sessions), pred);
        }
        SaveSoon();
      } else {
        NoneMatch(old(sessions), pred);
      }
    }

    method RemoveMatching(pred: (string, Session) -> bool) returns (gone: nat)
      modifies this`sessions
      ensures sessions == Without(old(sessions), pred) && gone == |Matching(old(sessions), pred)|
    {
      ghost var before := sessions;
      var left := sessions.Keys;
      gone := 0;
      while left != {}
        invariant left <= sessions.Keys && sessions.Keys <= before.Keys
        invariant gone == |before.Keys| - |sessions.Keys|
        invariant forall id :: id in before && id !in left ==> (id in sessions <==> !pred(id, before[id]))
        invariant forall id :: id in sessions ==> sessions[id] == before[id]
        decreases |left|
      {
        var id :| id in left;
        left := left - {id};
        if pred(id, sessions[id]) {
          assert (sessions - {id}).Keys == sessions.Keys - {id};
          sessions := sessions - {id};
          gone := gone + 1;
        }
      }
      assert sessions == Without(before, pred);
      MatchingCounted(before, pred);
    }

    method Sweep(now: int) returns (gone: nat)
      requires Valid()
      modifies this
      ensures Valid() && sessions == Without(old(sessions), (id, s) => Lapsed(s, now))
      ensures gone == |Matching(old(sessions), (id, s) => Lapsed(s, now))|
      ensures file == old(file) && closed == old(closed)
      ensures armed == (old(armed) || (persistent && !closed && sessions != old(sessions)))
    {
      gone := Revoke((id, s) => Lapsed(s, now));
    }

    /** Arms the debounce; the caller has just changed the map. */
    method SaveSoon()
      modifies this`armed
      ensures Valid()
      ensures armed == (old(armed) || (persistent && !closed))
    {
      if !persistent {
        return;
      }
      if closed || armed {
        return;
      }
      armed := true;
    }

    /** The debounce timer's callback. */
    method TimerFires()
      requires Valid() && armed
      modifies this
      ensures Valid() && !armed && sessions == old(sessions) && closed == old(closed)
      ensures persistent ==> file == Written(sessions)
    {
      armed := false;
      Flush();
    }

    method Flush()
      modifies this`file
      ensures file == if persistent then Written(sessions) else old(file)
      ensures Valid()
    {
      if persistent {
        file := Written(sessions);
      }
    }

    method Close()
      requires Valid()
      modifies this
      ensures Valid() && closed && !armed && sessions == old(sessions)
      ensures persistent ==> forall now :: Reopened(file, now) == StillUsable(sessions, now)
    {
      closed := true;
      armed := false;
      Flush();
    }
  }

  lemma MatchingCounted(m: Table, pred: (string, Session) -> bool)
    ensures |Matching(m, pred)| == |m.Keys| - |Without(m, pred).Keys|
  {
    assert Matching(m, pred) !! Without(m, pred).Keys;
    assert Matching(m, pred) + Without(m, pred).Keys == m.Keys;
  }

  lemma NoneMatch(m: Table, pred: (string, Session) -> bool)
    requires Matching(m, pred) == {}
    ensures Without(m, pred) == m
  {
    forall id | id in m ensures !pred(id, m[id]) {
      assert id !in Matching(m, pred);
    }
  }
}
