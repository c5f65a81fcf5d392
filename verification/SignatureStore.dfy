/** The bounded signature store: sessions with a time to live, both levels evicting the oldest write. */
module SignatureStore {
  import opened Bytes

  datatype Entry = Entry(value: Str, updatedAt: int)

  datatype Session = Session(updatedAt: int, entries: map<Str, Entry>)

  type Sessions = map<Str, Session>

  datatype Limits = Limits(ttl: int, maxSessions: nat, maxEntries: nat)

  /** The configuration the server insists on. */
  predicate Sensible(l: Limits) {
    l.ttl > 0 && l.maxSessions > 0 && l.maxEntries > 0
  }

  predicate Bounded(l: Limits, s: Sessions) {
    && |s| <= l.maxSessions
    && [] !in s
    && forall id :: id in s ==> BoundedEntries(l, s[id].entries)
  }

  predicate BoundedEntries(l: Limits, entries: map<Str, Entry>) {
    |entries| <= l.maxEntries && [] !in entries
  }

  // ----- What each operation may do; map order leaves the choice among equally old victims open -----

  predicate Live(l: Limits, s: Session, now: int) {
    now - s.updatedAt <= l.ttl
  }

  function Alive(l: Limits, s: Sessions, now: int): Sessions {
    map id | id in s && Live(l, s[id], now) :: s[id]
  }

  /** `t` is `s` without a session that was written no later than any other. */
  ghost predicate WithoutOldest(s: Sessions, t: Sessions) {
    exists victim :: VictimOf(s, victim, t)
  }

  ghost predicate VictimOf(s: Sessions, victim: Str, t: Sessions) {
    victim in s && t == s - {victim} && forall id :: id in s ==> s[victim].updatedAt <= s[id].updatedAt
  }

  /** Room for session `id`: only a new session in a full store costs an old one. */
  ghost predicate MadeRoom(l: Limits, s: Sessions, id: Str, t: Sessions) {
    if id in s || |s| < l.maxSessions then t == s else WithoutOldest(s, t)
  }

  function EntriesOf(s: Sessions, id: Str): map<Str, Entry> {
    if id in s then s[id].entries else map[]
  }

  /** Signatures worth storing have a key and a value. */
  function Storable(signatures: map<Str, Str>): set<Str> {
    set key | key in signatures && key != [] && signatures[key] != []
  }

  predicate Lost(key: Str, prior: map<Str, Entry>, rewritten: set<Str>, after: map<Str, Entry>) {
    key in prior && key !in rewritten && key !in after
  }

  predicate Kept(key: Str, prior: map<Str, Entry>, rewritten: set<Str>, after: map<Str, Entry>) {
    key in prior && key !in rewritten && key in after
  }

  /** Of the entries that are not rewritten, those that are lost were written no later than those that are kept. */
  ghost predicate OldestLostFirst(prior: map<Str, Entry>, rewritten: set<Str>, after: map<Str, Entry>) {
    forall lost, kept :: Lost(lost, prior, rewritten, after) && Kept(kept, prior, rewritten, after) ==>
      prior[lost].updatedAt <= prior[kept].updatedAt
  }

  /** What a session's entries may be after `signatures` have been stored into `prior` at time `now`, in any order. */
  ghost predicate StoredInto(l: Limits, prior: map<Str, Entry>, signatures: map<Str, Str>, now: int,
                             after: map<Str, Entry>)
  {
    var stored := Storable(signatures);
    && BoundedEntries(l, after)
    && Origins(prior, signatures, now, stored, after)
    && (|after| < l.maxEntries ==> NothingLost(prior, stored, after))
    && OldestLostFirst(prior, stored, after)
    && (Clocked(prior, now) ==> NewestLostLast(stored, after))
  }

  /** The clock has moved on since the earlier writes. */
  ghost predicate Clocked(prior: map<Str, Entry>, now: int) {
    forall key :: key in prior ==> prior[key].updatedAt < now
  }

  /** What has just been written is lost only when nothing older is left. */
  ghost predicate NewestLostLast(written: set<Str>, after: map<Str, Entry>) {
    forall key :: key in written && key !in after ==> after.Keys <= written
  }

  /** Every entry is either this call's value for its key or an untouched old one. */
  ghost predicate Origins(prior: map<Str, Entry>, signatures: map<Str, Str>, now: int, rewritten: set<Str>,
                          after: map<Str, Entry>)
  {
    forall key :: key in after ==>
      if key in rewritten then key in signatures && after[key] == Entry(signatures[key], now)
      else key in prior && after[key] == prior[key]
  }

  ghost predicate NothingLost(prior: map<Str, Entry>, rewritten: set<Str>, after: map<Str, Entry>) {
    forall key :: key in prior || key in rewritten ==> key in after
  }

  ghost predicate Remembered(l: Limits, pre: Sessions, id: Str, signatures: map<Str, Str>, now: int, post: Sessions) {
    if id == [] || signatures == map[] then post == pre
    else exists room :: RememberedIn(l, pre, id, signatures, now, room, post)
  }

  /** Expired sessions go, room is made, and then only the session concerned changes. */
  ghost predicate RememberedIn(l: Limits, pre: Sessions, id: Str, signatures: map<Str, Str>, now: int,
                               room: Sessions, post: Sessions)
  {
    && MadeRoom(l, Alive(l, pre, now), id, room)
    && id in post && post[id].updatedAt == now && post - {id} == room - {id}
    && StoredInto(l, EntriesOf(room, id), signatures, now, post[id].entries)
  }

  function Values(entries: map<Str, Entry>): map<Str, Str> {
    map key | key in entries :: entries[key].value
  }

  /** What a snapshot leaves: without a session id it does nothing. */
  function Swept(l: Limits, s: Sessions, id: Str, now: int): Sessions {
    if id == [] then s else Alive(l, s, now)
  }

  /** What it gives, once expired sessions are gone. */
  function Reading(s: Sessions, id: Str): Option<map<Str, Str>> {
    if id in s then Some(Values(s[id].entries)) else None
  }

  // ----- The store -----

  class Store {
    const limits: Limits
    var sessions: Sessions

    predicate Valid()
      reads this
    {
      Sensible(limits) && Bounded(limits, sessions)
    }

    constructor (limits: Limits)
      requires Sensible(limits)
      ensures Valid() && this.limits == limits && sessions == map[]
    {
      this.limits, sessions := limits, map[];
    }

    method Snapshot(id: Str, now: int) returns (result: Option<map<Str, Str>>)
      requires Valid()
      modifies this
      ensures Valid()
      ensures sessions == Swept(limits, old(sessions), id, now) && result == Reading(sessions, id)
    {
      if id == [] {
        return None;
      }
      Cleanup(now);
      if id !in sessions {
        return None;
      }
      return Some(Values(sessions[id].entries));
    }

    method Remember(id: Str, signatures: map<Str, Str>, now: int)
      requires Valid()
      modifies this
      ensures Valid()
      ensures Remembered(limits, old(sessions), id, signatures, now, sessions)
    {
      if id == [] || signatures == map[] {
        return;
      }
      Cleanup(now);
      if id !in sessions && |sessions| >= limits.maxSessions {
        EvictOldestSession();
      }
      ghost var room := sessions;
      var entries := EntriesOf(sessions, id);
      entries := StoreAll(limits, entries, signatures, now);
      sessions := sessions[id := Session(now, entries)];
      SameElsewhere(room, id, sessions[id]);
      assert RememberedIn(limits, old(sessions), id, signatures, now, room, sessions);
      InsertBounded(limits, room, id, sessions[id]);
    }

    method Cleanup(now: int)
      requires Valid()
      modifies this
      ensures Valid() && sessions == Alive(limits, old(sessions), now)
    {
      var keys := sessions.Keys;
      while keys != {}
        invariant keys <= sessions.Keys <= old(sessions).Keys
        invariant forall id :: id in sessions ==> sessions[id] == old(sessions)[id]
        invariant forall id :: id in old(sessions) && id !in keys ==>
          (id in sessions <==> Live(limits, old(sessions)[id], now))
        decreases |keys|
      {
        var id :| id in keys;
        keys := keys - {id};
        if now - sessions[id].updatedAt > limits.ttl {
          sessions := sessions - {id};
        }
      }
      assert sessions == Alive(limits, old(sessions), now);
      SubsetSize(sessions.Keys, old(sessions).Keys);
    }

    method EvictOldestSession()
      requires Valid() && sessions != map[]
      modifies this
      ensures Valid() && WithoutOldest(old(sessions), sessions)
      ensures |sessions| == old(|sessions|) - 1
    {
      var oldestKey: Str := [];
      var oldest := 0;
      var keys := sessions.Keys;
      while keys != {}
        invariant keys <= sessions.Keys
        invariant oldestKey == [] ==> keys == sessions.Keys
        invariant oldestKey != [] ==> oldestKey in sessions && sessions[oldestKey].updatedAt == oldest
        invariant forall id :: id in sessions && id !in keys ==> oldest <= sessions[id].updatedAt
        decreases |keys|
      {
        var key :| key in keys;
        keys := keys - {key};
        if oldestKey == [] || sessions[key].updatedAt < oldest {
          oldestKey, oldest := key, sessions[key].updatedAt;
        }
      }
      assert sessions.Keys != {};
      ghost var before := sessions;
      sessions := sessions - {oldestKey};
      assert VictimOf(before, oldestKey, sessions);
      assert sessions.Keys == before.Keys - {oldestKey};
      assert |before.Keys - {oldestKey}| == |before.Keys| - 1;
    }
  }

  lemma SameElsewhere(room: Sessions, id: Str, s: Session)
    ensures room[id := s] - {id} == room - {id}
  {
  }

  lemma InsertBounded(l: Limits, room: Sessions, id: Str, s: Session)
    requires Bounded(l, room) && id != [] && (id in room || |room| < l.maxSessions) && BoundedEntries(l, s.entries)
    ensures Bounded(l, room[id := s])
  {
    assert room[id := s].Keys == room.Keys + {id};
    if id in room {
      assert room.Keys + {id} == room.Keys;
    } else {
      assert |room.Keys + {id}| == |room.Keys| + 1;
    }
  }

  lemma {:induction false} SubsetSize<T>(a: set<T>, b: set<T>)
    requires a <= b
    ensures |a| <= |b|
  {
    if a != {} {
      var x :| x in a;
      SubsetSize(a - {x}, b - {x});
    }
  }

  /** Eviction among the entries of one session. */
  method EvictOldestSignature(entries: map<Str, Entry>) returns (r: map<Str, Entry>)
    requires entries != map[] && [] !in entries
    ensures exists victim :: victim in entries && r == entries - {victim} && IsOldest(entries, victim)
    ensures |r| == |entries| - 1
  {
    var oldestKey: Str := [];
    var oldest := 0;
    var keys := entries.Keys;
    while keys != {}
      invariant keys <= entries.Keys
      invariant oldestKey == [] ==> keys == entries.Keys
      invariant oldestKey != [] ==> oldestKey in entries && entries[oldestKey].updatedAt == oldest
      invariant forall key :: key in entries && key !in keys ==> oldest <= entries[key].updatedAt
      decreases |keys|
    {
      var key :| key in keys;
      keys := keys - {key};
      if oldestKey == [] || entries[key].updatedAt < oldest {
        oldestKey, oldest := key, entries[key].updatedAt;
      }
    }
    assert entries.Keys != {};
    r := entries - {oldestKey};
    assert IsOldest(entries, oldestKey);
    assert r.Keys == entries.Keys - {oldestKey};
    assert |entries.Keys - {oldestKey}| == |entries.Keys| - 1;
  }

  ghost predicate IsOldest(entries: map<Str, Entry>, victim: Str) {
    victim in entries && forall key :: key in entries ==> entries[victim].updatedAt <= entries[key].updatedAt
  }

  /** The state of the storing loop when the keys `done` have been dealt with. */
  ghost predicate Storing(l: Limits, prior: map<Str, Entry>, signatures: map<Str, Str>, now: int,
                          done: set<Str>, entries: map<Str, Entry>)
  {
    && BoundedEntries(l, entries)
    && Origins(prior, signatures, now, done, entries)
    && (|entries| < l.maxEntries ==> NothingLost(prior, done, entries))
    && OldestLostFirst(prior, done, entries)
    && (Clocked(prior, now) ==> NewestLostLast(done, entries))
  }

  method StoreAll(l: Limits, prior: map<Str, Entry>, signatures: map<Str, Str>, now: int)
    returns (entries: map<Str, Entry>)
    requires Sensible(l) && BoundedEntries(l, prior)
    ensures StoredInto(l, prior, signatures, now, entries)
  {
    entries := prior;
    var keys := signatures.Keys;
    ghost var done: set<Str> := {};
    while keys != {}
      invariant keys <= signatures.Keys && done == Storable(signatures) - keys
      invariant Storing(l, prior, signatures, now, done, entries)
      decreases |keys|
    {
      var key :| key in keys;
      assert keys == keys - {key} + {key};
      keys := keys - {key};
      var value := signatures[key];
      StorableStep(signatures, keys, key);
      if key == [] || value == [] {
        continue;
      }
      entries := StoreOne(l, prior, signatures, now, entries, key, done);
      done := done + {key};
    }
    assert Storable(signatures) - {} == Storable(signatures);
  }

  lemma StorableStep(signatures: map<Str, Str>, keys: set<Str>, key: Str)
    requires key in signatures && key !in keys
    ensures Storable(signatures) - keys ==
            (Storable(signatures) - (keys + {key})) + if key != [] && signatures[key] != [] then {key} else {}
  {
  }

  method StoreOne(l: Limits, ghost prior: map<Str, Entry>, signatures: map<Str, Str>, now: int,
                  entries: map<Str, Entry>, key: Str, ghost done: set<Str>) returns (r: map<Str, Entry>)
    requires Sensible(l) && done <= Storable(signatures) && Storing(l, prior, signatures, now, done, entries)
    requires key in Storable(signatures) - done
    ensures Storing(l, prior, signatures, now, done + {key}, r)
  {
    r := entries;
    if |r| >= l.maxEntries && key !in r {
      r := EvictOldestSignature(r);
      ghost var victim :| victim in entries && r == entries - {victim} && IsOldest(entries, victim);
      EvictedStays(l, prior, signatures, now, done, entries, victim, key);
    } else {
      RoomStays(l, prior, signatures, now, done, entries, key);
    }
    r := r[key := Entry(signatures[key], now)];
  }

  lemma SizeAfterInsert(entries: map<Str, Entry>, key: Str, e: Entry)
    ensures |entries[key := e]| == |entries| + if key in entries then 0 else 1
  {
    assert entries[key := e].Keys == entries.Keys + {key};
    if key in entries {
      assert entries.Keys + {key} == entries.Keys;
    } else {
      assert |entries.Keys + {key}| == |entries.Keys| + 1;
    }
  }

  lemma RoomStays(l: Limits, prior: map<Str, Entry>, signatures: map<Str, Str>, now: int, done: set<Str>,
                  entries: map<Str, Entry>, key: Str)
    requires Storing(l, prior, signatures, now, done, entries)
    requires key in Storable(signatures) - done && (|entries| < l.maxEntries || key in entries)
    ensures Storing(l, prior, signatures, now, done + {key}, entries[key := Entry(signatures[key], now)])
  {
    SizeAfterInsert(entries, key, Entry(signatures[key], now));
    InsertOrder(prior, done, entries, key, Entry(signatures[key], now));
  }

  lemma InsertOrder(prior: map<Str, Entry>, done: set<Str>, entries: map<Str, Entry>, key: Str, e: Entry)
    requires OldestLostFirst(prior, done, entries)
    ensures OldestLostFirst(prior, done + {key}, entries[key := e])
  {
    var after := entries[key := e];
    forall lost, kept | Lost(lost, prior, done + {key}, after) && Kept(kept, prior, done + {key}, after)
      ensures prior[lost].updatedAt <= prior[kept].updatedAt
    {
      assert Lost(lost, prior, done, entries) && Kept(kept, prior, done, entries);
    }
  }

  lemma EvictOrder(prior: map<Str, Entry>, signatures: map<Str, Str>, now: int, done: set<Str>,
                   entries: map<Str, Entry>, victim: Str)
    requires OldestLostFirst(prior, done, entries) && Origins(prior, signatures, now, done, entries)
    requires IsOldest(entries, victim)
    ensures OldestLostFirst(prior, done, entries - {victim})
  {
    var after := entries - {victim};
    forall lost, kept | Lost(lost, prior, done, after) && Kept(kept, prior, done, after)
      ensures prior[lost].updatedAt <= prior[kept].updatedAt
    {
      assert Kept(kept, prior, done, entries);
      if lost != victim {
        assert Lost(lost, prior, done, entries);
      }
    }
  }

  lemma EvictedStays(l: Limits, prior: map<Str, Entry>, signatures: map<Str, Str>, now: int, done: set<Str>,
                     entries: map<Str, Entry>, victim: Str, key: Str)
    requires done <= Storable(signatures) && Storing(l, prior, signatures, now, done, entries)
    requires key in Storable(signatures) - done && |entries| == l.maxEntries && key !in entries
    requires IsOldest(entries, victim)
    ensures Storing(l, prior, signatures, now, done + {key}, (entries - {victim})[key := Entry(signatures[key], now)])
  {
    assert (entries - {victim}).Keys == entries.Keys - {victim};
    assert |entries.Keys - {victim}| == |entries.Keys| - 1;
    SizeAfterInsert(entries - {victim}, key, Entry(signatures[key], now));
    EvictOrder(prior, signatures, now, done, entries, victim);
    InsertOrder(prior, done, entries - {victim}, key, Entry(signatures[key], now));
  }

  /** A call that brings no more than a session holds, with a clock that has moved on, is kept whole. */
  lemma FittingIsKept(l: Limits, prior: map<Str, Entry>, signatures: map<Str, Str>, now: int, after: map<Str, Entry>)
    requires StoredInto(l, prior, signatures, now, after) && Clocked(prior, now)
    requires |Storable(signatures)| <= l.maxEntries
    ensures Storable(signatures) <= after.Keys
  {
    forall key | key in Storable(signatures) ensures key in after {
      if key !in after {
        SubsetSize(after.Keys, Storable(signatures) - {key});
      }
    }
  }
}
