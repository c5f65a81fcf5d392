/** The bounded store against an unbounded history of the same calls. */
module SignatureHistory {
  import opened Bytes
  import opened SignatureStore

  datatype Call =
    | RememberCall(id: Str, signatures: map<Str, Str>, now: int)
    | SnapshotCall(id: Str, now: int)

  ghost predicate Step(l: Limits, pre: Sessions, c: Call, post: Sessions) {
    match c
    case RememberCall(id, signatures, now) => Remembered(l, pre, id, signatures, now, post)
    case SnapshotCall(id, now) => post == Swept(l, pre, id, now)
  }

  /** `states` is a run of the calls from the empty store; eviction ties may be resolved in any way. */
  ghost predicate Run(l: Limits, calls: seq<Call>, states: seq<Sessions>) {
    && |states| == |calls| + 1 && states[0] == map[]
    && forall i :: 0 <= i < |calls| ==> Step(l, states[i], calls[i], states[i + 1])
  }

  lemma RunInit(l: Limits, calls: seq<Call>, states: seq<Sessions>)
    requires Run(l, calls, states) && calls != []
    ensures Run(l, calls[..|calls| - 1], states[..|states| - 1])
    ensures states[..|states| - 1][|states| - 2] == states[|states| - 2]
    ensures Step(l, states[|calls| - 1], calls[|calls| - 1], states[|calls|])
  {
    var n := |calls| - 1;
    assert Step(l, states[n], calls[n], states[n + 1]);
    forall i | 0 <= i < n ensures Step(l, states[..n + 1][i], calls[..n][i], states[..n + 1][i + 1]) {
      assert Step(l, states[i], calls[i], states[i + 1]);
    }
  }

  // ----- Bounds and soundness -----

  predicate Effective(c: Call) {
    c.RememberCall? && c.id != [] && c.signatures != map[]
  }

  /** A call brings a value for a key, neither of them empty. */
  predicate Brings(signatures: map<Str, Str>, key: Str) {
    key in signatures && key != [] && signatures[key] != []
  }

  /** The value last remembered for a session and key, in a history that forgets nothing. */
  function LatestValue(calls: seq<Call>, id: Str, key: Str): Option<Str> {
    if calls == [] then None
    else
      var c := calls[|calls| - 1];
      if c.RememberCall? && c.id == id != [] && Brings(c.signatures, key) then Some(c.signatures[key])
      else LatestValue(calls[..|calls| - 1], id, key)
  }

  ghost predicate Sound(calls: seq<Call>, s: Sessions) {
    forall id, key :: id in s && key in s[id].entries ==> LatestValue(calls, id, key) == Some(s[id].entries[key].value)
  }

  lemma AliveBounded(l: Limits, s: Sessions, now: int)
    requires Bounded(l, s)
    ensures Bounded(l, Alive(l, s, now))
  {
    SubsetSize(Alive(l, s, now).Keys, s.Keys);
  }

  lemma RoomBounded(l: Limits, s: Sessions, id: Str, room: Sessions)
    requires Sensible(l) && Bounded(l, s) && MadeRoom(l, s, id, room)
    ensures Bounded(l, room) && (id in room || |room| < l.maxSessions)
    ensures forall k :: k in room ==> k in s && room[k] == s[k]
    ensures id in s ==> room == s
  {
    if !(id in s || |s| < l.maxSessions) {
      var victim :| VictimOf(s, victim, room);
      assert room.Keys == s.Keys - {victim};
      Without(s.Keys, victim);
    }
  }

  lemma OnlyOneChanged(room: Sessions, id: Str, post: Sessions)
    requires id in post && post - {id} == room - {id}
    ensures post == room[id := post[id]]
  {
    forall k | k != id ensures k in post <==> k in room
      ensures k in post ==> post[k] == room[k]
    {
      assert k in post <==> k in post - {id};
      assert k in room <==> k in room - {id};
      if k in post {
        assert post[k] == (post - {id})[k] == (room - {id})[k] == room[k];
      }
    }
  }

  lemma RememberBounded(l: Limits, pre: Sessions, c: Call, room: Sessions, post: Sessions)
    requires Sensible(l) && Bounded(l, pre) && Effective(c)
    requires RememberedIn(l, pre, c.id, c.signatures, c.now, room, post)
    ensures Bounded(l, post)
  {
    AliveBounded(l, pre, c.now);
    RoomBounded(l, Alive(l, pre, c.now), c.id, room);
    OnlyOneChanged(room, c.id, post);
    InsertBounded(l, room, c.id, post[c.id]);
  }

  lemma StepBounded(l: Limits, pre: Sessions, c: Call, post: Sessions)
    requires Sensible(l) && Bounded(l, pre) && Step(l, pre, c, post)
    ensures Bounded(l, post)
  {
    if Effective(c) {
      var room :| RememberedIn(l, pre, c.id, c.signatures, c.now, room, post);
      RememberBounded(l, pre, c, room, post);
    } else if c.SnapshotCall? {
      AliveBounded(l, pre, c.now);
    }
  }

  lemma RememberSound(l: Limits, calls: seq<Call>, pre: Sessions, c: Call, room: Sessions, post: Sessions)
    requires Sensible(l) && Bounded(l, pre) && Sound(calls, pre) && Effective(c)
    requires RememberedIn(l, pre, c.id, c.signatures, c.now, room, post)
    ensures Sound(calls + [c], post)
  {
    SnocInit(calls, c);
    AliveBounded(l, pre, c.now);
    RoomBounded(l, Alive(l, pre, c.now), c.id, room);
    OnlyOneChanged(room, c.id, post);
    forall id, key | id in post && key in post[id].entries
      ensures LatestValue(calls + [c], id, key) == Some(post[id].entries[key].value)
    {
      if id == c.id {
        assert Origins(EntriesOf(room, id), c.signatures, c.now, Storable(c.signatures), post[id].entries);
      } else {
        assert id in pre && post[id] == pre[id];
      }
    }
  }

  lemma StepSound(l: Limits, calls: seq<Call>, pre: Sessions, c: Call, post: Sessions)
    requires Sensible(l) && Bounded(l, pre) && Sound(calls, pre) && Step(l, pre, c, post)
    ensures Sound(calls + [c], post)
  {
    SnocInit(calls, c);
    if Effective(c) {
      var room :| RememberedIn(l, pre, c.id, c.signatures, c.now, room, post);
      RememberSound(l, calls, pre, c, room, post);
    }
  }

  /**
   * In every reachable store there are at most maxSessions sessions of at most maxEntries entries, and every value is
   * the latest one remembered for its session and key.
   */
  lemma {:induction false} EveryStoreIsBoundedAndSound(l: Limits, calls: seq<Call>, states: seq<Sessions>)
    requires Sensible(l) && Run(l, calls, states)
    ensures Bounded(l, states[|calls|]) && Sound(calls, states[|calls|])
  {
    if calls != [] {
      var n := |calls| - 1;
      RunInit(l, calls, states);
      EveryStoreIsBoundedAndSound(l, calls[..n], states[..n + 1]);
      StepBounded(l, states[n], calls[n], states[n + 1]);
      StepSound(l, calls[..n], states[n], calls[n], states[n + 1]);
      InitLast(calls);
    }
  }

  // ----- Which sessions are retained -----

  /** When each session was last written, in a history that forgets nothing. */
  function LastWrite(calls: seq<Call>): map<Str, int> {
    if calls == [] then map[]
    else
      var c := calls[|calls| - 1];
      if Effective(c) then LastWrite(calls[..|calls| - 1])[c.id := c.now] else LastWrite(calls[..|calls| - 1])
  }

  /** The sessions written after `id` was last written. */
  function Newer(writes: map<Str, int>, id: Str): set<Str>
    requires id in writes
  {
    set other | other in writes && writes[other] > writes[id]
  }

  /** Clock readings increase strictly from call to call, and `now` is after all of them. */
  predicate Ticking(calls: seq<Call>, now: int) {
    && (forall i, j :: 0 <= i < j < |calls| ==> calls[i].now < calls[j].now)
    && (forall i :: 0 <= i < |calls| ==> calls[i].now < now)
  }

  /** The session has not been pushed out by maxSessions later ones. */
  ghost predicate Recent(l: Limits, writes: map<Str, int>, id: Str) {
    id in writes && |Newer(writes, id)| < l.maxSessions
  }

  /** The store holds recent sessions only, and all of them that have not expired by `clock`. */
  ghost predicate HoldsRecent(l: Limits, writes: map<Str, int>, s: Sessions, clock: int) {
    && (forall id :: id in s ==> Recent(l, writes, id) && s[id].updatedAt == writes[id])
    && (forall id :: Recent(l, writes, id) && id !in s ==> clock - writes[id] > l.ttl)
  }

  /** No two sessions were last written at the same time, and none at or after `clock`. */
  ghost predicate Distinct(writes: map<Str, int>, clock: int) {
    && (forall a, b :: a in writes && b in writes && writes[a] == writes[b] ==> a == b)
    && (forall a :: a in writes ==> writes[a] < clock)
  }

  lemma {:induction false} LastWriteDistinct(calls: seq<Call>, now: int)
    requires Ticking(calls, now)
    ensures Distinct(LastWrite(calls), now)
  {
    if calls != [] {
      var n := |calls| - 1;
      assert Ticking(calls[..n], calls[n].now);
      LastWriteDistinct(calls[..n], calls[n].now);
    }
  }

  lemma AliveHolds(l: Limits, writes: map<Str, int>, s: Sessions, clock: int, now: int)
    requires HoldsRecent(l, writes, s, clock) && clock <= now
    ensures HoldsRecent(l, writes, Alive(l, s, now), now)
    ensures forall id :: id in Alive(l, s, now) ==> now - writes[id] <= l.ttl
  {
    var t := Alive(l, s, now);
    forall id | Recent(l, writes, id) && id !in t ensures now - writes[id] > l.ttl {
      if id in s {
        assert !Live(l, s[id], now);
      }
    }
  }

  /** The sessions written after a live one are all there, as live as it is. */
  lemma NewerAreLive(l: Limits, writes: map<Str, int>, s: Sessions, now: int, id: Str)
    requires HoldsRecent(l, writes, s, now) && (forall k :: k in s ==> now - writes[k] <= l.ttl) && id in s
    ensures Newer(writes, id) <= s.Keys
  {
    forall other | other in Newer(writes, id) ensures other in s {
      assert Newer(writes, other) <= Newer(writes, id);
      SubsetSize(Newer(writes, other), Newer(writes, id));
      assert Recent(l, writes, other);
    }
  }

  lemma NewerAfterWrite(writes: map<Str, int>, id: Str, now: int, other: Str)
    requires Distinct(writes, now) && other in writes && other != id
    ensures Newer(writes[id := now], other) == Newer(writes, other) + {id}
  {
  }

  lemma With<T>(s: set<T>, x: T)
    requires x !in s
    ensures |s + {x}| == |s| + 1
  {
  }

  lemma Including<T>(s: set<T>, x: T)
    requires x in s
    ensures s + {x} == s
  {
  }

  lemma Without<T>(s: set<T>, x: T)
    requires x in s
    ensures |s - {x}| == |s| - 1
  {
  }

  /** The sessions newer than one that stays, itself included, leave room for `id` among the recent ones. */
  lemma StaysAmongFewer(l: Limits, writes: map<Str, int>, live: Sessions, id: Str, now: int, room: Sessions, other: Str)
    requires Distinct(writes, now) && HoldsRecent(l, writes, live, now) && |live| <= l.maxSessions
    requires forall k :: k in live ==> now - writes[k] <= l.ttl
    requires MadeRoom(l, live, id, room) && other in room && other != id && id !in Newer(writes, other)
    ensures |Newer(writes, other) + {other}| < l.maxSessions
  {
    NewerAreLive(l, writes, live, now, other);
    var held := Newer(writes, other) + {other};
    if id in live {
      // `other` was written after `id`, so it and those newer than it are among those newer than `id`
      SubsetSize(held, Newer(writes, id));
    } else if |live| < l.maxSessions {
      SubsetSize(held, live.Keys);
    } else {
      var victim :| VictimOf(live, victim, room);
      SurvivorsAreNewer(l, writes, live, now, victim, other);
      Without(live.Keys, victim);
      SubsetSize(held, live.Keys - {victim});
    }
  }

  /** A session that stays in the store still counts as recent after the write to `id`. */
  lemma StaysRecent(l: Limits, writes: map<Str, int>, live: Sessions, id: Str, now: int, room: Sessions, other: Str)
    requires Distinct(writes, now) && HoldsRecent(l, writes, live, now) && |live| <= l.maxSessions
    requires forall k :: k in live ==> now - writes[k] <= l.ttl
    requires MadeRoom(l, live, id, room) && other in room && other in live && other != id
    ensures Recent(l, writes[id := now], other)
  {
    NewerAfterWrite(writes, id, now, other);
    assert Recent(l, writes, other);
    var newer := Newer(writes, other);
    if id in newer {
      Including(newer, id);
    } else {
      StaysAmongFewer(l, writes, live, id, now, room, other);
      With(newer, other);
      With(newer, id);
    }
  }

  lemma SurvivorsAreNewer(l: Limits, writes: map<Str, int>, live: Sessions, now: int, victim: Str, other: Str)
    requires Distinct(writes, now) && HoldsRecent(l, writes, live, now)
    requires forall k :: k in live ==> now - writes[k] <= l.ttl
    requires VictimOf(live, victim, live - {victim}) && other in live && other != victim
    ensures Newer(writes, other) + {other} <= live.Keys - {victim}
  {
    NewerAreLive(l, writes, live, now, other);
  }

  /** A recent session that is not in the store after making room had expired. */
  lemma OnlyTheExcessGoes(l: Limits, writes: map<Str, int>, live: Sessions, id: Str, now: int, room: Sessions,
                          other: Str)
    requires Distinct(writes, now) && HoldsRecent(l, writes, live, now)
    requires MadeRoom(l, live, id, room) && other !in room && other != id
    requires Recent(l, writes[id := now], other)
    ensures now - writes[other] > l.ttl
  {
    NewerAfterWrite(writes, id, now, other);
    SubsetSize(Newer(writes, other), Newer(writes, other) + {id});
    assert Recent(l, writes, other);
    if other in live {
      var victim :| VictimOf(live, victim, room);
      VictimHasFullStoreAfter(l, writes, live, id, now, other);
      assert false;
    }
  }

  /** The victim of a full store has all its other sessions, and the new one, after it. */
  lemma VictimHasFullStoreAfter(l: Limits, writes: map<Str, int>, live: Sessions, id: Str, now: int, victim: Str)
    requires Distinct(writes, now) && HoldsRecent(l, writes, live, now)
    requires id !in live && |live| >= l.maxSessions && VictimOf(live, victim, live - {victim})
    ensures |Newer(writes, victim) + {id}| >= l.maxSessions
  {
    var rest := live.Keys - {victim} + {id};
    Without(live.Keys, victim);
    With(live.Keys - {victim}, id);
    assert rest <= Newer(writes, victim) + {id};
    SubsetSize(rest, Newer(writes, victim) + {id});
  }

  lemma RememberHolds(l: Limits, writes: map<Str, int>, pre: Sessions, clock: int, c: Call, room: Sessions,
                      post: Sessions)
    requires Sensible(l) && Bounded(l, pre) && Effective(c) && clock <= c.now
    requires HoldsRecent(l, writes, pre, clock) && Distinct(writes, c.now)
    requires RememberedIn(l, pre, c.id, c.signatures, c.now, room, post)
    ensures HoldsRecent(l, writes[c.id := c.now], post, c.now)
  {
    var live, after := Alive(l, pre, c.now), writes[c.id := c.now];
    AliveHolds(l, writes, pre, clock, c.now);
    AliveBounded(l, pre, c.now);
    RoomBounded(l, live, c.id, room);
    OnlyOneChanged(room, c.id, post);
    forall id | id in post ensures Recent(l, after, id) && post[id].updatedAt == after[id] {
      if id == c.id {
        NewestHasNoNewer(writes, c.id, c.now);
      } else {
        StaysRecent(l, writes, live, c.id, c.now, room, id);
      }
    }
    forall id | Recent(l, after, id) && id !in post ensures c.now - after[id] > l.ttl {
      OnlyTheExcessGoes(l, writes, live, c.id, c.now, room, id);
    }
  }

  lemma NewestHasNoNewer(writes: map<Str, int>, id: Str, now: int)
    requires Distinct(writes, now)
    ensures Newer(writes[id := now], id) == {}
  {
  }

  lemma StepHolds(l: Limits, calls: seq<Call>, pre: Sessions, c: Call, post: Sessions)
    requires Sensible(l) && Bounded(l, pre) && Distinct(LastWrite(calls), c.now)
    requires HoldsRecent(l, LastWrite(calls), pre, c.now) && Step(l, pre, c, post)
    ensures HoldsRecent(l, LastWrite(calls + [c]), post, c.now)
  {
    SnocInit(calls, c);
    if Effective(c) {
      var room :| RememberedIn(l, pre, c.id, c.signatures, c.now, room, post);
      RememberHolds(l, LastWrite(calls), pre, c.now, c, room, post);
    } else if c.SnapshotCall? && c.id != [] {
      AliveHolds(l, LastWrite(calls), pre, c.now, c.now);
    }
  }

  lemma LaterHolds(l: Limits, writes: map<Str, int>, s: Sessions, clock: int, now: int)
    requires HoldsRecent(l, writes, s, clock) && clock <= now
    ensures HoldsRecent(l, writes, s, now)
  {
  }

  lemma TickingInit(calls: seq<Call>, now: int)
    requires Ticking(calls, now) && calls != []
    ensures Ticking(calls[..|calls| - 1], calls[|calls| - 1].now) && calls[|calls| - 1].now < now
  {
  }

  lemma OneMoreHolds(l: Limits, calls: seq<Call>, pre: Sessions, c: Call, post: Sessions, now: int)
    requires Sensible(l) && Bounded(l, pre) && Ticking(calls, c.now) && c.now < now
    requires HoldsRecent(l, LastWrite(calls), pre, c.now) && Step(l, pre, c, post)
    ensures HoldsRecent(l, LastWrite(calls + [c]), post, now)
  {
    LastWriteDistinct(calls, c.now);
    StepHolds(l, calls, pre, c, post);
    LaterHolds(l, LastWrite(calls + [c]), post, c.now, now);
  }

  lemma {:induction false} RunHoldsRecent(l: Limits, calls: seq<Call>, states: seq<Sessions>, now: int)
    requires Sensible(l) && Run(l, calls, states) && Ticking(calls, now)
    ensures HoldsRecent(l, LastWrite(calls), states[|calls|], now)
  {
    if calls != [] {
      var n := |calls| - 1;
      RunInit(l, calls, states);
      TickingInit(calls, now);
      RunHoldsRecent(l, calls[..n], states[..n + 1], calls[n].now);
      EveryStoreIsBoundedAndSound(l, calls[..n], states[..n + 1]);
      OneMoreHolds(l, calls[..n], states[n], calls[n], states[n + 1], now);
      InitLast(calls);
    }
  }

  /**
   * Whole runs with strictly increasing clock readings: a snapshot finds a session exactly when it was written, its
   * last write is no older than the time to live, and fewer than maxSessions distinct sessions were written after it.
   */
  lemma RetainedExactly(l: Limits, calls: seq<Call>, states: seq<Sessions>, id: Str, now: int)
    requires Sensible(l) && Run(l, calls, states) && Ticking(calls, now)
    ensures var writes := LastWrite(calls);
            && (id in Alive(l, states[|calls|], now) <==>
                id in writes && now - writes[id] <= l.ttl && |Newer(writes, id)| < l.maxSessions)
            && (Reading(Swept(l, states[|calls|], id, now), id).Some? <==> id in Alive(l, states[|calls|], now))
  {
    EveryStoreIsBoundedAndSound(l, calls, states);
    RunHoldsRecent(l, calls, states, now);
    AliveHolds(l, LastWrite(calls), states[|calls|], now, now);
  }

  // ----- What one call leaves behind -----

  ghost predicate WrittenBefore(s: Sessions, now: int) {
    forall id, key :: id in s && key in s[id].entries ==> s[id].entries[key].updatedAt < now
  }

  lemma RememberWritten(l: Limits, pre: Sessions, c: Call, room: Sessions, post: Sessions, now: int)
    requires Sensible(l) && Bounded(l, pre) && WrittenBefore(pre, c.now) && c.now < now && Effective(c)
    requires RememberedIn(l, pre, c.id, c.signatures, c.now, room, post)
    ensures WrittenBefore(post, now)
  {
    AliveBounded(l, pre, c.now);
    RoomBounded(l, Alive(l, pre, c.now), c.id, room);
    OnlyOneChanged(room, c.id, post);
    forall id, key | id in post && key in post[id].entries ensures post[id].entries[key].updatedAt < now {
      if id == c.id {
        assert Origins(EntriesOf(room, id), c.signatures, c.now, Storable(c.signatures), post[id].entries);
      } else {
        assert id in pre && post[id] == pre[id];
      }
    }
  }

  lemma {:induction false} RunWrittenBefore(l: Limits, calls: seq<Call>, states: seq<Sessions>, now: int)
    requires Sensible(l) && Run(l, calls, states) && Ticking(calls, now)
    ensures WrittenBefore(states[|calls|], now)
  {
    if calls != [] {
      var n := |calls| - 1;
      var c := calls[n];
      RunInit(l, calls, states);
      assert Ticking(calls[..n], c.now);
      RunWrittenBefore(l, calls[..n], states[..n + 1], c.now);
      EveryStoreIsBoundedAndSound(l, calls[..n], states[..n + 1]);
      if Effective(c) {
        var room :| RememberedIn(l, states[n], c.id, c.signatures, c.now, room, states[n + 1]);
        RememberWritten(l, states[n], c, room, states[n + 1], now);
      }
    }
  }

  /**
   * After any such run, a call that brings no more signatures than a session holds leaves all of them in the store,
   * despite the evictions inside its own loop and whatever the order in which it stores them.
   */
  lemma FittingCallIsKept(l: Limits, calls: seq<Call>, states: seq<Sessions>, c: Call, post: Sessions, key: Str)
    requires Sensible(l) && Run(l, calls, states) && Ticking(calls, c.now)
    requires c.RememberCall? && c.id != [] && Brings(c.signatures, key) && Step(l, states[|calls|], c, post)
    requires |Storable(c.signatures)| <= l.maxEntries
    ensures c.id in post && key in post[c.id].entries && post[c.id].entries[key].value == c.signatures[key]
  {
    var pre := states[|calls|];
    EveryStoreIsBoundedAndSound(l, calls, states);
    RunWrittenBefore(l, calls, states, c.now);
    var room :| RememberedIn(l, pre, c.id, c.signatures, c.now, room, post);
    AliveBounded(l, pre, c.now);
    RoomBounded(l, Alive(l, pre, c.now), c.id, room);
    var prior := EntriesOf(room, c.id);
    forall k | k in prior ensures prior[k].updatedAt < c.now {
      assert c.id in pre && room[c.id] == pre[c.id];
    }
    FittingIsKept(l, prior, c.signatures, c.now, post[c.id].entries);
    assert Origins(prior, c.signatures, c.now, Storable(c.signatures), post[c.id].entries);
  }
}
