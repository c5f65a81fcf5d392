/** Which entries of a session the bounded store retains over whole runs. */
module EntryHistory {
  import opened Bytes
  import opened SignatureStore
  import opened SignatureHistory

  // ----- The reference: the history alone -----

  /** The calls that clean up expired sessions. */
  predicate Sweeps(c: Call) {
    c.id != [] && (c.RememberCall? ==> c.signatures != map[])
  }

  /** A call after `calls` finds session `id` expired, or pushes it out. */
  predicate Gone(l: Limits, calls: seq<Call>, c: Call, id: Str) {
    var before, after := LastWrite(calls), LastWrite(calls + [c]);
    id !in before || c.now - before[id] > l.ttl || |Newer(after, id)| >= l.maxSessions
  }

  /** The keys written in the life of session `id` that is still going on, with the times of their last writes. */
  function Life(l: Limits, calls: seq<Call>, id: Str): map<Str, int> {
    if calls == [] then map[]
    else
      var init, c := calls[..|calls| - 1], calls[|calls| - 1];
      var before := if Sweeps(c) && Gone(l, init, c, id) then map[] else Life(l, init, id);
      if Effective(c) && c.id == id then Rewritten(before, Storable(c.signatures), c.now) else before
  }

  function Rewritten(life: map<Str, int>, keys: set<Str>, now: int): map<Str, int> {
    map key | key in life.Keys + keys :: if key in keys then now else life[key]
  }

  /** The keys written in later calls than `key` was. */
  function Later(life: map<Str, int>, key: Str): set<Str>
    requires key in life
  {
    set other | other in life && life[other] > life[key]
  }

  /** The other keys written in the same call as `key` or in later ones. */
  function SameOrLater(life: map<Str, int>, key: Str): set<Str>
    requires key in life
  {
    set other | other in life && life[other] >= life[key] && other != key
  }

  // ----- The entries of a session that goes on -----

  /** The newest keys of the life, up to the choice among equally old ones. */
  ghost predicate HoldsNewest(l: Limits, life: map<Str, int>, entries: map<Str, Entry>) {
    && (forall key :: key in entries ==> key in life && entries[key].updatedAt == life[key])
    && (forall key, other :: key in entries && other in life && life[other] > life[key] ==> other in entries)
    && (|entries| < l.maxEntries ==> life.Keys <= entries.Keys)
  }

  ghost predicate Before(life: map<Str, int>, now: int) {
    forall key :: key in life ==> life[key] < now
  }

  lemma StoringHoldsNewest(l: Limits, life: map<Str, int>, prior: map<Str, Entry>, signatures: map<Str, Str>, now: int,
                           after: map<Str, Entry>)
    requires HoldsNewest(l, life, prior) && Before(life, now) && StoredInto(l, prior, signatures, now, after)
    ensures HoldsNewest(l, Rewritten(life, Storable(signatures), now), after)
  {
    var stored := Storable(signatures);
    var next := Rewritten(life, stored, now);
    forall key, other | key in after && other in next && next[other] > next[key] ensures other in after {
      if other !in after {
        if other !in stored {
          assert Lost(other, prior, stored, after) && Kept(key, prior, stored, after);
        }
        assert false;
      }
    }
    if |after| < l.maxEntries {
      SubsetSize(prior.Keys, after.Keys);
    }
  }

  /** A retained key leaves room for itself among the newest. */
  lemma HeldHasFewLater(l: Limits, life: map<Str, int>, entries: map<Str, Entry>, key: Str)
    requires HoldsNewest(l, life, entries) && |entries| <= l.maxEntries && key in entries
    ensures key in life && |Later(life, key)| < l.maxEntries
  {
    var held := Later(life, key) + {key};
    SubsetSize(held, entries.Keys);
    assert |held| == |Later(life, key)| + 1;
  }

  /** A key is missing only if as many others as a session holds are at least as new. */
  lemma MissingHasManyOthers(l: Limits, life: map<Str, int>, entries: map<Str, Entry>, key: Str)
    requires HoldsNewest(l, life, entries) && key in life && key !in entries
    ensures |SameOrLater(life, key)| >= l.maxEntries
  {
    forall other | other in entries ensures other in SameOrLater(life, key) {
    }
    SubsetSize(entries.Keys, SameOrLater(life, key));
  }

  // ----- Runs -----

  ghost predicate SessionHolds(l: Limits, life: map<Str, int>, s: Sessions, id: Str) {
    if id in s then HoldsNewest(l, life, s[id].entries) else life == map[]
  }

  lemma LifeSnoc(l: Limits, calls: seq<Call>, c: Call, id: Str)
    ensures Life(l, calls + [c], id) ==
            var before := if Sweeps(c) && Gone(l, calls, c, id) then map[] else Life(l, calls, id);
            if Effective(c) && c.id == id then Rewritten(before, Storable(c.signatures), c.now) else before
  {
    SnocInit(calls, c);
  }

  lemma {:induction false} LifeBefore(l: Limits, calls: seq<Call>, id: Str, now: int)
    requires Ticking(calls, now)
    ensures Before(Life(l, calls, id), now)
  {
    if calls != [] {
      TickingInit(calls, now);
      LifeBefore(l, calls[..|calls| - 1], id, calls[|calls| - 1].now);
    }
  }

  /** A session that a sweeping call leaves alone has not gone; one that it does not leave has. */
  lemma GoneIsMissing(l: Limits, calls: seq<Call>, pre: Sessions, c: Call, post: Sessions, id: Str)
    requires HoldsRecent(l, LastWrite(calls), pre, c.now) && HoldsRecent(l, LastWrite(calls + [c]), post, c.now)
    requires id in post ==> id in pre && Live(l, pre[id], c.now)
    requires id in LastWrite(calls) ==>
               id in LastWrite(calls + [c]) && LastWrite(calls + [c])[id] == LastWrite(calls)[id]
    ensures Gone(l, calls, c, id) <==> id !in post
  {
    if id !in post && id in LastWrite(calls) {
      assert Recent(l, LastWrite(calls + [c]), id) ==> c.now - LastWrite(calls)[id] > l.ttl;
    }
  }

  lemma WritesSnoc(calls: seq<Call>, c: Call, id: Str)
    requires Effective(c) ==> c.id != id
    ensures id in LastWrite(calls) <==> id in LastWrite(calls + [c])
    ensures id in LastWrite(calls) ==> LastWrite(calls + [c])[id] == LastWrite(calls)[id]
  {
    SnocInit(calls, c);
  }

  /** A call that does not write to the session. */
  lemma OthersHold(l: Limits, calls: seq<Call>, pre: Sessions, c: Call, post: Sessions, id: Str)
    requires Sensible(l) && Bounded(l, pre) && Step(l, pre, c, post) && Sweeps(c) && (Effective(c) ==> c.id != id)
    requires HoldsRecent(l, LastWrite(calls), pre, c.now) && HoldsRecent(l, LastWrite(calls + [c]), post, c.now)
    requires SessionHolds(l, Life(l, calls, id), pre, id)
    ensures SessionHolds(l, Life(l, calls + [c], id), post, id)
  {
    StepElsewhere(l, pre, c, post, id);
    WritesSnoc(calls, c, id);
    GoneIsMissing(l, calls, pre, c, post, id);
    LifeSnoc(l, calls, c, id);
  }

  lemma StepElsewhere(l: Limits, pre: Sessions, c: Call, post: Sessions, id: Str)
    requires Sensible(l) && Bounded(l, pre) && Step(l, pre, c, post) && Sweeps(c) && (Effective(c) ==> c.id != id)
    ensures id in post ==> id in pre && post[id] == pre[id] && Live(l, pre[id], c.now)
  {
    if Effective(c) {
      var room :| RememberedIn(l, pre, c.id, c.signatures, c.now, room, post);
      AliveBounded(l, pre, c.now);
      RoomBounded(l, Alive(l, pre, c.now), c.id, room);
      OnlyOneChanged(room, c.id, post);
    }
  }

  /** What a call that writes to the session finds there. */
  lemma FoundHolds(l: Limits, calls: seq<Call>, pre: Sessions, c: Call, room: Sessions, post: Sessions)
    requires Sensible(l) && Bounded(l, pre) && Effective(c) && Distinct(LastWrite(calls), c.now)
    requires RememberedIn(l, pre, c.id, c.signatures, c.now, room, post)
    requires HoldsRecent(l, LastWrite(calls), pre, c.now)
    requires SessionHolds(l, Life(l, calls, c.id), pre, c.id)
    ensures HoldsNewest(l, if Gone(l, calls, c, c.id) then map[] else Life(l, calls, c.id), EntriesOf(room, c.id))
  {
    var live := Alive(l, pre, c.now);
    SnocInit(calls, c);
    NewestHasNoNewer(LastWrite(calls), c.id, c.now);
    AliveBounded(l, pre, c.now);
    RoomBounded(l, live, c.id, room);
  }

  lemma WriteHolds(l: Limits, calls: seq<Call>, pre: Sessions, c: Call, post: Sessions)
    requires Sensible(l) && Bounded(l, pre) && Ticking(calls, c.now) && Step(l, pre, c, post) && Effective(c)
    requires HoldsRecent(l, LastWrite(calls), pre, c.now)
    requires SessionHolds(l, Life(l, calls, c.id), pre, c.id)
    ensures SessionHolds(l, Life(l, calls + [c], c.id), post, c.id)
  {
    var before := if Gone(l, calls, c, c.id) then map[] else Life(l, calls, c.id);
    var room :| RememberedIn(l, pre, c.id, c.signatures, c.now, room, post);
    LastWriteDistinct(calls, c.now);
    LifeBefore(l, calls, c.id, c.now);
    FoundHolds(l, calls, pre, c, room, post);
    StoringHoldsNewest(l, before, EntriesOf(room, c.id), c.signatures, c.now, post[c.id].entries);
    LifeSnoc(l, calls, c, c.id);
  }

  lemma StepHoldsNewest(l: Limits, calls: seq<Call>, pre: Sessions, c: Call, post: Sessions, id: Str)
    requires Sensible(l) && Bounded(l, pre) && Ticking(calls, c.now) && Step(l, pre, c, post)
    requires HoldsRecent(l, LastWrite(calls), pre, c.now)
    requires SessionHolds(l, Life(l, calls, id), pre, id)
    ensures SessionHolds(l, Life(l, calls + [c], id), post, id)
  {
    if Effective(c) && c.id == id {
      WriteHolds(l, calls, pre, c, post);
    } else if Sweeps(c) {
      LastWriteDistinct(calls, c.now);
      StepHolds(l, calls, pre, c, post);
      OthersHold(l, calls, pre, c, post, id);
    } else {
      LifeSnoc(l, calls, c, id);
    }
  }

  lemma {:induction false} RunHoldsNewest(l: Limits, calls: seq<Call>, states: seq<Sessions>, id: Str, now: int)
    requires Sensible(l) && Run(l, calls, states) && Ticking(calls, now)
    ensures SessionHolds(l, Life(l, calls, id), states[|calls|], id)
  {
    if calls != [] {
      var n := |calls| - 1;
      var c := calls[n];
      RunInit(l, calls, states);
      TickingInit(calls, now);
      RunHoldsNewest(l, calls[..n], states[..n + 1], id, c.now);
      RunHoldsRecent(l, calls[..n], states[..n + 1], c.now);
      EveryStoreIsBoundedAndSound(l, calls[..n], states[..n + 1]);
      StepHoldsNewest(l, calls[..n], states[n], c, states[n + 1], id);
      InitLast(calls);
    }
  }

  // ----- What a snapshot finds -----

  /** By the history, a snapshot finds the session. */
  predicate Found(l: Limits, calls: seq<Call>, id: Str, now: int) {
    var writes := LastWrite(calls);
    id in writes && now - writes[id] <= l.ttl && |Newer(writes, id)| < l.maxSessions
  }

  /** A snapshot taken at `now` has the entry. */
  ghost predicate Has(l: Limits, s: Sessions, id: Str, key: Str, now: int) {
    var reading := Reading(Swept(l, s, id, now), id);
    reading.Some? && key in reading.value
  }

  /**
   * Whole runs with strictly increasing clock readings. A snapshot finds an entry if it finds the session, the key was
   * written in the session's present life, and fewer than maxEntries distinct other keys were written in the same call
   * or later; and it does not find one after which as many have been written in later calls.
   */
  lemma EntryRetained(l: Limits, calls: seq<Call>, states: seq<Sessions>, id: Str, key: Str, now: int)
    requires Sensible(l) && Run(l, calls, states) && Ticking(calls, now)
    ensures var life, s := Life(l, calls, id), states[|calls|];
            && (Has(l, s, id, key, now) ==>
                  Found(l, calls, id, now) && key in life && |Later(life, key)| < l.maxEntries)
            && (Found(l, calls, id, now) && key in life && |SameOrLater(life, key)| < l.maxEntries ==>
                  Has(l, s, id, key, now)
                  && LatestValue(calls, id, key) == Some(Reading(Swept(l, s, id, now), id).value[key]))
  {
    var life, s := Life(l, calls, id), states[|calls|];
    RetainedExactly(l, calls, states, id, now);
    EveryStoreIsBoundedAndSound(l, calls, states);
    RunHoldsNewest(l, calls, states, id, now);
    if id in s {
      if key in s[id].entries {
        HeldHasFewLater(l, life, s[id].entries, key);
      } else if key in life {
        MissingHasManyOthers(l, life, s[id].entries, key);
      }
    }
  }

  /** The key is the only one of the session whose last write is in its call. */
  ghost predicate AloneInCall(life: map<Str, int>, key: Str) {
    key in life ==> forall other :: other in life && life[other] == life[key] ==> other == key
  }

  /** Where no equally old entry leaves a choice to the map order, the condition is exact. */
  lemma EntryRetainedExactly(l: Limits, calls: seq<Call>, states: seq<Sessions>, id: Str, key: Str, now: int)
    requires Sensible(l) && Run(l, calls, states) && Ticking(calls, now) && AloneInCall(Life(l, calls, id), key)
    ensures var life := Life(l, calls, id);
            Has(l, states[|calls|], id, key, now) <==>
            Found(l, calls, id, now) && key in life && |Later(life, key)| < l.maxEntries
  {
    var life := Life(l, calls, id);
    EntryRetained(l, calls, states, id, key, now);
    if key in life {
      assert SameOrLater(life, key) == Later(life, key);
    }
  }

  /** One call that brings two keys to a session that holds one may keep either: which, only the map order decides. */
  lemma OrderDecidesTies(id: Str, key: Str, other: Str, value: Str, now: int)
    requires id != [] && key != [] && other != [] && key != other && value != []
    ensures var l := Limits(1, 1, 1);
            var calls := [RememberCall(id, map[key := value, other := value], now)];
            var states := [map[], map[id := Session(now, map[key := Entry(value, now)])]];
            Run(l, calls, states) && Has(l, states[1], id, key, now + 1) && !Has(l, states[1], id, other, now + 1)
  {
    var l := Limits(1, 1, 1);
    var signatures := map[key := value, other := value];
    var entries := map[key := Entry(value, now)];
    assert Storable(signatures) == {key, other};
    assert StoredInto(l, map[], signatures, now, entries);
    assert RememberedIn(l, map[], id, signatures, now, map[], map[id := Session(now, entries)]);
  }
}
