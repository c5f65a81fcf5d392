/** The round trip inside a longer conversation: other messages before and after the echo, and merging with them. */
module ConversationRoundTrip {
  import opened Bytes
  import opened AnthropicEvents
  import opened GeminiModel
  import opened RequestModel
  import opened RequestContents
  import opened ToolResolution
  import opened ConversationContents
  import opened RoundTrip

  function EchoMessage(us: seq<Unit>, keep: nat -> bool): InMessage {
    InMessage(Assistant, BlockContent(Echo(Blocks(us), keep)))
  }

  lemma {:induction false} LastCarriedAppend(a: seq<Spot>, b: seq<Spot>, key: Str)
    ensures LastCarried(a + b, key) == if LastCarried(b, key) != [] then LastCarried(b, key) else LastCarried(a, key)
  {
    if b == [] {
      NothingAfter(a);
    } else {
      var init, s := b[..|b| - 1], b[|b| - 1];
      InitLast(b);
      PlusAssoc(a, init, [s]);
      SpotSnoc(a + init, s, key);
      LastCarriedAppend(a, init, key);
    }
  }

  lemma {:induction false} SpotsAppend(a: seq<InMessage>, b: seq<InMessage>)
    ensures Spots(a + b) == Spots(a) + Spots(b)
  {
    if b == [] {
      NothingAfter(a);
      NothingAfter(Spots(a));
    } else {
      var init, m := b[..|b| - 1], b[|b| - 1];
      InitLast(b);
      PlusAssoc(a, init, [m]);
      SnocInit(a + init, m);
      SpotsAppend(a, init);
      PlusAssoc(Spots(a), Spots(init), MessageSpots(m));
    }
  }

  lemma OneMessageLearned(us: seq<Unit>, keep: nat -> bool, key: Str)
    ensures LastCarried(Spots([EchoMessage(us, keep)]), key) == Lookup(Overlay(us, map[]), key)
  {
    var m := EchoMessage(us, keep);
    LearnsConversation(map[], [m]);
    LearnsUnits(us, keep, map[]);
    assert [m][..0] == [];
    assert Learn(Known(map[], map[]), [m]) == LearnMessage(Known(map[], map[]), m);
  }

  /**
   * The signature a key has in the whole conversation: from the last carrier after the echo, else from the echo's own,
   * else from the last one before it, else from the server.
   */
  function Resolve(us: seq<Unit>, pre: seq<InMessage>, post: seq<InMessage>, server: Table, key: Str): Str {
    if LastCarried(Spots(post), key) != [] then LastCarried(Spots(post), key)
    else if Lookup(Overlay(us, map[]), key) != [] then Lookup(Overlay(us, map[]), key)
    else SignatureFor(Spots(pre), server, key)
  }

  function Conversation(us: seq<Unit>, keep: nat -> bool, pre: seq<InMessage>, post: seq<InMessage>): seq<InMessage> {
    pre + [EchoMessage(us, keep)] + post
  }

  lemma ResolvesSo(us: seq<Unit>, keep: nat -> bool, pre: seq<InMessage>, post: seq<InMessage>, server: Table, key: Str)
    ensures SignatureFor(Spots(Conversation(us, keep, pre, post)), server, key) == Resolve(us, pre, post, server, key)
  {
    var one := [EchoMessage(us, keep)];
    SpotsAppend(pre + one, post);
    SpotsAppend(pre, one);
    LastCarriedAppend(Spots(pre) + Spots(one), Spots(post), key);
    LastCarriedAppend(Spots(pre), Spots(one), key);
    OneMessageLearned(us, keep, key);
  }

  // ----- What the echo becomes -----

  /** A table of names that reads like the conversation does after `pre`. */
  lemma NamesBefore(messages: seq<InMessage>, pre: seq<InMessage>) returns (names: Table)
    ensures NamesInUse(names, Spots(messages), Spots(pre))
  {
    var all := Learn(Known(map[], map[]), messages).names;
    var early := Learn(Known(map[], map[]), pre).names;
    LearnsConversation(map[], messages);
    LearnsConversation(map[], pre);
    var ids := all.Keys + early.Keys;
    names := map id | id in ids :: NameAt(Spots(messages), Spots(pre), id);
    forall id ensures Lookup(names, id) == NameAt(Spots(messages), Spots(pre), id) {
      assert Lookup(all, id) == LastName(Spots(messages), id);
      assert Lookup(early, id) == LastName(Spots(pre), id);
    }
  }

  /** What the echo's blocks become, wherever it stands. */
  function EchoBecomes(us: seq<Unit>, keep: nat -> bool, pre: seq<InMessage>, post: seq<InMessage>, server: Table)
    : seq<OutPart>
  {
    WholeMessage(Spots(Conversation(us, keep, pre, post)), server, Spots(pre), EchoMessage(us, keep))
  }

  /** The table the second pass uses reads like `Resolve`. */
  ghost predicate ReadsAsResolved(table: Table, us: seq<Unit>, pre: seq<InMessage>, post: seq<InMessage>,
                                  server: Table)
  {
    forall key :: Lookup(table, key) == Resolve(us, pre, post, server, key)
  }

  lemma EchoReturned(us: seq<Unit>, keep: nat -> bool, pre: seq<InMessage>, post: seq<InMessage>, server: Table)
    returns (table: Table)
    requires AllWhole(us)
    ensures ReadsAsResolved(table, us, pre, post, server)
    ensures EchoBecomes(us, keep, pre, post, server) == ReturnedAll(us, keep, table)
  {
    var messages := Conversation(us, keep, pre, post);
    table := Learn(Known(map[], server), messages).signatures;
    LearnsConversation(server, messages);
    var names := NamesBefore(messages, pre);
    ReturnsUnits(names, table, us, keep);
    ConvertsWholeBlocks(names, table, server, Spots(messages), Spots(pre), true, Echo(Blocks(us), keep));
    forall key ensures Lookup(table, key) == Resolve(us, pre, post, server, key) {
      ResolvesSo(us, keep, pre, post, server, key);
    }
  }

  // ----- The condition -----

  /**
   * The conversation resolves the keys of unit `u` as it should: a text's to its signature, or to none if no server is
   * to supply it; a signed call's tool key to its signature; and neither the tool key nor the raw id of an unsigned
   * call to anything.
   */
  predicate UnitResolves(u: Unit, stored: bool, us: seq<Unit>, pre: seq<InMessage>, post: seq<InMessage>,
                         server: Table)
  {
    match u
    case Saying(text, signature) =>
      Resolve(us, pre, post, server, TextKey(text)) == if stored then signature else []
    case Calling(id, _, _, signature) =>
      && Resolve(us, pre, post, server, ToolKey(id)) == signature
      && (signature == [] ==> Resolve(us, pre, post, server, id) == [])
  }

  ghost predicate AllResolve(us: seq<Unit>, stored: bool, pre: seq<InMessage>, post: seq<InMessage>, server: Table) {
    forall i :: 0 <= i < |us| ==> UnitResolves(us[i], stored, us, pre, post, server)
  }

  lemma ResolvedReturns(u: Unit, kept: bool, stored: bool, table: Table, us: seq<Unit>, pre: seq<InMessage>,
                        post: seq<InMessage>, server: Table)
    requires WholeUnit(u) && ReadsAsResolved(table, us, pre, post, server)
    requires UnitResolves(u, stored, us, pre, post, server)
    ensures UnitReturns(u, kept, table, stored)
  {
    var key := if u.Saying? then u.text else u.id;
    assert Lookup(table, UnitKey(u)) == Resolve(us, pre, post, server, UnitKey(u));
    assert Lookup(table, key) == Resolve(us, pre, post, server, key);
  }

  /** A signed call's own carrier is among those of the echo. */
  lemma SignedIsCarried(us: seq<Unit>, i: nat)
    requires i < |us| && us[i].Calling? && us[i].signature != []
    ensures Lookup(Overlay(us, map[]), ToolKey(us[i].id)) != []
  {
    TableFacts(us, false, ToolKey(us[i].id));
  }

  lemma ReturningNeeds(us: seq<Unit>, i: nat, stored: bool, table: Table, pre: seq<InMessage>, post: seq<InMessage>,
                       server: Table)
    requires i < |us| && WholeUnit(us[i]) && ReadsAsResolved(table, us, pre, post, server)
    requires UnitReturns(us[i], false, table, stored)
    ensures UnitResolves(us[i], stored, us, pre, post, server)
  {
    var u := us[i];
    var key := if u.Saying? then u.text else u.id;
    assert Lookup(table, UnitKey(u)) == Resolve(us, pre, post, server, UnitKey(u));
    assert Lookup(table, key) == Resolve(us, pre, post, server, key);
    if u.Calling? && u.signature != [] {
      SignedIsCarried(us, i);
    }
  }

  const DROP_ALL: nat -> bool := i => false

  lemma ResolvedComesBack(us: seq<Unit>, keep: nat -> bool, stored: bool, pre: seq<InMessage>, post: seq<InMessage>,
                          server: Table)
    requires AllWhole(us) && AllResolve(us, stored, pre, post, server)
    ensures EchoBecomes(us, keep, pre, post, server) == RestoredAll(us, keep, stored)
  {
    var table := EchoReturned(us, keep, pre, post, server);
    forall i | 0 <= i < |us|
      ensures UnitReturns(us[i], true, table, stored) && UnitReturns(us[i], false, table, stored)
    {
      ResolvedReturns(us[i], true, stored, table, us, pre, post, server);
      ResolvedReturns(us[i], false, stored, table, us, pre, post, server);
    }
    AllReturn(us, keep, table, stored);
  }

  lemma ComingBackNeeds(us: seq<Unit>, stored: bool, pre: seq<InMessage>, post: seq<InMessage>, server: Table)
    requires AllWhole(us) && EchoBecomes(us, DROP_ALL, pre, post, server) == RestoredAll(us, DROP_ALL, stored)
    ensures AllResolve(us, stored, pre, post, server)
  {
    var table := EchoReturned(us, DROP_ALL, pre, post, server);
    forall i | 0 <= i < |us| ensures UnitResolves(us[i], stored, us, pre, post, server) {
      EachReturned(us, DROP_ALL, table, stored, i);
      ReturningNeeds(us, i, stored, table, pre, post, server);
    }
  }

  // ----- Turns -----

  /** What the messages after the first ones become. */
  function WholeFrom(all: seq<Spot>, server: Table, first: seq<InMessage>, later: seq<InMessage>, roles: set<bool>)
    : seq<OutPart>
  {
    if later == [] then []
    else
      var init, m := later[..|later| - 1], later[|later| - 1];
      WholeFrom(all, server, first, init, roles) +
      if m.InMessage? && (m.role == User) in roles then WholeMessage(all, server, Spots(first + init), m) else []
  }

  lemma {:induction false} WholeAllAppend(all: seq<Spot>, server: Table, a: seq<InMessage>, b: seq<InMessage>,
                                          roles: set<bool>)
    ensures WholeAll(all, server, a + b, roles) == WholeAll(all, server, a, roles) + WholeFrom(all, server, a, b, roles)
  {
    if b == [] {
      NothingAfter(a);
      NothingAfter(WholeAll(all, server, a, roles));
    } else {
      var init, m := b[..|b| - 1], b[|b| - 1];
      InitLast(b);
      PlusAssoc(a, init, [m]);
      SnocInit(a + init, m);
      WholeAllAppend(all, server, a, init, roles);
      PlusAssoc(WholeAll(all, server, a, roles), WholeFrom(all, server, a, init, roles),
                if m.InMessage? && (m.role == User) in roles then WholeMessage(all, server, Spots(a + init), m)
                else []);
    }
  }

  /** The model turns hold what the earlier messages become, then `parts`, then what the later messages become. */
  ghost predicate HoldsInPlace(us: seq<Unit>, keep: nat -> bool, pre: seq<InMessage>, post: seq<InMessage>,
                               server: Table, parts: seq<OutPart>)
    requires Build(Conversation(us, keep, pre, post), server).Ok?
  {
    var all, m := Spots(Conversation(us, keep, pre, post)), EchoMessage(us, keep);
    PartsOf(Build(Conversation(us, keep, pre, post), server).value, {false}) ==
    WholeAll(all, server, pre, {false}) + parts + WholeFrom(all, server, pre + [m], post, {false})
  }

  lemma EchoInPlace(us: seq<Unit>, keep: nat -> bool, pre: seq<InMessage>, post: seq<InMessage>, server: Table)
    ensures var all, m := Spots(Conversation(us, keep, pre, post)), EchoMessage(us, keep);
            WholeAll(all, server, Conversation(us, keep, pre, post), {false}) ==
            WholeAll(all, server, pre, {false}) + EchoBecomes(us, keep, pre, post, server) +
            WholeFrom(all, server, pre + [m], post, {false})
  {
    var all, m := Spots(Conversation(us, keep, pre, post)), EchoMessage(us, keep);
    WholeAllAppend(all, server, pre + [m], post, {false});
    SnocInit(pre, m);
  }

  lemma HoldsWhatItBecomes(us: seq<Unit>, keep: nat -> bool, pre: seq<InMessage>, post: seq<InMessage>, server: Table,
                           parts: seq<OutPart>)
    requires Build(Conversation(us, keep, pre, post), server).Ok?
    ensures HoldsInPlace(us, keep, pre, post, server, parts) <==> parts == EchoBecomes(us, keep, pre, post, server)
  {
    var all, m := Spots(Conversation(us, keep, pre, post)), EchoMessage(us, keep);
    ModelTurnsAreWhole(Conversation(us, keep, pre, post), server);
    EchoInPlace(us, keep, pre, post, server);
    SameMiddle(WholeAll(all, server, pre, {false}), EchoBecomes(us, keep, pre, post, server), parts,
               WholeFrom(all, server, pre + [m], post, {false}));
  }

  lemma SameMiddle<T>(a: seq<T>, x: seq<T>, y: seq<T>, b: seq<T>)
    ensures a + x + b == a + y + b <==> x == y
  {
    if a + x + b == a + y + b {
      assert |x| == |y|;
      assert (a + x + b)[|a|..|a| + |x|] == x && (a + y + b)[|a|..|a| + |y|] == y;
    }
  }

  /** If the request is accepted, the echo is restored where it stands. */
  ghost predicate RestoredInPlace(us: seq<Unit>, keep: nat -> bool, stored: bool, pre: seq<InMessage>,
                                  post: seq<InMessage>, server: Table)
  {
    Build(Conversation(us, keep, pre, post), server).Ok? ==>
      HoldsInPlace(us, keep, pre, post, server, RestoredAll(us, keep, stored))
  }

  /**
   * The round trip anywhere in any conversation, with any server table and any other messages: for every way of
   * dropping signature fields the echoed content is restored in place among the parts of the model turns, merged with
   * its neighbours or not, if and only if the conversation resolves the keys of each of its units as it should.
   */
  lemma EchoRestoredAnywhereExactly(us: seq<Unit>, stored: bool, pre: seq<InMessage>, post: seq<InMessage>,
                                    server: Table)
    requires AllWhole(us) && Build(Conversation(us, DROP_ALL, pre, post), server).Ok?
    ensures (forall keep: nat -> bool :: RestoredInPlace(us, keep, stored, pre, post, server)) <==>
            AllResolve(us, stored, pre, post, server)
  {
    if AllResolve(us, stored, pre, post, server) {
      forall keep: nat -> bool ensures RestoredInPlace(us, keep, stored, pre, post, server) {
        ResolvedIsInPlace(us, keep, stored, pre, post, server);
      }
    }
    if forall keep: nat -> bool :: RestoredInPlace(us, keep, stored, pre, post, server) {
      assert RestoredInPlace(us, DROP_ALL, stored, pre, post, server);
      HoldsWhatItBecomes(us, DROP_ALL, pre, post, server, RestoredAll(us, DROP_ALL, stored));
      ComingBackNeeds(us, stored, pre, post, server);
    }
  }

  lemma ResolvedIsInPlace(us: seq<Unit>, keep: nat -> bool, stored: bool, pre: seq<InMessage>, post: seq<InMessage>,
                          server: Table)
    requires AllWhole(us) && AllResolve(us, stored, pre, post, server)
    ensures RestoredInPlace(us, keep, stored, pre, post, server)
  {
    if Build(Conversation(us, keep, pre, post), server).Ok? {
      ResolvedComesBack(us, keep, stored, pre, post, server);
      HoldsWhatItBecomes(us, keep, pre, post, server, RestoredAll(us, keep, stored));
    }
  }

  // ----- The echo on its own -----

  lemma AloneReads(us: seq<Unit>, stored: bool)
    ensures ReadsAsResolved(TableOf(us, stored), us, [], [], Server(us, stored))
  {
    TableLearned(us, stored);
    forall key ensures Lookup(TableOf(us, stored), key) == Resolve(us, [], [], Server(us, stored), key) {
      OverlayReads(us, Server(us, stored), key);
    }
  }

  /** With no other messages, and a server that holds what it remembers of the content, this is `Recoverable`. */
  lemma AloneIsRecoverable(us: seq<Unit>, stored: bool)
    requires AllWhole(us)
    ensures AllResolve(us, stored, [], [], Server(us, stored)) <==> Recoverable(us, stored)
  {
    var table, server := TableOf(us, stored), Server(us, stored);
    AloneReads(us, stored);
    if AllResolve(us, stored, [], [], server) {
      forall i | 0 <= i < |us| ensures UnitReturns(us[i], false, table, stored) {
        assert UnitResolves(us[i], stored, us, [], [], server) && WholeUnit(us[i]);
        ResolvedReturns(us[i], false, stored, table, us, [], [], server);
      }
      RestoringNeeds(us, stored);
    }
    if Recoverable(us, stored) {
      forall i | 0 <= i < |us| ensures UnitResolves(us[i], stored, us, [], [], server) {
        assert WholeUnit(us[i]);
        RecoverableReturns(us, stored, i, false);
        ReturningNeeds(us, i, stored, table, [], [], server);
      }
    }
  }
}
