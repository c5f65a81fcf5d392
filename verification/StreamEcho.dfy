/** The streamed message and its echo, on the chunks: to a server without state and to one that remembers the run. */
module StreamEcho {
  import opened Bytes
  import opened AnthropicEvents
  import opened GeminiModel
  import opened StreamSpec
  import opened StreamLegality
  import opened StreamMemos
  import opened RequestContents
  import opened RequestModel
  import opened Merging
  import opened RoundTrip
  import opened StreamRoundTrip
  import opened StreamCallIds
  import Outcome = StreamOutcome
  import opened SessionMemory

  // ----- Only the calls decide -----

  /** The same calls, whatever else there is. */
  ghost predicate SameCalls(us: seq<Unit>, calls: seq<Unit>) {
    && (forall i :: 0 <= i < |us| && us[i].Calling? ==> us[i] in calls)
    && (forall j :: 0 <= j < |calls| ==> calls[j].Calling? && calls[j] in us)
  }

  lemma CallsOfUnit(blocks: seq<Block>, u: Unit)
    ensures ClientCalls(blocks + UnitBlocks(u)) == ClientCalls(blocks) + if u.Calling? then [u] else []
  {
    var bs := UnitBlocks(u);
    if |bs| == 1 {
      ClientCallsSnoc(blocks, bs[0]);
    } else {
      OneByOne(blocks, bs[0], bs[1], bs[1]);
      ClientCallsSnoc(blocks, bs[0]);
      ClientCallsSnoc(blocks + [bs[0]], bs[1]);
      NothingAfter(ClientCalls(blocks));
    }
  }

  lemma {:induction false} CallsOfUnits(us: seq<Unit>)
    ensures SameCalls(us, ClientCalls(Blocks(us)))
  {
    if us != [] {
      var before, u := us[..|us| - 1], us[|us| - 1];
      CallsOfUnits(before);
      CallsOfUnit(Blocks(before), u);
      InitLast(us);
    }
  }

  lemma CallsOfMessage(blocks: seq<Block>)
    requires WellCarried(blocks)
    ensures SameCalls(UnitsIn(blocks), ClientCalls(blocks)) && AllWhole(UnitsIn(blocks))
  {
    UnitsMakeBlocks(blocks);
    CallsOfUnits(UnitsIn(blocks));
  }

  /** No unsigned call has for its id a key of the table. */
  ghost predicate NoEntryForId(us: seq<Unit>, table: Table) {
    forall i :: 0 <= i < |us| && Unsigned(us[i]) ==> us[i].id !in table
  }

  lemma AgreeAmongCalls(us: seq<Unit>, calls: seq<Unit>)
    requires SameCalls(us, calls) && KeysAgree(calls, false)
    ensures KeysAgree(us, false)
  {
    forall i, j | 0 <= i < |us| && 0 <= j < |us| && SameKey(us[i], us[j], false)
      ensures us[i].signature == us[j].signature
    {
      var k, l :| 0 <= k < |calls| && calls[k] == us[i] && 0 <= l < |calls| && calls[l] == us[j];
      assert SameKey(calls[k], calls[l], false);
    }
  }

  lemma CallsAgree(us: seq<Unit>, calls: seq<Unit>)
    requires SameCalls(us, calls) && KeysAgree(us, false)
    ensures KeysAgree(calls, false)
  {
    forall i, j | 0 <= i < |calls| && 0 <= j < |calls| && SameKey(calls[i], calls[j], false)
      ensures calls[i].signature == calls[j].signature
    {
      var k, l :| 0 <= k < |us| && us[k] == calls[i] && 0 <= l < |us| && us[l] == calls[j];
      assert SameKey(us[k], us[l], false);
    }
  }

  lemma NoKeyAmongCalls(us: seq<Unit>, calls: seq<Unit>)
    requires SameCalls(us, calls) && NoKeyForId(calls, false)
    ensures NoKeyForId(us, false)
  {
    forall i, j | 0 <= i < |us| && 0 <= j < |us| ensures !TakesKey(us[i], us[j], false) {
      if us[i].Calling? && us[j].Calling? {
        var k, l :| 0 <= k < |calls| && calls[k] == us[i] && 0 <= l < |calls| && calls[l] == us[j];
        assert !TakesKey(calls[k], calls[l], false);
      }
    }
  }

  lemma CallsTakeNoKey(us: seq<Unit>, calls: seq<Unit>)
    requires SameCalls(us, calls) && NoKeyForId(us, false)
    ensures NoKeyForId(calls, false)
  {
    forall i, j | 0 <= i < |calls| && 0 <= j < |calls| ensures !TakesKey(calls[i], calls[j], false) {
      var k, l :| 0 <= k < |us| && us[k] == calls[i] && 0 <= l < |us| && us[l] == calls[j];
      assert !TakesKey(us[k], us[l], false);
    }
  }

  lemma CallsDecide(us: seq<Unit>, calls: seq<Unit>, table: Table)
    requires SameCalls(us, calls)
    ensures Recoverable(us, false) <==> Recoverable(calls, false)
    ensures KeysAgree(us, false) <==> KeysAgree(calls, false)
    ensures NoEntryForId(us, table) <==> NoEntryForId(calls, table)
  {
    if KeysAgree(calls, false) {
      AgreeAmongCalls(us, calls);
    }
    if KeysAgree(us, false) {
      CallsAgree(us, calls);
    }
    if NoKeyForId(calls, false) {
      NoKeyAmongCalls(us, calls);
    }
    if NoKeyForId(us, false) {
      CallsTakeNoKey(us, calls);
    }
  }

  // ----- A server that remembers the run -----

  /** A call comes back whole; a text with its own signature if the field was kept, else with what is remembered. */
  function Supplied(u: Unit, kept: bool, memory: Table): OutPart {
    match u
    case Saying(text, signature) =>
      TextPart(text, if kept && signature != [] then signature else Lookup(memory, TextKey(text)))
    case Calling(id, name, input, signature) => CallPart(OutId(id), name, input, signature)
  }

  function SuppliedAll(us: seq<Unit>, keep: nat -> bool, memory: Table): seq<OutPart> {
    if us == [] then []
    else
      var before, u := us[..|us| - 1], us[|us| - 1];
      SuppliedAll(before, keep, memory) + [Supplied(u, keep(OwnBlock(before, u)), memory)]
  }

  ghost predicate MessageSupplied(blocks: seq<Block>, keep: nat -> bool, memory: Table)
    requires WellCarried(blocks)
  {
    Build(Request(Echo(blocks, keep)), memory) == Ok(Turns(SuppliedAll(UnitsIn(blocks), keep, memory)))
  }

  /** For tool keys the memory has the same as the message: an entry for each signed call, and no other. */
  ghost predicate RemembersCalls(us: seq<Unit>, memory: Table) {
    && (forall i :: 0 <= i < |us| && Signed(us[i], false) ==> UnitKey(us[i]) in memory)
    && (forall key :: key in memory ==> memory[key] != [])
    && (forall id :: ToolKey(id) in memory ==> CallSigned(us, id))
  }

  ghost predicate CallSigned(us: seq<Unit>, id: Str) {
    exists i :: 0 <= i < |us| && Signed(us[i], false) && us[i].id == id
  }

  ghost predicate CallReturns(u: Unit, table: Table) {
    u.Calling? ==> CallSignature(table, u.id, []) == u.signature
  }

  lemma CallReturned(us: seq<Unit>, memory: Table, i: nat)
    requires AllWhole(us) && RemembersCalls(us, memory) && i < |us|
    requires KeysAgree(us, false) && NoEntryForId(us, memory)
    ensures CallReturns(us[i], Overlay(us, memory))
  {
    if us[i].Calling? {
      assert WholeUnit(us[i]);
      var id := us[i].id;
      OwnKeyGives(us, false, i);
      OverlayReads(us, memory, ToolKey(id));
      if us[i].signature == [] {
        UnsignedHasNoEntry(us, memory, i);
        OverlayReads(us, memory, id);
        TableFacts(us, false, id);
      }
    }
  }

  lemma UnsignedHasNoEntry(us: seq<Unit>, memory: Table, i: nat)
    requires RemembersCalls(us, memory) && KeysAgree(us, false) && i < |us| && Unsigned(us[i])
    ensures ToolKey(us[i].id) !in memory
  {
  }

  lemma CallsReturnedNeed(us: seq<Unit>, memory: Table)
    requires AllWhole(us) && RemembersCalls(us, memory)
    requires forall i :: 0 <= i < |us| ==> CallReturns(us[i], Overlay(us, memory))
    ensures KeysAgree(us, false) && NoEntryForId(us, memory)
  {
    forall i, j | 0 <= i < |us| && 0 <= j < |us| && SameKey(us[i], us[j], false)
      ensures us[i].signature == us[j].signature
    {
      KeysAreDistinct(us[i].id, us[j].id);
      assert CallReturns(us[i], Overlay(us, memory)) && CallReturns(us[j], Overlay(us, memory));
    }
    forall i | 0 <= i < |us| && Unsigned(us[i]) ensures us[i].id !in memory {
      assert WholeUnit(us[i]) && CallReturns(us[i], Overlay(us, memory));
      OverlayReads(us, memory, us[i].id);
    }
  }

  lemma UnitSupplied(us: seq<Unit>, memory: Table, i: nat, kept: bool)
    requires i < |us| && WholeUnit(us[i])
    ensures CallReturns(us[i], Overlay(us, memory)) ==>
              Returned(us[i], kept, Overlay(us, memory)) == Supplied(us[i], kept, memory)
    ensures Returned(us[i], false, Overlay(us, memory)) == Supplied(us[i], false, memory) ==>
              CallReturns(us[i], Overlay(us, memory))
  {
    if us[i].Saying? {
      OverlayReads(us, memory, TextKey(us[i].text));
      TextKeyGivesNothing(us, us[i].text);
    }
  }

  predicate UnitSuppliedSo(u: Unit, kept: bool, table: Table, memory: Table) {
    Returned(u, kept, table) == Supplied(u, kept, memory)
  }

  lemma {:induction false} AllSupplied(us: seq<Unit>, keep: nat -> bool, table: Table, memory: Table)
    requires forall i :: 0 <= i < |us| ==>
               UnitSuppliedSo(us[i], true, table, memory) && UnitSuppliedSo(us[i], false, table, memory)
    ensures ReturnedAll(us, keep, table) == SuppliedAll(us, keep, memory)
  {
    if us != [] {
      var n := |us| - 1;
      assert UnitSuppliedSo(us[n], true, table, memory) && UnitSuppliedSo(us[n], false, table, memory);
      AllSupplied(us[..n], keep, table, memory);
    }
  }

  lemma {:induction false} EachSupplied(us: seq<Unit>, keep: nat -> bool, table: Table, memory: Table, i: nat)
    requires KeepsNone(keep) && ReturnedAll(us, keep, table) == SuppliedAll(us, keep, memory) && i < |us|
    ensures UnitSuppliedSo(us[i], false, table, memory)
  {
    var before, u := us[..|us| - 1], us[|us| - 1];
    LastOfTwo(ReturnedAll(before, keep, table), Returned(u, keep(OwnBlock(before, u)), table),
              SuppliedAll(before, keep, memory), Supplied(u, keep(OwnBlock(before, u)), memory));
    if i < |us| - 1 {
      EachSupplied(before, keep, table, memory, i);
    }
  }

  lemma SuppliedFor(blocks: seq<Block>, keep: nat -> bool, memory: Table)
    requires WellCarried(blocks)
    ensures var us := UnitsIn(blocks);
            MessageSupplied(blocks, keep, memory) <==>
            ReturnedAll(us, keep, Overlay(us, memory)) == SuppliedAll(us, keep, memory)
  {
    var us := UnitsIn(blocks);
    UnitsMakeBlocks(blocks);
    EchoBuildsWith(us, keep, memory);
    SameTurns(ReturnedAll(us, keep, Overlay(us, memory)), SuppliedAll(us, keep, memory));
  }

  lemma AgreeingIsSupplied(blocks: seq<Block>, keep: nat -> bool, memory: Table)
    requires WellCarried(blocks) && RemembersCalls(UnitsIn(blocks), memory)
    requires KeysAgree(UnitsIn(blocks), false) && NoEntryForId(UnitsIn(blocks), memory)
    ensures MessageSupplied(blocks, keep, memory)
  {
    var us := UnitsIn(blocks);
    UnitsMakeBlocks(blocks);
    SuppliedFor(blocks, keep, memory);
    forall i | 0 <= i < |us|
      ensures UnitSuppliedSo(us[i], true, Overlay(us, memory), memory)
      ensures UnitSuppliedSo(us[i], false, Overlay(us, memory), memory)
    {
      CallReturned(us, memory, i);
      assert WholeUnit(us[i]);
      UnitSupplied(us, memory, i, true);
      UnitSupplied(us, memory, i, false);
    }
    AllSupplied(us, keep, Overlay(us, memory), memory);
  }

  lemma SuppliedAgrees(blocks: seq<Block>, none: nat -> bool, memory: Table)
    requires WellCarried(blocks) && RemembersCalls(UnitsIn(blocks), memory)
    requires KeepsNone(none) && MessageSupplied(blocks, none, memory)
    ensures KeysAgree(UnitsIn(blocks), false) && NoEntryForId(UnitsIn(blocks), memory)
  {
    var us := UnitsIn(blocks);
    UnitsMakeBlocks(blocks);
    SuppliedFor(blocks, none, memory);
    forall i | 0 <= i < |us| ensures CallReturns(us[i], Overlay(us, memory)) {
      EachSupplied(us, none, Overlay(us, memory), memory, i);
      assert WholeUnit(us[i]);
      UnitSupplied(us, memory, i, false);
    }
    CallsReturnedNeed(us, memory);
  }

  lemma SuppliedExactly(blocks: seq<Block>, memory: Table)
    requires WellCarried(blocks) && RemembersCalls(UnitsIn(blocks), memory)
    ensures (forall keep: nat -> bool :: MessageSupplied(blocks, keep, memory)) <==>
            KeysAgree(UnitsIn(blocks), false) && NoEntryForId(UnitsIn(blocks), memory)
  {
    if KeysAgree(UnitsIn(blocks), false) && NoEntryForId(UnitsIn(blocks), memory) {
      forall keep: nat -> bool ensures MessageSupplied(blocks, keep, memory) {
        AgreeingIsSupplied(blocks, keep, memory);
      }
    }
    if forall keep: nat -> bool :: MessageSupplied(blocks, keep, memory) {
      var none: nat -> bool := i => false;
      assert MessageSupplied(blocks, none, memory);
      SuppliedAgrees(blocks, none, memory);
    }
  }

  // ----- What the run remembers -----

  lemma {:induction false} SignedBlocksAreUnits(us: seq<Unit>, id: Str, name: Str, input: Str, signature: Str)
    requires Tool(id, name, input, signature) in Blocks(us)
    ensures Calling(id, name, input, signature) in us
  {
    var before, u := us[..|us| - 1], us[|us| - 1];
    InitLast(us);
    if Tool(id, name, input, signature) in UnitBlocks(u) {
      assert u == Calling(id, name, input, signature);
    } else {
      SignedBlocksAreUnits(before, id, name, input, signature);
    }
  }

  lemma {:induction false} UnitsAreBlocks(us: seq<Unit>, i: nat)
    requires i < |us| && us[i].Calling?
    ensures Tool(us[i].id, us[i].name, us[i].input, us[i].signature) in Blocks(us)
  {
    var n := |us| - 1;
    if i < n {
      UnitsAreBlocks(us[..n], i);
    } else {
      var bs := UnitBlocks(us[n]);
      assert bs[|bs| - 1] in bs;
    }
  }

  lemma KeyedRemembersCalls(blocks: seq<Block>, memos: seq<Memo>)
    requires WellCarried(blocks) && Keyed(blocks, memos)
    ensures RemembersCalls(UnitsIn(blocks), Latest(memos))
  {
    var us := UnitsIn(blocks);
    UnitsMakeBlocks(blocks);
    forall i | 0 <= i < |us| && Signed(us[i], false) ensures UnitKey(us[i]) in Latest(memos) {
      UnitsAreBlocks(us, i);
      SignedCallIsRemembered(blocks, memos, Tool(us[i].id, us[i].name, us[i].input, us[i].signature));
    }
    forall key | key in Latest(memos) ensures Latest(memos)[key] != [] {
      KeyedIsSigned(blocks, memos);
      LatestIsRemembered(memos, key);
    }
    forall id | ToolKey(id) in Latest(memos) ensures CallSigned(us, id) {
      LatestIsRemembered(memos, ToolKey(id));
      var b := RememberedCallIsThere(blocks, memos, id);
      SignedBlocksAreUnits(us, id, b.name, b.input, b.signature);
    }
  }

  lemma SignedCallIsRemembered(blocks: seq<Block>, memos: seq<Memo>, b: Block)
    requires Keyed(blocks, memos) && b in blocks && b.Tool? && b.signature != []
    ensures ToolKey(b.id) in Latest(memos)
  {
    var i :| 0 <= i < |blocks| && blocks[i] == b;
    assert SignedBlock(blocks[i]);
    var k :| 0 <= k < |memos| && Names(memos[k], blocks[i]);
    RememberedIsLatest(memos, k);
  }

  lemma RememberedCallIsThere(blocks: seq<Block>, memos: seq<Memo>, id: Str) returns (b: Block)
    requires Keyed(blocks, memos) && ToolKey(id) in Latest(memos)
    ensures b in blocks && b.Tool? && b.id == id && b.signature != []
  {
    LatestIsRemembered(memos, ToolKey(id));
    var k :| 0 <= k < |memos| && memos[k] == Memo(ToolKey(id), Latest(memos)[ToolKey(id)]);
    assert NamesOne(memos[k], blocks);
    var i :| 0 <= i < |blocks| && Names(memos[k], blocks[i]);
    b := blocks[i];
    KeysAreDistinct(id, if b.Text? then b.text else if b.Tool? then b.id else []);
  }

  // ----- The theorems -----

  /**
   * A server that holds what the run has remembered supplies every text with the run's last signature for it, whatever
   * the client drops, and every call with its own, if and only if calls with one id agree and no unsigned call has for
   * its id a key that the run has remembered something under.
   */
  lemma RememberedEchoExactly(cfg: Config, ids: nat, chunks: seq<Chunk>)
    requires RunStream(cfg, ids, chunks, false).failure.None?
    ensures var c := RunStream(cfg, ids, chunks, false).conv;
            var blocks, memory := Replay(c.trace).blocks, Latest(c.remembered);
            && WellCarried(blocks)
            && ((forall keep: nat -> bool :: MessageSupplied(blocks, keep, memory)) <==>
                KeysAgree(UnitsIn(blocks), false) && NoEntryForId(UnitsIn(blocks), memory))
  {
    var c := RunStream(cfg, ids, chunks, false).conv;
    StreamIsWellCarried(cfg, ids, chunks);
    SignaturesAreKeyedByClientBlocks(cfg, ids, chunks);
    KeyedEchoExactly(Replay(c.trace).blocks, c.remembered);
  }

  lemma KeyedEchoExactly(blocks: seq<Block>, memos: seq<Memo>)
    requires WellCarried(blocks) && Keyed(blocks, memos)
    ensures (forall keep: nat -> bool :: MessageSupplied(blocks, keep, Latest(memos))) <==>
            KeysAgree(UnitsIn(blocks), false) && NoEntryForId(UnitsIn(blocks), Latest(memos))
  {
    KeyedRemembersCalls(blocks, memos);
    SuppliedExactly(blocks, Latest(memos));
  }

  /**
   * Both conditions read off the chunks: the echo of a plain stream comes back, from a server without state or from one
   * that remembers the run, if and only if the calls of the plan that are shown allow it with the ids the client knows
   * them by.
   */
  lemma PlainEchoExactly(cfg: Config, ids: nat, chunks: seq<Chunk>, k: nat)
    requires Plain(chunks) && k <= |chunks| && Outcome.StartsAt(cfg, ids, chunks, k)
    ensures RunStream(cfg, ids, chunks, false).failure.None?
    ensures var c := RunStream(cfg, ids, chunks, false).conv;
            var blocks, memory := Replay(c.trace).blocks, Latest(c.remembered);
            var calls := CallsFrom(CallsShown(cfg.stops, Plan(chunks)), FirstNumber(ids, chunks, k));
            && WellCarried(blocks)
            && ((forall keep: nat -> bool :: MessageRestored(blocks, keep)) <==> Recoverable(calls, false))
            && ((forall keep: nat -> bool :: MessageSupplied(blocks, keep, memory)) <==>
                KeysAgree(calls, false) && NoEntryForId(calls, memory))
  {
    ClientCallsAreThePlans(cfg, ids, chunks, k);
    var c := RunStream(cfg, ids, chunks, false).conv;
    var blocks := Replay(c.trace).blocks;
    StreamRoundTripExactly(cfg, ids, chunks);
    RememberedEchoExactly(cfg, ids, chunks);
    CallsOfMessage(blocks);
    CallsDecide(UnitsIn(blocks), ClientCalls(blocks), Latest(c.remembered));
  }
}
