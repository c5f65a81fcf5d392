/** Content a client holds, sent back in a later request: what survives when the client drops signature fields. */
module RoundTrip {
  import opened Bytes
  import opened AnthropicEvents
  import opened GeminiModel
  import opened RequestModel
  import opened RequestContents
  import opened RequestTheorems

  /** A text block; or a tool_use block with the carrier before it, which a signed one always has. */
  datatype Unit = Saying(text: Str, signature: Str) | Calling(id: Str, name: Str, input: Str, signature: Str)

  function UnitBlocks(u: Unit): seq<Block> {
    match u
    case Saying(text, signature) => [Text(text, signature)]
    case Calling(id, name, input, signature) =>
      if signature == [] then [Tool(id, name, input, signature)]
      else [Carrier(ToolKey(id), signature), Tool(id, name, input, signature)]
  }

  function Blocks(us: seq<Unit>): seq<Block> {
    if us == [] then [] else Blocks(us[..|us| - 1]) + UnitBlocks(us[|us| - 1])
  }

  /** Texts are not empty; calls have an id and a name. */
  predicate WholeUnit(u: Unit) {
    if u.Saying? then u.text != [] else u.id != [] && u.name != []
  }

  predicate AllWhole(us: seq<Unit>) {
    forall i :: 0 <= i < |us| ==> WholeUnit(us[i])
  }

  // ----- The echo -----

  /**
   * What the client sends back for a block. A text or tool_use block may have lost its thought_signature; a carrier is
   * an opaque redacted_thinking block and comes back as it is.
   */
  function EchoBlock(b: Block, keep: bool): InBlock {
    match b
    case Text(text, signature) => InBlock.InText(text, if keep then signature else [])
    case Carrier(key, signature) => Redacted(Some(Carried(key, signature)))
    case Tool(id, name, input, signature) => InToolUse(id, name, ObjectInput(input), if keep then signature else [])
  }

  /** The content echoed, with `keep` deciding for each block whether its signature field survives. */
  function Echo(blocks: seq<Block>, keep: nat -> bool): seq<InBlock> {
    seq(|blocks|, i requires 0 <= i < |blocks| => EchoBlock(blocks[i], keep(i)))
  }

  /** The position of the text or tool_use block of a unit that comes after `before`. */
  function OwnBlock(before: seq<Unit>, u: Unit): nat {
    |Blocks(before)| + |UnitBlocks(u)| - 1
  }

  function Request(blocks: seq<InBlock>): seq<InMessage> {
    [InMessage(Assistant, BlockContent(blocks))]
  }

  function Turns(parts: seq<OutPart>): seq<Turn> {
    if parts == [] then [] else [Turn(false, parts)]
  }

  // ----- What should come back -----

  function UnitKey(u: Unit): Str {
    if u.Saying? then TextKey(u.text) else ToolKey(u.id)
  }

  /** What the server remembers of the content: each key's last signature; `texts` says whether it keeps texts' too. */
  function TableOf(us: seq<Unit>, texts: bool): Table {
    LastSignatures(map[], Blocks(us), texts)
  }

  lemma UnitSignatures(start: Table, us: seq<Unit>, texts: bool)
    requires us != []
    ensures LastSignatures(start, Blocks(us), texts) ==
            var u, before := us[|us| - 1], LastSignatures(start, Blocks(us[..|us| - 1]), texts);
            if u.signature != [] && Counts(u, texts) then before[UnitKey(u) := u.signature] else before
  {
    var u, before := us[|us| - 1], Blocks(us[..|us| - 1]);
    if |UnitBlocks(u)| == 1 {
      LastSignaturesSnoc(start, before, UnitBlocks(u)[0], texts);
    } else {
      OneByOne(before, UnitBlocks(u)[0], UnitBlocks(u)[1], UnitBlocks(u)[1]);
      LastSignaturesSnoc(start, before, UnitBlocks(u)[0], texts);
      LastSignaturesSnoc(start, before + [UnitBlocks(u)[0]], UnitBlocks(u)[1], texts);
    }
  }

  predicate Counts(u: Unit, texts: bool) {
    texts || u.Calling?
  }

  /** The server's table at the time of the echo: all it remembers, or nothing. */
  function Server(us: seq<Unit>, stored: bool): Table {
    if stored then TableOf(us, true) else map[]
  }

  /** A call comes back whole; a text has its signature if the field was kept or the server has stored it. */
  function Restored(u: Unit, kept: bool, stored: bool): OutPart {
    match u
    case Saying(text, signature) => TextPart(text, if kept || stored then signature else [])
    case Calling(id, name, input, signature) => CallPart(OutId(id), name, input, signature)
  }

  function RestoredAll(us: seq<Unit>, keep: nat -> bool, stored: bool): seq<OutPart> {
    if us == [] then []
    else
      var before, u := us[..|us| - 1], us[|us| - 1];
      RestoredAll(before, keep, stored) + [Restored(u, keep(OwnBlock(before, u)), stored)]
  }

  ghost predicate Restores(us: seq<Unit>, keep: nat -> bool, stored: bool) {
    Build(Request(Echo(Blocks(us), keep)), Server(us, stored)) == Ok(Turns(RestoredAll(us, keep, stored)))
  }

  /** What is stored under one key is the same signature, or none, for all that have the key. */
  ghost predicate KeysAgree(us: seq<Unit>, texts: bool) {
    forall i, j :: 0 <= i < |us| && 0 <= j < |us| && SameKey(us[i], us[j], texts) ==> us[i].signature == us[j].signature
  }

  predicate SameKey(u: Unit, v: Unit, texts: bool) {
    Counts(u, texts) && Counts(v, texts) && UnitKey(u) == UnitKey(v)
  }

  /** No unsigned call has for its id a key that something signed is stored under. */
  ghost predicate NoKeyForId(us: seq<Unit>, texts: bool) {
    forall i, j :: 0 <= i < |us| && 0 <= j < |us| ==> !TakesKey(us[i], us[j], texts)
  }

  predicate TakesKey(u: Unit, v: Unit, texts: bool) {
    Unsigned(u) && Signed(v, texts) && u.id == UnitKey(v)
  }

  predicate Unsigned(u: Unit) {
    u.Calling? && u.signature == []
  }

  predicate Signed(u: Unit, texts: bool) {
    u.signature != [] && Counts(u, texts)
  }

  ghost predicate Recoverable(us: seq<Unit>, texts: bool) {
    KeysAgree(us, texts) && NoKeyForId(us, texts)
  }

  // ----- First pass -----

  /** The server's table with the carriers of the echo over it. */
  function Overlay(us: seq<Unit>, server: Table): Table {
    LastSignatures(server, Blocks(us), false)
  }

  function EchoedUnit(u: Unit, kept: bool): seq<InBlock> {
    match u
    case Saying(text, signature) => [InBlock.InText(text, if kept then signature else [])]
    case Calling(id, name, input, signature) =>
      var tool := InToolUse(id, name, ObjectInput(input), if kept then signature else []);
      if signature == [] then [tool] else [Redacted(Some(Carried(ToolKey(id), signature))), tool]
  }

  /** The echo of one unit's blocks, `any` deciding for a carrier, which does not matter. */
  function EchoBlocks(blocks: seq<Block>, any: bool, kept: bool): seq<InBlock>
    requires 1 <= |blocks| <= 2
  {
    if |blocks| == 1 then [EchoBlock(blocks[0], kept)] else [EchoBlock(blocks[0], any), EchoBlock(blocks[1], kept)]
  }

  lemma EchoedBlocks(u: Unit, any: bool, kept: bool)
    ensures |UnitBlocks(u)| <= 2 && EchoBlocks(UnitBlocks(u), any, kept) == EchoedUnit(u, kept)
  {
  }

  lemma EchoOneOrTwo(before: seq<Block>, blocks: seq<Block>, keep: nat -> bool, own: nat)
    requires 1 <= |blocks| <= 2 && own == |before| + |blocks| - 1
    ensures Echo(before + blocks, keep) == Echo(before, keep) + EchoBlocks(blocks, keep(|before|), keep(own))
  {
  }

  lemma EchoUnit(before: seq<Block>, u: Unit, keep: nat -> bool, own: nat)
    requires own == |before| + |UnitBlocks(u)| - 1
    ensures Echo(before + UnitBlocks(u), keep) == Echo(before, keep) + EchoedUnit(u, keep(own))
  {
    EchoedBlocks(u, keep(|before|), keep(own));
    EchoOneOrTwo(before, UnitBlocks(u), keep, own);
  }

  lemma BlocksMore(us: seq<Unit>)
    requires us != []
    ensures Blocks(us) == Blocks(us[..|us| - 1]) + UnitBlocks(us[|us| - 1])
  {
  }

  lemma EchoMore(us: seq<Unit>, keep: nat -> bool)
    requires us != []
    ensures var before, u := us[..|us| - 1], us[|us| - 1];
            Echo(Blocks(us), keep) == Echo(Blocks(before), keep) + EchoedUnit(u, keep(OwnBlock(before, u)))
  {
    var before, u := us[..|us| - 1], us[|us| - 1];
    BlocksMore(us);
    EchoUnit(Blocks(before), u, keep, OwnBlock(before, u));
  }

  lemma LearnSnoc(k: Known, blocks: seq<InBlock>, b: InBlock)
    ensures LearnBlocks(k, blocks + [b]) == LearnBlock(LearnBlocks(k, blocks), b)
  {
    SnocInit(blocks, b);
  }

  lemma LearnUnit(k: Known, before: seq<InBlock>, u: Unit, kept: bool)
    ensures LearnBlocks(k, before + EchoedUnit(u, kept)).signatures ==
            var s := LearnBlocks(k, before).signatures;
            if u.signature != [] && u.Calling? then s[ToolKey(u.id) := u.signature] else s
  {
    var e := EchoedUnit(u, kept);
    if |e| == 1 {
      LearnSnoc(k, before, e[0]);
    } else {
      OneByOne(before, e[0], e[1], e[1]);
      LearnSnoc(k, before, e[0]);
      LearnSnoc(k, before + [e[0]], e[1]);
    }
  }

  lemma {:induction false} LearnsUnits(us: seq<Unit>, keep: nat -> bool, server: Table)
    ensures LearnBlocks(Known(map[], server), Echo(Blocks(us), keep)).signatures == Overlay(us, server)
  {
    if us != [] {
      var before, u := us[..|us| - 1], us[|us| - 1];
      LearnsUnits(before, keep, server);
      EchoMore(us, keep);
      UnitSignatures(server, us, false);
      LearnUnit(Known(map[], server), Echo(Blocks(before), keep), u, keep(OwnBlock(before, u)));
    }
  }

  /** The carriers decide for their keys, the server's table for all others. */
  lemma {:induction false} OverlayDecides(us: seq<Unit>, server: Table, key: Str)
    ensures var carriers, both := Overlay(us, map[]), Overlay(us, server);
            && (key in carriers ==> key in both && both[key] == carriers[key])
            && (key !in carriers ==> (key in both <==> key in server) && (key in both ==> both[key] == server[key]))
  {
    if us != [] {
      UnitSignatures(map[], us, false);
      UnitSignatures(server, us, false);
      OverlayDecides(us[..|us| - 1], server, key);
    }
  }

  /** The same for what the tables give. */
  lemma {:induction false} OverlayReads(us: seq<Unit>, server: Table, key: Str)
    ensures Lookup(Overlay(us, server), key) ==
            if Lookup(TableOf(us, false), key) != [] then Lookup(TableOf(us, false), key) else Lookup(server, key)
  {
    if us != [] {
      UnitSignatures(map[], us, false);
      UnitSignatures(server, us, false);
      OverlayReads(us[..|us| - 1], server, key);
    }
  }

  /** For tool keys it does not matter whether texts are stored too. */
  lemma {:induction false} CarriersAreStored(us: seq<Unit>, key: Str)
    ensures key in Overlay(us, map[]) ==>
              && (exists id :: key == ToolKey(id))
              && key in TableOf(us, true) && TableOf(us, true)[key] == Overlay(us, map[])[key]
  {
    if us != [] {
      var u, before := us[|us| - 1], us[..|us| - 1];
      UnitSignatures(map[], us, false);
      UnitSignatures(map[], us, true);
      CarriersAreStored(before, key);
      if key in Overlay(before, map[]) && u.Saying? {
        var id :| key == ToolKey(id);
        KeysAreDistinct(id, u.text);
      }
    }
  }

  /** After the first pass the table is what the server remembers, or what the carriers alone bring. */
  lemma TableLearned(us: seq<Unit>, stored: bool)
    ensures Overlay(us, Server(us, stored)) == TableOf(us, stored)
  {
    if stored {
      var all, both := TableOf(us, true), Overlay(us, TableOf(us, true));
      forall key ensures (key in both <==> key in all) && (key in both ==> both[key] == all[key]) {
        OverlayDecides(us, all, key);
        CarriersAreStored(us, key);
      }
    }
  }

  // ----- Second pass -----

  /** The part a request holds for an echoed unit. */
  function Returned(u: Unit, kept: bool, table: Table): OutPart {
    match u
    case Saying(text, signature) => TextPart(text, TextSignature(table, text, if kept then signature else []))
    case Calling(id, name, input, signature) =>
      CallPart(OutId(id), name, input, CallSignature(table, id, if kept then signature else []))
  }

  function ReturnedAll(us: seq<Unit>, keep: nat -> bool, table: Table): seq<OutPart> {
    if us == [] then []
    else
      var before, u := us[..|us| - 1], us[|us| - 1];
      ReturnedAll(before, keep, table) + [Returned(u, keep(OwnBlock(before, u)), table)]
  }

  lemma ConvertSnoc(names: Table, table: Table, blocks: seq<InBlock>, b: InBlock)
    ensures ConvertBlocks(names, true, table, blocks + [b]) ==
            ConvertBlock(ConvertBlocks(names, true, table, blocks), true, table, b)
  {
    SnocInit(blocks, b);
  }

  lemma ReturnBlock(c: Conversion, table: Table, u: Unit, kept: bool)
    requires WholeUnit(u) && c.error.None?
    ensures var e := EchoedUnit(u, kept);
            var d := ConvertBlock(c, true, table, e[|e| - 1]);
            d.error.None? && d.parts == c.parts + [Returned(u, kept, table)]
  {
  }

  lemma ReturnUnit(names: Table, table: Table, before: seq<InBlock>, u: Unit, kept: bool)
    requires WholeUnit(u) && ConvertBlocks(names, true, table, before).error.None?
    ensures var c := ConvertBlocks(names, true, table, before + EchoedUnit(u, kept));
            c.error.None? && c.parts == ConvertBlocks(names, true, table, before).parts + [Returned(u, kept, table)]
  {
    var e := EchoedUnit(u, kept);
    var c := ConvertBlocks(names, true, table, before);
    ReturnBlock(c, table, u, kept);
    if |e| == 1 {
      ConvertSnoc(names, table, before, e[0]);
    } else {
      OneByOne(before, e[0], e[1], e[1]);
      ConvertSnoc(names, table, before, e[0]);
      ConvertSnoc(names, table, before + [e[0]], e[1]);
    }
  }

  lemma {:induction false} ReturnsUnits(names: Table, table: Table, us: seq<Unit>, keep: nat -> bool)
    requires AllWhole(us)
    ensures var c := ConvertBlocks(names, true, table, Echo(Blocks(us), keep));
            c.error.None? && c.parts == ReturnedAll(us, keep, table)
  {
    if us != [] {
      var before, u := us[..|us| - 1], us[|us| - 1];
      ReturnsUnits(names, table, before, keep);
      EchoMore(us, keep);
      ReturnUnit(names, table, Echo(Blocks(before), keep), u, keep(OwnBlock(before, u)));
    }
  }

  /** A request of one assistant message is built from what both passes make of its blocks. */
  lemma BuildsOne(blocks: seq<InBlock>, table: Table)
    ensures var known := LearnBlocks(Known(map[], table), blocks);
            var c := ConvertBlocks(known.names, true, known.signatures, blocks);
            c.error.None? ==> Build(Request(blocks), table) == Ok(Turns(c.parts))
  {
    var m := InMessage(Assistant, BlockContent(blocks));
    assert Request(blocks)[..0] == [];
    var k := Known(map[], table);
    assert Learn(k, Request(blocks)) == LearnMessage(k, m);
    var known := LearnBlocks(k, blocks);
    OneMessage(Building([], known.names, None), known.signatures, m);
    var c := ConvertBlocks(known.names, true, known.signatures, blocks);
    NothingBefore([Turn(false, c.parts)]);
  }

  /** The request an echo becomes, whatever the server remembers. */
  lemma EchoBuildsWith(us: seq<Unit>, keep: nat -> bool, server: Table)
    requires AllWhole(us)
    ensures Build(Request(Echo(Blocks(us), keep)), server) == Ok(Turns(ReturnedAll(us, keep, Overlay(us, server))))
  {
    var blocks := Echo(Blocks(us), keep);
    LearnsUnits(us, keep, server);
    ReturnsUnits(LearnBlocks(Known(map[], server), blocks).names, Overlay(us, server), us, keep);
    BuildsOne(blocks, server);
  }

  lemma EchoBuilds(us: seq<Unit>, keep: nat -> bool, stored: bool)
    requires AllWhole(us)
    ensures Build(Request(Echo(Blocks(us), keep)), Server(us, stored)) ==
            Ok(Turns(ReturnedAll(us, keep, TableOf(us, stored))))
  {
    EchoBuildsWith(us, keep, Server(us, stored));
    TableLearned(us, stored);
  }

  lemma SameTurns(a: seq<OutPart>, b: seq<OutPart>)
    ensures Turns(a) == Turns(b) <==> a == b
  {
    assert a != [] ==> Turns(a)[0].parts == a;
    assert b != [] ==> Turns(b)[0].parts == b;
  }

  predicate UnitReturns(u: Unit, kept: bool, table: Table, stored: bool) {
    Returned(u, kept, table) == Restored(u, kept, stored)
  }

  lemma {:induction false} AllReturn(us: seq<Unit>, keep: nat -> bool, table: Table, stored: bool)
    requires forall i :: 0 <= i < |us| ==>
               UnitReturns(us[i], true, table, stored) && UnitReturns(us[i], false, table, stored)
    ensures ReturnedAll(us, keep, table) == RestoredAll(us, keep, stored)
  {
    if us != [] {
      var n := |us| - 1;
      assert UnitReturns(us[n], true, table, stored) && UnitReturns(us[n], false, table, stored);
      AllReturn(us[..n], keep, table, stored);
    }
  }

  ghost predicate KeepsNone(keep: nat -> bool) {
    forall i :: !keep(i)
  }

  lemma {:induction false} EachReturned(us: seq<Unit>, keep: nat -> bool, table: Table, stored: bool, i: nat)
    requires KeepsNone(keep) && ReturnedAll(us, keep, table) == RestoredAll(us, keep, stored) && i < |us|
    ensures UnitReturns(us[i], false, table, stored)
  {
    var before, u := us[..|us| - 1], us[|us| - 1];
    LastOfTwo(ReturnedAll(before, keep, table), Returned(u, keep(OwnBlock(before, u)), table),
              RestoredAll(before, keep, stored), Restored(u, keep(OwnBlock(before, u)), stored));
    if i < |us| - 1 {
      EachReturned(before, keep, table, stored, i);
    }
  }

  lemma LastOfTwo<T>(a: seq<T>, x: T, b: seq<T>, y: T)
    requires a + [x] == b + [y]
    ensures a == b && x == y
  {
    assert |a| == |b|;
    assert (a + [x])[|a|] == x && (b + [y])[|b|] == y;
    assert (a + [x])[..|a|] == a && (b + [y])[..|b|] == b;
  }

  // ----- What the table holds -----

  /** Unit `j` is signed, counts, has this key, and the table has its signature there. */
  ghost predicate SignedAs(us: seq<Unit>, texts: bool, j: nat, key: Str)
    requires j < |us|
  {
    Signed(us[j], texts) && UnitKey(us[j]) == key && Lookup(TableOf(us, texts), key) == us[j].signature
  }

  ghost predicate KeyOfSigned(us: seq<Unit>, texts: bool, key: Str) {
    exists j :: 0 <= j < |us| && SignedAs(us, texts, j, key)
  }

  lemma TableMore(us: seq<Unit>, texts: bool, key: Str)
    requires us != []
    ensures var u := us[|us| - 1];
            Lookup(TableOf(us, texts), key) ==
            if Signed(u, texts) && UnitKey(u) == key then u.signature else Lookup(TableOf(us[..|us| - 1], texts), key)
  {
    UnitSignatures(map[], us, texts);
  }

  /** What is found under a key is the signature of something signed that has it. */
  lemma {:induction false} FoundIsSigned(us: seq<Unit>, texts: bool, key: Str)
    ensures Lookup(TableOf(us, texts), key) != [] ==> KeyOfSigned(us, texts, key)
  {
    if us != [] {
      var n := |us| - 1;
      TableMore(us, texts, key);
      FoundIsSigned(us[..n], texts, key);
      if Signed(us[n], texts) && UnitKey(us[n]) == key {
        assert SignedAs(us, texts, n, key);
      } else if Lookup(TableOf(us, texts), key) != [] {
        var j :| 0 <= j < n && SignedAs(us[..n], texts, j, key);
        assert SignedAs(us, texts, j, key);
      }
    }
  }

  lemma {:induction false} SignedIsFound(us: seq<Unit>, texts: bool, j: nat, key: Str)
    requires j < |us| && Signed(us[j], texts) && UnitKey(us[j]) == key
    ensures Lookup(TableOf(us, texts), key) != []
  {
    var before, u := us[..|us| - 1], us[|us| - 1];
    TableMore(us, texts, key);
    if !(Signed(u, texts) && UnitKey(u) == key) {
      SignedIsFound(before, texts, j, key);
    }
  }

  lemma TableFacts(us: seq<Unit>, texts: bool, key: Str)
    ensures Lookup(TableOf(us, texts), key) != [] ==> KeyOfSigned(us, texts, key)
    ensures forall j :: 0 <= j < |us| && Signed(us[j], texts) && UnitKey(us[j]) == key ==>
              Lookup(TableOf(us, texts), key) != []
  {
    FoundIsSigned(us, texts, key);
    forall j | 0 <= j < |us| && Signed(us[j], texts) && UnitKey(us[j]) == key
      ensures Lookup(TableOf(us, texts), key) != []
    {
      SignedIsFound(us, texts, j, key);
    }
  }

  /** The table gives everything that counts its own signature, or nothing if it has none. */
  lemma OwnKeyGives(us: seq<Unit>, texts: bool, i: nat)
    requires KeysAgree(us, texts) && i < |us| && Counts(us[i], texts)
    ensures Lookup(TableOf(us, texts), UnitKey(us[i])) == us[i].signature
  {
    var key := UnitKey(us[i]);
    TableFacts(us, texts, key);
    if Lookup(TableOf(us, texts), key) != [] {
      var j :| 0 <= j < |us| && SignedAs(us, texts, j, key);
      assert SameKey(us[i], us[j], texts);
    }
  }

  lemma RawIdGivesNothing(us: seq<Unit>, texts: bool, i: nat)
    requires NoKeyForId(us, texts) && i < |us| && Unsigned(us[i])
    ensures Lookup(TableOf(us, texts), us[i].id) == []
  {
    TableFacts(us, texts, us[i].id);
  }

  lemma TextKeyGivesNothing(us: seq<Unit>, text: Str)
    ensures Lookup(TableOf(us, false), TextKey(text)) == []
  {
    TableFacts(us, false, TextKey(text));
    if KeyOfSigned(us, false, TextKey(text)) {
      var j :| 0 <= j < |us| && SignedAs(us, false, j, TextKey(text));
      KeysAreDistinct(us[j].id, text);
    }
  }

  lemma RecoverableReturns(us: seq<Unit>, stored: bool, i: nat, kept: bool)
    requires AllWhole(us) && Recoverable(us, stored) && i < |us|
    ensures UnitReturns(us[i], kept, TableOf(us, stored), stored)
  {
    assert WholeUnit(us[i]);
    if us[i].Saying? && !stored {
      TextKeyGivesNothing(us, us[i].text);
    } else {
      OwnKeyGives(us, stored, i);
      if Unsigned(us[i]) {
        RawIdGivesNothing(us, stored, i);
      }
    }
  }

  /** What a unit that comes back without its field says about the table. */
  lemma DroppedNeeds(us: seq<Unit>, stored: bool, i: nat)
    requires AllWhole(us) && i < |us| && UnitReturns(us[i], false, TableOf(us, stored), stored)
    ensures Counts(us[i], stored) ==> Lookup(TableOf(us, stored), UnitKey(us[i])) == us[i].signature
    ensures Unsigned(us[i]) ==> Lookup(TableOf(us, stored), us[i].id) == []
  {
    assert WholeUnit(us[i]);
    TableFacts(us, stored, UnitKey(us[i]));
  }

  lemma RestoringNeeds(us: seq<Unit>, stored: bool)
    requires AllWhole(us) && forall i :: 0 <= i < |us| ==> UnitReturns(us[i], false, TableOf(us, stored), stored)
    ensures Recoverable(us, stored)
  {
    forall i, j | 0 <= i < |us| && 0 <= j < |us| && SameKey(us[i], us[j], stored)
      ensures us[i].signature == us[j].signature
    {
      DroppedNeeds(us, stored, i);
      DroppedNeeds(us, stored, j);
    }
    forall i, j | 0 <= i < |us| && 0 <= j < |us| ensures !TakesKey(us[i], us[j], stored) {
      DroppedNeeds(us, stored, i);
      TableFacts(us, stored, UnitKey(us[j]));
    }
  }

  /**
   * The round trip of any content: echoed by a client that drops whatever thought_signature fields it likes, of texts
   * and of calls, it comes back as one model turn with the same texts, names and arguments; every call has its
   * signature; and a text has its signature exactly when the field was kept, or always if the server has stored it.
   * This holds for every way of dropping fields if and only if the keys and ids allow it.
   */
  lemma EchoRestoresExactly(us: seq<Unit>, stored: bool)
    requires AllWhole(us)
    ensures (forall keep: nat -> bool :: Restores(us, keep, stored)) <==> Recoverable(us, stored)
  {
    if Recoverable(us, stored) {
      forall keep: nat -> bool ensures Restores(us, keep, stored) {
        RecoverableRestores(us, keep, stored);
      }
    }
    if forall keep: nat -> bool :: Restores(us, keep, stored) {
      var none: nat -> bool := i => false;
      assert Restores(us, none, stored);
      DroppingAllNeeds(us, none, stored);
    }
  }

  lemma RecoverableRestores(us: seq<Unit>, keep: nat -> bool, stored: bool)
    requires AllWhole(us) && Recoverable(us, stored)
    ensures Restores(us, keep, stored)
  {
    var table := TableOf(us, stored);
    EchoBuilds(us, keep, stored);
    forall i | 0 <= i < |us|
      ensures UnitReturns(us[i], true, table, stored) && UnitReturns(us[i], false, table, stored)
    {
      RecoverableReturns(us, stored, i, true);
      RecoverableReturns(us, stored, i, false);
    }
    AllReturn(us, keep, table, stored);
  }

  /** A client that drops every signature field is the hardest. */
  lemma DroppingAllNeeds(us: seq<Unit>, none: nat -> bool, stored: bool)
    requires AllWhole(us) && KeepsNone(none) && Restores(us, none, stored)
    ensures Recoverable(us, stored)
  {
    EchoBuilds(us, none, stored);
    SameTurns(ReturnedAll(us, none, TableOf(us, stored)), RestoredAll(us, none, stored));
    forall i | 0 <= i < |us| ensures UnitReturns(us[i], false, TableOf(us, stored), stored) {
      EachReturned(us, none, TableOf(us, stored), stored, i);
    }
    RestoringNeeds(us, stored);
  }
}
