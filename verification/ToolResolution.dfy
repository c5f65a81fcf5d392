/** Which name, id and signature every tool call and tool result of an accepted conversation ends up with. */
module ToolResolution {
  import opened Bytes
  import opened GeminiModel
  import opened RequestModel
  import opened FoldSupplements
  import opened FoldAlgebra
  import opened RequestContents

  /** A content block and who sent it. */
  datatype Spot = Spot(assistant: bool, block: InBlock)

  function BlockSpots(assistant: bool, blocks: seq<InBlock>): seq<Spot> {
    if blocks == [] then []
    else BlockSpots(assistant, blocks[..|blocks| - 1]) + [Spot(assistant, blocks[|blocks| - 1])]
  }

  function MessageSpots(m: InMessage): seq<Spot> {
    if m.InMessage? && (m.role == User || m.role == Assistant) && m.content.BlockContent? then
      BlockSpots(m.role == Assistant, m.content.blocks)
    else []
  }

  /** All content blocks of a conversation in order. */
  function Spots(messages: seq<InMessage>): seq<Spot> {
    if messages == [] then [] else Spots(messages[..|messages| - 1]) + MessageSpots(messages[|messages| - 1])
  }

  // ----- The reference: last mentions, with no table -----

  predicate NamesTool(s: Spot, id: Str) {
    s.assistant && s.block.InToolUse? && s.block.id == id != [] && s.block.name != []
  }

  /** The name in the last tool_use of `id`, or nothing. */
  function LastName(spots: seq<Spot>, id: Str): Str {
    if spots == [] then []
    else if NamesTool(spots[|spots| - 1], id) then spots[|spots| - 1].block.name
    else LastName(spots[..|spots| - 1], id)
  }

  predicate Carries(s: Spot, key: Str) {
    && s.assistant && s.block.Redacted? && s.block.carried.Some?
    && s.block.carried.value.key == key != [] && s.block.carried.value.signature != []
  }

  /** The signature in the last carrier for `key`, or nothing. */
  function LastCarried(spots: seq<Spot>, key: Str): Str {
    if spots == [] then []
    else if Carries(spots[|spots| - 1], key) then spots[|spots| - 1].block.carried.value.signature
    else LastCarried(spots[..|spots| - 1], key)
  }

  /** A tool's name at a point of the conversation: as last called before it, else as last called at all. */
  function NameAt(all: seq<Spot>, before: seq<Spot>, id: Str): Str {
    if LastName(before, id) != [] then LastName(before, id) else LastName(all, id)
  }

  /** The signature for a key: from the last carrier anywhere in the conversation, else from the server's table. */
  function SignatureFor(all: seq<Spot>, server: Table, key: Str): Str {
    if LastCarried(all, key) != [] then LastCarried(all, key) else Lookup(server, key)
  }

  /** What the block at the end of `before` becomes; texts and media of tool results aside. */
  function Resolved(all: seq<Spot>, server: Table, before: seq<Spot>, b: InBlock): seq<OutPart> {
    match b
    case InToolUse(id, name, input, signature) =>
      var args := if input.ObjectInput? then input.json else EMPTY_OBJECT;
      if signature != [] || id == [] then [CallPart(OutId(id), name, args, signature)]
      else if SignatureFor(all, server, ToolKey(id)) != [] then
        [CallPart(OutId(id), name, args, SignatureFor(all, server, ToolKey(id)))]
      else [CallPart(OutId(id), name, args, SignatureFor(all, server, id))]
    case InToolResult(id, isError, _) =>
      [ResponsePart(OutId(id), NameAt(all, before, id), Reply(isError.Flag? && isError.value, []), [])]
    case _ => []
  }

  function ResolvedAll(all: seq<Spot>, server: Table, spots: seq<Spot>): seq<OutPart> {
    if spots == [] then []
    else
      var before := spots[..|spots| - 1];
      ResolvedAll(all, server, before) + Resolved(all, server, before, spots[|spots| - 1].block)
  }

  // ----- The calls and responses of the translated turns -----

  /** A call as it is, a response without its text and media. */
  function Face(p: OutPart): seq<OutPart> {
    match p
    case CallPart(_, _, _, _) => [p]
    case ResponsePart(id, name, reply, _) => [ResponsePart(id, name, Reply(reply.isError, []), [])]
    case _ => []
  }

  function Faces(parts: seq<OutPart>): seq<OutPart> {
    if parts == [] then [] else Faces(parts[..|parts| - 1]) + Face(parts[|parts| - 1])
  }

  function TurnFaces(contents: seq<Turn>): seq<OutPart> {
    if contents == [] then [] else TurnFaces(contents[..|contents| - 1]) + Faces(contents[|contents| - 1].parts)
  }

  lemma {:induction false} FacesAppend(a: seq<OutPart>, b: seq<OutPart>)
    ensures Faces(a + b) == Faces(a) + Faces(b)
  {
    if b == [] {
      assert a + b == a;
    } else {
      var init, p := b[..|b| - 1], b[|b| - 1];
      InitLast(b);
      PlusAssoc(a, init, [p]);
      SnocInit(a + init, p);
      FacesAppend(a, init);
      PlusAssoc(Faces(a), Faces(init), Face(p));
    }
  }

  lemma FacesSnoc(a: seq<OutPart>, p: OutPart)
    ensures Faces(a + [p]) == Faces(a) + Face(p)
  {
    SnocInit(a, p);
  }

  lemma TurnFacesSnoc(contents: seq<Turn>, t: Turn)
    ensures TurnFaces(contents + [t]) == TurnFaces(contents) + Faces(t.parts)
  {
    SnocInit(contents, t);
  }

  lemma {:induction false} SupplementsHaveNoFace(ss: seq<OutPart>)
    requires Offences(ss, true) == None
    ensures Faces(ss) == []
  {
    if ss != [] {
      SupplementsHaveNoFace(ss[..|ss| - 1]);
    }
  }

  /** Folding keeps every call and response, its name and its id. */
  lemma FoldKeepsFaces(parts: seq<OutPart>)
    requires Fold(parts).Ok?
    ensures Faces(Fold(parts).value) == Faces(parts)
  {
    var rs, ss := Split(parts);
    FoldShape(rs, ss);
    if rs == [] {
      NothingBefore(ss);
    } else {
      var init, r := rs[..|rs| - 1], rs[|rs| - 1];
      SupplementsHaveNoFace(ss);
      FacesAppend(rs, ss);
      InitLast(rs);
      FacesSnoc(init, r);
      FacesSnoc(init, Absorb(r, ss));
      assert Faces(rs) + [] == Faces(rs);
    }
  }

  lemma AddTurnFaces(contents: seq<Turn>, user: bool, parts: seq<OutPart>)
    requires AddTurn(contents, user, parts).Ok?
    ensures TurnFaces(AddTurn(contents, user, parts).value) == TurnFaces(contents) + Faces(parts)
  {
    if parts == [] {
      assert TurnFaces(contents) + [] == TurnFaces(contents);
    } else if contents == [] || contents[|contents| - 1].user != user {
      TurnFacesSnoc(contents, Turn(user, parts));
    } else {
      var init, last := contents[..|contents| - 1], contents[|contents| - 1].parts;
      FacesAppend(last, parts);
      if user {
        FoldKeepsFaces(last + parts);
        TurnFacesSnoc(init, Turn(user, Fold(last + parts).value));
      } else {
        TurnFacesSnoc(init, Turn(user, last + parts));
      }
      PlusAssoc(TurnFaces(init), Faces(last), Faces(parts));
    }
  }

  // ----- First pass -----

  /** The tables read like the last mentions among `spots`. */
  ghost predicate Knows(k: Known, server: Table, spots: seq<Spot>) {
    && (forall id :: Lookup(k.names, id) == LastName(spots, id))
    && (forall key :: Lookup(k.signatures, key) == SignatureFor(spots, server, key))
  }

  lemma SpotSnoc(spots: seq<Spot>, s: Spot, id: Str)
    ensures LastName(spots + [s], id) == if NamesTool(s, id) then s.block.name else LastName(spots, id)
    ensures LastCarried(spots + [s], id) ==
            if Carries(s, id) then s.block.carried.value.signature else LastCarried(spots, id)
  {
    SnocInit(spots, s);
  }

  lemma LearnsSpot(k: Known, server: Table, spots: seq<Spot>, s: Spot)
    requires Knows(k, server, spots)
    ensures Knows(if s.assistant then LearnBlock(k, s.block) else k, server, spots + [s])
  {
    var l := if s.assistant then LearnBlock(k, s.block) else k;
    forall id ensures Lookup(l.names, id) == LastName(spots + [s], id) {
      SpotSnoc(spots, s, id);
    }
    forall key ensures Lookup(l.signatures, key) == SignatureFor(spots + [s], server, key) {
      SpotSnoc(spots, s, key);
      assert Lookup(k.signatures, key) == SignatureFor(spots, server, key);
    }
  }

  lemma {:induction false} LearnsBlocks(k: Known, server: Table, spots: seq<Spot>, assistant: bool,
                                        blocks: seq<InBlock>)
    requires Knows(k, server, spots)
    ensures Knows(if assistant then LearnBlocks(k, blocks) else k, server, spots + BlockSpots(assistant, blocks))
  {
    if blocks == [] {
      assert spots + [] == spots;
    } else {
      var init, b := blocks[..|blocks| - 1], blocks[|blocks| - 1];
      LearnsBlocks(k, server, spots, assistant, init);
      PlusAssoc(spots, BlockSpots(assistant, init), [Spot(assistant, b)]);
      LearnsSpot(if assistant then LearnBlocks(k, init) else k, server, spots + BlockSpots(assistant, init),
                 Spot(assistant, b));
    }
  }

  lemma {:induction false} LearnsConversation(server: Table, messages: seq<InMessage>)
    ensures Knows(Learn(Known(map[], server), messages), server, Spots(messages))
  {
    if messages != [] {
      var init, m := messages[..|messages| - 1], messages[|messages| - 1];
      LearnsConversation(server, init);
      if MessageSpots(m) == [] {
        assert Spots(init) + [] == Spots(init);
      }
      if m.InMessage? && (m.role == User || m.role == Assistant) && m.content.BlockContent? {
        LearnsBlocks(Learn(Known(map[], server), init), server, Spots(init), m.role == Assistant, m.content.blocks);
      }
    }
  }

  // ----- Second pass -----

  /** The tool names in use between two blocks. */
  ghost predicate NamesInUse(names: Table, all: seq<Spot>, before: seq<Spot>) {
    forall id :: Lookup(names, id) == NameAt(all, before, id)
  }

  ghost predicate SignaturesInUse(signatures: Table, server: Table, all: seq<Spot>) {
    forall key :: Lookup(signatures, key) == SignatureFor(all, server, key)
  }

  lemma NamesAfterSpot(c: Conversion, signatures: Table, all: seq<Spot>, before: seq<Spot>, s: Spot)
    requires NamesInUse(c.names, all, before) && ConvertBlock(c, s.assistant, signatures, s.block).error.None?
    ensures NamesInUse(ConvertBlock(c, s.assistant, signatures, s.block).names, all, before + [s])
  {
    var names := ConvertBlock(c, s.assistant, signatures, s.block).names;
    forall id ensures Lookup(names, id) == NameAt(all, before + [s], id) {
      SpotSnoc(before, s, id);
      assert Lookup(c.names, id) == NameAt(all, before, id);
    }
  }

  /** A block adds the part it should, or one without a face, or none. */
  lemma PartOfSpot(c: Conversion, signatures: Table, server: Table, all: seq<Spot>, before: seq<Spot>, s: Spot)
    returns (added: seq<OutPart>)
    requires NamesInUse(c.names, all, before) && SignaturesInUse(signatures, server, all)
    requires ConvertBlock(c, s.assistant, signatures, s.block).error.None?
    ensures ConvertBlock(c, s.assistant, signatures, s.block).parts == c.parts + added
    ensures |added| <= 1 && Resolved(all, server, before, s.block) == if added == [] then [] else Face(added[0])
  {
    var d := ConvertBlock(c, s.assistant, signatures, s.block);
    if |d.parts| == |c.parts| {
      added := [];
    } else {
      added := [d.parts[|c.parts|]];
    }
    match s.block
    case InToolUse(id, _, _, _) =>
      assert Lookup(signatures, ToolKey(id)) == SignatureFor(all, server, ToolKey(id));
      assert Lookup(signatures, id) == SignatureFor(all, server, id);
    case InToolResult(id, _, _) =>
      assert Lookup(c.names, id) == NameAt(all, before, id);
    case _ =>
  }

  lemma ConvertsSpot(c: Conversion, signatures: Table, server: Table, all: seq<Spot>, before: seq<Spot>, s: Spot)
    requires NamesInUse(c.names, all, before) && SignaturesInUse(signatures, server, all)
    requires ConvertBlock(c, s.assistant, signatures, s.block).error.None?
    ensures NamesInUse(ConvertBlock(c, s.assistant, signatures, s.block).names, all, before + [s])
    ensures Faces(ConvertBlock(c, s.assistant, signatures, s.block).parts) ==
            Faces(c.parts) + Resolved(all, server, before, s.block)
  {
    NamesAfterSpot(c, signatures, all, before, s);
    var added := PartOfSpot(c, signatures, server, all, before, s);
    if added != [] {
      FacesSnoc(c.parts, added[0]);
    }
  }

  lemma {:induction false} ConvertsSpots(names: Table, signatures: Table, server: Table, all: seq<Spot>,
                                         before: seq<Spot>, assistant: bool, blocks: seq<InBlock>)
    requires NamesInUse(names, all, before) && SignaturesInUse(signatures, server, all)
    requires ConvertBlocks(names, assistant, signatures, blocks).error.None?
    ensures var c, after := ConvertBlocks(names, assistant, signatures, blocks), before + BlockSpots(assistant, blocks);
            && NamesInUse(c.names, all, after)
            && ResolvedAll(all, server, after) == ResolvedAll(all, server, before) + Faces(c.parts)
  {
    if blocks == [] {
      assert before + [] == before;
      assert ResolvedAll(all, server, before) + [] == ResolvedAll(all, server, before);
    } else {
      var init, s := blocks[..|blocks| - 1], Spot(assistant, blocks[|blocks| - 1]);
      ConvertsSpots(names, signatures, server, all, before, assistant, init);
      var c, middle := ConvertBlocks(names, assistant, signatures, init), before + BlockSpots(assistant, init);
      ConvertsSpot(c, signatures, server, all, middle, s);
      PlusAssoc(before, BlockSpots(assistant, init), [s]);
      SnocInit(middle, s);
      PlusAssoc(ResolvedAll(all, server, before), Faces(c.parts), Resolved(all, server, middle, s.block));
    }
  }

  lemma ConvertsContent(names: Table, signatures: Table, server: Table, all: seq<Spot>, before: seq<Spot>, m: InMessage)
    requires NamesInUse(names, all, before) && SignaturesInUse(signatures, server, all)
    requires m.InMessage? && (m.role == User || m.role == Assistant)
    requires ConvertContent(names, m.role == Assistant, signatures, m.content).error.None?
    ensures var c := ConvertContent(names, m.role == Assistant, signatures, m.content);
            && NamesInUse(c.names, all, before + MessageSpots(m))
            && ResolvedAll(all, server, before + MessageSpots(m)) == ResolvedAll(all, server, before) + Faces(c.parts)
  {
    match m.content
    case InvalidContent =>
    case StringContent(text) =>
      NothingBefore([TextPart(text, [])]);
      FacesSnoc([], TextPart(text, []));
      assert before + [] == before;
      assert ResolvedAll(all, server, before) + [] == ResolvedAll(all, server, before);
    case BlockContent(blocks) =>
      ConvertsSpots(names, signatures, server, all, before, m.role == Assistant, blocks);
      if m.role == User {
        FoldKeepsFaces(ConvertBlocks(names, false, signatures, blocks).parts);
      }
  }

  ghost predicate Built(b: Building, server: Table, all: seq<Spot>, before: seq<Spot>) {
    NamesInUse(b.names, all, before) && TurnFaces(b.contents) == ResolvedAll(all, server, before)
  }

  lemma BuildsMessage(b: Building, signatures: Table, server: Table, all: seq<Spot>, before: seq<Spot>, m: InMessage)
    requires b.error.None? && Built(b, server, all, before) && SignaturesInUse(signatures, server, all)
    requires BuildMessage(b, signatures, m).error.None?
    ensures Built(BuildMessage(b, signatures, m), server, all, before + MessageSpots(m))
  {
    if m.role == System {
      assert before + [] == before;
    } else {
      ConvertsContent(b.names, signatures, server, all, before, m);
      var c := ConvertContent(b.names, m.role == Assistant, signatures, m.content);
      AddTurnFaces(b.contents, m.role == User, c.parts);
    }
  }

  lemma {:induction false} BuildsConversation(start: Building, signatures: Table, server: Table, all: seq<Spot>,
                                              messages: seq<InMessage>)
    requires start.error.None? && Built(start, server, all, []) && SignaturesInUse(signatures, server, all)
    requires BuildMessages(start, signatures, messages).error.None?
    ensures Built(BuildMessages(start, signatures, messages), server, all, Spots(messages))
  {
    if messages != [] {
      var init, m := messages[..|messages| - 1], messages[|messages| - 1];
      BuildsConversation(start, signatures, server, all, init);
      BuildsMessage(BuildMessages(start, signatures, init), signatures, server, all, Spots(init), m);
    }
  }

  /**
   * For every accepted conversation the translated turns hold, in order, one functionCall for each tool_use and one
   * functionResponse for each tool_result and no others. A response is named as its tool was last called before it, or
   * else as it was last called anywhere; a call has its own signature, or else that of the last carrier for its tool
   * key, the server's, the last carrier for its raw id, or the server's for that.
   */
  lemma ToolPartsAreResolved(messages: seq<InMessage>, server: Table)
    requires Build(messages, server).Ok?
    ensures TurnFaces(Build(messages, server).value) == ResolvedAll(Spots(messages), server, Spots(messages))
  {
    var known := Learn(Known(map[], server), messages);
    LearnsConversation(server, messages);
    BuildsConversation(Building([], known.names, None), known.signatures, server, Spots(messages), messages);
  }
}
