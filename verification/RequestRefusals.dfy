/** When a conversation is refused, and why: the first thing wrong with its messages, block by block. */
module RequestRefusals {
  import opened Bytes
  import opened RequestModel
  import opened FoldSupplements
  import opened FoldAlgebra
  import opened RequestContents
  import opened ToolResolution
  import opened ConversationContents

  // ----- The reference: what is wrong with a block -----

  function SourceError(document: bool, source: Source): Option<RequestError> {
    if SourceText(document, source) == [] && SourceMedia(document, source) == [] then Some(BadMediaSource) else None
  }

  function ResultBlockError(b: ResultBlock): Option<RequestError> {
    match b
    case ResultUnknown => Some(UnsupportedResultBlock)
    case ResultText(_) => None
    case ResultMedia(document, source) =>
      if SourceError(document, source).Some? then SourceError(document, source)
      else if SourceMedia(document, source) != [] && !Attachable(MediaPart(SourceMedia(document, source)[0])) then
        Some(UnsupportedMime)
      else None
  }

  function ResultBlocksError(blocks: seq<ResultBlock>): Option<RequestError> {
    if blocks == [] then None
    else
      var before := ResultBlocksError(blocks[..|blocks| - 1]);
      if before.Some? then before else ResultBlockError(blocks[|blocks| - 1])
  }

  function ResultError(isError: Flag, content: ResultContent): Option<RequestError> {
    if isError.NotABoolean? then Some(ErrorFlagNotBoolean)
    else match content
      case ResultInvalid => Some(ResultContentInvalid)
      case ResultBlocks(blocks) => ResultBlocksError(blocks)
      case _ => None
  }

  /** The block after `before`: tools are called by the assistant, with a name; results are for calls somewhere. */
  function BlockError(all: seq<Spot>, before: seq<Spot>, s: Spot): Option<RequestError> {
    match s.block
    case NotABlock => Some(BlockNotObject)
    case UnknownBlock => Some(UnsupportedBlock)
    case InMedia(document, source) => SourceError(document, source)
    case InToolUse(_, name, input, _) =>
      if !s.assistant then Some(ToolUseOutsideAssistant)
      else if name == [] then Some(ToolUseWithoutName)
      else if input.InvalidInput? then Some(InputNotObject)
      else None
    case InToolResult(id, isError, content) =>
      if NameAt(all, before, id) == [] then Some(UnresolvedToolResult) else ResultError(isError, content)
    case _ => None
  }

  function BlocksError(all: seq<Spot>, before: seq<Spot>, assistant: bool, blocks: seq<InBlock>): Option<RequestError> {
    if blocks == [] then None
    else
      var init := blocks[..|blocks| - 1];
      var e := BlocksError(all, before, assistant, init);
      if e.Some? then e
      else BlockError(all, before + BlockSpots(assistant, init), Spot(assistant, blocks[|blocks| - 1]))
  }

  // ----- What is wrong with the order of a user's parts -----

  function Unattachable(p: OutPart): Option<RequestError> {
    if Attachable(p) then None else if p.MediaPart? then Some(UnsupportedMime) else Some(UnsupportedSupplement)
  }

  /** The first part that may not stand behind tool results. */
  function FirstUnattachable(parts: seq<OutPart>): Option<RequestError> {
    if parts == [] then None
    else
      var before := FirstUnattachable(parts[..|parts| - 1]);
      if before.Some? then before else Unattachable(parts[|parts| - 1])
  }

  /** The first part that may not stand where it does: a result behind anything else, or what no result can take up. */
  ghost function FirstMisplaced(parts: seq<OutPart>): Option<RequestError> {
    if parts == [] then None
    else
      var init, p := parts[..|parts| - 1], parts[|parts| - 1];
      var before := FirstMisplaced(init);
      if before.Some? then before
      else if p.ResponsePart? then (if AllResponses(init) then None else Some(ResultAfterSupplement))
      else if HasResponse(init) then Unattachable(p)
      else None
  }

  /** What the user's turn at the end of the conversation so far consists of, if there is one. */
  datatype Open = NoTurn | Results | Content

  ghost function OpenAfter(all: seq<Spot>, server: Table, messages: seq<InMessage>): Open {
    if messages == [] then NoTurn
    else
      var init, m := messages[..|messages| - 1], messages[|messages| - 1];
      var parts, open := WholeMessage(all, server, Spots(init), m), OpenAfter(all, server, init);
      if parts == [] then open
      else if m.role == Assistant then NoTurn
      else if open != NoTurn then open
      else if HasResponse(parts) then Results
      else Content
  }

  /** What is wrong with a user's parts behind those of the same turn. */
  ghost function JoinError(open: Open, parts: seq<OutPart>): Option<RequestError> {
    match open
    case NoTurn => None
    case Results => if HasResponse(parts) then None else FirstUnattachable(parts)
    case Content => if HasResponse(parts) then Some(ResultAfterSupplement) else None
  }

  /** What is wrong with message `m` behind `before`. */
  ghost function MessageError(all: seq<Spot>, server: Table, before: seq<InMessage>, m: InMessage)
    : Option<RequestError>
  {
    if m.NotAMessage? then Some(MessageNotObject)
    else if m.role == System then None
    else if m.role == UnknownRole then Some(UnsupportedRole)
    else if m.content.InvalidContent? then Some(ContentInvalid)
    else
      var spots, parts := Spots(before), WholeMessage(all, server, Spots(before), m);
      var e := if m.content.BlockContent? then BlocksError(all, spots, m.role == Assistant, m.content.blocks) else None;
      if e.Some? then e
      else if m.role == Assistant then None
      else if FirstMisplaced(parts).Some? then FirstMisplaced(parts)
      else JoinError(OpenAfter(all, server, before), parts)
  }

  ghost function MessagesError(all: seq<Spot>, server: Table, messages: seq<InMessage>): Option<RequestError> {
    if messages == [] then None
    else
      var init := messages[..|messages| - 1];
      var before := MessagesError(all, server, init);
      if before.Some? then before else MessageError(all, server, init, messages[|messages| - 1])
  }

  // ----- Blocks -----

  lemma {:induction false} GatherErr(blocks: seq<ResultBlock>)
    ensures Gather(blocks).error == ResultBlocksError(blocks)
  {
    if blocks != [] {
      var init, b := blocks[..|blocks| - 1], blocks[|blocks| - 1];
      GatherErr(init);
      if b.ResultMedia? {
        SourceExactly(b.document, b.source);
        if SourceMedia(b.document, b.source) != [] {
          FollowsWithoutOffence(MediaPart(SourceMedia(b.document, b.source)[0]), true);
        }
      }
    }
  }

  function ErrorOf<T>(r: Result<T, RequestError>): Option<RequestError> {
    if r.Err? then Some(r.error) else None
  }

  lemma ResultErr(isError: Flag, content: ResultContent)
    ensures ErrorOf(NormalizeToolResult(isError, content)) == ResultError(isError, content)
  {
    if content.ResultBlocks? {
      GatherErr(content.blocks);
    }
  }

  lemma BlockErr(c: Conversion, signatures: Table, all: seq<Spot>, before: seq<Spot>, s: Spot)
    requires c.error.None? && NamesInUse(c.names, all, before)
    ensures ConvertBlock(c, s.assistant, signatures, s.block).error == BlockError(all, before, s)
  {
    match s.block
    case InMedia(document, source) => SourceExactly(document, source);
    case InToolResult(id, isError, content) =>
      assert Lookup(c.names, id) == NameAt(all, before, id);
      ResultErr(isError, content);
    case _ =>
  }

  lemma {:induction false} BlocksErr(names: Table, signatures: Table, server: Table, all: seq<Spot>, before: seq<Spot>,
                                     assistant: bool, blocks: seq<InBlock>)
    requires NamesInUse(names, all, before) && SignaturesInUse(signatures, server, all)
    ensures ConvertBlocks(names, assistant, signatures, blocks).error == BlocksError(all, before, assistant, blocks)
  {
    if blocks != [] {
      var init := blocks[..|blocks| - 1];
      var c := ConvertBlocks(names, assistant, signatures, init);
      BlocksErr(names, signatures, server, all, before, assistant, init);
      if c.error.None? {
        ConvertsSpots(names, signatures, server, all, before, assistant, init);
        BlockErr(c, signatures, all, before + BlockSpots(assistant, init), Spot(assistant, blocks[|blocks| - 1]));
      }
    }
  }

  // ----- Order -----

  lemma OffenceIs(p: OutPart, some: bool)
    ensures Offence(p, some) == if p.ResponsePart? then Some(ResultAfterSupplement)
                                else if some then Unattachable(p) else None
  {
    FollowsWithoutOffence(p, some);
  }

  lemma {:induction false} LeadingInPlace(rs: seq<OutPart>)
    requires AllResponses(rs)
    ensures FirstMisplaced(rs) == None
  {
    if rs != [] {
      LeadingInPlace(rs[..|rs| - 1]);
    }
  }

  lemma {:induction false} MisplacedIs(rs: seq<OutPart>, ss: seq<OutPart>)
    requires AllResponses(rs) && (ss != [] ==> !ss[0].ResponsePart?)
    ensures FirstMisplaced(rs + ss) == Offences(ss, rs != [])
  {
    if ss == [] {
      NothingAfter(rs);
      LeadingInPlace(rs);
    } else {
      var init, p := ss[..|ss| - 1], ss[|ss| - 1];
      MisplacedIs(rs, init);
      InitLast(ss);
      PlusAssoc(rs, init, [p]);
      SnocInit(rs + init, p);
      OffenceIs(p, rs != []);
      if Offences(init, rs != []) == None {
        NoOffenceNoResponse(init, rs != []);
        Followers(rs, init);
      }
    }
  }

  lemma Followers(rs: seq<OutPart>, init: seq<OutPart>)
    requires AllResponses(rs) && !HasResponse(init)
    ensures HasResponse(rs + init) <==> rs != []
    ensures AllResponses(rs + init) <==> init == []
  {
    if rs != [] {
      assert (rs + init)[0] == rs[0];
    }
    if init != [] {
      assert (rs + init)[|rs|] == init[0];
    } else {
      NothingAfter(rs);
    }
    if HasResponse(rs + init) && rs == [] {
      NothingBefore(init);
    }
  }

  lemma FoldErr(parts: seq<OutPart>)
    ensures ErrorOf(Fold(parts)) == FirstMisplaced(parts)
  {
    var rs, ss := Split(parts);
    FoldShape(rs, ss);
    MisplacedIs(rs, ss);
  }

  lemma {:induction false} UnattachableIs(parts: seq<OutPart>)
    requires !HasResponse(parts)
    ensures Offences(parts, true) == FirstUnattachable(parts)
  {
    if parts != [] {
      UnattachableIs(parts[..|parts| - 1]);
      OffenceIs(parts[|parts| - 1], true);
    }
  }

  /** A turn whose parts are folded. */
  ghost predicate IsOpen(contents: seq<Turn>, open: Open) {
    if contents == [] || !contents[|contents| - 1].user then open == NoTurn
    else
      var parts := contents[|contents| - 1].parts;
      && parts != []
      && (open == Results ==> AllResponses(parts))
      && (open == Content ==> !HasResponse(parts))
      && open != NoTurn
  }

  /** What folding makes of a user's parts: results only, or the parts as they are. */
  lemma FoldedParts(parts: seq<OutPart>)
    requires Fold(parts).Ok?
    ensures HasResponse(parts) ==> Fold(parts).value != [] && AllResponses(Fold(parts).value)
    ensures !HasResponse(parts) ==> Fold(parts).value == parts
    ensures Fold(parts).value == [] <==> parts == []
  {
    FoldIsIdempotent(parts);
    if HasResponse(parts) {
      ResultsComeFirst(parts);
    } else {
      SupplementsFold(parts);
    }
  }

  /** The folded parts `f` of `parts` behind the folded turn `last`. */
  lemma JoinErr(last: seq<OutPart>, parts: seq<OutPart>, f: seq<OutPart>, open: Open)
    requires last != [] && parts != [] && f != [] && open != NoTurn
    requires if open == Results then AllResponses(last) else !HasResponse(last)
    requires if HasResponse(parts) then AllResponses(f) else f == parts
    ensures ErrorOf(Fold(last + f)) == JoinError(open, parts)
    ensures Fold(last + f).Ok? ==>
              && Fold(last + f).value != []
              && if open == Results then AllResponses(Fold(last + f).value) else !HasResponse(Fold(last + f).value)
  {
    if HasResponse(parts) {
      if open == Results {
        ResponsesFold(last + f);
      } else {
        ContentThenResult(last, f);
      }
    } else if open == Results {
      assert f[0] == parts[0] && !HasResponse(parts);
      UnattachableIs(parts);
      FoldShape(last, f);
      if Fold(last + f).Ok? {
        FoldedResponses(last[..|last| - 1], Absorb(last[|last| - 1], f));
      }
    } else {
      NoResponseInBoth(last, f);
      SupplementsFold(last + f);
    }
  }

  lemma NoResponseInBoth(a: seq<OutPart>, b: seq<OutPart>)
    requires !HasResponse(a) && !HasResponse(b)
    ensures !HasResponse(a + b)
  {
  }

  // ----- Messages -----

  lemma OpenSnoc(all: seq<Spot>, server: Table, messages: seq<InMessage>, m: InMessage)
    ensures OpenAfter(all, server, messages + [m]) ==
            var parts, open := WholeMessage(all, server, Spots(messages), m), OpenAfter(all, server, messages);
            if parts == [] then open
            else if m.role == Assistant then NoTurn
            else if open != NoTurn then open
            else if HasResponse(parts) then Results
            else Content
  {
    SnocInit(messages, m);
  }

  /** What is wrong with a user's message in itself. */
  ghost function OwnError(all: seq<Spot>, server: Table, before: seq<Spot>, m: InMessage): Option<RequestError>
    requires m.InMessage?
  {
    var e := if m.content.BlockContent? then BlocksError(all, before, false, m.content.blocks) else None;
    if e.Some? then e else FirstMisplaced(WholeMessage(all, server, before, m))
  }

  /** The parts of a user's message once they are folded. */
  lemma UserContent(names: Table, signatures: Table, server: Table, all: seq<Spot>, before: seq<Spot>, m: InMessage)
    requires NamesInUse(names, all, before) && SignaturesInUse(signatures, server, all)
    requires m.InMessage? && m.role == User && !m.content.InvalidContent?
    ensures var c, parts := ConvertContent(names, false, signatures, m.content), WholeMessage(all, server, before, m);
            && c.error == OwnError(all, server, before, m)
            && (c.error.None? ==>
                  && (c.parts == [] <==> parts == [])
                  && if HasResponse(parts) then AllResponses(c.parts) else c.parts == parts)
  {
    var parts := WholeMessage(all, server, before, m);
    if m.content.BlockContent? {
      BlocksErr(names, signatures, server, all, before, false, m.content.blocks);
      if BlocksError(all, before, false, m.content.blocks) == None {
        ConvertsWholeBlocks(names, signatures, server, all, before, false, m.content.blocks);
        FoldErr(parts);
        if Fold(parts).Ok? {
          FoldedParts(parts);
        }
      }
    } else {
      TextInPlace(m.content.text);
    }
  }

  lemma TextInPlace(text: Str)
    ensures FirstMisplaced([TextPart(text, [])]) == None && !HasResponse([TextPart(text, [])])
    ensures FirstMisplaced([]) == None
  {
    assert [TextPart(text, [])][..0] == [];
  }

  lemma AssistantContent(names: Table, signatures: Table, server: Table, all: seq<Spot>, before: seq<Spot>,
                         m: InMessage)
    requires NamesInUse(names, all, before) && SignaturesInUse(signatures, server, all)
    requires m.InMessage? && m.role == Assistant && !m.content.InvalidContent?
    ensures var c, parts := ConvertContent(names, true, signatures, m.content), WholeMessage(all, server, before, m);
            && c.error == (if m.content.BlockContent? then BlocksError(all, before, true, m.content.blocks) else None)
            && (c.error.None? ==> c.parts == parts)
  {
    if m.content.BlockContent? {
      BlocksErr(names, signatures, server, all, before, true, m.content.blocks);
      if BlocksError(all, before, true, m.content.blocks) == None {
        ConvertsWholeBlocks(names, signatures, server, all, before, true, m.content.blocks);
      }
    }
  }

  /** Between messages: nothing has gone wrong, names are in use and the last turn is known. */
  ghost predicate Going(b: Building, server: Table, all: seq<Spot>, messages: seq<InMessage>) {
    && b.error.None? && NamesInUse(b.names, all, Spots(messages))
    && IsOpen(b.contents, OpenAfter(all, server, messages))
  }

  lemma LastTurn(contents: seq<Turn>, t: Turn, open: Open)
    requires t.parts != [] && (if t.user then open != NoTurn else open == NoTurn)
    requires open == Results ==> AllResponses(t.parts)
    requires open == Content ==> !HasResponse(t.parts)
    ensures IsOpen(contents + [t], open)
  {
  }

  lemma UserTurn(contents: seq<Turn>, open: Open, parts: seq<OutPart>, f: seq<OutPart>)
    requires IsOpen(contents, open) && (f == [] <==> parts == [])
    requires if HasResponse(parts) then AllResponses(f) else f == parts
    ensures ErrorOf(AddTurn(contents, true, f)) == JoinError(open, parts)
    ensures AddTurn(contents, true, f).Ok? ==>
              IsOpen(AddTurn(contents, true, f).value,
                     if parts == [] then open else if open != NoTurn then open
                     else if HasResponse(parts) then Results else Content)
  {
    if parts != [] {
      if open == NoTurn {
        LastTurn(contents, Turn(true, f), if HasResponse(parts) then Results else Content);
      } else {
        var last := contents[|contents| - 1].parts;
        JoinErr(last, parts, f, open);
        if Fold(last + f).Ok? {
          LastTurn(contents[..|contents| - 1], Turn(true, Fold(last + f).value), open);
        }
      }
    }
  }

  lemma ModelTurn(contents: seq<Turn>, open: Open, parts: seq<OutPart>)
    requires IsOpen(contents, open)
    ensures AddTurn(contents, false, parts).Ok?
    ensures IsOpen(AddTurn(contents, false, parts).value, if parts == [] then open else NoTurn)
  {
    if parts != [] {
      if contents == [] || contents[|contents| - 1].user {
        LastTurn(contents, Turn(false, parts), NoTurn);
      } else {
        LastTurn(contents[..|contents| - 1], Turn(false, contents[|contents| - 1].parts + parts), NoTurn);
      }
    }
  }

  lemma NamesGo(b: Building, signatures: Table, server: Table, all: seq<Spot>, before: seq<Spot>, m: InMessage)
    requires b.error.None? && NamesInUse(b.names, all, before) && SignaturesInUse(signatures, server, all)
    requires BuildMessage(b, signatures, m).error.None?
    ensures NamesInUse(BuildMessage(b, signatures, m).names, all, before + MessageSpots(m))
  {
    if m.role == System {
      NothingAfter(before);
    } else {
      ConvertsContent(b.names, signatures, server, all, before, m);
    }
  }

  lemma BuildStep(b: Building, signatures: Table, m: InMessage)
    requires b.error.None? && Speaks(m)
    ensures var c, d := ConvertContent(b.names, m.role == Assistant, signatures, m.content),
                        BuildMessage(b, signatures, m);
            if c.error.Some? then d.error == c.error
            else
              var turns := AddTurn(b.contents, m.role == User, c.parts);
              d.error == ErrorOf(turns) && (turns.Ok? ==> d.contents == turns.value)
  {
  }

  lemma AssistantErr(b: Building, signatures: Table, server: Table, all: seq<Spot>, init: seq<InMessage>, m: InMessage)
    requires Going(b, server, all, init) && SignaturesInUse(signatures, server, all)
    requires m.InMessage? && m.role == Assistant && !m.content.InvalidContent?
    ensures var d, parts, open := BuildMessage(b, signatures, m), WholeMessage(all, server, Spots(init), m),
                                  OpenAfter(all, server, init);
            && d.error == MessageError(all, server, init, m)
            && (d.error.None? ==> IsOpen(d.contents, if parts == [] then open else NoTurn))
  {
    AssistantContent(b.names, signatures, server, all, Spots(init), m);
    ModelTurn(b.contents, OpenAfter(all, server, init), WholeMessage(all, server, Spots(init), m));
    BuildStep(b, signatures, m);
  }

  lemma UserMessageError(all: seq<Spot>, server: Table, init: seq<InMessage>, m: InMessage)
    requires m.InMessage? && m.role == User && !m.content.InvalidContent?
    ensures MessageError(all, server, init, m) ==
            if OwnError(all, server, Spots(init), m).Some? then OwnError(all, server, Spots(init), m)
            else JoinError(OpenAfter(all, server, init), WholeMessage(all, server, Spots(init), m))
  {
  }

  lemma UserJoins(b: Building, open: Open, parts: seq<OutPart>, c: Conversion, d: Building)
    requires IsOpen(b.contents, open) && c.error.None? && (c.parts == [] <==> parts == [])
    requires if HasResponse(parts) then AllResponses(c.parts) else c.parts == parts
    requires d.error == ErrorOf(AddTurn(b.contents, true, c.parts))
    requires AddTurn(b.contents, true, c.parts).Ok? ==> d.contents == AddTurn(b.contents, true, c.parts).value
    ensures d.error == JoinError(open, parts)
    ensures d.error.None? ==>
              IsOpen(d.contents, if parts == [] then open else if open != NoTurn then open
                                 else if HasResponse(parts) then Results else Content)
  {
    UserTurn(b.contents, open, parts, c.parts);
  }

  lemma UserErr(b: Building, signatures: Table, server: Table, all: seq<Spot>, init: seq<InMessage>, m: InMessage)
    requires Going(b, server, all, init) && SignaturesInUse(signatures, server, all)
    requires m.InMessage? && m.role == User && !m.content.InvalidContent?
    ensures var d, parts, open := BuildMessage(b, signatures, m), WholeMessage(all, server, Spots(init), m),
                                  OpenAfter(all, server, init);
            && d.error == MessageError(all, server, init, m)
            && (d.error.None? ==>
                  IsOpen(d.contents, if parts == [] then open else if open != NoTurn then open
                                     else if HasResponse(parts) then Results else Content))
  {
    var c := ConvertContent(b.names, false, signatures, m.content);
    UserContent(b.names, signatures, server, all, Spots(init), m);
    UserMessageError(all, server, init, m);
    BuildStep(b, signatures, m);
    if c.error.None? {
      UserJoins(b, OpenAfter(all, server, init), WholeMessage(all, server, Spots(init), m), c,
                BuildMessage(b, signatures, m));
    }
  }

  lemma SilentErr(b: Building, signatures: Table, server: Table, all: seq<Spot>, init: seq<InMessage>, m: InMessage)
    requires Going(b, server, all, init) && (!Speaks(m) || m.content.InvalidContent?)
    ensures var d := BuildMessage(b, signatures, m);
            && d.error == MessageError(all, server, init, m)
            && (d.error.None? ==> d.contents == b.contents && WholeMessage(all, server, Spots(init), m) == [])
  {
  }

  lemma GoesOn(b: Building, signatures: Table, server: Table, all: seq<Spot>, init: seq<InMessage>, m: InMessage)
    requires Going(b, server, all, init) && SignaturesInUse(signatures, server, all)
    ensures BuildMessage(b, signatures, m).error == MessageError(all, server, init, m)
    ensures BuildMessage(b, signatures, m).error.None? ==>
              Going(BuildMessage(b, signatures, m), server, all, init + [m])
  {
    if Speaks(m) && !m.content.InvalidContent? {
      if m.role == Assistant {
        AssistantErr(b, signatures, server, all, init, m);
      } else {
        UserErr(b, signatures, server, all, init, m);
      }
    } else {
      SilentErr(b, signatures, server, all, init, m);
    }
    if BuildMessage(b, signatures, m).error.None? {
      OpenSnoc(all, server, init, m);
      SnocInit(init, m);
      NamesGo(b, signatures, server, all, Spots(init), m);
    }
  }

  lemma {:induction false} BuildErr(start: Building, signatures: Table, server: Table, all: seq<Spot>,
                                    messages: seq<InMessage>)
    requires Going(start, server, all, []) && SignaturesInUse(signatures, server, all)
    ensures var b := BuildMessages(start, signatures, messages);
            && b.error == MessagesError(all, server, messages)
            && (b.error.None? ==> Going(b, server, all, messages))
  {
    if messages != [] {
      var init, m := messages[..|messages| - 1], messages[|messages| - 1];
      BuildErr(start, signatures, server, all, init);
      InitLast(messages);
      if BuildMessages(start, signatures, init).error.None? {
        GoesOn(BuildMessages(start, signatures, init), signatures, server, all, init, m);
      }
    }
  }

  /**
   * A conversation is accepted exactly if all its messages are objects and there is nothing wrong with any of them
   * where it stands; otherwise it is refused for the first thing that is.
   */
  lemma RefusedExactly(messages: seq<InMessage>, server: Table)
    ensures ErrorOf(Build(messages, server)) ==
            if exists i :: 0 <= i < |messages| && messages[i].NotAMessage? then Some(MessageNotObject)
            else MessagesError(Spots(messages), server, messages)
  {
    if AllObjects(messages) {
      var known := Learn(Known(map[], server), messages);
      LearnsConversation(server, messages);
      BuildErr(Building([], known.names, None), known.signatures, server, Spots(messages), messages);
    }
  }
}
