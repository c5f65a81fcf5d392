/**
 * What every content block of an accepted conversation becomes: model turns part for part, user turns up to folding.
 */
module ConversationContents {
  import opened Bytes
  import opened GeminiModel
  import opened RequestModel
  import opened FoldSupplements
  import opened FoldAlgebra
  import opened RequestContents
  import opened ToolResolution

  /** The parts of the turns of the given roles, in order; `true` is the user. */
  function PartsOf(contents: seq<Turn>, roles: set<bool>): seq<OutPart> {
    if contents == [] then []
    else
      var t := contents[|contents| - 1];
      PartsOf(contents[..|contents| - 1], roles) + if t.user in roles then t.parts else []
  }

  // ----- The reference: the blocks of the messages, one by one -----

  /** The text of a document with a text source, if it has any. */
  function SourceText(document: bool, source: Source): seq<Str> {
    if document && source.TextSource? && source.data != [] then [source.data] else []
  }

  /**
   * The media of a source: inline base64 data of the declared type, by default a PDF for a document and a PNG for an
   * image; or a reference to a URL with the declared type, by default the one its extension suggests.
   */
  function SourceMedia(document: bool, source: Source): seq<Media> {
    match source
    case Base64Source(mime, data) =>
      if data == [] then []
      else if mime != [] then [Media(true, mime, data)]
      else if document then [Media(true, Ascii("application/pdf"), data)]
      else [Media(true, Ascii("image/png"), data)]
    case UrlSource(url, mime, accepted, inferred) =>
      if url == [] || !accepted then []
      else if mime != [] then [Media(false, mime, url)]
      else if inferred != [] then [Media(false, inferred, url)]
      else []
    case _ => []
  }

  /** A source is accepted exactly if it gives a text or a media item, and that is what it becomes. */
  lemma SourceExactly(document: bool, source: Source)
    ensures MediaOf(document, source).Ok? <==> SourceText(document, source) != [] || SourceMedia(document, source) != []
    ensures SourceText(document, source) == [] || SourceMedia(document, source) == []
    ensures MediaOf(document, source).Ok? ==>
              [MediaOf(document, source).value] ==
              if SourceText(document, source) != [] then [TextPart(SourceText(document, source)[0], [])]
              else [MediaPart(SourceMedia(document, source)[0])]
    ensures MediaOf(document, source).Err? ==> MediaOf(document, source).error == BadMediaSource
  {
  }

  /** The text a result block holds, if any: its own, or that of its source. */
  function ResultBlockText(b: ResultBlock): seq<Str> {
    match b
    case ResultText(text) => if text == [] then [] else [text]
    case ResultMedia(document, source) => SourceText(document, source)
    case ResultUnknown => []
  }

  function ResultBlockMedia(b: ResultBlock): seq<Media> {
    if b.ResultMedia? then SourceMedia(b.document, b.source) else []
  }

  function ResultTexts(blocks: seq<ResultBlock>): seq<Str> {
    if blocks == [] then [] else ResultTexts(blocks[..|blocks| - 1]) + ResultBlockText(blocks[|blocks| - 1])
  }

  function ResultMedias(blocks: seq<ResultBlock>): seq<Media> {
    if blocks == [] then [] else ResultMedias(blocks[..|blocks| - 1]) + ResultBlockMedia(blocks[|blocks| - 1])
  }

  /** The text of a tool result, its pieces on lines of their own. */
  function ReplyText(content: ResultContent): Str {
    match content
    case ResultString(text) => text
    case ResultBlocks(blocks) => Join(ResultTexts(blocks), Ascii("\n"))
    case _ => []
  }

  function ReplyMedia(content: ResultContent): seq<Media> {
    if content.ResultBlocks? then ResultMedias(content.blocks) else []
  }

  /** The parts the block after `before` becomes, before any folding. */
  function Whole(all: seq<Spot>, server: Table, before: seq<Spot>, b: InBlock): seq<OutPart> {
    match b
    case InText(text, signature) =>
      if text == [] then []
      else [TextPart(text, if signature != [] then signature else SignatureFor(all, server, TextKey(text)))]
    case InMedia(document, source) =>
      if SourceText(document, source) != [] then [TextPart(SourceText(document, source)[0], [])]
      else if SourceMedia(document, source) != [] then [MediaPart(SourceMedia(document, source)[0])]
      else []
    case InToolResult(id, isError, content) =>
      [ResponsePart(OutId(id), NameAt(all, before, id), Reply(isError.Flag? && isError.value, ReplyText(content)),
                    ReplyMedia(content))]
    case _ => Resolved(all, server, before, b)
  }

  function WholeBlocks(all: seq<Spot>, server: Table, before: seq<Spot>, assistant: bool, blocks: seq<InBlock>)
    : seq<OutPart>
  {
    if blocks == [] then []
    else
      var init := blocks[..|blocks| - 1];
      WholeBlocks(all, server, before, assistant, init) +
      Whole(all, server, before + BlockSpots(assistant, init), blocks[|blocks| - 1])
  }

  predicate Speaks(m: InMessage) {
    m.InMessage? && (m.role == User || m.role == Assistant)
  }

  function WholeMessage(all: seq<Spot>, server: Table, before: seq<Spot>, m: InMessage): seq<OutPart> {
    if !Speaks(m) then []
    else match m.content
      case InvalidContent => []
      case StringContent(text) => if text == [] then [] else [TextPart(text, [])]
      case BlockContent(blocks) => WholeBlocks(all, server, before, m.role == Assistant, blocks)
  }

  /** The parts of all messages of the given roles. */
  function WholeAll(all: seq<Spot>, server: Table, messages: seq<InMessage>, roles: set<bool>): seq<OutPart> {
    if messages == [] then []
    else
      var init, m := messages[..|messages| - 1], messages[|messages| - 1];
      WholeAll(all, server, init, roles) +
      if m.InMessage? && (m.role == User) in roles then WholeMessage(all, server, Spots(init), m) else []
  }

  // ----- One block -----

  lemma {:induction false} GathersAll(blocks: seq<ResultBlock>)
    requires Gather(blocks).error.None?
    ensures Gather(blocks).texts == ResultTexts(blocks) && Gather(blocks).media == ResultMedias(blocks)
  {
    if blocks != [] {
      GathersAll(blocks[..|blocks| - 1]);
    }
  }

  lemma NormalizesAll(isError: Flag, content: ResultContent)
    requires NormalizeToolResult(isError, content).Ok?
    ensures NormalizeToolResult(isError, content).value ==
            ToolReply(Reply(isError.Flag? && isError.value, ReplyText(content)), ReplyMedia(content))
  {
    if content.ResultBlocks? {
      GathersAll(content.blocks);
    }
  }

  lemma ConvertsWhole(c: Conversion, signatures: Table, server: Table, all: seq<Spot>, before: seq<Spot>, s: Spot)
    requires NamesInUse(c.names, all, before) && SignaturesInUse(signatures, server, all)
    requires ConvertBlock(c, s.assistant, signatures, s.block).error.None?
    ensures ConvertBlock(c, s.assistant, signatures, s.block).parts == c.parts + Whole(all, server, before, s.block)
  {
    match s.block
    case InText(text, signature) =>
      assert Lookup(signatures, TextKey(text)) == SignatureFor(all, server, TextKey(text));
      assert c.parts + [] == c.parts;
    case InMedia(document, source) => SourceExactly(document, source);
    case InToolUse(id, _, _, _) =>
      assert Lookup(signatures, ToolKey(id)) == SignatureFor(all, server, ToolKey(id));
      assert Lookup(signatures, id) == SignatureFor(all, server, id);
    case InToolResult(id, isError, content) =>
      assert Lookup(c.names, id) == NameAt(all, before, id);
      NormalizesAll(isError, content);
    case _ =>
      assert c.parts + [] == c.parts;
  }

  lemma {:induction false} ConvertsWholeBlocks(names: Table, signatures: Table, server: Table, all: seq<Spot>,
                                               before: seq<Spot>, assistant: bool, blocks: seq<InBlock>)
    requires NamesInUse(names, all, before) && SignaturesInUse(signatures, server, all)
    requires ConvertBlocks(names, assistant, signatures, blocks).error.None?
    ensures ConvertBlocks(names, assistant, signatures, blocks).parts ==
            WholeBlocks(all, server, before, assistant, blocks)
  {
    if blocks != [] {
      var init, b := blocks[..|blocks| - 1], blocks[|blocks| - 1];
      ConvertsWholeBlocks(names, signatures, server, all, before, assistant, init);
      ConvertsSpots(names, signatures, server, all, before, assistant, init);
      ConvertsWhole(ConvertBlocks(names, assistant, signatures, init), signatures, server, all,
                    before + BlockSpots(assistant, init), Spot(assistant, b));
    }
  }

  // ----- Turns -----

  /** The same texts, joined by blank lines, and the same media. */
  ghost predicate SameContent(a: seq<OutPart>, b: seq<OutPart>) {
    && Join(AllTexts(a), Ascii("\n\n")) == Join(AllTexts(b), Ascii("\n\n"))
    && AllMedia(a) == AllMedia(b)
  }

  lemma SameBoth(a: seq<OutPart>, b: seq<OutPart>, x: seq<OutPart>, y: seq<OutPart>)
    requires SameContent(a, b) && SameContent(x, y)
    ensures SameContent(a + x, b + y)
  {
    AllAppend(a, x);
    AllAppend(b, y);
    JoinAppend(AllTexts(a), AllTexts(x), PARAGRAPH);
    JoinAppend(AllTexts(b), AllTexts(y), PARAGRAPH);
  }

  lemma SameTwice(a: seq<OutPart>, b: seq<OutPart>, c: seq<OutPart>)
    requires SameContent(a, b) && SameContent(b, c)
    ensures SameContent(a, c)
  {
  }

  lemma FoldSameContent(parts: seq<OutPart>)
    requires Fold(parts).Ok?
    ensures SameContent(Fold(parts).value, parts)
  {
    FoldKeepsEverything(parts);
  }

  lemma PartsOfSnoc(contents: seq<Turn>, t: Turn, roles: set<bool>)
    ensures PartsOf(contents + [t], roles) == PartsOf(contents, roles) + if t.user in roles then t.parts else []
  {
    SnocInit(contents, t);
  }

  lemma AddModelTurn(contents: seq<Turn>, parts: seq<OutPart>, roles: set<bool>)
    requires AddTurn(contents, false, parts).Ok?
    ensures PartsOf(AddTurn(contents, false, parts).value, roles) ==
            PartsOf(contents, roles) + if false in roles then parts else []
  {
    NothingAfter(PartsOf(contents, roles));
    if parts != [] {
      if contents == [] || contents[|contents| - 1].user {
        PartsOfSnoc(contents, Turn(false, parts), roles);
      } else {
        var init, last := contents[..|contents| - 1], contents[|contents| - 1].parts;
        PartsOfSnoc(init, Turn(false, last + parts), roles);
        PlusAssoc(PartsOf(init, roles), last, parts);
        NothingAfter(PartsOf(init, roles));
      }
    }
  }

  /** The turns a user's parts may not touch. */
  lemma UserTurnElsewhere(contents: seq<Turn>, parts: seq<OutPart>, roles: set<bool>)
    requires AddTurn(contents, true, parts).Ok? && true !in roles
    ensures PartsOf(AddTurn(contents, true, parts).value, roles) == PartsOf(contents, roles)
  {
    NothingAfter(PartsOf(contents, roles));
    if parts != [] {
      if contents == [] || !contents[|contents| - 1].user {
        PartsOfSnoc(contents, Turn(true, parts), roles);
      } else {
        var init := contents[..|contents| - 1];
        PartsOfSnoc(init, Turn(true, Fold(contents[|contents| - 1].parts + parts).value), roles);
      }
    }
  }

  lemma JoinUserTurn(contents: seq<Turn>, parts: seq<OutPart>, roles: set<bool>)
    returns (before: seq<OutPart>, last: seq<OutPart>)
    requires AddTurn(contents, true, parts).Ok? && true in roles
    requires parts != [] && contents != [] && contents[|contents| - 1].user
    ensures Fold(last + parts).Ok? && PartsOf(contents, roles) + parts == before + (last + parts)
    ensures PartsOf(AddTurn(contents, true, parts).value, roles) == before + Fold(last + parts).value
  {
    var init := contents[..|contents| - 1];
    before, last := PartsOf(init, roles), contents[|contents| - 1].parts;
    PartsOfSnoc(init, Turn(true, Fold(last + parts).value), roles);
    PlusAssoc(before, last, parts);
  }

  lemma AddUserTurn(contents: seq<Turn>, parts: seq<OutPart>, roles: set<bool>)
    requires AddTurn(contents, true, parts).Ok? && true in roles
    ensures SameContent(PartsOf(AddTurn(contents, true, parts).value, roles), PartsOf(contents, roles) + parts)
  {
    if parts == [] {
      NothingAfter(PartsOf(contents, roles));
    } else if contents == [] || !contents[|contents| - 1].user {
      PartsOfSnoc(contents, Turn(true, parts), roles);
    } else {
      var before, last := JoinUserTurn(contents, parts, roles);
      FoldSameContent(last + parts);
      SameBoth(before, before, Fold(last + parts).value, last + parts);
    }
  }

  lemma ContentIsWhole(names: Table, signatures: Table, server: Table, all: seq<Spot>, before: seq<Spot>, m: InMessage)
    requires NamesInUse(names, all, before) && SignaturesInUse(signatures, server, all) && Speaks(m)
    requires ConvertContent(names, m.role == Assistant, signatures, m.content).error.None?
    ensures var c := ConvertContent(names, m.role == Assistant, signatures, m.content);
            var w := WholeMessage(all, server, before, m);
            && SameContent(c.parts, w)
            && (m.role == Assistant ==> c.parts == w)
  {
    if m.content.BlockContent? {
      ConvertsWholeBlocks(names, signatures, server, all, before, m.role == Assistant, m.content.blocks);
      if m.role == User {
        FoldSameContent(ConvertBlocks(names, false, signatures, m.content.blocks).parts);
      }
    }
  }

  // ----- Conversations -----

  /** What is built so far holds what the messages said so far. */
  ghost predicate HoldsAll(b: Building, server: Table, all: seq<Spot>, messages: seq<InMessage>, roles: set<bool>) {
    && NamesInUse(b.names, all, Spots(messages))
    && SameContent(PartsOf(b.contents, roles), WholeAll(all, server, messages, roles))
    && (true !in roles ==> PartsOf(b.contents, roles) == WholeAll(all, server, messages, roles))
  }

  lemma HoldsMessage(b: Building, signatures: Table, server: Table, all: seq<Spot>, init: seq<InMessage>, m: InMessage,
                     roles: set<bool>)
    requires b.error.None? && HoldsAll(b, server, all, init, roles) && SignaturesInUse(signatures, server, all)
    requires BuildMessage(b, signatures, m).error.None? && Speaks(m)
    ensures var d := BuildMessage(b, signatures, m);
            var w := WholeAll(all, server, init, roles) +
                     if (m.role == User) in roles then WholeMessage(all, server, Spots(init), m) else [];
            && SameContent(PartsOf(d.contents, roles), w)
            && (true !in roles ==> PartsOf(d.contents, roles) == w)
  {
    var c := ConvertContent(b.names, m.role == Assistant, signatures, m.content);
    var w := WholeMessage(all, server, Spots(init), m);
    ContentIsWhole(b.names, signatures, server, all, Spots(init), m);
    if m.role == Assistant {
      AddModelTurn(b.contents, c.parts, roles);
      SameBoth(PartsOf(b.contents, roles), WholeAll(all, server, init, roles),
               if false in roles then c.parts else [], if false in roles then w else []);
    } else {
      if true in roles {
        AddUserTurn(b.contents, c.parts, roles);
        SameBoth(PartsOf(b.contents, roles), WholeAll(all, server, init, roles), c.parts, w);
        SameTwice(PartsOf(AddTurn(b.contents, true, c.parts).value, roles), PartsOf(b.contents, roles) + c.parts,
                  WholeAll(all, server, init, roles) + w);
      } else {
        UserTurnElsewhere(b.contents, c.parts, roles);
        NothingAfter(WholeAll(all, server, init, roles));
      }
    }
  }

  lemma {:induction false} HoldsConversation(start: Building, signatures: Table, server: Table, all: seq<Spot>,
                                             messages: seq<InMessage>, roles: set<bool>)
    requires start.error.None? && start.contents == [] && Built(start, server, all, [])
    requires SignaturesInUse(signatures, server, all) && BuildMessages(start, signatures, messages).error.None?
    ensures HoldsAll(BuildMessages(start, signatures, messages), server, all, messages, roles)
  {
    BuildsConversation(start, signatures, server, all, messages);
    if messages != [] {
      var init, m := messages[..|messages| - 1], messages[|messages| - 1];
      HoldsConversation(start, signatures, server, all, init, roles);
      if m.role == System {
        NothingAfter(WholeAll(all, server, init, roles));
      } else {
        HoldsMessage(BuildMessages(start, signatures, init), signatures, server, all, init, m, roles);
      }
    }
  }

  lemma Holds(messages: seq<InMessage>, server: Table, roles: set<bool>)
    requires Build(messages, server).Ok?
    ensures var b, w := Build(messages, server).value, WholeAll(Spots(messages), server, messages, roles);
            SameContent(PartsOf(b, roles), w) && (true !in roles ==> PartsOf(b, roles) == w)
  {
    var known := Learn(Known(map[], server), messages);
    LearnsConversation(server, messages);
    HoldsConversation(Building([], known.names, None), known.signatures, server, Spots(messages), messages, roles);
  }

  /**
   * For every accepted conversation the parts of the model turns are, one for one and in order, what the assistant's
   * blocks become: texts and calls with their resolved signatures, media, and tool results whole.
   */
  lemma ModelTurnsAreWhole(messages: seq<InMessage>, server: Table)
    requires Build(messages, server).Ok?
    ensures PartsOf(Build(messages, server).value, {false}) == WholeAll(Spots(messages), server, messages, {false})
  {
    Holds(messages, server, {false});
  }

  // ----- Texts and media of the messages themselves -----

  function BlockTexts(b: InBlock): seq<Str> {
    match b
    case InText(text, _) => if text == [] then [] else [text]
    case InMedia(document, source) => SourceText(document, source)
    case InToolResult(_, _, content) => [ReplyText(content)]
    case _ => []
  }

  function BlockMedia(b: InBlock): seq<Media> {
    match b
    case InMedia(document, source) => SourceMedia(document, source)
    case InToolResult(_, _, content) => ReplyMedia(content)
    case _ => []
  }

  function BlocksTexts(blocks: seq<InBlock>): seq<Str> {
    if blocks == [] then [] else BlocksTexts(blocks[..|blocks| - 1]) + BlockTexts(blocks[|blocks| - 1])
  }

  function BlocksMedia(blocks: seq<InBlock>): seq<Media> {
    if blocks == [] then [] else BlocksMedia(blocks[..|blocks| - 1]) + BlockMedia(blocks[|blocks| - 1])
  }

  function MessageTexts(m: InMessage): seq<Str> {
    if !Speaks(m) then []
    else match m.content
      case InvalidContent => []
      case StringContent(text) => if text == [] then [] else [text]
      case BlockContent(blocks) => BlocksTexts(blocks)
  }

  function MessageMedia(m: InMessage): seq<Media> {
    if Speaks(m) && m.content.BlockContent? then BlocksMedia(m.content.blocks) else []
  }

  /** All text of the messages of the given roles, tool results included. */
  function SaidBy(messages: seq<InMessage>, roles: set<bool>): seq<Str> {
    if messages == [] then []
    else
      var m := messages[|messages| - 1];
      SaidBy(messages[..|messages| - 1], roles) +
      if m.InMessage? && (m.role == User) in roles then MessageTexts(m) else []
  }

  function ShownBy(messages: seq<InMessage>, roles: set<bool>): seq<Media> {
    if messages == [] then []
    else
      var m := messages[|messages| - 1];
      ShownBy(messages[..|messages| - 1], roles) +
      if m.InMessage? && (m.role == User) in roles then MessageMedia(m) else []
  }

  lemma AllOfSingle(p: OutPart)
    ensures AllTexts([p]) == TextOf(p) && AllMedia([p]) == MediaIn(p)
  {
    assert [p][..0] == [];
    NothingBefore(TextOf(p));
    NothingBefore(MediaIn(p));
  }

  lemma WholeContent(all: seq<Spot>, server: Table, before: seq<Spot>, b: InBlock)
    ensures AllTexts(Whole(all, server, before, b)) == BlockTexts(b)
    ensures AllMedia(Whole(all, server, before, b)) == BlockMedia(b)
  {
    var w := Whole(all, server, before, b);
    if w != [] {
      WholeSingle(all, server, before, b);
      AllOfSingle(w[0]);
    }
  }

  lemma WholeSingle(all: seq<Spot>, server: Table, before: seq<Spot>, b: InBlock)
    requires Whole(all, server, before, b) != []
    ensures var w := Whole(all, server, before, b);
            w == [w[0]] && TextOf(w[0]) == BlockTexts(b) && MediaIn(w[0]) == BlockMedia(b)
  {
  }

  lemma {:induction false} WholeBlocksContent(all: seq<Spot>, server: Table, before: seq<Spot>, assistant: bool,
                                              blocks: seq<InBlock>)
    ensures AllTexts(WholeBlocks(all, server, before, assistant, blocks)) == BlocksTexts(blocks)
    ensures AllMedia(WholeBlocks(all, server, before, assistant, blocks)) == BlocksMedia(blocks)
  {
    if blocks != [] {
      var init, b := blocks[..|blocks| - 1], blocks[|blocks| - 1];
      WholeBlocksContent(all, server, before, assistant, init);
      WholeContent(all, server, before + BlockSpots(assistant, init), b);
      AllAppend(WholeBlocks(all, server, before, assistant, init),
                Whole(all, server, before + BlockSpots(assistant, init), b));
    }
  }

  lemma WholeMessageContent(all: seq<Spot>, server: Table, before: seq<Spot>, m: InMessage)
    ensures AllTexts(WholeMessage(all, server, before, m)) == MessageTexts(m)
    ensures AllMedia(WholeMessage(all, server, before, m)) == MessageMedia(m)
  {
    if Speaks(m) {
      match m.content
      case InvalidContent =>
      case StringContent(text) => AllOfSingle(TextPart(text, []));
      case BlockContent(blocks) => WholeBlocksContent(all, server, before, m.role == Assistant, blocks);
    }
  }

  lemma {:induction false} WholeAllContent(all: seq<Spot>, server: Table, messages: seq<InMessage>, roles: set<bool>)
    ensures AllTexts(WholeAll(all, server, messages, roles)) == SaidBy(messages, roles)
    ensures AllMedia(WholeAll(all, server, messages, roles)) == ShownBy(messages, roles)
  {
    if messages != [] {
      var init, m := messages[..|messages| - 1], messages[|messages| - 1];
      WholeAllContent(all, server, init, roles);
      WholeMessageContent(all, server, Spots(init), m);
      AllAppend(WholeAll(all, server, init, roles),
                if m.InMessage? && (m.role == User) in roles then WholeMessage(all, server, Spots(init), m) else []);
    }
  }

  /**
   * For every accepted conversation, and for user turns, model turns or all turns alike: the texts of the turns, tool
   * replies included, are those of the messages in order, joined by blank lines, and the media are those of the
   * messages in order. Folding and merging lose, duplicate and reorder nothing.
   */
  lemma ConversationKeepsEverything(messages: seq<InMessage>, server: Table, roles: set<bool>)
    requires Build(messages, server).Ok?
    ensures var parts := PartsOf(Build(messages, server).value, roles);
            && Join(AllTexts(parts), Ascii("\n\n")) == Join(SaidBy(messages, roles), Ascii("\n\n"))
            && AllMedia(parts) == ShownBy(messages, roles)
  {
    Holds(messages, server, roles);
    WholeAllContent(Spots(messages), server, messages, roles);
  }

  // ----- A single text block -----

  /** Block `j` of message `i`, which is the assistant's, is the text without a signature of its own. */
  predicate Echoes(messages: seq<InMessage>, i: nat, j: nat, text: Str) {
    && i < |messages| && messages[i].InMessage? && messages[i].role == Assistant
    && messages[i].content.BlockContent? && j < |messages[i].content.blocks|
    && messages[i].content.blocks[j] == InBlock.InText(text, [])
  }

  lemma {:induction false} TextInBlocks(all: seq<Spot>, server: Table, before: seq<Spot>, blocks: seq<InBlock>, j: nat)
    requires j < |blocks| && blocks[j].InText? && blocks[j].text != [] && blocks[j].signature == []
    ensures TextPart(blocks[j].text, SignatureFor(all, server, TextKey(blocks[j].text)))
            in WholeBlocks(all, server, before, true, blocks)
  {
    if j < |blocks| - 1 {
      TextInBlocks(all, server, before, blocks[..|blocks| - 1], j);
    }
  }

  lemma {:induction false} TextInAll(all: seq<Spot>, server: Table, messages: seq<InMessage>, i: nat, j: nat, text: Str)
    requires Echoes(messages, i, j, text) && text != []
    ensures TextPart(text, SignatureFor(all, server, TextKey(text))) in WholeAll(all, server, messages, {false})
  {
    var n := |messages| - 1;
    if i < n {
      TextInAll(all, server, messages[..n], i, j, text);
    } else {
      TextInBlocks(all, server, Spots(messages[..n]), messages[n].content.blocks, j);
    }
  }

  /**
   * In every accepted conversation, an assistant's text block without a signature, wherever it stands, becomes a text
   * part of a model turn with the signature of the last carrier for its text or else the server's.
   */
  lemma EchoedTextIsSigned(messages: seq<InMessage>, server: Table, i: nat, j: nat, text: Str)
    requires Build(messages, server).Ok? && Echoes(messages, i, j, text) && text != []
    ensures TextPart(text, SignatureFor(Spots(messages), server, TextKey(text)))
            in PartsOf(Build(messages, server).value, {false})
  {
    ModelTurnsAreWhole(messages, server);
    TextInAll(Spots(messages), server, messages, i, j, text);
  }
}
