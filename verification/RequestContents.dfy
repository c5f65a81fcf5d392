/** Translation of an Anthropic message list into Gemini turns. */
module RequestContents {
  import opened Bytes
  import opened GeminiModel
  import opened RequestModel
  import opened FoldSupplements

  type Table = map<Str, Str>

  /** Go's lookup in a map of strings: a missing key reads as "". */
  function Lookup(m: Table, key: Str): Str {
    if key in m then m[key] else []
  }

  // ----- Tool results -----

  datatype Gathered = Gathered(texts: seq<Str>, media: seq<Media>, error: Option<RequestError>)

  function GatherOne(g: Gathered, b: ResultBlock): Gathered {
    if g.error.Some? then g
    else match b
      case ResultUnknown => g.(error := Some(UnsupportedResultBlock))
      case ResultText(text) => if text == [] then g else g.(texts := g.texts + [text])
      case ResultMedia(document, source) =>
        var part := MediaOf(document, source);
        if part.Err? then g.(error := Some(part.error))
        else if part.value.MediaPart? then
          if ResultMime(part.value.media) then g.(media := g.media + [part.value.media])
          else g.(error := Some(UnsupportedMime))
        else if part.value.TextPart? then g.(texts := g.texts + [part.value.text])
        else g
  }

  function Gather(blocks: seq<ResultBlock>): Gathered {
    if blocks == [] then Gathered([], [], None) else GatherOne(Gather(blocks[..|blocks| - 1]), blocks[|blocks| - 1])
  }

  datatype ToolReply = ToolReply(reply: Reply, media: seq<Media>)

  function NormalizeToolResult(isError: Flag, content: ResultContent): Result<ToolReply, RequestError> {
    if isError.NotABoolean? then Err(ErrorFlagNotBoolean)
    else
      var failed := isError.Flag? && isError.value;
      match content
      case ResultInvalid => Err(ResultContentInvalid)
      case ResultNull => Ok(ToolReply(Reply(failed, []), []))
      case ResultString(text) => Ok(ToolReply(Reply(failed, text), []))
      case ResultBlocks(blocks) =>
        var g := Gather(blocks);
        if g.error.Some? then Err(g.error.value) else Ok(ToolReply(Reply(failed, Join(g.texts, LINE)), g.media))
  }

  // ----- Content blocks -----

  function TextSignature(signatures: Table, text: Str, signature: Str): Str {
    if signature != [] then signature else Lookup(signatures, TextKey(text))
  }

  /** A call without its own signature looks under its tool key, then under its raw id. */
  function CallSignature(signatures: Table, id: Str, signature: Str): Str {
    if signature != [] || id == [] then signature
    else if Lookup(signatures, ToolKey(id)) != [] then Lookup(signatures, ToolKey(id))
    else Lookup(signatures, id)
  }

  /** Synthesized ids stay on this side. */
  function OutId(id: Str): Str {
    if HasPrefix(id, SYNTHESIZED_TOOL) then [] else id
  }

  /** Progress through the blocks of a message; `names` maps tool ids to tool names. */
  datatype Conversion = Conversion(parts: seq<OutPart>, names: Table, error: Option<RequestError>)

  function Add(c: Conversion, p: OutPart): Conversion {
    c.(parts := c.parts + [p])
  }

  function Fail(c: Conversion, e: RequestError): Conversion {
    c.(error := Some(e))
  }

  function ConvertToolUse(c: Conversion, assistant: bool, signatures: Table, b: InBlock): Conversion
    requires b.InToolUse?
  {
    if !assistant then Fail(c, ToolUseOutsideAssistant)
    else if b.name == [] then Fail(c, ToolUseWithoutName)
    else
      var d := if b.id == [] then c else c.(names := c.names[b.id := b.name]);
      if b.input.InvalidInput? then Fail(d, InputNotObject)
      else
        Add(d, CallPart(OutId(b.id), b.name, if b.input.ObjectInput? then b.input.json else EMPTY_OBJECT,
                        CallSignature(signatures, b.id, b.signature)))
  }

  function ConvertToolResult(c: Conversion, b: InBlock): Conversion
    requires b.InToolResult?
  {
    var name := Lookup(c.names, b.toolUseId);
    if name == [] then Fail(c, UnresolvedToolResult)
    else
      var r := NormalizeToolResult(b.isError, b.content);
      if r.Err? then Fail(c, r.error)
      else Add(c, ResponsePart(OutId(b.toolUseId), name, r.value.reply, r.value.media))
  }

  function ConvertBlock(c: Conversion, assistant: bool, signatures: Table, b: InBlock): Conversion {
    if c.error.Some? then c
    else match b
      case NotABlock => Fail(c, BlockNotObject)
      case UnknownBlock => Fail(c, UnsupportedBlock)
      case Thinking => c
      case Redacted(_) => c
      case InText(text, signature) =>
        if text == [] then c else Add(c, TextPart(text, TextSignature(signatures, text, signature)))
      case InMedia(document, source) =>
        var part := MediaOf(document, source);
        if part.Err? then Fail(c, part.error) else Add(c, part.value)
      case InToolUse(_, _, _, _) => ConvertToolUse(c, assistant, signatures, b)
      case InToolResult(_, _, _) => ConvertToolResult(c, b)
  }

  function ConvertBlocks(names: Table, assistant: bool, signatures: Table, blocks: seq<InBlock>): Conversion {
    if blocks == [] then Conversion([], names, None)
    else
      ConvertBlock(ConvertBlocks(names, assistant, signatures, blocks[..|blocks| - 1]), assistant, signatures,
                   blocks[|blocks| - 1])
  }

  /** A user's parts are folded. */
  function Settle(c: Conversion, assistant: bool): Conversion {
    if c.error.Some? || assistant then c
    else
      var f := Fold(c.parts);
      if f.Err? then Fail(c, f.error) else c.(parts := f.value)
  }

  function ConvertContent(names: Table, assistant: bool, signatures: Table, content: InContent): Conversion {
    match content
    case InvalidContent => Conversion([], names, Some(ContentInvalid))
    case StringContent(text) => Conversion(if text == [] then [] else [TextPart(text, [])], names, None)
    case BlockContent(blocks) => Settle(ConvertBlocks(names, assistant, signatures, blocks), assistant)
  }

  // ----- Messages -----

  /** What the first pass over the assistant messages collects. */
  datatype Known = Known(names: Table, signatures: Table)

  function LearnBlock(k: Known, b: InBlock): Known {
    match b
    case Redacted(carried) =>
      if carried.Some? && carried.value.key != [] && carried.value.signature != [] then
        k.(signatures := k.signatures[carried.value.key := carried.value.signature])
      else k
    case InToolUse(id, name, _, _) =>
      if id != [] && name != [] then k.(names := k.names[id := name]) else k
    case _ => k
  }

  function LearnBlocks(k: Known, blocks: seq<InBlock>): Known {
    if blocks == [] then k else LearnBlock(LearnBlocks(k, blocks[..|blocks| - 1]), blocks[|blocks| - 1])
  }

  function LearnMessage(k: Known, m: InMessage): Known {
    if m.InMessage? && m.role == Assistant && m.content.BlockContent? then LearnBlocks(k, m.content.blocks) else k
  }

  function Learn(start: Known, messages: seq<InMessage>): Known {
    if messages == [] then start
    else LearnMessage(Learn(start, messages[..|messages| - 1]), messages[|messages| - 1])
  }

  datatype Building = Building(contents: seq<Turn>, names: Table, error: Option<RequestError>)

  /** Parts join the previous turn if it has the same role; a user turn is then folded again. */
  function AddTurn(contents: seq<Turn>, user: bool, parts: seq<OutPart>): Result<seq<Turn>, RequestError> {
    var last := |contents| - 1;
    if parts == [] then Ok(contents)
    else if contents == [] || contents[last].user != user then Ok(contents + [Turn(user, parts)])
    else
      var merged := if user then Fold(contents[last].parts + parts) else Ok(contents[last].parts + parts);
      if merged.Err? then Err(merged.error) else Ok(contents[..last] + [Turn(user, merged.value)])
  }

  function BuildMessage(b: Building, signatures: Table, m: InMessage): Building {
    if b.error.Some? then b
    else if m.NotAMessage? then b.(error := Some(MessageNotObject))
    else if m.role == System then b
    else if m.role == UnknownRole then b.(error := Some(UnsupportedRole))
    else
      var c := ConvertContent(b.names, m.role == Assistant, signatures, m.content);
      if c.error.Some? then Building(b.contents, c.names, c.error)
      else
        var turns := AddTurn(b.contents, m.role == User, c.parts);
        if turns.Err? then Building(b.contents, c.names, Some(turns.error)) else Building(turns.value, c.names, None)
  }

  function BuildMessages(start: Building, signatures: Table, messages: seq<InMessage>): Building {
    if messages == [] then start
    else
      BuildMessage(BuildMessages(start, signatures, messages[..|messages| - 1]), signatures, messages[|messages| - 1])
  }

  predicate AllObjects(messages: seq<InMessage>) {
    forall i :: 0 <= i < |messages| ==> messages[i].InMessage?
  }

  function Build(messages: seq<InMessage>, signatures: Table): Result<seq<Turn>, RequestError> {
    if !AllObjects(messages) then Err(MessageNotObject)
    else
      var known := Learn(Known(map[], signatures), messages);
      var b := BuildMessages(Building([], known.names, None), known.signatures, messages);
      if b.error.Some? then Err(b.error.value) else Ok(b.contents)
  }

  // ----- The loops of the source -----

  method NormalizeResult(isError: Flag, content: ResultContent) returns (r: Result<ToolReply, RequestError>)
    ensures r == NormalizeToolResult(isError, content)
  {
    if isError.NotABoolean? {
      return Err(ErrorFlagNotBoolean);
    }
    var failed := isError.Flag? && isError.value;
    match content
    case ResultInvalid => return Err(ResultContentInvalid);
    case ResultNull => return Ok(ToolReply(Reply(failed, []), []));
    case ResultString(text) => return Ok(ToolReply(Reply(failed, text), []));
    case ResultBlocks(blocks) =>
      var g := Gathered([], [], None);
      var i := 0;
      while i < |blocks| && g.error.None?
        invariant i <= |blocks| && g == Gather(blocks[..i])
      {
        assert blocks[..i + 1][..i] == blocks[..i];
        g := GatherOne(g, blocks[i]);
        i := i + 1;
      }
      TakeAll(blocks);
      if g.error.Some? {
        GatherFailed(blocks, i);
        return Err(g.error.value);
      }
      return Ok(ToolReply(Reply(failed, Join(g.texts, LINE)), g.media));
  }

  method ConvertBlockList(names: Table, assistant: bool, signatures: Table, blocks: seq<InBlock>)
    returns (c: Conversion)
    ensures c == Settle(ConvertBlocks(names, assistant, signatures, blocks), assistant)
  {
    c := Conversion([], names, None);
    for i := 0 to |blocks|
      invariant c.error.None? && c == ConvertBlocks(names, assistant, signatures, blocks[..i])
    {
      assert blocks[..i + 1][..i] == blocks[..i];
      c := ConvertBlock(c, assistant, signatures, blocks[i]);
      if c.error.Some? {
        BlocksFailed(names, assistant, signatures, blocks, i + 1);
        return;
      }
    }
    TakeAll(blocks);
    if !assistant {
      var folded := FoldFunctionResponseSupplements(c.parts);
      if folded.Err? {
        c := Fail(c, folded.error);
      } else {
        c := c.(parts := folded.value);
      }
    }
  }

  method LearnFrom(signatures: Table, messages: seq<InMessage>) returns (r: Option<Known>)
    ensures r == if AllObjects(messages) then Some(Learn(Known(map[], signatures), messages)) else None
  {
    var known := Known(map[], signatures);
    for i := 0 to |messages|
      invariant AllObjects(messages[..i]) && known == Learn(Known(map[], signatures), messages[..i])
    {
      var message := messages[i];
      assert messages[..i + 1][..i] == messages[..i];
      if message.NotAMessage? {
        return None;
      }
      if message.role != Assistant || !message.content.BlockContent? {
        continue;
      }
      var blocks := message.content.blocks;
      ghost var before := known;
      for j := 0 to |blocks|
        invariant known == LearnBlocks(before, blocks[..j])
      {
        assert blocks[..j + 1][..j] == blocks[..j];
        var block := blocks[j];
        if block.Redacted? {
          if block.carried.Some? && block.carried.value.key != [] && block.carried.value.signature != [] {
            known := known.(signatures := known.signatures[block.carried.value.key := block.carried.value.signature]);
          }
          continue;
        }
        if block.InToolUse? && block.id != [] && block.name != [] {
          known := known.(names := known.names[block.id := block.name]);
        }
      }
      TakeAll(blocks);
    }
    TakeAll(messages);
    return Some(known);
  }

  method BuildContents(messages: seq<InMessage>, signatures: Table) returns (r: Result<seq<Turn>, RequestError>)
    ensures r == Build(messages, signatures)
  {
    var known := LearnFrom(signatures, messages);
    if known.None? {
      return Err(MessageNotObject);
    }
    var contents: seq<Turn> := [];
    var names, merged := known.value.names, known.value.signatures;
    ghost var start := Building([], names, None);
    for i := 0 to |messages|
      invariant Building(contents, names, None) == BuildMessages(start, merged, messages[..i])
    {
      var message := messages[i];
      assert messages[..i + 1][..i] == messages[..i];
      if message.role == System {
        continue;
      }
      if message.role == UnknownRole {
        MessagesFailed(start, merged, messages, i + 1);
        return Err(UnsupportedRole);
      }
      var c: Conversion;
      match message.content {
        case InvalidContent => c := Conversion([], names, Some(ContentInvalid));
        case StringContent(text) => c := Conversion(if text == [] then [] else [TextPart(text, [])], names, None);
        case BlockContent(blocks) => c := ConvertBlockList(names, message.role == Assistant, merged, blocks);
      }
      if c.error.Some? {
        MessagesFailed(start, merged, messages, i + 1);
        return Err(c.error.value);
      }
      names := c.names;
      var turns := Merge(contents, message.role == User, c.parts);
      if turns.Err? {
        MessagesFailed(start, merged, messages, i + 1);
        return Err(turns.error);
      }
      contents := turns.value;
    }
    TakeAll(messages);
    return Ok(contents);
  }

  /** The merging step of the message loop. */
  method Merge(contents: seq<Turn>, user: bool, parts: seq<OutPart>) returns (r: Result<seq<Turn>, RequestError>)
    ensures r == AddTurn(contents, user, parts)
  {
    if parts == [] {
      return Ok(contents);
    }
    var last := |contents| - 1;
    if contents != [] && contents[last].user == user {
      var mergedParts := contents[last].parts + parts;
      if user {
        var folded := FoldFunctionResponseSupplements(mergedParts);
        if folded.Err? {
          return Err(folded.error);
        }
        mergedParts := folded.value;
      }
      return Ok(contents[..last] + [Turn(user, mergedParts)]);
    }
    return Ok(contents + [Turn(user, parts)]);
  }

  lemma {:induction false} GatherFailed(blocks: seq<ResultBlock>, i: nat)
    requires i <= |blocks| && Gather(blocks[..i]).error.Some?
    ensures Gather(blocks) == Gather(blocks[..i])
  {
    if i == |blocks| {
      TakeAll(blocks);
    } else {
      TakeOfInit(blocks, i);
      GatherFailed(blocks[..|blocks| - 1], i);
    }
  }

  lemma {:induction false} BlocksFailed(names: Table, assistant: bool, signatures: Table, blocks: seq<InBlock>, i: nat)
    requires i <= |blocks| && ConvertBlocks(names, assistant, signatures, blocks[..i]).error.Some?
    ensures ConvertBlocks(names, assistant, signatures, blocks) ==
            ConvertBlocks(names, assistant, signatures, blocks[..i])
  {
    if i == |blocks| {
      TakeAll(blocks);
    } else {
      TakeOfInit(blocks, i);
      BlocksFailed(names, assistant, signatures, blocks[..|blocks| - 1], i);
    }
  }

  lemma {:induction false} MessagesFailed(start: Building, signatures: Table, messages: seq<InMessage>, i: nat)
    requires i <= |messages| && BuildMessages(start, signatures, messages[..i]).error.Some?
    ensures BuildMessages(start, signatures, messages) == BuildMessages(start, signatures, messages[..i])
  {
    if i == |messages| {
      TakeAll(messages);
    } else {
      TakeOfInit(messages, i);
      MessagesFailed(start, signatures, messages[..|messages| - 1], i);
    }
  }
}
