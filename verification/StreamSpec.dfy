/** The streaming converter as a state machine on values; the class of module StreamConverter implements it. */
module StreamSpec {
  import opened Bytes
  import opened StopFilter
  import opened AnthropicEvents
  import opened GeminiModel

  /** One data event of the upstream stream. `Blank` is an empty or [DONE] event. */
  datatype Chunk =
    | Blank
    | NotJson
    | UpstreamError(message: Str)
    | Chunk(responseId: Str, model: Str, blockReason: Str, finish: Option<Str>, content: Content)

  datatype Config = Config(stops: seq<Str>, fallbackModel: Str)

  datatype Memo = Memo(key: Str, signature: Str)

  /** The closure variables of the source, the events written so far and the signatures handed to the store. */
  datatype Conv = Conv(
    started: bool, messageId: Str, model: Str,
    nextIndex: nat, textOpen: bool, textIndex: nat, currentText: Str, currentSignature: Str,
    finish: Option<Str>, hasToolUse: bool,
    filter: FilterState, matchedStop: Str, emittedCalls: map<Str, nat>,
    ids: nat, trace: seq<Event>, remembered: seq<Memo>)

  function Initial(ids: nat): Conv {
    Conv(false, [], [], 0, false, 0, [], [], None, false, FRESH, [], map[], ids, [], [])
  }

  datatype Step = Step(conv: Conv, failure: Option<Failure>)

  function StartMessage(c: Conv, cfg: Config): Conv {
    if c.started then c
    else
      var id := if c.messageId == [] then SynthesizedMessageId(c.ids) else c.messageId;
      var model := if c.model == [] then cfg.fallbackModel else c.model;
      c.(started := true, messageId := id, model := model,
         ids := if c.messageId == [] then c.ids + 1 else c.ids,
         trace := c.trace + [MessageStart(id, model)])
  }

  function CloseText(c: Conv): Conv {
    if !c.textOpen then c
    else
      c.(remembered := if c.currentSignature == [] then c.remembered
                       else c.remembered + [Memo(TextKey(c.currentText), c.currentSignature)],
         trace := c.trace + [BlockStop(c.textIndex)],
         currentText := [], currentSignature := [], textOpen := false)
  }

  function OpenText(c: Conv, signature: Str): Conv {
    if c.textOpen then c
    else
      c.(textIndex := c.nextIndex, nextIndex := c.nextIndex + 1, textOpen := true,
         trace := c.trace + [BlockStart(c.nextIndex, Text([], signature))])
  }

  function AppendText(c: Conv, text: Str, signature: Str): Conv {
    c.(currentText := c.currentText + text,
       currentSignature := if signature == [] then c.currentSignature else signature,
       trace := c.trace + [BlockDelta(c.textIndex, TextDelta(text))])
  }

  /** The part of emitText behind the filter: non-empty visible text reaches the client. */
  function ShowText(c: Conv, cfg: Config, text: Str, signature: Str): Conv {
    AppendText(OpenText(StartMessage(c, cfg), signature), text, signature)
  }

  /** The state behind the filter. */
  function Filtered(c: Conv, r: Fed): Conv {
    c.(filter := r.next, matchedStop := if r.matched == [] then c.matchedStop else r.matched)
  }

  ghost function EmitText(c: Conv, cfg: Config, stops: seq<Str>, text: Str, signature: Str): Conv {
    if text == [] then c
    else
      var r := FeedText(stops, c.filter, text);
      var fed := Filtered(c, r);
      if r.visible == [] then fed else ShowText(fed, cfg, r.visible, signature)
  }

  /** The events of one whole block that is opened, filled and closed at once. */
  function BlockEvents(index: nat, b: Block): seq<Event> {
    match b
    case Tool(id, name, input, signature) =>
      [BlockStart(index, Tool(id, name, [], signature)), BlockDelta(index, JsonDelta(input)), BlockStop(index)]
    case _ => [BlockStart(index, b), BlockStop(index)]
  }

  function ShowBlock(c: Conv, b: Block): Conv {
    c.(nextIndex := c.nextIndex + 1, trace := c.trace + BlockEvents(c.nextIndex, b))
  }

  function ShowCall(c: Conv, id: Str, call: Call, signature: Str): Conv {
    var r := if signature == [] then c
             else ShowBlock(c.(remembered := c.remembered + [Memo(ToolKey(id), signature)]),
                            Carrier(ToolKey(id), signature));
    ShowBlock(r, Tool(id, call.name, ObjectOrEmpty(call.args), signature)).(hasToolUse := true)
  }

  /** A tool call starts with the message open and no text block open. */
  function Prepared(c: Conv, cfg: Config): Conv {
    CloseText(StartMessage(c, cfg))
  }

  /** The id a call gets: its own, or a synthesized one. */
  function IdFor(c: Conv, call: Call): Str {
    if call.id == [] then SynthesizedToolId(c.ids) else call.id
  }

  function TakeId(c: Conv, call: Call): Conv {
    if call.id == [] then c.(ids := c.ids + 1) else c
  }

  function EmitTool(c: Conv, cfg: Config, call: Call, signature: Str): Step {
    if c.matchedStop != [] then Step(c, None)
    else
      var s := Prepared(c, cfg);
      if call.name == [] then Step(TakeId(s, call), Some(MissingName))
      else Step(ShowCall(TakeId(s, call), IdFor(s, call), call, signature), None)
  }

  /** Progress through the parts of a chunk; `seen` counts the calls of this chunk by fingerprint. */
  datatype Scan = Scan(conv: Conv, seen: map<Str, nat>, failure: Option<Failure>)

  ghost function ScanText(c: Conv, cfg: Config, p: Part): Conv
    requires p.Part?
  {
    if p.text.None? then c
    else if p.text.value != [] then EmitText(c, cfg, cfg.stops, p.text.value, p.signature)
    else if p.signature != [] && c.textOpen then c.(currentSignature := p.signature)
    else c
  }

  function ScanCall(s: Scan, cfg: Config, call: Call, signature: Str): Scan {
    var fp := CallFingerprint(call, signature);
    var n := CountOf(s.seen, fp) + 1;
    if n <= CountOf(s.conv.emittedCalls, fp) then s.(seen := s.seen[fp := n])
    else Counted(EmitTool(s.conv, cfg, call, signature), s.seen, fp, n)
  }

  /** A call counts as emitted once emitTool has returned without a failure. */
  function Counted(r: Step, seen: map<Str, nat>, fp: Str, n: nat): Scan {
    if r.failure.Some? then Scan(r.conv, seen[fp := n], r.failure)
    else Scan(r.conv.(emittedCalls := r.conv.emittedCalls[fp := n]), seen[fp := n], None)
  }

  ghost function ScanPart(s: Scan, cfg: Config, p: Part): Scan {
    if s.failure.Some? then s
    else if p.Malformed? then s.(failure := Some(BadCandidate))
    else if p.thought then s
    else
      var t := s.(conv := ScanText(s.conv, cfg, p));
      if p.call.None? then t else ScanCall(t, cfg, p.call.value, p.signature)
  }

  ghost function ScanParts(c: Conv, cfg: Config, parts: seq<Part>): Scan {
    if parts == [] then Scan(c, map[], None)
    else ScanPart(ScanParts(c, cfg, parts[..|parts| - 1]), cfg, parts[|parts| - 1])
  }

  /** The message id and model are taken from the first chunk that names them. */
  function Identify(c: Conv, chunk: Chunk): Conv
    requires chunk.Chunk?
  {
    c.(messageId := if c.messageId == [] then chunk.responseId else c.messageId,
       model := if c.model == [] then chunk.model else c.model)
  }

  ghost function ProcessData(c: Conv, cfg: Config, chunk: Chunk): Step {
    match chunk
    case Blank => Step(c, None)
    case NotJson => Step(c, Some(Undecodable))
    case UpstreamError(message) => Step(c, Some(Upstream(message)))
    case Chunk(_, _, blockReason, finish, content) =>
      var n := Identify(c, chunk);
      if blockReason != [] then
        Step(EmitText(n.(finish := Some(SAFETY)), cfg, cfg.stops, BLOCKED + blockReason, []), None)
      else if !ValidContent(content) then Step(n, Some(BadCandidate))
      else
        var s := ScanParts(n.(finish := if finish.Some? then finish else n.finish), cfg, content.parts);
        Step(s.conv, s.failure)
  }

  ghost function ProcessAll(cfg: Config, ids: nat, chunks: seq<Chunk>): Step {
    if chunks == [] then Step(Initial(ids), None)
    else
      var before := ProcessAll(cfg, ids, chunks[..|chunks| - 1]);
      if before.failure.Some? then before else ProcessData(before.conv, cfg, chunks[|chunks| - 1])
  }

  /** The held-back tail is shown with the stop list switched off. */
  ghost function FlushTail(c: Conv, cfg: Config): Conv {
    if c.matchedStop != [] then c
    else
      var tail := if c.filter.stopped then [] else c.filter.pending;
      var f := if c.filter.stopped then c else c.(filter := c.filter.(pending := []));
      EmitText(f, cfg, [], tail, [])
  }

  function Conclude(c: Conv): Conv {
    c.(trace := c.trace + [
         if c.matchedStop != [] then MessageDelta(StopSequence, Some(c.matchedStop))
         else MessageDelta(MapFinishReason(c.finish, c.hasToolUse), None),
         MessageStop])
  }

  ghost function Failing(step: Step, readFailed: bool): Option<Failure> {
    if step.failure.Some? then step.failure else if readFailed then Some(ReadFailed) else None
  }

  /** A whole run over the chunks of one response; `readFailed` says that reading the upstream ended in an error. */
  ghost function RunStream(cfg: Config, ids: nat, chunks: seq<Chunk>, readFailed: bool): Step {
    var step := ProcessAll(cfg, ids, chunks);
    var failure := Failing(step, readFailed);
    if failure.Some? then Step(step.conv.(trace := step.conv.trace + [Error(failure.value)]), failure)
    else Step(Conclude(CloseText(StartMessage(FlushTail(step.conv, cfg), cfg))), None)
  }
}
