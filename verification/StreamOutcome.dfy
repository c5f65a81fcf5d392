/** How a streaming run ends, and under which name it starts. */
module StreamOutcome {
  import opened Bytes
  import opened StopFilter
  import opened AnthropicEvents
  import opened GeminiModel
  import opened StreamSpec
  import opened StreamLegality
  import opened StreamText
  import opened StopReasons
  import Calls = StreamCalls

  // ----- Failures -----

  /** What is wrong with a chunk, if anything. A blocked prompt is not: it is answered with a text. */
  function Fault(chunk: Chunk): Option<Failure> {
    match chunk
    case Blank => None
    case NotJson => Some(Undecodable)
    case UpstreamError(message) => Some(Upstream(message))
    case Chunk(_, _, blockReason, _, content) =>
      if blockReason == [] && !Readable(content) then Some(BadCandidate) else None
  }

  /** Parts are objects of the right types, and calls have names. */
  predicate Readable(content: Content) {
    && content.Parts?
    && forall i :: 0 <= i < |content.parts| ==>
         content.parts[i].Part? && (content.parts[i].call.Some? ==> content.parts[i].call.value.name != [])
  }

  function FirstFault(chunks: seq<Chunk>): Option<Failure> {
    if chunks == [] then None
    else
      var before := FirstFault(chunks[..|chunks| - 1]);
      if before.Some? then before else Fault(chunks[|chunks| - 1])
  }

  lemma {:induction false} ReadablePartsPass(c: Conv, cfg: Config, parts: seq<Part>)
    requires Readable(Content.Parts(parts))
    ensures ScanParts(c, cfg, parts).failure.None?
  {
    if parts != [] {
      var init := parts[..|parts| - 1];
      var whole := Content.Parts(parts);
      assert forall i :: 0 <= i < |init| ==> init[i] == whole.parts[i];
      ReadablePartsPass(c, cfg, init);
    }
  }

  lemma ReadableIsValid(content: Content)
    ensures ValidContent(content) <==> Readable(content)
  {
    if content.Parts? {
      var parts := content.parts;
      assert forall i :: 0 <= i < |parts| ==>
        (ValidPart(parts[i]) <==> parts[i].Part? && (parts[i].call.Some? ==> parts[i].call.value.name != []));
    }
  }

  lemma ChunkFails(c: Conv, cfg: Config, chunk: Chunk)
    ensures ProcessData(c, cfg, chunk).failure == Fault(chunk)
  {
    if chunk.Chunk? && chunk.blockReason == [] {
      ReadableIsValid(chunk.content);
      if Readable(chunk.content) {
        ReadablePartsPass(Identify(c, chunk).(finish := if chunk.finish.Some? then chunk.finish else c.finish), cfg,
                          chunk.content.parts);
      }
    }
  }

  lemma {:induction false} ChunksFail(cfg: Config, ids: nat, chunks: seq<Chunk>)
    ensures ProcessAll(cfg, ids, chunks).failure == FirstFault(chunks)
  {
    if chunks != [] {
      ChunksFail(cfg, ids, chunks[..|chunks| - 1]);
      ChunkFails(ProcessAll(cfg, ids, chunks[..|chunks| - 1]).conv, cfg, chunks[|chunks| - 1]);
    }
  }

  /**
   * A run fails with the first fault of its chunks, or else if reading failed, and in no other case. The client is told
   * by the last event.
   */
  lemma FailsExactly(cfg: Config, ids: nat, chunks: seq<Chunk>, readFailed: bool)
    ensures var r := RunStream(cfg, ids, chunks, readFailed);
            && r.failure == (if FirstFault(chunks).Some? then FirstFault(chunks)
                             else if readFailed then Some(ReadFailed) else None)
            && (r.failure.Some? ==> r.conv.trace != [] && r.conv.trace[|r.conv.trace| - 1] == Error(r.failure.value))
  {
    ChunksFail(cfg, ids, chunks);
  }

  /** No chunk is at fault up to `k`, and the one there is, if there is one. */
  predicate FaultAt(chunks: seq<Chunk>, k: nat) {
    && k <= |chunks| && FirstFault(chunks[..k]) == None && (k < |chunks| ==> Fault(chunks[k]).Some?)
  }

  lemma {:induction false} StopsAtFault(cfg: Config, ids: nat, chunks: seq<Chunk>, k: nat)
    requires FaultAt(chunks, k)
    ensures ProcessAll(cfg, ids, chunks).conv.trace == ProcessAll(cfg, ids, chunks[..k]).conv.trace
    ensures k < |chunks| ==> ProcessAll(cfg, ids, chunks).failure.Some?
  {
    if k == |chunks| {
      TakeAll(chunks);
    } else {
      var init, chunk := chunks[..|chunks| - 1], chunks[|chunks| - 1];
      TakeOfInit(chunks, k);
      ChunksFail(cfg, ids, chunks[..k]);
      StopsAtFault(cfg, ids, init, k);
      ChunkFails(ProcessAll(cfg, ids, init).conv, cfg, chunk);
      FaultWritesNothing(ProcessAll(cfg, ids, init).conv, cfg, chunk);
      ChunksFail(cfg, ids, init);
    }
  }

  lemma FaultWritesNothing(c: Conv, cfg: Config, chunk: Chunk)
    ensures Fault(chunk).Some? ==> ProcessData(c, cfg, chunk).conv.trace == c.trace
  {
    if chunk.Chunk? {
      ReadableIsValid(chunk.content);
    }
  }

  /**
   * A run that fails leaves the client with all the text that the filter has released over the chunks before the fault;
   * what it held back is not shown.
   */
  lemma FailedRunKeepsText(cfg: Config, ids: nat, chunks: seq<Chunk>, readFailed: bool, k: nat)
    requires FaultAt(chunks, k) && RunStream(cfg, ids, chunks, readFailed).failure.Some?
    ensures DeltaText(RunStream(cfg, ids, chunks, readFailed).conv.trace) == Run(cfg.stops, Handed(chunks[..k])).visible
  {
    var c := ProcessAll(cfg, ids, chunks[..k]).conv;
    ChunksFail(cfg, ids, chunks[..k]);
    ProcessAllText(cfg, ids, chunks[..k]);
    StopsAtFault(cfg, ids, chunks, k);
    DeltaTextSnoc(c.trace, Error(RunStream(cfg, ids, chunks, readFailed).failure.value));
    NothingAfter(DeltaText(c.trace));
  }

  // ----- The stop reason -----

  /** The last finish reason the chunks name; a blocked prompt counts as one. */
  function LastReason(chunks: seq<Chunk>): Option<Str> {
    if chunks == [] then None
    else
      var chunk := chunks[|chunks| - 1];
      if chunk.Chunk? && chunk.blockReason != [] then Some(Ascii("SAFETY"))
      else if chunk.Chunk? && chunk.finish.Some? then chunk.finish
      else LastReason(chunks[..|chunks| - 1])
  }

  ghost predicate HasTool(blocks: seq<Block>) {
    exists i :: 0 <= i < |blocks| && blocks[i].Tool?
  }

  ghost function Anything(): iset<Calls.Shape> {
    iset t: Calls.Shape {:trigger Calls.Key(t)} | true
  }

  lemma {:induction false} ToolsAreCounted(blocks: seq<Block>)
    ensures HasTool(blocks) <==> Calls.BlockCalls(blocks, Anything()) > 0
  {
    if blocks != [] {
      var n := |blocks| - 1;
      ToolsAreCounted(blocks[..n]);
      InitLast(blocks);
      if HasTool(blocks) && !blocks[n].Tool? {
        var i :| 0 <= i < |blocks| && blocks[i].Tool?;
        assert blocks[..n][i].Tool?;
      }
    }
  }

  /** The flag for the stop reason says whether the client has a tool_use block. */
  ghost predicate Flagged(c: Conv) {
    Coherent(c) && (c.hasToolUse <==> Calls.BlockCalls(Shown(c), Anything()) > 0)
  }

  lemma TextFlagged(c: Conv, cfg: Config, stops: seq<Str>, text: Str, signature: Str)
    requires Flagged(c)
    ensures var d := EmitText(c, cfg, stops, text, signature); Flagged(d) && d.finish == c.finish
  {
    if text != [] {
      Calls.TextMakesNoCall(c, cfg, stops, text, signature, Anything());
      EmitTextFrame(c, cfg, stops, text, signature);
    }
  }

  lemma ToolFlagged(c: Conv, cfg: Config, call: Call, signature: Str)
    requires Flagged(c) && call.name != []
    ensures var d := EmitTool(c, cfg, call, signature).conv; Flagged(d) && d.finish == c.finish
  {
    EmitToolFrame(c, cfg, call, signature);
    Calls.EmittedCall(c, cfg, call, signature, Anything());
  }

  lemma CountedFlagged(r: Step, seen: map<Str, nat>, fp: Str, n: nat)
    requires Flagged(r.conv)
    ensures Flagged(Counted(r, seen, fp, n).conv) && Counted(r, seen, fp, n).conv.finish == r.conv.finish
  {
  }

  lemma ScanTextFlagged(c: Conv, cfg: Config, p: Part)
    requires Flagged(c) && p.Part?
    ensures Flagged(ScanText(c, cfg, p)) && ScanText(c, cfg, p).finish == c.finish
  {
    ScanTextCoherent(c, cfg, p);
    if p.text.Some? {
      TextFlagged(c, cfg, cfg.stops, p.text.value, p.signature);
    }
  }

  lemma ScanCallFlagged(s: Scan, cfg: Config, call: Call, signature: Str)
    requires Flagged(s.conv) && call.name != []
    ensures Flagged(ScanCall(s, cfg, call, signature).conv)
    ensures ScanCall(s, cfg, call, signature).conv.finish == s.conv.finish
  {
    var fp := CallFingerprint(call, signature);
    ToolFlagged(s.conv, cfg, call, signature);
    CountedFlagged(EmitTool(s.conv, cfg, call, signature), s.seen, fp, CountOf(s.seen, fp) + 1);
  }

  lemma {:induction false} ScanPartsFlagged(c: Conv, cfg: Config, parts: seq<Part>)
    requires Flagged(c) && forall i :: 0 <= i < |parts| ==> ValidPart(parts[i])
    ensures Flagged(ScanParts(c, cfg, parts).conv) && ScanParts(c, cfg, parts).conv.finish == c.finish
  {
    if parts != [] {
      var init, p := parts[..|parts| - 1], parts[|parts| - 1];
      ScanPartsFlagged(c, cfg, init);
      var s := ScanParts(c, cfg, init);
      if s.failure.None? && !p.thought {
        ScanTextFlagged(s.conv, cfg, p);
        if p.call.Some? {
          ScanCallFlagged(s.(conv := ScanText(s.conv, cfg, p)), cfg, p.call.value, p.signature);
        }
      }
    }
  }

  lemma ChunkFlagged(c: Conv, cfg: Config, chunk: Chunk)
    requires Flagged(c) && ProcessData(c, cfg, chunk).failure.None?
    ensures var d := ProcessData(c, cfg, chunk).conv;
            && Flagged(d)
            && d.finish == (if chunk.Chunk? && chunk.blockReason != [] then Some(Ascii("SAFETY"))
                            else if chunk.Chunk? && chunk.finish.Some? then chunk.finish else c.finish)
  {
    if chunk.Chunk? {
      var n := Identify(c, chunk);
      if chunk.blockReason != [] {
        TextFlagged(n.(finish := Some(SAFETY)), cfg, cfg.stops, BLOCKED + chunk.blockReason, []);
      } else {
        ScanPartsFlagged(n.(finish := if chunk.finish.Some? then chunk.finish else n.finish), cfg, chunk.content.parts);
      }
    }
  }

  lemma {:induction false} ChunksFlagged(cfg: Config, ids: nat, chunks: seq<Chunk>)
    requires ProcessAll(cfg, ids, chunks).failure.None?
    ensures Flagged(ProcessAll(cfg, ids, chunks).conv)
    ensures ProcessAll(cfg, ids, chunks).conv.finish == LastReason(chunks)
  {
    if chunks == [] {
      InitialIsCoherent(ids);
    } else {
      ChunksFlagged(cfg, ids, chunks[..|chunks| - 1]);
      ChunkFlagged(ProcessAll(cfg, ids, chunks[..|chunks| - 1]).conv, cfg, chunks[|chunks| - 1]);
    }
  }

  lemma EndFlagged(cfg: Config, ids: nat, chunks: seq<Chunk>)
    requires ProcessAll(cfg, ids, chunks).failure.None?
    ensures Flagged(Wrapped(cfg, ids, chunks)) && Wrapped(cfg, ids, chunks).finish == LastReason(chunks)
  {
    var c := ProcessAll(cfg, ids, chunks).conv;
    ChunksFlagged(cfg, ids, chunks);
    FlushEffect(c, cfg);
    if c.matchedStop == [] && !c.filter.stopped && c.filter.pending != [] {
      Calls.BlockCallsOfText(c, c.filter.pending, [], Anything());
    }
    WrappedEffect(cfg, ids, chunks);
  }

  /**
   * Every successful run tells the client why it ended: a stop sequence if one was found; else what the last finish
   * reason named is for a message with or without calls, and there are calls exactly if the client holds one.
   */
  lemma StreamTellsReason(cfg: Config, ids: nat, chunks: seq<Chunk>)
    requires RunStream(cfg, ids, chunks, false).failure.None?
    ensures var m := Replay(RunStream(cfg, ids, chunks, false).conv.trace);
            && m.stopReason.Some?
            && if m.stopSequence.Some? then m.stopReason.value == StopSequence
               else Told(m.stopReason.value, LastReason(chunks), HasTool(m.blocks))
  {
    var w := Wrapped(cfg, ids, chunks);
    EndFlagged(cfg, ids, chunks);
    WrappedEffect(cfg, ids, chunks);
    ConcludeEffect(w);
    ToolsAreCounted(Shown(w));
    MapIsTold(w.finish, w.hasToolUse);
  }

  // ----- The name of the message -----

  /** The first response id the chunks name. */
  function FirstId(chunks: seq<Chunk>): Str {
    if chunks == [] then []
    else
      var before, chunk := FirstId(chunks[..|chunks| - 1]), chunks[|chunks| - 1];
      if before != [] || !chunk.Chunk? then before else chunk.responseId
  }

  /** The first model version the chunks name. */
  function FirstModel(chunks: seq<Chunk>): Str {
    if chunks == [] then []
    else
      var before, chunk := FirstModel(chunks[..|chunks| - 1]), chunks[|chunks| - 1];
      if before != [] || !chunk.Chunk? then before else chunk.model
  }

  /** The first event of a message, for the id and model named by then. */
  function FirstEvent(cfg: Config, ids: nat, id: Str, model: Str): Event {
    MessageStart(if id != [] then id else Ascii("msg_gemini_") + Decimal(ids),
                 if model != [] then model else cfg.fallbackModel)
  }

  predicate Unwritten(c: Conv, ids: nat, id: Str, model: Str) {
    !c.started && c.trace == [] && c.messageId == id && c.model == model && c.ids == ids
  }

  predicate StartsWith(c: Conv, e: Event) {
    c.started && c.trace != [] && c.trace[0] == e
  }

  /** Either nothing has been written and this is the name to be, or the message has started with `e`. */
  predicate Named(c: Conv, cfg: Config, ids: nat, id: Str, model: Str, e: Event) {
    || (Unwritten(c, ids, id, model) && e == FirstEvent(cfg, ids, id, model))
    || StartsWith(c, e)
  }

  lemma StartNamed(c: Conv, cfg: Config, ids: nat, id: Str, model: Str, e: Event)
    requires Named(c, cfg, ids, id, model, e)
    ensures StartsWith(StartMessage(c, cfg), e)
  {
  }

  /** What comes after the start leaves it where it is. */
  lemma StartStays(c: Conv, d: Conv, e: Event)
    requires StartsWith(c, e) && d.started && c.trace <= d.trace
    ensures StartsWith(d, e)
  {
  }

  lemma ShowTextNamed(c: Conv, cfg: Config, text: Str, signature: Str, ids: nat, id: Str, model: Str, e: Event)
    requires Named(c, cfg, ids, id, model, e)
    ensures StartsWith(ShowText(c, cfg, text, signature), e)
  {
    var s := StartMessage(c, cfg);
    StartNamed(c, cfg, ids, id, model, e);
    StartStays(s, OpenText(s, signature), e);
    StartStays(OpenText(s, signature), ShowText(c, cfg, text, signature), e);
  }

  lemma TextNamed(c: Conv, cfg: Config, stops: seq<Str>, text: Str, signature: Str, ids: nat, id: Str, model: Str,
                  e: Event)
    requires Named(c, cfg, ids, id, model, e)
    ensures Named(EmitText(c, cfg, stops, text, signature), cfg, ids, id, model, e)
    ensures c.started ==> EmitText(c, cfg, stops, text, signature).started
  {
    var r := FeedText(stops, c.filter, text);
    ShowTextNamed(Filtered(c, r), cfg, r.visible, signature, ids, id, model, e);
  }

  lemma BlockStays(c: Conv, b: Block, e: Event)
    requires StartsWith(c, e)
    ensures StartsWith(ShowBlock(c, b), e)
  {
    StartStays(c, ShowBlock(c, b), e);
  }

  lemma ShowCallNamed(c: Conv, callId: Str, call: Call, signature: Str, e: Event)
    requires StartsWith(c, e)
    ensures StartsWith(ShowCall(c, callId, call, signature), e)
  {
    var tool := Tool(callId, call.name, ObjectOrEmpty(call.args), signature);
    if signature == [] {
      BlockStays(c, tool, e);
    } else {
      var r := c.(remembered := c.remembered + [Memo(ToolKey(callId), signature)]);
      BlockStays(r, Carrier(ToolKey(callId), signature), e);
      BlockStays(ShowBlock(r, Carrier(ToolKey(callId), signature)), tool, e);
    }
  }

  lemma ToolNamed(c: Conv, cfg: Config, call: Call, signature: Str, ids: nat, id: Str, model: Str, e: Event)
    requires Named(c, cfg, ids, id, model, e)
    ensures Named(EmitTool(c, cfg, call, signature).conv, cfg, ids, id, model, e)
    ensures c.started ==> EmitTool(c, cfg, call, signature).conv.started
  {
    var s := Prepared(c, cfg);
    StartNamed(c, cfg, ids, id, model, e);
    StartStays(StartMessage(c, cfg), s, e);
    ShowCallNamed(TakeId(s, call), IdFor(s, call), call, signature, e);
  }

  lemma CountedNamed(r: Step, seen: map<Str, nat>, fp: Str, n: nat, cfg: Config, ids: nat, id: Str, model: Str,
                     e: Event)
    requires Named(r.conv, cfg, ids, id, model, e)
    ensures Named(Counted(r, seen, fp, n).conv, cfg, ids, id, model, e)
    ensures Counted(r, seen, fp, n).conv.started == r.conv.started
  {
  }

  lemma ScanTextNamed(c: Conv, cfg: Config, p: Part, ids: nat, id: Str, model: Str, e: Event)
    requires Named(c, cfg, ids, id, model, e) && p.Part?
    ensures Named(ScanText(c, cfg, p), cfg, ids, id, model, e) && (c.started ==> ScanText(c, cfg, p).started)
  {
    if p.text.Some? {
      TextNamed(c, cfg, cfg.stops, p.text.value, p.signature, ids, id, model, e);
    }
  }

  lemma ScanCallNamed(s: Scan, cfg: Config, call: Call, signature: Str, ids: nat, id: Str, model: Str, e: Event)
    requires Named(s.conv, cfg, ids, id, model, e)
    ensures Named(ScanCall(s, cfg, call, signature).conv, cfg, ids, id, model, e)
    ensures s.conv.started ==> ScanCall(s, cfg, call, signature).conv.started
  {
    var fp := CallFingerprint(call, signature);
    ToolNamed(s.conv, cfg, call, signature, ids, id, model, e);
    CountedNamed(EmitTool(s.conv, cfg, call, signature), s.seen, fp, CountOf(s.seen, fp) + 1, cfg, ids, id, model, e);
  }

  lemma {:induction false} ScanPartsNamed(c: Conv, cfg: Config, parts: seq<Part>, ids: nat, id: Str, model: Str,
                                          e: Event)
    requires Named(c, cfg, ids, id, model, e)
    ensures Named(ScanParts(c, cfg, parts).conv, cfg, ids, id, model, e)
    ensures c.started ==> ScanParts(c, cfg, parts).conv.started
  {
    if parts != [] {
      var init, p := parts[..|parts| - 1], parts[|parts| - 1];
      ScanPartsNamed(c, cfg, init, ids, id, model, e);
      var s := ScanParts(c, cfg, init);
      if s.failure.None? && p.Part? && !p.thought {
        ScanTextNamed(s.conv, cfg, p, ids, id, model, e);
        if p.call.Some? {
          ScanCallNamed(s.(conv := ScanText(s.conv, cfg, p)), cfg, p.call.value, p.signature, ids, id, model, e);
        }
      }
    }
  }

  lemma EnteredNamed(n: Conv, cfg: Config, chunk: Chunk, ids: nat, id: Str, model: Str, e: Event)
    requires chunk.Chunk? && Named(n, cfg, ids, id, model, e) && Identify(n, chunk) == n
    ensures Named(ProcessData(n, cfg, chunk).conv, cfg, ids, id, model, e)
    ensures n.started ==> ProcessData(n, cfg, chunk).conv.started
  {
    if chunk.blockReason != [] {
      TextNamed(n.(finish := Some(SAFETY)), cfg, cfg.stops, BLOCKED + chunk.blockReason, [], ids, id, model, e);
    } else if ValidContent(chunk.content) {
      ScanPartsNamed(n.(finish := if chunk.finish.Some? then chunk.finish else n.finish), cfg, chunk.content.parts,
                     ids, id, model, e);
    }
  }

  lemma IdentifiedFirst(c: Conv, cfg: Config, chunk: Chunk)
    requires chunk.Chunk?
    ensures var n := Identify(c, chunk);
            Identify(n, chunk) == n && ProcessData(c, cfg, chunk) == ProcessData(n, cfg, chunk)
  {
  }

  /** A chunk that finds nothing written may name the message; then it may start it. */
  lemma ChunkNamed(c: Conv, cfg: Config, chunk: Chunk, ids: nat, id: Str, model: Str)
    requires Unwritten(c, ids, id, model)
    ensures var i, m := if id != [] || !chunk.Chunk? then id else chunk.responseId,
                        if model != [] || !chunk.Chunk? then model else chunk.model;
            Named(ProcessData(c, cfg, chunk).conv, cfg, ids, i, m, FirstEvent(cfg, ids, i, m))
  {
    if chunk.Chunk? {
      var n := Identify(c, chunk);
      IdentifiedFirst(c, cfg, chunk);
      EnteredNamed(n, cfg, chunk, ids, n.messageId, n.model, FirstEvent(cfg, ids, n.messageId, n.model));
    }
  }

  /** Later chunks leave the first event where it is. */
  lemma ChunkKeepsStart(c: Conv, cfg: Config, chunk: Chunk, e: Event)
    requires StartsWith(c, e)
    ensures StartsWith(ProcessData(c, cfg, chunk).conv, e)
  {
    if chunk.Chunk? {
      IdentifiedFirst(c, cfg, chunk);
      EnteredNamed(Identify(c, chunk), cfg, chunk, 0, [], [], e);
    }
  }

  lemma WrittenIsStarted(c: Conv)
    requires Coherent(c) && c.trace != []
    ensures StartsWith(c, c.trace[0])
  {
  }

  /** While nothing has been written, the first id and model named so far are kept. */
  lemma {:induction false} ChunksNamed(cfg: Config, ids: nat, chunks: seq<Chunk>)
    requires ProcessAll(cfg, ids, chunks).failure.None? && ProcessAll(cfg, ids, chunks).conv.trace == []
    ensures Unwritten(ProcessAll(cfg, ids, chunks).conv, ids, FirstId(chunks), FirstModel(chunks))
  {
    if chunks != [] {
      var init, chunk := chunks[..|chunks| - 1], chunks[|chunks| - 1];
      var before := ProcessAll(cfg, ids, init).conv;
      if before.trace == [] {
        ChunksNamed(cfg, ids, init);
        ChunkNamed(before, cfg, chunk, ids, FirstId(init), FirstModel(init));
      } else {
        ProcessAllCoherent(cfg, ids, init);
        WrittenIsStarted(before);
        ChunkKeepsStart(before, cfg, chunk, before.trace[0]);
      }
    }
  }

  /** The chunk after which the first event has been written, or the end. */
  ghost predicate StartsAt(cfg: Config, ids: nat, chunks: seq<Chunk>, k: nat)
    requires k <= |chunks|
  {
    && (k > 0 ==> ProcessAll(cfg, ids, chunks[..k - 1]).conv.trace == [])
    && (k < |chunks| ==> ProcessAll(cfg, ids, chunks[..k]).conv.trace != [])
  }

  lemma {:induction false} PrefixSucceeds(cfg: Config, ids: nat, chunks: seq<Chunk>, k: nat)
    requires ProcessAll(cfg, ids, chunks).failure.None? && k <= |chunks|
    ensures ProcessAll(cfg, ids, chunks[..k]).failure.None?
  {
    if k < |chunks| {
      TakeOfInit(chunks, k);
      PrefixSucceeds(cfg, ids, chunks[..|chunks| - 1], k);
    } else {
      TakeAll(chunks);
    }
  }

  lemma FirstChunkNames(cfg: Config, ids: nat, chunks: seq<Chunk>, k: nat)
    requires ProcessAll(cfg, ids, chunks).failure.None? && k <= |chunks| && StartsAt(cfg, ids, chunks, k)
    ensures var id, model := FirstId(chunks[..k]), FirstModel(chunks[..k]);
            Named(ProcessAll(cfg, ids, chunks[..k]).conv, cfg, ids, id, model, FirstEvent(cfg, ids, id, model))
  {
    if k > 0 {
      var init := chunks[..k - 1];
      TakeOneMore(chunks, k - 1);
      SnocInit(init, chunks[k - 1]);
      PrefixSucceeds(cfg, ids, chunks, k - 1);
      ChunksNamed(cfg, ids, init);
      ChunkNamed(ProcessAll(cfg, ids, init).conv, cfg, chunks[k - 1], ids, FirstId(init), FirstModel(init));
    }
  }

  lemma {:induction false} StillNamed(cfg: Config, ids: nat, chunks: seq<Chunk>, k: nat, id: Str, model: Str, e: Event)
    requires ProcessAll(cfg, ids, chunks).failure.None? && k <= |chunks| && StartsAt(cfg, ids, chunks, k)
    requires Named(ProcessAll(cfg, ids, chunks[..k]).conv, cfg, ids, id, model, e)
    ensures Named(ProcessAll(cfg, ids, chunks).conv, cfg, ids, id, model, e)
  {
    TakeAll(chunks);
    if k < |chunks| {
      var n := |chunks| - 1;
      TakeOfInit(chunks, k);
      StartsBefore(cfg, ids, chunks, k);
      StillNamed(cfg, ids, chunks[..n], k, id, model, e);
      StartedBefore(cfg, ids, chunks, k, id, model, e);
      ChunkKeepsStart(ProcessAll(cfg, ids, chunks[..n]).conv, cfg, chunks[n], e);
    }
  }

  lemma StartsBefore(cfg: Config, ids: nat, chunks: seq<Chunk>, k: nat)
    requires k < |chunks| && StartsAt(cfg, ids, chunks, k)
    ensures StartsAt(cfg, ids, chunks[..|chunks| - 1], k)
  {
    var init := chunks[..|chunks| - 1];
    TakeOfInit(chunks, k);
    if k > 0 {
      TakeOfInit(chunks, k - 1);
    }
    if k < |init| {
      assert init[..k] == chunks[..k];
    }
  }

  lemma StartedBefore(cfg: Config, ids: nat, chunks: seq<Chunk>, k: nat, id: Str, model: Str, e: Event)
    requires ProcessAll(cfg, ids, chunks).failure.None? && k < |chunks| && StartsAt(cfg, ids, chunks, k)
    requires Named(ProcessAll(cfg, ids, chunks[..|chunks| - 1]).conv, cfg, ids, id, model, e)
    ensures StartsWith(ProcessAll(cfg, ids, chunks[..|chunks| - 1]).conv, e)
  {
    StaysWritten(cfg, ids, chunks, k, |chunks| - 1);
  }

  lemma {:induction false} StaysWritten(cfg: Config, ids: nat, chunks: seq<Chunk>, k: nat, n: nat)
    requires ProcessAll(cfg, ids, chunks).failure.None? && k <= n <= |chunks|
    requires ProcessAll(cfg, ids, chunks[..k]).conv.trace != []
    ensures ProcessAll(cfg, ids, chunks[..n]).conv.trace != []
  {
    if k < n {
      var init := chunks[..n - 1];
      StaysWritten(cfg, ids, chunks, k, n - 1);
      TakeOneMore(chunks, n - 1);
      SnocInit(init, chunks[n - 1]);
      PrefixSucceeds(cfg, ids, chunks, n - 1);
      ProcessAllCoherent(cfg, ids, init);
      var c := ProcessAll(cfg, ids, init).conv;
      WrittenIsStarted(c);
      ChunkKeepsStart(c, cfg, chunks[n - 1], c.trace[0]);
    }
  }

  lemma EndNamed(c: Conv, cfg: Config, ids: nat, id: Str, model: Str, e: Event)
    requires Named(c, cfg, ids, id, model, e)
    ensures StartsWith(Conclude(CloseText(StartMessage(FlushTail(c, cfg), cfg))), e)
  {
    var f := if c.filter.stopped then c else c.(filter := c.filter.(pending := []));
    TextNamed(f, cfg, [], if c.filter.stopped then [] else c.filter.pending, [], ids, id, model, e);
    var s := StartMessage(FlushTail(c, cfg), cfg);
    StartNamed(FlushTail(c, cfg), cfg, ids, id, model, e);
    StartStays(s, CloseText(s), e);
    StartStays(CloseText(s), Conclude(CloseText(s)), e);
  }

  /**
   * The client's message has the first non-empty response id and model version that the chunks name up to and including
   * the one that first makes anything visible; failing that, a synthesized id and the fallback model. Later ones do not
   * count.
   */
  lemma MessageIsNamed(cfg: Config, ids: nat, chunks: seq<Chunk>, k: nat)
    requires RunStream(cfg, ids, chunks, false).failure.None? && k <= |chunks| && StartsAt(cfg, ids, chunks, k)
    ensures var trace := RunStream(cfg, ids, chunks, false).conv.trace;
            && trace != []
            && trace[0] == MessageStart(
                 if FirstId(chunks[..k]) != [] then FirstId(chunks[..k]) else Ascii("msg_gemini_") + Decimal(ids),
                 if FirstModel(chunks[..k]) != [] then FirstModel(chunks[..k]) else cfg.fallbackModel)
  {
    var id, model := FirstId(chunks[..k]), FirstModel(chunks[..k]);
    var e := FirstEvent(cfg, ids, id, model);
    FirstChunkNames(cfg, ids, chunks, k);
    StillNamed(cfg, ids, chunks, k, id, model, e);
    EndNamed(ProcessAll(cfg, ids, chunks).conv, cfg, ids, id, model, e);
  }
}
