/** The streaming converter: the closures of the source as methods over the variables they share. */
module StreamConverter {
  import opened Bytes
  import opened StopFilter
  import opened AnthropicEvents
  import opened GeminiModel
  import opened StreamSpec
  import opened StreamMemos
  import StreamLegality
  import StreamText

  class Converter {
    const cfg: Config
    const stopFilter: TextStopFilter
    var started: bool
    var messageId: Str
    var model: Str
    var nextIndex: nat
    var textOpen: bool
    var textIndex: nat
    var currentText: Str
    var currentSignature: Str
    var finish: Option<Str>
    var hasToolUse: bool
    var matchedStop: Str
    var emittedCalls: map<Str, nat>
    var ids: nat
    var trace: seq<Event>
    var remembered: seq<Memo>

    ghost predicate Valid()
      reads this, stopFilter
    {
      stopFilter.sequences == cfg.stops && Sound()
    }

    /**
     * The events written so far are the beginning of a legal stream that ends where the variables say, the open block
     * has the text in `currentText`, and every signature remembered is keyed by a block the client has.
     */
    ghost predicate Sound()
      reads this, stopFilter
    {
      Stored(View())
    }

    ghost function View(): Conv
      reads this, stopFilter
    {
      Conv(started, messageId, model, nextIndex, textOpen, textIndex, currentText, currentSignature,
           finish, hasToolUse, stopFilter.State(), matchedStop, emittedCalls, ids, trace, remembered)
    }

    constructor (cfg: Config, ids: nat)
      ensures Valid() && View() == Initial(ids) && this.cfg == cfg && fresh(stopFilter)
    {
      this.cfg := cfg;
      stopFilter := new TextStopFilter(cfg.stops);
      started, messageId, model := false, [], [];
      nextIndex, textOpen, textIndex := 0, false, 0;
      currentText, currentSignature := [], [];
      finish, hasToolUse, matchedStop, emittedCalls := None, false, [], map[];
      this.ids, trace, remembered := ids, [], [];
      new;
      InitialStores(ids);
    }

    method WriteEvent(e: Event)
      modifies this`trace
      ensures trace == old(trace) + [e]
    {
      trace := trace + [e];
    }

    method SynthesizeToolId() returns (id: Str)
      modifies this`ids
      ensures id == SynthesizedToolId(old(ids)) && ids == old(ids) + 1
    {
      id := SynthesizedToolId(ids);
      ids := ids + 1;
    }

    method StartMessage()
      requires Sound()
      modifies this
      ensures View() == StreamSpec.StartMessage(old(View()), cfg) && Sound()
    {
      StartStores(View(), cfg);
      if started {
        return;
      }
      WriteStart();
    }

    method WriteStart()
      requires !started
      modifies this
      ensures View() == StreamSpec.StartMessage(old(View()), cfg)
    {
      started := true;
      if messageId == [] {
        messageId := SynthesizedMessageId(ids);
        ids := ids + 1;
      }
      if model == [] {
        model := cfg.fallbackModel;
      }
      WriteEvent(MessageStart(messageId, model));
    }

    method Remember(key: Str, signature: Str)
      modifies this`remembered
      ensures remembered == old(remembered) + [Memo(key, signature)]
    {
      remembered := remembered + [Memo(key, signature)];
    }

    method CloseText()
      requires Sound()
      modifies this
      ensures View() == StreamSpec.CloseText(old(View())) && Sound()
    {
      CloseStores(View());
      if !textOpen {
        return;
      }
      WriteTextEnd();
    }

    method WriteTextEnd()
      requires textOpen
      modifies this
      ensures View() == StreamSpec.CloseText(old(View()))
    {
      var key := TextKey(currentText);
      if currentSignature != [] {
        Remember(key, currentSignature);
      }
      WriteEvent(BlockStop(textIndex));
      currentText, currentSignature, textOpen := [], [], false;
    }

    method EmitText(text: Str, signature: Str)
      requires Sound()
      modifies this, stopFilter`pending, stopFilter`stopped
      ensures View() == StreamSpec.EmitText(old(View()), cfg, stopFilter.sequences, text, signature) && Sound()
    {
      if text == [] {
        return;
      }
      var visible := Filter(text);
      if visible == [] {
        return;
      }
      ShowText(visible, signature);
    }

    /** The text goes through the filter, and a match is noted. */
    method Filter(text: Str) returns (visible: Str)
      requires Sound()
      modifies this`matchedStop, stopFilter`pending, stopFilter`stopped
      ensures var r := FeedText(stopFilter.sequences, old(View()).filter, text);
              visible == r.visible && View() == StreamSpec.Filtered(old(View()), r)
      ensures Sound()
    {
      FedStores(View(), FeedText(stopFilter.sequences, View().filter, text));
      var matched: Str;
      visible, matched := stopFilter.Feed(text);
      if matched != [] {
        matchedStop := matched;
      }
    }

    method OpenText(signature: Str)
      modifies this`textIndex, this`nextIndex, this`textOpen, this`trace
      ensures View() == StreamSpec.OpenText(old(View()), signature)
    {
      if !textOpen {
        textIndex := nextIndex;
        nextIndex := nextIndex + 1;
        WriteEvent(BlockStart(textIndex, Text([], signature)));
        textOpen := true;
      }
    }

    method ShowText(visible: Str, signature: Str)
      requires Sound() && visible != []
      modifies this
      ensures View() == StreamSpec.ShowText(old(View()), cfg, visible, signature) && Sound()
    {
      ShowTextStores(View(), cfg, visible, signature);
      StartMessage();
      WriteText(visible, signature);
    }

    method WriteText(visible: Str, signature: Str)
      modifies this
      ensures View() == StreamSpec.AppendText(StreamSpec.OpenText(old(View()), signature), visible, signature)
    {
      OpenText(signature);
      currentText := currentText + visible;
      if signature != [] {
        currentSignature := signature;
      }
      WriteEvent(BlockDelta(textIndex, TextDelta(visible)));
    }

    /** The message is open and no text block is. */
    method Prepare()
      requires Sound()
      modifies this
      ensures View() == StreamSpec.Prepared(old(View()), cfg) && Sound()
    {
      StartMessage();
      CloseText();
    }

    method ChooseId(call: Call) returns (id: Str)
      modifies this`ids
      ensures View() == StreamSpec.TakeId(old(View()), call) && id == StreamSpec.IdFor(old(View()), call)
    {
      id := call.id;
      if id == [] {
        id := SynthesizeToolId();
      }
    }

    method EmitTool(call: Call, signature: Str) returns (failure: Option<Failure>)
      requires Sound()
      modifies this
      ensures Step(View(), failure) == StreamSpec.EmitTool(old(View()), cfg, call, signature) && Sound()
    {
      EmitToolStores(View(), cfg, call, signature);
      if matchedStop != [] {
        return None;
      }
      Prepare();
      var id := ChooseId(call);
      if call.name == [] {
        return Some(MissingName);
      }
      ShowCall(id, call, signature);
      return None;
    }

    method ShowCall(id: Str, call: Call, signature: Str)
      modifies this`nextIndex, this`trace, this`remembered, this`hasToolUse
      ensures View() == StreamSpec.ShowCall(old(View()), id, call, signature)
    {
      if signature != [] {
        Remember(ToolKey(id), signature);
        WriteCarrier(ToolKey(id), signature);
      }
      WriteTool(id, call.name, ObjectOrEmpty(call.args), signature);
      hasToolUse := true;
    }

    method WriteCarrier(key: Str, signature: Str)
      modifies this`nextIndex, this`trace
      ensures View() == ShowBlock(old(View()), Carrier(key, signature))
    {
      var carrierIndex := nextIndex;
      nextIndex := nextIndex + 1;
      OneByOne(trace, BlockStart(carrierIndex, Carrier(key, signature)), BlockStop(carrierIndex), MessageStop);
      WriteEvent(BlockStart(carrierIndex, Carrier(key, signature)));
      WriteEvent(BlockStop(carrierIndex));
    }

    method WriteTool(id: Str, name: Str, input: Str, signature: Str)
      modifies this`nextIndex, this`trace
      ensures View() == ShowBlock(old(View()), Tool(id, name, input, signature))
    {
      var index := nextIndex;
      nextIndex := nextIndex + 1;
      OneByOne(trace, BlockStart(index, Tool(id, name, [], signature)), BlockDelta(index, JsonDelta(input)),
               BlockStop(index));
      WriteEvent(BlockStart(index, Tool(id, name, [], signature)));
      WriteEvent(BlockDelta(index, JsonDelta(input)));
      WriteEvent(BlockStop(index));
    }

    /** The first response id and model version the upstream names are kept. */
    method Identify(chunk: Chunk)
      requires chunk.Chunk? && Sound()
      modifies this`messageId, this`model
      ensures View() == StreamSpec.Identify(old(View()), chunk) && Sound()
    {
      IdentifyStores(View(), chunk);
      if messageId == [] {
        messageId := chunk.responseId;
      }
      if model == [] {
        model := chunk.model;
      }
    }

    method SetFinish(reason: Option<Str>)
      requires Sound()
      modifies this`finish
      ensures View() == old(View()).(finish := reason) && Sound()
    {
      FinishStores(View(), reason);
      finish := reason;
    }

    method ProcessData(chunk: Chunk) returns (failure: Option<Failure>)
      requires Valid()
      modifies this, stopFilter`pending, stopFilter`stopped
      ensures Valid()
      ensures Step(View(), failure) == StreamSpec.ProcessData(old(View()), cfg, chunk)
    {
      match chunk
      case Blank => return None;
      case NotJson => return Some(Undecodable);
      case UpstreamError(message) => return Some(Upstream(message));
      case Chunk(_, _, blockReason, finishReason, content) =>
        Identify(chunk);
        if blockReason != [] {
          SetFinish(Some(SAFETY));
          EmitText(BLOCKED + blockReason, []);
          return None;
        }
        if !ValidContent(content) {
          return Some(BadCandidate);
        }
        if finishReason.Some? {
          SetFinish(finishReason);
        }
        failure := ProcessParts(content.parts);
    }

    method ProcessParts(parts: seq<Part>) returns (failure: Option<Failure>)
      requires Valid()
      modifies this, stopFilter`pending, stopFilter`stopped
      ensures Valid()
      ensures View() == ScanParts(old(View()), cfg, parts).conv
      ensures failure == ScanParts(old(View()), cfg, parts).failure
    {
      var chunkOccurrences: map<Str, nat> := map[];
      ghost var start := View();
      failure := None;
      for i := 0 to |parts|
        invariant Valid()
        invariant failure == None
        invariant Scan(View(), chunkOccurrences, failure) == ScanParts(start, cfg, parts[..i])
      {
        assert parts[..i + 1][..i] == parts[..i];
        failure, chunkOccurrences := ProcessPart(parts[i], chunkOccurrences);
        if failure.Some? {
          FailedStays(start, cfg, parts, i + 1);
          return;
        }
      }
      assert parts[..|parts|] == parts;
    }

    /** One turn of the parts loop. */
    method ProcessPart(part: Part, seen: map<Str, nat>)
      returns (failure: Option<Failure>, chunkOccurrences: map<Str, nat>)
      requires Valid()
      modifies this, stopFilter`pending, stopFilter`stopped
      ensures Valid()
      ensures Scan(View(), chunkOccurrences, failure) == ScanPart(Scan(old(View()), seen, None), cfg, part)
    {
      if part.Malformed? {
        return Some(BadCandidate), seen;
      }
      if part.thought {
        return None, seen;
      }
      ProcessText(part);
      if part.call.None? {
        return None, seen;
      }
      failure, chunkOccurrences := ProcessCall(part.call.value, part.signature, seen);
    }

    method ProcessText(part: Part)
      requires Valid() && part.Part?
      modifies this, stopFilter`pending, stopFilter`stopped
      ensures Valid() && View() == ScanText(old(View()), cfg, part)
    {
      if part.text.Some? && part.text.value != [] {
        EmitText(part.text.value, part.signature);
      } else if part.text.Some? && part.signature != [] && textOpen {
        currentSignature := part.signature;
      }
    }

    method ProcessCall(call: Call, signature: Str, seen: map<Str, nat>)
      returns (failure: Option<Failure>, chunkOccurrences: map<Str, nat>)
      requires Valid()
      modifies this
      ensures Valid()
      ensures Scan(View(), chunkOccurrences, failure) == ScanCall(Scan(old(View()), seen, None), cfg, call, signature)
    {
      ScanCallStores(Scan(View(), seen, None), cfg, call, signature);
      var fingerprint := CallFingerprint(call, signature);
      chunkOccurrences := seen[fingerprint := CountOf(seen, fingerprint) + 1];
      if chunkOccurrences[fingerprint] <= CountOf(emittedCalls, fingerprint) {
        return None, chunkOccurrences;
      }
      failure := EmitTool(call, signature);
      if failure.None? {
        emittedCalls := emittedCalls[fingerprint := chunkOccurrences[fingerprint]];
      }
    }

    method Run(chunks: seq<Chunk>, readFailed: bool) returns (failure: Option<Failure>)
      requires Valid() && View() == Initial(ids)
      modifies this, stopFilter
      ensures Step(View(), failure) == RunStream(cfg, old(ids), chunks, readFailed)
      ensures failure.None? ==> LegalStream(trace)
      ensures failure.None? ==> DeltaText(trace) == Finish(cfg.stops, StreamText.Handed(chunks)).visible
    {
      StreamLegality.EveryRunIsLegal(cfg, ids, chunks, readFailed);
      if RunStream(cfg, ids, chunks, false).failure.None? {
        StreamText.ClientSeesFilteredText(cfg, ids, chunks);
      }
      failure := ProcessAll(chunks);
      if failure.None? && readFailed {
        failure := Some(ReadFailed);
      }
      if failure.Some? {
        WriteEvent(Error(failure.value));
        return;
      }
      FlushTail();
      StartMessage();
      CloseText();
      Conclude();
    }

    method Conclude()
      modifies this`trace
      ensures View() == StreamSpec.Conclude(old(View()))
    {
      if matchedStop != [] {
        WriteEvent(MessageDelta(StopSequence, Some(matchedStop)));
      } else {
        WriteEvent(MessageDelta(MapFinishReason(finish, hasToolUse), None));
      }
      WriteEvent(MessageStop);
    }

    method ProcessAll(chunks: seq<Chunk>) returns (failure: Option<Failure>)
      requires Valid() && View() == Initial(ids)
      modifies this, stopFilter`pending, stopFilter`stopped
      ensures Valid() && Step(View(), failure) == StreamSpec.ProcessAll(cfg, old(ids), chunks)
    {
      failure := None;
      var i := 0;
      while i < |chunks| && failure.None?
        invariant i <= |chunks| && Valid()
        invariant Step(View(), failure) == StreamSpec.ProcessAll(cfg, old(ids), chunks[..i])
      {
        assert chunks[..i + 1][..i] == chunks[..i];
        failure := ProcessData(chunks[i]);
        i := i + 1;
      }
      assert chunks[..|chunks|] == chunks;
      if failure.Some? {
        FailureStays(cfg, old(ids), chunks, i);
      }
    }

    /** The tail passes through emitText again with the stop list switched off. */
    method FlushTail()
      requires Valid()
      modifies this, stopFilter
      ensures Valid() && View() == StreamSpec.FlushTail(old(View()), cfg)
    {
      if matchedStop == [] {
        var tail := stopFilter.Flush();
        if tail != [] {
          var sequences := stopFilter.sequences;
          stopFilter.sequences := [];
          EmitText(tail, []);
          stopFilter.sequences := sequences;
        }
      }
    }
  }

  /** A failed part ends the scan: the parts after it are not looked at. */
  lemma {:induction false} FailedStays(c: Conv, cfg: Config, parts: seq<Part>, i: nat)
    requires i <= |parts| && ScanParts(c, cfg, parts[..i]).failure.Some?
    ensures ScanParts(c, cfg, parts) == ScanParts(c, cfg, parts[..i])
  {
    if i == |parts| {
      assert parts[..i] == parts;
    } else {
      TakeOfInit(parts, i);
      FailedStays(c, cfg, parts[..|parts| - 1], i);
    }
  }

  /** A failed chunk ends the run. */
  lemma {:induction false} FailureStays(cfg: Config, ids: nat, chunks: seq<Chunk>, i: nat)
    requires i <= |chunks| && ProcessAll(cfg, ids, chunks[..i]).failure.Some?
    ensures ProcessAll(cfg, ids, chunks) == ProcessAll(cfg, ids, chunks[..i])
  {
    if i == |chunks| {
      assert chunks[..i] == chunks;
    } else {
      TakeOfInit(chunks, i);
      FailureStays(cfg, ids, chunks[..|chunks| - 1], i);
    }
  }
}
