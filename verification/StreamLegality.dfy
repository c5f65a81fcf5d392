/** Every run of the streaming converter writes a legal event sequence. */
module StreamLegality {
  import opened Bytes
  import opened StopFilter
  import opened AnthropicEvents
  import opened GeminiModel
  import opened StreamSpec

  function PhaseOf(c: Conv): Phase {
    if !c.started then Fresh else if c.textOpen then InText(c.textIndex, true) else Between(c.nextIndex)
  }

  /** The client's blocks as far as the events written reach. */
  function Shown(c: Conv): seq<Block> {
    Replay(c.trace).blocks
  }

  /** The converter's variables describe the position in the event grammar and the client's open block. */
  ghost predicate Coherent(c: Conv) {
    && PhaseAfter(c.trace) == PhaseOf(c)
    && (!c.started ==> c.nextIndex == 0 && !c.textOpen)
    && |Shown(c)| == c.nextIndex
    && (c.textOpen ==>
          && c.textIndex + 1 == c.nextIndex
          && Shown(c)[c.textIndex].Text?
          && Shown(c)[c.textIndex].text == c.currentText != []
          && (Shown(c)[c.textIndex].signature != [] ==> c.currentSignature != []))
    && (!c.textOpen ==> c.currentText == [] && c.currentSignature == [])
  }

  lemma InitialIsCoherent(ids: nat)
    ensures Coherent(Initial(ids)) && Shown(Initial(ids)) == [] && DeltaText(Initial(ids).trace) == []
  {
  }

  /** Writing one event `e`, with nothing else of the state involved. */
  lemma Write(trace: seq<Event>, e: Event)
    ensures PhaseAfter(trace + [e]) == Advance(PhaseAfter(trace), e)
    ensures Replay(trace + [e]) == Apply(Replay(trace), e)
    ensures DeltaText(trace + [e]) ==
            DeltaText(trace) + if e.BlockDelta? && e.delta.TextDelta? then e.delta.text else []
  {
    PhaseSnoc(trace, e);
    ReplaySnoc(trace, e);
    DeltaTextSnoc(trace, e);
  }

  lemma StartEffect(c: Conv, cfg: Config)
    requires Coherent(c)
    ensures var d := StartMessage(c, cfg);
            Coherent(d) && d.started && Shown(d) == Shown(c) && DeltaText(d.trace) == DeltaText(c.trace)
  {
    var d := StartMessage(c, cfg);
    if !c.started {
      Write(c.trace, d.trace[|c.trace|]);
    }
  }

  lemma CloseEffect(c: Conv)
    requires Coherent(c)
    ensures var d := CloseText(c);
            Coherent(d) && !d.textOpen && Shown(d) == Shown(c) && DeltaText(d.trace) == DeltaText(c.trace)
  {
    if c.textOpen {
      Write(c.trace, BlockStop(c.textIndex));
    }
  }

  /** The blocks after non-empty text was shown. */
  function WithText(c: Conv, text: Str, signature: Str): seq<Block>
    requires c.textOpen ==> c.textIndex < |Shown(c)|
  {
    if c.textOpen then Shown(c)[c.textIndex := AppendDelta(Shown(c)[c.textIndex], TextDelta(text))]
    else Shown(c) + [Text(text, signature)]
  }

  lemma OpenEffect(c: Conv, signature: Str)
    requires Coherent(c) && c.started && !c.textOpen
    ensures var d := OpenText(c, signature);
            && PhaseAfter(d.trace) == InText(d.textIndex, false)
            && Shown(d) == Shown(c) + [Text([], signature)]
            && DeltaText(d.trace) == DeltaText(c.trace)
  {
    Write(c.trace, BlockStart(c.nextIndex, Text([], signature)));
  }

  lemma AppendEffect(c: Conv, text: Str, signature: Str)
    requires text != [] && c.started && c.textOpen
    requires PhaseAfter(c.trace).InText? && PhaseAfter(c.trace).index == c.textIndex
    requires |Shown(c)| == c.nextIndex == c.textIndex + 1
    requires Shown(c)[c.textIndex].Text? && Shown(c)[c.textIndex].text == c.currentText
    requires Shown(c)[c.textIndex].signature != [] ==> c.currentSignature != [] || signature != []
    ensures var d := AppendText(c, text, signature);
            && Coherent(d)
            && Shown(d) == Shown(c)[c.textIndex := AppendDelta(Shown(c)[c.textIndex], TextDelta(text))]
            && DeltaText(d.trace) == DeltaText(c.trace) + text
  {
    Write(c.trace, BlockDelta(c.textIndex, TextDelta(text)));
  }

  lemma ShowTextEffect(c: Conv, cfg: Config, text: Str, signature: Str)
    requires Coherent(c) && text != []
    ensures var d := ShowText(c, cfg, text, signature);
            Coherent(d) && d.textOpen && Shown(d) == WithText(c, text, signature)
            && DeltaText(d.trace) == DeltaText(c.trace) + text
  {
    var s := StartMessage(c, cfg);
    StartEffect(c, cfg);
    if !s.textOpen {
      OpenEffect(s, signature);
      NothingBefore(text);
      UpdateLast(Shown(c), Text([], signature), Text(text, signature));
    }
    AppendEffect(OpenText(s, signature), text, signature);
  }

  lemma ShowBlockEffect(c: Conv, b: Block)
    requires Coherent(c) && c.started && !c.textOpen && !b.Text?
    ensures var d := ShowBlock(c, b);
            Coherent(d) && Shown(d) == Shown(c) + [b] && DeltaText(d.trace) == DeltaText(c.trace)
  {
    var i := c.nextIndex;
    match b
    case Tool(id, name, input, signature) => ToolEventsEffect(c.trace, i, b);
    case Carrier(_, _) =>
      Write(c.trace, BlockStart(i, b));
      Write(c.trace + [BlockStart(i, b)], BlockStop(i));
      OneByOne(c.trace, BlockStart(i, b), BlockStop(i), MessageStop);
  }

  lemma ToolEventsEffect(trace: seq<Event>, i: nat, b: Block)
    requires PhaseAfter(trace) == Between(i) && |Replay(trace).blocks| == i && b.Tool?
    ensures var after := trace + BlockEvents(i, b);
            && PhaseAfter(after) == Between(i + 1)
            && Replay(after).blocks == Replay(trace).blocks + [b]
            && DeltaText(after) == DeltaText(trace)
  {
    var start, delta := BlockStart(i, b.(input := [])), BlockDelta(i, JsonDelta(b.input));
    Write(trace, start);
    Write(trace + [start], delta);
    Write(trace + [start] + [delta], BlockStop(i));
    OneByOne(trace, start, delta, BlockStop(i));
    NothingBefore(b.input);
    UpdateLast(Replay(trace).blocks, start.block, b);
  }

  lemma ShowCallEffect(c: Conv, id: Str, call: Call, signature: Str)
    requires Coherent(c) && c.started && !c.textOpen
    ensures var d := ShowCall(c, id, call, signature);
            Coherent(d) && Shown(d) == Shown(c) + CallBlocks(id, call, signature)
            && DeltaText(d.trace) == DeltaText(c.trace)
  {
    var tool := Tool(id, call.name, ObjectOrEmpty(call.args), signature);
    if signature != [] {
      var r := c.(remembered := c.remembered + [Memo(ToolKey(id), signature)]);
      ShowBlockEffect(r, Carrier(ToolKey(id), signature));
      ShowBlockEffect(ShowBlock(r, Carrier(ToolKey(id), signature)), tool);
      PlusAssoc(Shown(c), [Carrier(ToolKey(id), signature)], [tool]);
    } else {
      ShowBlockEffect(c, tool);
    }
  }

  lemma PreparedEffect(c: Conv, cfg: Config)
    requires Coherent(c)
    ensures var d := Prepared(c, cfg);
            && Coherent(d) && d.started && !d.textOpen
            && Shown(d) == Shown(c) && DeltaText(d.trace) == DeltaText(c.trace)
  {
    StartEffect(c, cfg);
    CloseEffect(StartMessage(c, cfg));
  }

  /** A call that is shown: neither stopped nor nameless. */
  lemma ShownToolEffect(c: Conv, cfg: Config, call: Call, signature: Str)
    requires Coherent(c) && c.matchedStop == [] && call.name != []
    ensures var r := EmitTool(c, cfg, call, signature);
            && Coherent(r.conv) && r.failure.None?
            && DeltaText(r.conv.trace) == DeltaText(c.trace)
            && Shown(r.conv) == Shown(c) + CallBlocks(IdFor(Prepared(c, cfg), call), call, signature)
  {
    var s := Prepared(c, cfg);
    PreparedEffect(c, cfg);
    TakeIdEffect(s, call);
    ShowCallEffect(TakeId(s, call), IdFor(s, call), call, signature);
  }

  lemma TakeIdEffect(c: Conv, call: Call)
    requires Coherent(c)
    ensures var d := TakeId(c, call);
            Coherent(d) && d.started == c.started && d.textOpen == c.textOpen && d.trace == c.trace
  {
  }

  lemma NamelessToolEffect(c: Conv, cfg: Config, call: Call, signature: Str)
    requires Coherent(c) && c.matchedStop == [] && call.name == []
    ensures var r := EmitTool(c, cfg, call, signature);
            Coherent(r.conv) && DeltaText(r.conv.trace) == DeltaText(c.trace)
  {
    PreparedEffect(c, cfg);
    TakeIdEffect(Prepared(c, cfg), call);
  }

  lemma EmitToolEffect(c: Conv, cfg: Config, call: Call, signature: Str)
    requires Coherent(c)
    ensures var r := EmitTool(c, cfg, call, signature);
            && Coherent(r.conv)
            && DeltaText(r.conv.trace) == DeltaText(c.trace)
            && (call.name != [] ==> r.failure.None?)
            && (c.matchedStop == [] && call.name != [] ==>
                  Shown(r.conv) == Shown(c) + CallBlocks(IdFor(Prepared(c, cfg), call), call, signature))
  {
    if c.matchedStop == [] {
      if call.name == [] {
        NamelessToolEffect(c, cfg, call, signature);
      } else {
        ShownToolEffect(c, cfg, call, signature);
      }
    }
  }

  lemma EmitTextEffect(c: Conv, cfg: Config, stops: seq<Str>, text: Str, signature: Str)
    requires Coherent(c)
    ensures var d, r := EmitText(c, cfg, stops, text, signature), FeedText(stops, c.filter, text);
            && Coherent(d)
            && (text != [] ==>
                  && DeltaText(d.trace) == DeltaText(c.trace) + r.visible
                  && d.filter == r.next
                  && d.matchedStop == (if r.matched == [] then c.matchedStop else r.matched)
                  && Shown(d) == (if r.visible == [] then Shown(c) else WithText(c, r.visible, signature)))
  {
    var r := FeedText(stops, c.filter, text);
    if text != [] && r.visible != [] {
      var fed := Filtered(c, r);
      ShowTextEffect(fed, cfg, r.visible, signature);
    }
  }

  lemma ScanTextCoherent(c: Conv, cfg: Config, p: Part)
    requires Coherent(c) && p.Part?
    ensures Coherent(ScanText(c, cfg, p))
  {
    if p.text.Some? {
      EmitTextEffect(c, cfg, cfg.stops, p.text.value, p.signature);
    }
  }

  lemma ScanCallCoherent(s: Scan, cfg: Config, call: Call, signature: Str)
    requires Coherent(s.conv)
    ensures Coherent(ScanCall(s, cfg, call, signature).conv)
  {
    EmitToolEffect(s.conv, cfg, call, signature);
  }

  lemma ScanPartCoherent(s: Scan, cfg: Config, p: Part)
    requires Coherent(s.conv)
    ensures Coherent(ScanPart(s, cfg, p).conv)
  {
    if s.failure.None? && p.Part? && !p.thought {
      ScanTextCoherent(s.conv, cfg, p);
      if p.call.Some? {
        ScanCallCoherent(s.(conv := ScanText(s.conv, cfg, p)), cfg, p.call.value, p.signature);
      }
    }
  }

  lemma {:induction false} ScanPartsCoherent(c: Conv, cfg: Config, parts: seq<Part>)
    requires Coherent(c)
    ensures Coherent(ScanParts(c, cfg, parts).conv)
  {
    if parts != [] {
      ScanPartsCoherent(c, cfg, parts[..|parts| - 1]);
      ScanPartCoherent(ScanParts(c, cfg, parts[..|parts| - 1]), cfg, parts[|parts| - 1]);
    }
  }

  lemma ProcessDataCoherent(c: Conv, cfg: Config, chunk: Chunk)
    requires Coherent(c)
    ensures Coherent(ProcessData(c, cfg, chunk).conv)
  {
    if chunk.Chunk? {
      var n := Identify(c, chunk);
      if chunk.blockReason != [] {
        EmitTextEffect(n.(finish := Some(SAFETY)), cfg, cfg.stops, BLOCKED + chunk.blockReason, []);
      } else if ValidContent(chunk.content) {
        var f := if chunk.finish.Some? then chunk.finish else n.finish;
        ScanPartsCoherent(n.(finish := f), cfg, chunk.content.parts);
      }
    }
  }

  lemma {:induction false} ProcessAllCoherent(cfg: Config, ids: nat, chunks: seq<Chunk>)
    ensures Coherent(ProcessAll(cfg, ids, chunks).conv)
  {
    if chunks == [] {
      InitialIsCoherent(ids);
    } else {
      var before := ProcessAll(cfg, ids, chunks[..|chunks| - 1]);
      ProcessAllCoherent(cfg, ids, chunks[..|chunks| - 1]);
      ProcessDataCoherent(before.conv, cfg, chunks[|chunks| - 1]);
    }
  }

  lemma FlushEffect(c: Conv, cfg: Config)
    requires Coherent(c)
    ensures var d := FlushTail(c, cfg);
            && Coherent(d) && d.matchedStop == c.matchedStop && d.finish == c.finish && d.hasToolUse == c.hasToolUse
            && (c.matchedStop == [] && !c.filter.stopped && c.filter.pending != [] ==>
                  && Shown(d) == WithText(c, c.filter.pending, [])
                  && DeltaText(d.trace) == DeltaText(c.trace) + c.filter.pending)
            && (c.matchedStop != [] || c.filter.stopped || c.filter.pending == [] ==>
                  Shown(d) == Shown(c) && d.trace == c.trace)
  {
    if c.matchedStop == [] && !c.filter.stopped && c.filter.pending != [] {
      var f := c.(filter := c.filter.(pending := []));
      UnfilteredFeed(f.filter, c.filter.pending);
      EmitTextEffect(f, cfg, [], c.filter.pending, []);
    }
  }

  /** With the stop list switched off everything fed is released at once. */
  lemma UnfilteredFeed(f: FilterState, text: Str)
    requires !f.stopped && f.pending == []
    ensures FeedText([], f, text) == Fed(text, [], f)
  {
    assert f.pending + text == text;
  }

  /** The state just before the closing message_delta of a successful run. */
  ghost function Wrapped(cfg: Config, ids: nat, chunks: seq<Chunk>): Conv {
    CloseText(StartMessage(FlushTail(ProcessAll(cfg, ids, chunks).conv, cfg), cfg))
  }

  lemma WrappedEffect(cfg: Config, ids: nat, chunks: seq<Chunk>)
    ensures var w, f := Wrapped(cfg, ids, chunks), FlushTail(ProcessAll(cfg, ids, chunks).conv, cfg);
            && Coherent(w) && w.started && !w.textOpen
            && Shown(w) == Shown(f) && DeltaText(w.trace) == DeltaText(f.trace)
            && w.matchedStop == f.matchedStop && w.finish == f.finish && w.hasToolUse == f.hasToolUse
  {
    ProcessAllCoherent(cfg, ids, chunks);
    var f := FlushTail(ProcessAll(cfg, ids, chunks).conv, cfg);
    FlushEffect(ProcessAll(cfg, ids, chunks).conv, cfg);
    StartEffect(f, cfg);
    CloseEffect(StartMessage(f, cfg));
  }

  lemma ConcludeEffect(c: Conv)
    requires Coherent(c) && c.started && !c.textOpen
    ensures var d := Conclude(c);
            && LegalStream(d.trace)
            && DeltaText(d.trace) == DeltaText(c.trace)
            && Replay(d.trace) == Message(Shown(c),
                 Some(if c.matchedStop != [] then StopSequence else MapFinishReason(c.finish, c.hasToolUse)),
                 if c.matchedStop != [] then Some(c.matchedStop) else None)
  {
    var e := if c.matchedStop != [] then MessageDelta(StopSequence, Some(c.matchedStop))
             else MessageDelta(MapFinishReason(c.finish, c.hasToolUse), None);
    Write(c.trace, e);
    Write(c.trace + [e], MessageStop);
    OneByOne(c.trace, e, MessageStop, MessageStop);
  }

  /**
   * Event grammar, for every chunk stream and every read outcome: a run that succeeds writes a legal message stream;
   * a run that fails writes the beginning of a legal one followed by exactly one error event.
   */
  lemma EveryRunIsLegal(cfg: Config, ids: nat, chunks: seq<Chunk>, readFailed: bool)
    ensures var r := RunStream(cfg, ids, chunks, readFailed);
            && (r.failure.None? ==> LegalStream(r.conv.trace))
            && (r.failure.Some? ==>
                  var n := |r.conv.trace| - 1;
                  && n >= 0 && r.conv.trace[n] == Error(r.failure.value)
                  && exists rest :: LegalStream(r.conv.trace[..n] + rest))
  {
    var r := RunStream(cfg, ids, chunks, readFailed);
    if r.failure.None? {
      WrappedEffect(cfg, ids, chunks);
      ConcludeEffect(Wrapped(cfg, ids, chunks));
    } else {
      ProcessAllCoherent(cfg, ids, chunks);
      var trace := ProcessAll(cfg, ids, chunks).conv.trace;
      SnocInit(trace, Error(r.failure.value));
      Completable(trace);
    }
  }

  /** A legal stream has no error event in it, so the one a failing run ends with is its only one. */
  lemma {:induction false} LegalHasNoError(trace: seq<Event>, i: nat)
    requires PhaseAfter(trace) != Illegal && i < |trace|
    ensures !trace[i].Error?
  {
    if i < |trace| - 1 {
      LegalHasNoError(trace[..|trace| - 1], i);
    }
  }
}
