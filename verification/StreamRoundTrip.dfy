/** The streamed message and its echo. */
module StreamRoundTrip {
  import opened Bytes
  import opened StopFilter
  import opened AnthropicEvents
  import opened GeminiModel
  import opened StreamSpec
  import opened StreamLegality
  import opened RequestModel
  import opened RequestContents
  import opened RoundTrip

  /** Every signed tool_use block has its carrier right before it, and every carrier its block; no text is empty. */
  predicate WellCarried(blocks: seq<Block>)
    decreases |blocks|
  {
    if blocks == [] then true
    else
      var n := |blocks| - 1;
      match blocks[n]
      case Text(text, _) => text != [] && WellCarried(blocks[..n])
      case Carrier(_, _) => false
      case Tool(id, name, _, signature) =>
        && id != [] && name != []
        && if signature == [] then WellCarried(blocks[..n])
           else n > 0 && blocks[n - 1] == Carrier(ToolKey(id), signature) && WellCarried(blocks[..n - 1])
  }

  /** Where the last unit starts. */
  function LastStart(blocks: seq<Block>): (m: nat)
    requires WellCarried(blocks) && blocks != []
    ensures m < |blocks| && WellCarried(blocks[..m])
  {
    var n := |blocks| - 1;
    if blocks[n].Tool? && blocks[n].signature != [] then n - 1 else n
  }

  function LastUnit(blocks: seq<Block>): (u: Unit)
    requires WellCarried(blocks) && blocks != []
    ensures WholeUnit(u)
  {
    match blocks[|blocks| - 1]
    case Text(text, signature) => Saying(text, signature)
    case Tool(id, name, input, signature) => Calling(id, name, input, signature)
  }

  /** The blocks read as texts and calls. */
  function UnitsIn(blocks: seq<Block>): seq<Unit>
    requires WellCarried(blocks)
    decreases |blocks|
  {
    if blocks == [] then [] else UnitsIn(blocks[..LastStart(blocks)]) + [LastUnit(blocks)]
  }

  lemma OneMoreUnit(us: seq<Unit>, u: Unit, before: seq<Block>)
    requires Blocks(us) == before && AllWhole(us) && WholeUnit(u)
    ensures Blocks(us + [u]) == before + UnitBlocks(u) && AllWhole(us + [u])
  {
    SnocInit(us, u);
  }

  lemma LastTwo(blocks: seq<Block>)
    requires |blocks| >= 2
    ensures blocks == blocks[..|blocks| - 2] + [blocks[|blocks| - 2], blocks[|blocks| - 1]]
  {
  }

  lemma LastUnitBlocks(blocks: seq<Block>)
    requires WellCarried(blocks) && blocks != []
    ensures blocks == blocks[..LastStart(blocks)] + UnitBlocks(LastUnit(blocks))
  {
    InitLast(blocks);
    if LastStart(blocks) < |blocks| - 1 {
      LastTwo(blocks);
    }
  }

  lemma {:induction false} UnitsMakeBlocks(blocks: seq<Block>)
    requires WellCarried(blocks)
    ensures Blocks(UnitsIn(blocks)) == blocks && AllWhole(UnitsIn(blocks))
    decreases |blocks|
  {
    if blocks != [] {
      var before := blocks[..LastStart(blocks)];
      UnitsMakeBlocks(before);
      LastUnitBlocks(blocks);
      OneMoreUnit(UnitsIn(before), LastUnit(blocks), before);
    }
  }

  // ----- The stream writes well-carried content -----

  lemma CarriedText(blocks: seq<Block>, text: Str, signature: Str)
    requires WellCarried(blocks) && text != []
    ensures WellCarried(blocks + [Text(text, signature)])
  {
    SnocInit(blocks, Text(text, signature));
  }

  lemma CarriedCall(blocks: seq<Block>, id: Str, call: Call, signature: Str)
    requires WellCarried(blocks) && id != [] && call.name != []
    ensures WellCarried(blocks + CallBlocks(id, call, signature))
  {
    var carrier, tool := Carrier(ToolKey(id), signature), Tool(id, call.name, ObjectOrEmpty(call.args), signature);
    if signature == [] {
      NothingBefore([tool]);
      SnocInit(blocks, tool);
    } else {
      PlusAssoc(blocks, [carrier], [tool]);
      SnocInit(blocks + [carrier], tool);
      SnocInit(blocks, carrier);
    }
  }

  lemma CarriedWithText(c: Conv, text: Str, signature: Str)
    requires Coherent(c) && WellCarried(Shown(c)) && text != []
    ensures WellCarried(WithText(c, text, signature))
  {
    if c.textOpen {
      var n := c.textIndex;
      var b := AppendDelta(Shown(c)[n], TextDelta(text));
      InitLast(Shown(c));
      UpdateLast(Shown(c)[..n], Shown(c)[n], b);
      CarriedText(Shown(c)[..n], b.text, b.signature);
    } else {
      CarriedText(Shown(c), text, signature);
    }
  }

  ghost predicate Carrying(c: Conv) {
    Coherent(c) && WellCarried(Shown(c))
  }

  lemma EmitTextCarries(c: Conv, cfg: Config, stops: seq<Str>, text: Str, signature: Str)
    requires Carrying(c)
    ensures Carrying(EmitText(c, cfg, stops, text, signature))
  {
    EmitTextEffect(c, cfg, stops, text, signature);
    var visible := FeedText(stops, c.filter, text).visible;
    if text != [] && visible != [] {
      CarriedWithText(c, visible, signature);
    }
  }

  lemma EmitToolCarries(c: Conv, cfg: Config, call: Call, signature: Str)
    requires Carrying(c)
    ensures Carrying(EmitTool(c, cfg, call, signature).conv)
  {
    EmitToolEffect(c, cfg, call, signature);
    if c.matchedStop == [] {
      if call.name == [] {
        NamelessShowsNothing(c, cfg, call, signature);
      } else {
        CarriedCall(Shown(c), IdFor(Prepared(c, cfg), call), call, signature);
      }
    }
  }

  lemma NamelessShowsNothing(c: Conv, cfg: Config, call: Call, signature: Str)
    requires Coherent(c) && c.matchedStop == [] && call.name == []
    ensures Shown(EmitTool(c, cfg, call, signature).conv) == Shown(c)
  {
    PreparedEffect(c, cfg);
    TakeIdEffect(Prepared(c, cfg), call);
  }

  lemma ScanPartCarries(s: Scan, cfg: Config, p: Part)
    requires Carrying(s.conv)
    ensures Carrying(ScanPart(s, cfg, p).conv)
  {
    if s.failure.None? && p.Part? && !p.thought {
      var t := s.(conv := ScanText(s.conv, cfg, p));
      ScanTextCarries(s.conv, cfg, p);
      if p.call.Some? {
        ScanCallCarries(t, cfg, p.call.value, p.signature);
      }
    }
  }

  lemma ScanTextCarries(c: Conv, cfg: Config, p: Part)
    requires Carrying(c) && p.Part?
    ensures Carrying(ScanText(c, cfg, p))
  {
    ScanTextCoherent(c, cfg, p);
    if p.text.Some? {
      EmitTextCarries(c, cfg, cfg.stops, p.text.value, p.signature);
    }
  }

  lemma ScanCallCarries(s: Scan, cfg: Config, call: Call, signature: Str)
    requires Carrying(s.conv)
    ensures Carrying(ScanCall(s, cfg, call, signature).conv)
  {
    EmitToolCarries(s.conv, cfg, call, signature);
  }

  lemma {:induction false} ScanPartsCarry(c: Conv, cfg: Config, parts: seq<Part>)
    requires Carrying(c)
    ensures Carrying(ScanParts(c, cfg, parts).conv)
  {
    if parts != [] {
      ScanPartsCarry(c, cfg, parts[..|parts| - 1]);
      ScanPartCarries(ScanParts(c, cfg, parts[..|parts| - 1]), cfg, parts[|parts| - 1]);
    }
  }

  lemma ProcessDataCarries(c: Conv, cfg: Config, chunk: Chunk)
    requires Carrying(c)
    ensures Carrying(ProcessData(c, cfg, chunk).conv)
  {
    if chunk.Chunk? {
      var n := Identify(c, chunk);
      if chunk.blockReason != [] {
        EmitTextCarries(n.(finish := Some(SAFETY)), cfg, cfg.stops, BLOCKED + chunk.blockReason, []);
      } else if ValidContent(chunk.content) {
        var f := if chunk.finish.Some? then chunk.finish else n.finish;
        ScanPartsCarry(n.(finish := f), cfg, chunk.content.parts);
      }
    }
  }

  lemma {:induction false} ProcessAllCarries(cfg: Config, ids: nat, chunks: seq<Chunk>)
    ensures Carrying(ProcessAll(cfg, ids, chunks).conv)
  {
    if chunks == [] {
      InitialIsCoherent(ids);
    } else {
      var before := ProcessAll(cfg, ids, chunks[..|chunks| - 1]);
      ProcessAllCarries(cfg, ids, chunks[..|chunks| - 1]);
      ProcessDataCarries(before.conv, cfg, chunks[|chunks| - 1]);
    }
  }

  /** In the message a client reassembles, signed calls and carriers always come in pairs. */
  lemma StreamIsWellCarried(cfg: Config, ids: nat, chunks: seq<Chunk>)
    requires RunStream(cfg, ids, chunks, false).failure.None?
    ensures WellCarried(Replay(RunStream(cfg, ids, chunks, false).conv.trace).blocks)
  {
    var c := ProcessAll(cfg, ids, chunks).conv;
    ProcessAllCarries(cfg, ids, chunks);
    FlushEffect(c, cfg);
    if c.matchedStop == [] && !c.filter.stopped && c.filter.pending != [] {
      CarriedWithText(c, c.filter.pending, []);
    }
    WrappedEffect(cfg, ids, chunks);
    ConcludeEffect(Wrapped(cfg, ids, chunks));
  }

  ghost predicate MessageRestored(blocks: seq<Block>, keep: nat -> bool)
    requires WellCarried(blocks)
  {
    Build(Request(Echo(blocks, keep)), map[]) == Ok(Turns(RestoredAll(UnitsIn(blocks), keep, false)))
  }

  /**
   * The same for every successful stream, however it was chunked and stopped: the message the client reassembled,
   * echoed with any signature fields dropped to a server without state, comes back with its texts, calls and call
   * signatures, if and only if calls with one id agree and no unsigned call has the tool key of a signed one for its
   * id.
   */
  lemma StreamRoundTripExactly(cfg: Config, ids: nat, chunks: seq<Chunk>)
    requires RunStream(cfg, ids, chunks, false).failure.None?
    ensures var blocks := Replay(RunStream(cfg, ids, chunks, false).conv.trace).blocks;
            && WellCarried(blocks)
            && ((forall keep: nat -> bool :: MessageRestored(blocks, keep)) <==> Recoverable(UnitsIn(blocks), false))
  {
    var blocks := Replay(RunStream(cfg, ids, chunks, false).conv.trace).blocks;
    StreamIsWellCarried(cfg, ids, chunks);
    UnitsMakeBlocks(blocks);
    EchoRestoresExactly(UnitsIn(blocks), false);
    forall keep: nat -> bool
      ensures MessageRestored(blocks, keep) <==> Restores(UnitsIn(blocks), keep, false)
    {
    }
  }
}
