/** What happens to the upstream's text in a streaming run: conservation, the cut at a stop, and silence after it. */
module StreamText {
  import opened Bytes
  import opened StopMatching
  import opened StopFilter
  import opened StopChunking
  import opened AnthropicEvents
  import opened GeminiModel
  import opened StreamSpec
  import opened StreamLegality

  /** The texts of a chunk's parts that go to emitText: non-empty and not thoughts. */
  function PartText(p: Part): seq<Str> {
    if p.Part? && !p.thought && p.text.Some? && p.text.value != [] then [p.text.value] else []
  }

  function PartTexts(parts: seq<Part>): seq<Str> {
    if parts == [] then [] else PartTexts(parts[..|parts| - 1]) + PartText(parts[|parts| - 1])
  }

  function ChunkTexts(chunk: Chunk): seq<Str> {
    if !chunk.Chunk? then []
    else if chunk.blockReason != [] then [Ascii("Request blocked by Gemini safety filters: ") + chunk.blockReason]
    else if chunk.content.Parts? then PartTexts(chunk.content.parts)
    else []
  }

  /** All texts handed to emitText by the chunks of a response. */
  function Handed(chunks: seq<Chunk>): seq<Str> {
    if chunks == [] then [] else Handed(chunks[..|chunks| - 1]) + ChunkTexts(chunks[|chunks| - 1])
  }

  /** The client has been shown exactly what a filter run over the handed texts released. */
  ghost predicate InStep(c: Conv, cfg: Config, handed: seq<Str>) {
    Run(cfg.stops, handed) == Progress(DeltaText(c.trace), c.matchedStop, c.filter)
  }

  lemma ScanPartText(s: Scan, cfg: Config, p: Part, handed: seq<Str>)
    requires Coherent(s.conv) && InStep(s.conv, cfg, handed) && s.failure.None? && ValidPart(p)
    ensures var t := ScanPart(s, cfg, p);
            t.failure.None? && InStep(t.conv, cfg, handed + PartText(p))
  {
    assert handed + [] == handed;
    if !p.thought {
      ScanTextText(s.conv, cfg, p, handed);
      ScanTextCoherent(s.conv, cfg, p);
      if p.call.Some? {
        ScanCallText(s.(conv := ScanText(s.conv, cfg, p)), cfg, p.call.value, p.signature);
      }
    }
  }

  lemma ScanTextText(c: Conv, cfg: Config, p: Part, handed: seq<Str>)
    requires Coherent(c) && InStep(c, cfg, handed) && ValidPart(p) && !p.thought
    ensures InStep(ScanText(c, cfg, p), cfg, handed + PartText(p))
  {
    if p.text.Some? && p.text.value != [] {
      EmitTextEffect(c, cfg, cfg.stops, p.text.value, p.signature);
      RunSnoc(cfg.stops, handed, p.text.value);
    } else {
      assert handed + [] == handed;
    }
  }

  lemma ScanCallText(s: Scan, cfg: Config, call: Call, signature: Str)
    requires Coherent(s.conv) && s.failure.None? && call.name != []
    ensures var t := ScanCall(s, cfg, call, signature);
            && t.failure.None? && DeltaText(t.conv.trace) == DeltaText(s.conv.trace)
            && t.conv.matchedStop == s.conv.matchedStop && t.conv.filter == s.conv.filter
  {
    EmitToolEffect(s.conv, cfg, call, signature);
    EmitToolFrame(s.conv, cfg, call, signature);
  }

  /** The variables a tool call leaves alone. */
  ghost predicate SameFilter(c: Conv, d: Conv) {
    d.filter == c.filter && d.matchedStop == c.matchedStop && d.emittedCalls == c.emittedCalls && d.finish == c.finish
  }

  lemma EmitTextFrame(c: Conv, cfg: Config, stops: seq<Str>, text: Str, signature: Str)
    ensures var d := EmitText(c, cfg, stops, text, signature);
            d.hasToolUse == c.hasToolUse && d.emittedCalls == c.emittedCalls && d.finish == c.finish
  {
    var r := FeedText(stops, c.filter, text);
    ShowTextKeeps(Filtered(c, r), cfg, r.visible, signature);
  }

  lemma ShowTextKeeps(c: Conv, cfg: Config, text: Str, signature: Str)
    ensures var d := ShowText(c, cfg, text, signature);
            d.hasToolUse == c.hasToolUse && d.emittedCalls == c.emittedCalls && d.finish == c.finish
  {
  }

  lemma PreparedFrame(c: Conv, cfg: Config)
    ensures SameFilter(c, Prepared(c, cfg)) && Prepared(c, cfg).hasToolUse == c.hasToolUse
  {
  }

  lemma ShowCallFrame(c: Conv, id: Str, call: Call, signature: Str)
    ensures SameFilter(c, ShowCall(c, id, call, signature))
  {
  }

  lemma EmitToolFrame(c: Conv, cfg: Config, call: Call, signature: Str)
    ensures SameFilter(c, EmitTool(c, cfg, call, signature).conv)
    ensures EmitTool(c, cfg, call, signature).conv.hasToolUse ==
            (c.hasToolUse || (c.matchedStop == [] && call.name != []))
  {
    var s := Prepared(c, cfg);
    PreparedFrame(c, cfg);
    ShowCallFrame(TakeId(s, call), IdFor(s, call), call, signature);
  }

  lemma {:induction false} ScanPartsText(c: Conv, cfg: Config, parts: seq<Part>, handed: seq<Str>)
    requires Coherent(c) && InStep(c, cfg, handed) && forall i :: 0 <= i < |parts| ==> ValidPart(parts[i])
    ensures var s := ScanParts(c, cfg, parts);
            s.failure.None? && InStep(s.conv, cfg, handed + PartTexts(parts))
  {
    if parts == [] {
      assert handed + [] == handed;
    } else {
      var init, p := parts[..|parts| - 1], parts[|parts| - 1];
      ScanPartsText(c, cfg, init, handed);
      ScanPartsCoherent(c, cfg, init);
      ScanPartText(ScanParts(c, cfg, init), cfg, p, handed + PartTexts(init));
      PlusAssoc(handed, PartTexts(init), PartText(p));
    }
  }

  lemma ProcessDataText(c: Conv, cfg: Config, chunk: Chunk, handed: seq<Str>)
    requires Coherent(c) && InStep(c, cfg, handed)
    ensures var s := ProcessData(c, cfg, chunk);
            s.failure.None? ==> InStep(s.conv, cfg, handed + ChunkTexts(chunk))
  {
    assert handed + [] == handed;
    if chunk.Chunk? {
      var n := Identify(c, chunk);
      if chunk.blockReason != [] {
        var text := BLOCKED + chunk.blockReason;
        EmitTextEffect(n.(finish := Some(SAFETY)), cfg, cfg.stops, text, []);
        RunSnoc(cfg.stops, handed, text);
      } else if ValidContent(chunk.content) {
        var f := if chunk.finish.Some? then chunk.finish else n.finish;
        ScanPartsText(n.(finish := f), cfg, chunk.content.parts, handed);
      }
    }
  }

  lemma {:induction false} ProcessAllText(cfg: Config, ids: nat, chunks: seq<Chunk>)
    ensures var s := ProcessAll(cfg, ids, chunks);
            s.failure.None? ==> InStep(s.conv, cfg, Handed(chunks))
  {
    if chunks == [] {
      InitialIsCoherent(ids);
    } else {
      var init, chunk := chunks[..|chunks| - 1], chunks[|chunks| - 1];
      ProcessAllText(cfg, ids, init);
      ProcessAllCoherent(cfg, ids, init);
      var before := ProcessAll(cfg, ids, init);
      if before.failure.None? {
        ProcessDataText(before.conv, cfg, chunk, Handed(init));
      }
    }
  }

  /**
   * What a client has at the end of a successful run: all text deltas together are the release of the stop filter over
   * the handed texts, tail included, and the closing message_delta names the match.
   */
  lemma ClientSeesFilteredText(cfg: Config, ids: nat, chunks: seq<Chunk>)
    requires RunStream(cfg, ids, chunks, false).failure.None?
    ensures var trace, filtered := RunStream(cfg, ids, chunks, false).conv.trace, Finish(cfg.stops, Handed(chunks));
            && DeltaText(trace) == filtered.visible
            && Replay(trace).stopSequence == (if filtered.matched == [] then None else Some(filtered.matched))
            && (filtered.matched != [] ==> Replay(trace).stopReason == Some(StopSequence))
  {
    var c := ProcessAll(cfg, ids, chunks).conv;
    ProcessAllText(cfg, ids, chunks);
    ProcessAllCoherent(cfg, ids, chunks);
    RunInvariant(cfg.stops, Handed(chunks));
    FlushEffect(c, cfg);
    WrappedEffect(cfg, ids, chunks);
    ConcludeEffect(Wrapped(cfg, ids, chunks));
    if !c.filter.stopped && c.filter.pending == [] {
      assert DeltaText(c.trace) + c.filter.pending == DeltaText(c.trace);
    }
  }

  /**
   * Whole-stream text conservation. Without a stop sequence in the handed text the client gets all of it; otherwise it
   * gets the text handed by the time of detection, cut at the earliest stop sequence in it, and learns which one it
   * was.
   */
  lemma TextIsConserved(cfg: Config, ids: nat, chunks: seq<Chunk>)
    requires RunStream(cfg, ids, chunks, false).failure.None?
    ensures var message, text := Replay(RunStream(cfg, ids, chunks, false).conv.trace),
                                 DeltaText(RunStream(cfg, ids, chunks, false).conv.trace);
            var all, seen := Concat(Handed(chunks)), SeenText(cfg.stops, Handed(chunks));
            && (StopFree(all, cfg.stops) ==> text == all && message.stopSequence == None)
            && (!StopFree(all, cfg.stops) ==>
                  && seen <= all && StopPos(seen, cfg.stops) >= 0
                  && text == seen[..StopPos(seen, cfg.stops)]
                  && message.stopReason == Some(StopSequence)
                  && message.stopSequence == Some(StopFound(seen, cfg.stops)))
    ensures StopFree(DeltaText(RunStream(cfg, ids, chunks, false).conv.trace), cfg.stops)
  {
    ClientSeesFilteredText(cfg, ids, chunks);
    FinishFacts(cfg.stops, Handed(chunks));
    ReleasedIsStopFree(cfg.stops, Handed(chunks));
  }

  predicate OpensOrFills(e: Event) {
    e.BlockStart? || e.BlockDelta?
  }

  /** A stop sequence has matched. */
  predicate Halted(c: Conv) {
    c.matchedStop != [] && c.filter.stopped
  }

  /** Nothing was written from `c` to `d`, and both are past a match. */
  predicate Silent(c: Conv, d: Conv) {
    Halted(c) && Halted(d) && d.trace == c.trace && d.matchedStop == c.matchedStop
  }

  lemma ScanPartSilent(s: Scan, cfg: Config, p: Part)
    requires Halted(s.conv)
    ensures Silent(s.conv, ScanPart(s, cfg, p).conv)
  {
  }

  /** After the text of a part has matched, a call in the same part writes nothing. */
  lemma RestOfPartSilent(s: Scan, cfg: Config, p: Part)
    requires s.failure.None? && p.Part? && !p.thought && Halted(ScanText(s.conv, cfg, p))
    ensures Silent(ScanText(s.conv, cfg, p), ScanPart(s, cfg, p).conv)
  {
  }

  /** After the parts `a` of a chunk have matched, its further parts write nothing. */
  lemma {:induction false} RestOfPartsSilent(c: Conv, cfg: Config, a: seq<Part>, b: seq<Part>)
    requires Halted(ScanParts(c, cfg, a).conv)
    ensures Silent(ScanParts(c, cfg, a).conv, ScanParts(c, cfg, a + b).conv)
  {
    if b == [] {
      assert a + b == a;
    } else {
      var init, p := b[..|b| - 1], b[|b| - 1];
      RestOfPartsSilent(c, cfg, a, init);
      InitLast(b);
      PlusAssoc(a, init, [p]);
      SnocInit(a + init, p);
      ScanPartSilent(ScanParts(c, cfg, a + init), cfg, p);
    }
  }

  /** The state a chunk's parts loop starts in. */
  function Entered(c: Conv, chunk: Chunk): Conv
    requires chunk.Chunk?
  {
    var n := Identify(c, chunk);
    n.(finish := if chunk.finish.Some? then chunk.finish else n.finish)
  }

  lemma ProcessDataSilent(c: Conv, cfg: Config, chunk: Chunk)
    requires Halted(c)
    ensures Silent(c, ProcessData(c, cfg, chunk).conv)
  {
    if chunk.Chunk? && chunk.blockReason == [] && ValidContent(chunk.content) {
      RestOfPartsSilent(Entered(c, chunk), cfg, [], chunk.content.parts);
      NothingBefore(chunk.content.parts);
    }
  }

  /** Without a failure so far, a stop sequence has matched exactly if the texts handed over hold one. */
  lemma HaltedExactly(cfg: Config, ids: nat, chunks: seq<Chunk>)
    requires ProcessAll(cfg, ids, chunks).failure.None?
    ensures var c := ProcessAll(cfg, ids, chunks).conv;
            && (c.matchedStop != [] <==> !StopFree(Concat(Handed(chunks)), cfg.stops))
            && (c.matchedStop != [] <==> Halted(c))
  {
    ProcessAllText(cfg, ids, chunks);
    RunInvariant(cfg.stops, Handed(chunks));
  }

  /** Once the texts handed over hold a stop sequence, no later chunk writes anything, whatever it brings. */
  lemma {:induction false} StoppedStreamIsSilent(cfg: Config, ids: nat, chunks: seq<Chunk>, more: seq<Chunk>)
    requires ProcessAll(cfg, ids, chunks).failure.None?
    requires !StopFree(Concat(Handed(chunks)), cfg.stops)
    ensures Silent(ProcessAll(cfg, ids, chunks).conv, ProcessAll(cfg, ids, chunks + more).conv)
  {
    if more == [] {
      assert chunks + more == chunks;
      HaltedExactly(cfg, ids, chunks);
    } else {
      var init, last := more[..|more| - 1], more[|more| - 1];
      StoppedStreamIsSilent(cfg, ids, chunks, init);
      InitLast(more);
      PlusAssoc(chunks, init, [last]);
      SnocInit(chunks + init, last);
      ProcessDataSilent(ProcessAll(cfg, ids, chunks + init).conv, cfg, last);
    }
  }

  /** Everything in `after` beyond `before` neither opens nor fills a block. */
  ghost predicate OnlyClosing(before: seq<Event>, after: seq<Event>) {
    before <= after && forall i :: |before| <= i < |after| ==> !OpensOrFills(after[i])
  }

  lemma OneClosing(trace: seq<Event>, e: Event)
    requires !OpensOrFills(e)
    ensures OnlyClosing(trace, trace + [e])
  {
  }

  lemma ClosingTwice(a: seq<Event>, b: seq<Event>, c: seq<Event>)
    requires OnlyClosing(a, b) && OnlyClosing(b, c)
    ensures OnlyClosing(a, c)
  {
  }

  lemma StartOnlyCloses(c: Conv, cfg: Config)
    ensures OnlyClosing(c.trace, StartMessage(c, cfg).trace) && StartMessage(c, cfg).matchedStop == c.matchedStop
  {
    if !c.started {
      var d := StartMessage(c, cfg);
      OneClosing(c.trace, MessageStart(d.messageId, d.model));
    }
  }

  lemma CloseOnlyCloses(c: Conv)
    ensures OnlyClosing(c.trace, CloseText(c).trace) && CloseText(c).matchedStop == c.matchedStop
  {
    if c.textOpen {
      OneClosing(c.trace, BlockStop(c.textIndex));
    }
  }

  lemma ConcludeOnlyCloses(c: Conv)
    ensures OnlyClosing(c.trace, Conclude(c).trace)
  {
  }

  /** Nor does the end of the run: after the match it only starts, closes and ends what has to be. */
  lemma NothingAfterTheStop(cfg: Config, ids: nat, chunks: seq<Chunk>, more: seq<Chunk>, readFailed: bool)
    requires ProcessAll(cfg, ids, chunks).failure.None?
    requires !StopFree(Concat(Handed(chunks)), cfg.stops)
    ensures OnlyClosing(ProcessAll(cfg, ids, chunks).conv.trace,
                        RunStream(cfg, ids, chunks + more, readFailed).conv.trace)
  {
    StoppedStreamIsSilent(cfg, ids, chunks, more);
    var c := ProcessAll(cfg, ids, chunks + more).conv;
    var step := ProcessAll(cfg, ids, chunks + more);
    if Failing(step, readFailed).Some? {
      OneClosing(c.trace, Error(Failing(step, readFailed).value));
    } else {
      var d := CloseText(StartMessage(c, cfg));
      StartOnlyCloses(c, cfg);
      CloseOnlyCloses(StartMessage(c, cfg));
      ConcludeOnlyCloses(d);
      ClosingTwice(c.trace, StartMessage(c, cfg).trace, d.trace);
      ClosingTwice(c.trace, d.trace, Conclude(d).trace);
    }
  }

  // ----- From the very text that matches -----

  /** The state just after the text of part `p`, which follows the parts `a` of a chunk that comes after `before`. */
  ghost function AfterText(cfg: Config, ids: nat, before: seq<Chunk>, chunk: Chunk, a: seq<Part>, p: Part): Conv
    requires chunk.Chunk? && p.Part?
  {
    var c := ScanParts(Entered(ProcessAll(cfg, ids, before).conv, chunk), cfg, a).conv;
    if p.thought then c else ScanText(c, cfg, p)
  }

  /** An accepted chunk whose parts are `a`, then `p`, then `b`. */
  predicate Brings(chunk: Chunk, a: seq<Part>, p: Part, b: seq<Part>) {
    && chunk.Chunk? && chunk.blockReason == [] && ValidContent(chunk.content)
    && chunk.content.parts == a + [p] + b && ValidPart(p)
  }

  lemma BringsValid(chunk: Chunk, a: seq<Part>, p: Part, b: seq<Part>)
    requires Brings(chunk, a, p, b)
    ensures forall i :: 0 <= i < |a| ==> ValidPart(a[i])
    ensures forall i :: 0 <= i < |chunk.content.parts| ==> ValidPart(chunk.content.parts[i])
  {
    forall i | 0 <= i < |a| ensures ValidPart(a[i]) {
      assert chunk.content.parts[i] == a[i];
    }
  }

  /** The state after the text of `p` is past a match exactly if the texts up to there hold a stop sequence. */
  lemma AfterTextHalted(cfg: Config, ids: nat, before: seq<Chunk>, chunk: Chunk, a: seq<Part>, p: Part, b: seq<Part>)
    requires ProcessAll(cfg, ids, before).failure.None? && Brings(chunk, a, p, b)
    ensures Halted(AfterText(cfg, ids, before, chunk, a, p)) <==>
            !StopFree(Concat(Handed(before) + PartTexts(a) + PartText(p)), cfg.stops)
    ensures ScanParts(Entered(ProcessAll(cfg, ids, before).conv, chunk), cfg, a).failure.None?
  {
    var c, handed := Entered(ProcessAll(cfg, ids, before).conv, chunk), Handed(before) + PartTexts(a);
    BringsValid(chunk, a, p, b);
    ProcessAllText(cfg, ids, before);
    ProcessAllCoherent(cfg, ids, before);
    ScanPartsText(c, cfg, a, Handed(before));
    ScanPartsCoherent(c, cfg, a);
    if p.thought {
      assert handed + [] == handed;
    } else {
      ScanTextText(ScanParts(c, cfg, a).conv, cfg, p, handed);
    }
    RunInvariant(cfg.stops, handed + PartText(p));
  }

  lemma RestAfterText(c: Conv, cfg: Config, a: seq<Part>, p: Part, b: seq<Part>)
    requires ScanParts(c, cfg, a).failure.None? && p.Part?
    requires Halted(if p.thought then ScanParts(c, cfg, a).conv else ScanText(ScanParts(c, cfg, a).conv, cfg, p))
    ensures Silent(if p.thought then ScanParts(c, cfg, a).conv else ScanText(ScanParts(c, cfg, a).conv, cfg, p),
                   ScanParts(c, cfg, a + [p] + b).conv)
  {
    if p.thought {
      ScanPartSilent(ScanParts(c, cfg, a), cfg, p);
    } else {
      RestOfPartSilent(ScanParts(c, cfg, a), cfg, p);
    }
    SnocInit(a, p);
    RestOfPartsSilent(c, cfg, a + [p], b);
  }

  lemma ProcessDataScans(c: Conv, cfg: Config, chunk: Chunk)
    requires chunk.Chunk? && chunk.blockReason == [] && ValidContent(chunk.content)
    ensures var s := ScanParts(Entered(c, chunk), cfg, chunk.content.parts);
            ProcessData(c, cfg, chunk) == Step(s.conv, s.failure)
  {
  }

  lemma NextChunkAccepted(cfg: Config, ids: nat, before: seq<Chunk>, chunk: Chunk)
    requires ProcessAll(cfg, ids, before).failure.None?
    requires chunk.Chunk? && chunk.blockReason == [] && ValidContent(chunk.content)
    ensures var s := ScanParts(Entered(ProcessAll(cfg, ids, before).conv, chunk), cfg, chunk.content.parts);
            ProcessAll(cfg, ids, before + [chunk]) == Step(s.conv, None)
  {
    var c := ProcessAll(cfg, ids, before).conv;
    ProcessAllText(cfg, ids, before);
    ProcessAllCoherent(cfg, ids, before);
    ScanPartsText(Entered(c, chunk), cfg, chunk.content.parts, Handed(before));
    ProcessDataScans(c, cfg, chunk);
    SnocInit(before, chunk);
  }

  /**
   * Silence from the very text that completes a stop sequence: once the texts handed over up to and including that of
   * part `p` hold one, nothing that follows opens or fills a block in the whole run, neither a call in the same part,
   * nor later parts and chunks, nor the end of the run, whether it succeeds or fails.
   */
  lemma SilentFromTheMatch(cfg: Config, ids: nat, before: seq<Chunk>, chunk: Chunk, a: seq<Part>, p: Part, b: seq<Part>,
                           more: seq<Chunk>, readFailed: bool)
    requires ProcessAll(cfg, ids, before).failure.None? && Brings(chunk, a, p, b)
    requires !StopFree(Concat(Handed(before) + PartTexts(a) + PartText(p)), cfg.stops)
    ensures OnlyClosing(AfterText(cfg, ids, before, chunk, a, p).trace,
                        RunStream(cfg, ids, before + [chunk] + more, readFailed).conv.trace)
  {
    AfterTextHalted(cfg, ids, before, chunk, a, p, b);
    RestAfterText(Entered(ProcessAll(cfg, ids, before).conv, chunk), cfg, a, p, b);
    NextChunkAccepted(cfg, ids, before, chunk);
    HaltedExactly(cfg, ids, before + [chunk]);
    NothingAfterTheStop(cfg, ids, before + [chunk], more, readFailed);
  }
}
