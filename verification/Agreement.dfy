/** The streaming and the non-streaming converter as two runs over the same plan of texts, calls and repeats. */
module Agreement {
  import opened Bytes
  import opened StopMatching
  import opened StopFilter
  import opened AnthropicEvents
  import opened GeminiModel
  import opened StreamSpec
  import opened StreamLegality
  import opened StreamText
  import opened ResponseConversion
  import opened Merging

  // ----- The streaming converter follows StreamRun -----

  ghost predicate Follows(c: Conv, m: Merged) {
    && Merge(Shown(c)) == m.acc && c.filter == m.filter && c.matchedStop == m.matched && c.hasToolUse == m.calls
    && (m.matched != [] ==> m.filter.stopped)
  }

  lemma MergeWithText(c: Conv, text: Str, signature: Str)
    requires Coherent(c)
    ensures Merge(WithText(c, text, signature)) == PushText(Merge(Shown(c)), text)
  {
    if c.textOpen {
      var b := Shown(c)[c.textIndex];
      assert AppendDelta(b, TextDelta(text)) == Text(b.text + text, b.signature);
      MergeGrow(Shown(c), text, b.signature);
    } else {
      MergeSnoc(Shown(c), Text(text, signature));
    }
  }

  lemma SayFollows(c: Conv, cfg: Config, m: Merged, text: Str, signature: Str)
    requires Coherent(c) && Follows(c, m) && text != []
    ensures Follows(EmitText(c, cfg, cfg.stops, text, signature), StreamAct(cfg.stops, m, Say(text, signature)))
  {
    var r := FeedText(cfg.stops, c.filter, text);
    EmitTextEffect(c, cfg, cfg.stops, text, signature);
    EmitTextFrame(c, cfg, cfg.stops, text, signature);
    if r.visible != [] {
      MergeWithText(c, r.visible, signature);
    }
  }

  lemma InvokeFollows(c: Conv, cfg: Config, m: Merged, call: Call, signature: Str)
    requires Coherent(c) && Follows(c, m) && call.name != []
    ensures Follows(EmitTool(c, cfg, call, signature).conv, StreamAct(cfg.stops, m, Invoke(call, signature)))
  {
    EmitToolEffect(c, cfg, call, signature);
    EmitToolFrame(c, cfg, call, signature);
    if c.matchedStop == [] {
      var s := Prepared(c, cfg);
      SynthesizedIsAbstract(s.ids);
      MergeCall(Shown(c), IdFor(s, call), call, signature);
    }
  }

  /** The scan of a chunk follows the tally of its plan. */
  ghost predicate Scans(s: Scan, t: Tally, stops: seq<Str>) {
    && s.failure.None? && Coherent(s.conv)
    && s.conv.emittedCalls == t.emitted && s.seen == t.seen
    && Follows(s.conv, StreamRun(stops, t.plan))
  }

  lemma ScanTextScans(s: Scan, t: Tally, cfg: Config, p: Part)
    requires Scans(s, t, cfg.stops) && ValidPart(p) && !p.thought
    ensures Scans(s.(conv := ScanText(s.conv, cfg, p)), TallyText(t, p), cfg.stops)
  {
    ScanTextCoherent(s.conv, cfg, p);
    if p.text.Some? {
      StreamSnoc(cfg.stops, t.plan, Say(p.text.value, p.signature));
      if p.text.value != [] {
        EmitTextFrame(s.conv, cfg, cfg.stops, p.text.value, p.signature);
        SayFollows(s.conv, cfg, StreamRun(cfg.stops, t.plan), p.text.value, p.signature);
      }
    }
  }

  lemma CountedScans(r: Step, seen: map<Str, nat>, fp: Str, n: nat, emitted: map<Str, nat>, m: Merged)
    requires r.failure.None? && Coherent(r.conv) && Follows(r.conv, m) && r.conv.emittedCalls == emitted
    ensures var s := Counted(r, seen, fp, n);
            && s.failure.None? && s.seen == seen[fp := n] && s.conv.emittedCalls == emitted[fp := n]
            && Coherent(s.conv) && Follows(s.conv, m)
  {
  }

  lemma InvokeScans(c: Conv, cfg: Config, m: Merged, call: Call, signature: Str)
    requires Coherent(c) && Follows(c, m) && call.name != []
    ensures var r := EmitTool(c, cfg, call, signature);
            && r.failure.None? && Coherent(r.conv) && r.conv.emittedCalls == c.emittedCalls
            && Follows(r.conv, StreamAct(cfg.stops, m, Invoke(call, signature)))
  {
    EmitToolEffect(c, cfg, call, signature);
    EmitToolFrame(c, cfg, call, signature);
    InvokeFollows(c, cfg, m, call, signature);
  }

  lemma ScanCallScans(s: Scan, t: Tally, cfg: Config, call: Call, signature: Str)
    requires Scans(s, t, cfg.stops) && call.name != []
    ensures Scans(ScanCall(s, cfg, call, signature), TallyCall(t, call, signature), cfg.stops)
  {
    var fp := CallFingerprint(call, signature);
    var n := CountOf(s.seen, fp) + 1;
    if n <= CountOf(s.conv.emittedCalls, fp) {
      StreamSnoc(cfg.stops, t.plan, Repeat(call, signature));
    } else {
      NewCallScans(s, t, cfg, call, signature, fp, n);
    }
  }

  lemma NewCallScans(s: Scan, t: Tally, cfg: Config, call: Call, signature: Str, fp: Str, n: nat)
    requires Scans(s, t, cfg.stops) && call.name != []
    ensures Scans(Counted(EmitTool(s.conv, cfg, call, signature), s.seen, fp, n),
                  Tally(t.emitted[fp := n], t.seen[fp := n], t.plan + [Invoke(call, signature)]), cfg.stops)
  {
    var m := StreamRun(cfg.stops, t.plan);
    StreamSnoc(cfg.stops, t.plan, Invoke(call, signature));
    InvokeScans(s.conv, cfg, m, call, signature);
    CountedScans(EmitTool(s.conv, cfg, call, signature), s.seen, fp, n, t.emitted,
                 StreamAct(cfg.stops, m, Invoke(call, signature)));
  }

  lemma {:induction false} ScanPartsScans(c: Conv, t: Tally, cfg: Config, parts: seq<Part>)
    requires Scans(Scan(c, map[], None), t, cfg.stops) && forall i :: 0 <= i < |parts| ==> ValidPart(parts[i])
    ensures Scans(ScanParts(c, cfg, parts), TallyParts(t, parts), cfg.stops)
  {
    if parts != [] {
      var init, p := parts[..|parts| - 1], parts[|parts| - 1];
      ScanPartsScans(c, t, cfg, init);
      var s, u := ScanParts(c, cfg, init), TallyParts(t, init);
      if !p.thought {
        ScanTextScans(s, u, cfg, p);
        if p.call.Some? {
          ScanCallScans(s.(conv := ScanText(s.conv, cfg, p)), TallyText(u, p), cfg, p.call.value, p.signature);
        }
      }
    }
  }

  lemma ScanPartFinish(s: Scan, cfg: Config, p: Part)
    ensures ScanPart(s, cfg, p).conv.finish == s.conv.finish
  {
    if s.failure.None? && p.Part? && !p.thought {
      if p.text.Some? {
        EmitTextFrame(s.conv, cfg, cfg.stops, p.text.value, p.signature);
      }
      if p.call.Some? {
        EmitToolFrame(ScanText(s.conv, cfg, p), cfg, p.call.value, p.signature);
      }
    }
  }

  lemma {:induction false} ScanPartsFinish(c: Conv, cfg: Config, parts: seq<Part>)
    ensures ScanParts(c, cfg, parts).conv.finish == c.finish
  {
    if parts != [] {
      ScanPartsFinish(c, cfg, parts[..|parts| - 1]);
      ScanPartFinish(ScanParts(c, cfg, parts[..|parts| - 1]), cfg, parts[|parts| - 1]);
    }
  }

  lemma ChunkFollows(c: Conv, cfg: Config, t: Tally, chunk: Chunk)
    requires Scans(Scan(c, map[], None), t.(seen := map[]), cfg.stops) && PlainChunk(chunk) && chunk.Chunk?
    ensures var s := ProcessData(c, cfg, chunk);
            && Scans(Scan(s.conv, TallyParts(t.(seen := map[]), ChunkParts(chunk)).seen, s.failure),
                     TallyParts(t.(seen := map[]), ChunkParts(chunk)), cfg.stops)
            && s.conv.finish == if chunk.finish.Some? then chunk.finish else c.finish
  {
    var start := Identify(c, chunk).(finish := if chunk.finish.Some? then chunk.finish else c.finish);
    ScanPartsScans(start, t.(seen := map[]), cfg, chunk.content.parts);
    ScanPartsFinish(start, cfg, chunk.content.parts);
  }

  lemma {:induction false} StreamFollowsPlan(cfg: Config, ids: nat, chunks: seq<Chunk>)
    requires Plain(chunks)
    ensures var s := ProcessAll(cfg, ids, chunks);
            && Scans(Scan(s.conv, TallyAll(chunks).seen, s.failure), TallyAll(chunks), cfg.stops)
            && s.conv.finish == LastFinish(chunks)
  {
    if chunks == [] {
      InitialIsCoherent(ids);
    } else {
      var init, chunk := chunks[..|chunks| - 1], chunks[|chunks| - 1];
      StreamFollowsPlan(cfg, ids, init);
      assert PlainChunk(chunk);
      if chunk.Chunk? {
        ChunkFollows(ProcessAll(cfg, ids, init).conv, cfg, TallyAll(init), chunk);
      }
    }
  }

  /** What the client of a plain stream ends up with. */
  lemma StreamMessage(cfg: Config, ids: nat, chunks: seq<Chunk>)
    requires Plain(chunks)
    ensures var r, m := RunStream(cfg, ids, chunks, false), StreamRun(cfg.stops, Plan(chunks));
            var message := Replay(r.conv.trace);
            && r.failure.None?
            && Merge(message.blocks) == Closed(m)
            && message.stopReason == Some(if m.matched != [] then StopSequence
                                          else MapFinishReason(LastFinish(chunks), m.calls))
            && message.stopSequence == if m.matched != [] then Some(m.matched) else None
  {
    var c := ProcessAll(cfg, ids, chunks).conv;
    StreamFollowsPlan(cfg, ids, chunks);
    ProcessAllText(cfg, ids, chunks);
    RunInvariant(cfg.stops, Handed(chunks));
    FlushEffect(c, cfg);
    if c.matchedStop == [] && c.filter.pending != [] {
      MergeWithText(c, c.filter.pending, []);
    }
    WrappedEffect(cfg, ids, chunks);
    ConcludeEffect(Wrapped(cfg, ids, chunks));
  }

  // ----- The non-streaming converter follows PlainRun -----

  /** PlainRun by blocks rather than by acts: what the stop-sequence loop makes of converted content. */
  ghost function BlockAct(stops: seq<Str>, m: Merged, b: Block): Merged {
    if m.matched != [] then m
    else if b.Text? then SayTo(stops, m, b.text)
    else Merged(PushText(m.acc, m.filter.pending) + [Abstract(b)], m.filter.(pending := []), [], true)
  }

  ghost function BlockRun(stops: seq<Str>, blocks: seq<Block>): Merged {
    if blocks == [] then START else BlockAct(stops, BlockRun(stops, blocks[..|blocks| - 1]), blocks[|blocks| - 1])
  }

  lemma BlockSnoc(stops: seq<Str>, blocks: seq<Block>, b: Block)
    ensures BlockRun(stops, blocks + [b]) == BlockAct(stops, BlockRun(stops, blocks), b)
  {
    SnocInit(blocks, b);
  }

  /** The loop state: only a text block can be waiting for a tail. */
  ghost predicate Applies(a: Applied, m: Merged) {
    && Merge(a.result) == m.acc && a.filter == m.filter && a.matched == m.matched
    && (a.matched != [] <==> a.filter.stopped)
    && (a.filter.pending != [] ==> a.result != [] && a.result[|a.result| - 1].Text?)
  }

  lemma MergeTail(result: seq<Block>, f: FilterState)
    requires f.pending != [] ==> result != [] && result[|result| - 1].Text?
    requires !f.stopped
    ensures Merge(AppendTail(result, Tail(f))) == PushText(Merge(result), f.pending)
  {
    if f.pending != [] {
      MergeGrow(result, f.pending, result[|result| - 1].signature);
    }
  }

  lemma {:induction false} ApplyFollows(stops: seq<Str>, blocks: seq<Block>)
    ensures Applies(ApplyBlocks(stops, blocks), BlockRun(stops, blocks))
  {
    if blocks != [] {
      var init, b := blocks[..|blocks| - 1], blocks[|blocks| - 1];
      ApplyFollows(stops, init);
      var a := ApplyBlocks(stops, init);
      if a.matched == [] {
        if b.Text? {
          MergeSnoc(a.result, b.(text := FeedText(stops, a.filter, b.text).visible));
        } else {
          MergeTail(a.result, a.filter);
          MergeSnoc(AppendTail(a.result, Tail(a.filter)), b);
        }
      }
    }
  }

  /** Without stop sequences nothing is held back, so leaving the content alone is the same as applying none. */
  lemma {:induction false} NoStopsNoChange(blocks: seq<Block>)
    ensures var m := BlockRun([], blocks);
            m.acc == Merge(blocks) && m.matched == [] && m.filter == FRESH
  {
    if blocks != [] {
      var init, b := blocks[..|blocks| - 1], blocks[|blocks| - 1];
      NoStopsNoChange(init);
      if b.Text? {
        UnfilteredFeed(FRESH, b.text);
      }
    }
  }

  ghost predicate HasCalls(plan: seq<Act>) {
    exists i :: 0 <= i < |plan| && !plan[i].Say?
  }

  /** The converted content behaves like the plan, and its signatures may change without changing that. */
  ghost predicate Converts(c: Converted, stops: seq<Str>, plan: seq<Act>) {
    && (c.hasToolUse <==> HasCalls(plan))
    && BlockRun(stops, c.content) == PlainRun(stops, plan)
  }

  /** A call's blocks, one after the other, on any state. */
  lemma CallBlocksAct(stops: seq<Str>, m: Merged, id: Str, call: Call, signature: Str)
    requires id != [] && AbstractId(id) == AbstractId(call.id)
    ensures var carrier := Carrier(ToolKey(id), signature);
            var tool := Tool(id, call.name, ObjectOrEmpty(call.args), signature);
            PlainAct(stops, m, Invoke(call, signature)) ==
            if signature == [] then BlockAct(stops, m, tool) else BlockAct(stops, BlockAct(stops, m, carrier), tool)
  {
    var carrier, tool := Carrier(ToolKey(id), signature), Tool(id, call.name, ObjectOrEmpty(call.args), signature);
    AbstractKeyOfTool(id);
    if signature == [] {
      NothingBefore([Abstract(tool)]);
    } else {
      PlusAssoc(PushText(m.acc, m.filter.pending), [Abstract(carrier)], [Abstract(tool)]);
    }
  }

  lemma CallBlocksRun(stops: seq<Str>, blocks: seq<Block>, id: Str, call: Call, signature: Str)
    requires id != [] && AbstractId(id) == AbstractId(call.id)
    ensures BlockRun(stops, blocks + CallBlocks(id, call, signature)) ==
            PlainAct(stops, BlockRun(stops, blocks), Invoke(call, signature))
  {
    var carrier, tool := Carrier(ToolKey(id), signature), Tool(id, call.name, ObjectOrEmpty(call.args), signature);
    CallBlocksAct(stops, BlockRun(stops, blocks), id, call, signature);
    if signature == [] {
      NothingBefore([tool]);
      BlockSnoc(stops, blocks, tool);
    } else {
      PlusAssoc(blocks, [carrier], [tool]);
      BlockSnoc(stops, blocks, carrier);
      BlockSnoc(stops, blocks + [carrier], tool);
    }
  }

  lemma ConvertTextConverts(c: Converted, stops: seq<Str>, t: Tally, p: Part)
    requires Converts(c, stops, t.plan) && p.Part? && p.text.Some?
    ensures Converts(ConvertText(c, p.text.value, p.signature), stops, TallyText(t, p).plan)
  {
    var n := |c.content| - 1;
    var text := p.text.value;
    PlainSnoc(stops, t.plan, Say(text, p.signature));
    CallsSnoc(t.plan, Say(text, p.signature));
    if text != [] {
      BlockSnoc(stops, c.content, Text(text, p.signature));
    } else if p.signature != [] && c.content != [] && c.content[n].Text? {
      SignatureIsInvisible(stops, c.content, p.signature);
    }
  }

  lemma SignatureIsInvisible(stops: seq<Str>, blocks: seq<Block>, signature: Str)
    requires blocks != [] && blocks[|blocks| - 1].Text?
    ensures var n := |blocks| - 1;
            BlockRun(stops, blocks[n := Text(blocks[n].text, signature)]) == BlockRun(stops, blocks)
  {
    var n := |blocks| - 1;
    assert blocks[n := Text(blocks[n].text, signature)][..n] == blocks[..n];
  }

  lemma CallsSnoc(plan: seq<Act>, a: Act)
    ensures HasCalls(plan + [a]) <==> HasCalls(plan) || !a.Say?
  {
    if HasCalls(plan) {
      var i :| 0 <= i < |plan| && !plan[i].Say?;
      assert (plan + [a])[i] == plan[i];
    }
    assert (plan + [a])[|plan|] == a;
  }

  lemma ConvertCallConverts(c: Converted, stops: seq<Str>, t: Tally, call: Call, signature: Str)
    requires Converts(c, stops, t.plan)
    ensures Converts(ConvertCall(c, call, signature), stops, TallyCall(t, call, signature).plan)
  {
    SynthesizedIsAbstract(c.ids);
    CallBlocksRun(stops, c.content, if call.id == [] then SynthesizedToolId(c.ids) else call.id, call, signature);
    PlainSnoc(stops, t.plan, Invoke(call, signature));
    PlainSnoc(stops, t.plan, Repeat(call, signature));
    CallsSnoc(t.plan, Invoke(call, signature));
    CallsSnoc(t.plan, Repeat(call, signature));
  }

  lemma {:induction false} ConvertPartsConverts(before: seq<Part>, parts: seq<Part>, ids: nat, stops: seq<Str>,
                                                t: Tally)
    requires Converts(ConvertParts(before, ids), stops, t.plan)
    ensures Converts(ConvertParts(before + parts, ids), stops, TallyParts(t, parts).plan)
  {
    if parts == [] {
      assert before + parts == before;
    } else {
      var init, p := parts[..|parts| - 1], parts[|parts| - 1];
      ConvertPartsConverts(before, init, ids, stops, t);
      InitLast(parts);
      PlusAssoc(before, init, [p]);
      SnocInit(before + init, p);
      ConvertPartConverts(ConvertParts(before + init, ids), stops, TallyParts(t, init), p);
    }
  }

  lemma ConvertPartConverts(c: Converted, stops: seq<Str>, t: Tally, p: Part)
    requires Converts(c, stops, t.plan)
    ensures Converts(ConvertPart(c, p), stops, TallyPart(t, p).plan)
  {
    if p.Part? && !p.thought {
      var d := if p.text.Some? then ConvertText(c, p.text.value, p.signature) else c;
      if p.text.Some? {
        ConvertTextConverts(c, stops, t, p);
      } else {
        NoTextNoTally(t, p);
      }
      if p.call.Some? {
        ConvertCallConverts(d, stops, TallyText(t, p), p.call.value, p.signature);
      }
    }
  }

  lemma NoTextNoTally(t: Tally, p: Part)
    requires p.Part? && p.text.None?
    ensures TallyText(t, p) == t
  {
  }

  lemma {:induction false} PlainFollowsPlan(chunks: seq<Chunk>, ids: nat, stops: seq<Str>)
    ensures Converts(ConvertParts(AllParts(chunks), ids), stops, Plan(chunks))
  {
    if chunks != [] {
      var init := chunks[..|chunks| - 1];
      PlainFollowsPlan(init, ids, stops);
      ConvertPartsConverts(AllParts(init), ChunkParts(chunks[|chunks| - 1]), ids, stops,
                           TallyAll(init).(seen := map[]));
    }
  }

  /** The same response as one non-streaming object. */
  function Whole(chunks: seq<Chunk>): GeminiResponse {
    GeminiResponse([], Some(Candidate(LastFinish(chunks), Parts(AllParts(chunks)))))
  }

  lemma {:induction false} AllPartsValid(chunks: seq<Chunk>)
    requires Plain(chunks)
    ensures ValidContent(Parts(AllParts(chunks)))
  {
    if chunks != [] {
      AllPartsValid(chunks[..|chunks| - 1]);
      assert PlainChunk(chunks[|chunks| - 1]);
    }
  }

  /** What the non-streaming client ends up with. */
  lemma PlainMessage(chunks: seq<Chunk>, ids: nat, stops: seq<Str>)
    requires Plain(chunks)
    ensures var r, m := Respond(Whole(chunks), stops, ids), PlainRun(stops, Plan(chunks));
            && r.Ok?
            && Merge(r.value.content) == Closed(m)
            && r.value.stopReason == (if m.matched != [] then StopSequence
                                      else MapFinishReason(LastFinish(chunks), HasCalls(Plan(chunks))))
            && r.value.stopSequence == if m.matched != [] then Some(m.matched) else None
  {
    AllPartsValid(chunks);
    PlainFollowsPlan(chunks, ids, stops);
    var content := ConvertParts(AllParts(chunks), ids).content;
    if stops == [] {
      NoStopsNoChange(content);
    } else {
      ApplyFollows(stops, content);
      var a := ApplyBlocks(stops, content);
      if a.matched == [] {
        MergeTail(a.result, a.filter);
      }
    }
  }
}
