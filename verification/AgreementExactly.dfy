/** Streaming and non-streaming agree exactly when every call comes at a point where neither has to differ. */
module AgreementExactly {
  import opened Bytes
  import opened StopMatching
  import opened StopFilter
  import opened AnthropicEvents
  import opened GeminiModel
  import opened StreamSpec
  import opened ResponseConversion
  import opened Merging
  import opened Agreement

  /**
   * The call at `j`, unless a stop sequence was said before it, is not taken for a repeat, and no stop sequence may
   * begin at the end of the text said before it.
   */
  ghost predicate CallInStep(stops: seq<Str>, plan: seq<Act>, j: nat)
    requires j < |plan|
  {
    StopFree(Said(plan[..j]), stops) && !plan[j].Say? ==> plan[j].Invoke? && Keep(Said(plan[..j]), stops) == 0
  }

  ghost predicate CallsInStep(stops: seq<Str>, plan: seq<Act>) {
    forall j :: 0 <= j < |plan| ==> CallInStep(stops, plan, j)
  }

  /** The streaming converter never flushes before the end, so its filter has run over all the text said. */
  lemma {:induction false} StreamFilterIsRun(stops: seq<Str>, plan: seq<Act>)
    ensures var m, r := StreamRun(stops, plan), Run(stops, Says(plan));
            m.filter == r.filter && m.matched == r.matched
  {
    if plan != [] {
      var init, a := plan[..|plan| - 1], plan[|plan| - 1];
      StreamFilterIsRun(stops, init);
      RunInvariant(stops, Says(init));
      if a.Say? && a.text != [] {
        RunSnoc(stops, Says(init), a.text);
      } else {
        assert Says(init) + [] == Says(init);
      }
    }
  }

  lemma StreamFilterFacts(stops: seq<Str>, plan: seq<Act>)
    ensures var m := StreamRun(stops, plan);
            && (m.matched != [] <==> !StopFree(Said(plan), stops))
            && (m.matched == [] ==> |m.filter.pending| == Keep(Said(plan), stops))
  {
    StreamFilterIsRun(stops, plan);
    RunInvariant(stops, Says(plan));
  }

  lemma InStepPrefix(stops: seq<Str>, plan: seq<Act>, i: nat)
    requires CallsInStep(stops, plan) && i <= |plan|
    ensures CallsInStep(stops, plan[..i])
  {
    forall j | 0 <= j < i ensures CallInStep(stops, plan[..i], j) {
      assert CallInStep(stops, plan, j);
      assert plan[..i][..j] == plan[..j];
    }
  }

  lemma {:induction false} Lockstep(stops: seq<Str>, plan: seq<Act>)
    requires CallsInStep(stops, plan)
    ensures StreamRun(stops, plan) == PlainRun(stops, plan)
    ensures StreamRun(stops, plan).matched == [] ==> StreamRun(stops, plan).calls == HasCalls(plan)
  {
    if plan != [] {
      var n := |plan| - 1;
      InStepPrefix(stops, plan, n);
      Lockstep(stops, plan[..n]);
      assert CallInStep(stops, plan, n);
      StreamFilterFacts(stops, plan[..n]);
      InitLast(plan);
      CallsSnoc(plan[..n], plan[n]);
    }
  }

  /** The non-streaming filter only ever holds a part of the text said, so it never stops before the streaming one. */
  lemma {:induction false} PlainStopsLater(stops: seq<Str>, plan: seq<Act>) returns (before: Str)
    ensures var m := PlainRun(stops, plan);
            && (m.matched != [] ==> !StopFree(Said(plan), stops))
            && (m.matched == [] ==> !m.filter.stopped && Said(plan) == before + m.filter.pending)
  {
    before := [];
    if plan != [] {
      var init, a := plan[..|plan| - 1], plan[|plan| - 1];
      before := PlainStopsLater(stops, init);
      InitLast(plan);
      SaidSnoc(init, a);
      var m := PlainRun(stops, init);
      if m.matched != [] {
        if StopFree(Said(plan), stops) {
          StopFreeLeft(Said(init), if a.Say? then a.text else [], stops);
        }
      } else if a.Say? && a.text != [] {
        before := PlainSays(stops, m, a.text, before);
      } else if a.Say? {
        NothingAfter(Said(init));
      } else {
        before := Said(plan);
      }
    }
  }

  lemma PlainSays(stops: seq<Str>, m: Merged, text: Str, before: Str) returns (after: Str)
    requires !m.filter.stopped
    ensures var n, all := SayTo(stops, m, text), before + m.filter.pending + text;
            && (n.matched != [] ==> !StopFree(all, stops))
            && (n.matched == [] ==> !n.filter.stopped && all == after + n.filter.pending)
  {
    var combined := m.filter.pending + text;
    PlusAssoc(before, m.filter.pending, text);
    var r := FeedText(stops, m.filter, text);
    after := before + r.visible;
    if r.next.stopped {
      StopAtInSuffix(before, combined, stops, StopPos(combined, stops));
    } else {
      TakeDrop(combined, |combined| - Keep(combined, stops));
      PlusAssoc(before, r.visible, r.next.pending);
    }
  }

  // ----- A repeat: the streaming client has one call less from then on -----

  function CallCount(blocks: seq<Block>): nat {
    if blocks == [] then 0
    else CallCount(blocks[..|blocks| - 1]) + if blocks[|blocks| - 1].Tool? then 1 else 0
  }

  lemma CountSnoc(blocks: seq<Block>, b: Block)
    ensures CallCount(blocks + [b]) == CallCount(blocks) + if b.Tool? then 1 else 0
  {
    SnocInit(blocks, b);
  }

  lemma CountPushText(acc: seq<Block>, text: Str)
    ensures CallCount(PushText(acc, text)) == CallCount(acc)
  {
    var n := |acc| - 1;
    if text != [] {
      if acc != [] && acc[n].Text? {
        CountSnoc(acc[..n], Text(acc[n].text + text, []));
      } else {
        CountSnoc(acc, Text(text, []));
      }
    }
  }

  lemma CountCall(acc: seq<Block>, call: Call, signature: Str)
    ensures CallCount(acc + CallAbstract(call, signature)) == CallCount(acc) + 1
  {
    var blocks := CallAbstract(call, signature);
    if signature == [] {
      assert blocks == [blocks[0]];
      CountSnoc(acc, blocks[0]);
    } else {
      assert blocks == [blocks[0], blocks[1]];
      OneByOne(acc, blocks[0], blocks[1], blocks[1]);
      CountSnoc(acc, blocks[0]);
      CountSnoc(acc + [blocks[0]], blocks[1]);
    }
  }

  /** From equal states, a repeat is one call more for the non-streaming converter only. */
  lemma RepeatSplits(stops: seq<Str>, m: Merged, a: Act)
    requires a.Repeat? && m.matched == []
    ensures CallCount(StreamAct(stops, m, a).acc) < CallCount(PlainAct(stops, m, a).acc)
  {
    CountPushText(m.acc, m.filter.pending);
    CountCall(PushText(m.acc, m.filter.pending), a.call, a.signature);
  }

  /** No later act makes up for it. */
  lemma FewerCallsStay(stops: seq<Str>, s: Merged, p: Merged, a: Act)
    requires CallCount(s.acc) < CallCount(p.acc) && (p.matched != [] ==> s.matched != [])
    ensures CallCount(StreamAct(stops, s, a).acc) < CallCount(PlainAct(stops, p, a).acc)
  {
    if a.Say? {
      CountPushText(s.acc, FeedText(stops, s.filter, a.text).visible);
      CountPushText(p.acc, FeedText(stops, p.filter, a.text).visible);
    } else {
      CountCall(s.acc, a.call, a.signature);
      CountPushText(p.acc, p.filter.pending);
      CountCall(PushText(p.acc, p.filter.pending), a.call, a.signature);
    }
  }

  lemma StopsInOrder(stops: seq<Str>, plan: seq<Act>)
    ensures PlainRun(stops, plan).matched != [] ==> StreamRun(stops, plan).matched != []
  {
    var _ := PlainStopsLater(stops, plan);
    StreamFilterFacts(stops, plan);
  }

  /** Both runs, one act further. */
  lemma OneMoreAct(stops: seq<Str>, plan: seq<Act>, n: nat)
    requires n < |plan|
    ensures StreamRun(stops, plan[..n + 1]) == StreamAct(stops, StreamRun(stops, plan[..n]), plan[n])
    ensures PlainRun(stops, plan[..n + 1]) == PlainAct(stops, PlainRun(stops, plan[..n]), plan[n])
  {
    TakeOneMore(plan, n);
    StreamSnoc(stops, plan[..n], plan[n]);
    PlainSnoc(stops, plan[..n], plan[n]);
  }

  ghost predicate FewerCalls(s: Merged, p: Merged) {
    CallCount(s.acc) < CallCount(p.acc)
  }

  lemma FewerCallsAct(stops: seq<Str>, plan: seq<Act>, i: nat)
    requires i < |plan| && FewerCalls(StreamRun(stops, plan[..i]), PlainRun(stops, plan[..i]))
    ensures FewerCalls(StreamRun(stops, plan[..i + 1]), PlainRun(stops, plan[..i + 1]))
  {
    var s, p := StreamRun(stops, plan[..i]), PlainRun(stops, plan[..i]);
    StopsInOrder(stops, plan[..i]);
    FewerCallsStay(stops, s, p, plan[i]);
    OneMoreAct(stops, plan, i);
  }

  lemma {:induction false} FewerCallsToTheEnd(stops: seq<Str>, plan: seq<Act>, i: nat)
    requires i <= |plan| && FewerCalls(StreamRun(stops, plan[..i]), PlainRun(stops, plan[..i]))
    ensures FewerCalls(StreamRun(stops, plan), PlainRun(stops, plan))
    decreases |plan| - i
  {
    if i == |plan| {
      TakeAll(plan);
    } else {
      FewerCallsAct(stops, plan, i);
      FewerCallsToTheEnd(stops, plan, i + 1);
    }
  }

  /** A repeat reached in step leaves the streaming client with fewer calls, whatever follows. */
  lemma RepeatLosesACall(stops: seq<Str>, plan: seq<Act>, j: nat)
    requires j < |plan| && plan[j].Repeat?
    requires StreamRun(stops, plan[..j]) == PlainRun(stops, plan[..j]) && StreamRun(stops, plan[..j]).matched == []
    ensures FewerCalls(StreamRun(stops, plan), PlainRun(stops, plan))
  {
    RepeatSplits(stops, StreamRun(stops, plan[..j]), plan[j]);
    OneMoreAct(stops, plan, j);
    FewerCallsToTheEnd(stops, plan, j + 1);
  }

  // ----- Held-back text at a call: it ends up on different sides of the call -----

  /** `p` is a part of the content that later acts cannot change: it ends in a block that is no text. */
  ghost predicate Sealed(p: seq<Block>, acc: seq<Block>) {
    p != [] && !p[|p| - 1].Text? && p <= acc
  }

  lemma SealedPushText(p: seq<Block>, acc: seq<Block>, text: Str)
    requires Sealed(p, acc)
    ensures Sealed(p, PushText(acc, text))
  {
  }

  lemma SealedCall(acc: seq<Block>, call: Call, signature: Str)
    ensures Sealed(acc + CallAbstract(call, signature), acc + CallAbstract(call, signature))
  {
  }

  lemma SealedStreamAct(stops: seq<Str>, p: seq<Block>, m: Merged, a: Act)
    requires Sealed(p, m.acc)
    ensures Sealed(p, StreamAct(stops, m, a).acc)
  {
    if a.Say? {
      SealedPushText(p, m.acc, FeedText(stops, m.filter, a.text).visible);
    }
  }

  lemma SealedPlainAct(stops: seq<Str>, p: seq<Block>, m: Merged, a: Act)
    requires Sealed(p, m.acc)
    ensures Sealed(p, PlainAct(stops, m, a).acc)
  {
    SealedPushText(p, m.acc, if a.Say? then FeedText(stops, m.filter, a.text).visible else m.filter.pending);
  }

  lemma {:induction false} SealedToTheEnd(stops: seq<Str>, plan: seq<Act>, j: nat, p: seq<Block>, q: seq<Block>)
    requires j <= |plan|
    requires Sealed(p, StreamRun(stops, plan[..j]).acc) && Sealed(q, PlainRun(stops, plan[..j]).acc)
    ensures Sealed(p, StreamRun(stops, plan).acc) && Sealed(q, PlainRun(stops, plan).acc)
    decreases |plan| - j
  {
    if j == |plan| {
      TakeAll(plan);
    } else {
      OneMoreAct(stops, plan, j);
      SealedStreamAct(stops, p, StreamRun(stops, plan[..j]), plan[j]);
      SealedPlainAct(stops, q, PlainRun(stops, plan[..j]), plan[j]);
      SealedToTheEnd(stops, plan, j + 1, p, q);
    }
  }

  lemma TailOnOneSide(acc: seq<Block>, tail: Str, call: Call, signature: Str) returns (k: nat)
    requires tail != []
    ensures var p, q := acc + CallAbstract(call, signature), PushText(acc, tail) + CallAbstract(call, signature);
            k < |p| && k < |q| && p[k] != q[k]
  {
    var n := |acc| - 1;
    if acc != [] && acc[n].Text? {
      k := n;
      assert |acc[n].text + tail| > |acc[n].text|;
    } else {
      k := n + 1;
    }
  }

  lemma HeldTextMovesAcross(stops: seq<Str>, plan: seq<Act>, j: nat)
    requires j < |plan| && plan[j].Invoke?
    requires StreamRun(stops, plan[..j]) == PlainRun(stops, plan[..j])
    requires var m := StreamRun(stops, plan[..j]); m.matched == [] && m.filter.pending != []
    ensures Closed(StreamRun(stops, plan)) != Closed(PlainRun(stops, plan))
  {
    var m, call, signature := StreamRun(stops, plan[..j]), plan[j].call, plan[j].signature;
    var blocks := CallAbstract(call, signature);
    var p, q := m.acc + blocks, PushText(m.acc, m.filter.pending) + blocks;
    OneMoreAct(stops, plan, j);
    SealedCall(m.acc, call, signature);
    SealedCall(PushText(m.acc, m.filter.pending), call, signature);
    SealedToTheEnd(stops, plan, j + 1, p, q);
    SealedAtEnd(p, StreamRun(stops, plan));
    SealedAtEnd(q, PlainRun(stops, plan));
    var k := TailOnOneSide(m.acc, m.filter.pending, call, signature);
    assert Closed(StreamRun(stops, plan))[k] == p[k] && Closed(PlainRun(stops, plan))[k] == q[k];
  }

  lemma SealedAtEnd(p: seq<Block>, m: Merged)
    requires Sealed(p, m.acc)
    ensures Sealed(p, Closed(m))
  {
    SealedPushText(p, m.acc, m.filter.pending);
  }

  // ----- The theorem -----

  lemma {:induction false} FirstOutOfStep(stops: seq<Str>, plan: seq<Act>) returns (j: nat)
    requires !CallsInStep(stops, plan)
    ensures j < |plan| && !CallInStep(stops, plan, j) && CallsInStep(stops, plan[..j])
  {
    var n := |plan| - 1;
    if CallsInStep(stops, plan[..n]) {
      j := n;
      forall i | 0 <= i < n ensures CallInStep(stops, plan, i) {
        assert CallInStep(stops, plan[..n], i);
        assert plan[..n][..i] == plan[..i];
      }
    } else {
      j := FirstOutOfStep(stops, plan[..n]);
      assert plan[..n][..j] == plan[..j];
    }
  }

  lemma OutOfStepDiffers(stops: seq<Str>, plan: seq<Act>)
    requires !CallsInStep(stops, plan)
    ensures Closed(StreamRun(stops, plan)) != Closed(PlainRun(stops, plan))
  {
    var j := FirstOutOfStep(stops, plan);
    Lockstep(stops, plan[..j]);
    StreamFilterFacts(stops, plan[..j]);
    if plan[j].Repeat? {
      RepeatLosesACall(stops, plan, j);
      var s, p := StreamRun(stops, plan), PlainRun(stops, plan);
      CountPushText(s.acc, s.filter.pending);
      CountPushText(p.acc, p.filter.pending);
    } else {
      HeldTextMovesAcross(stops, plan, j);
    }
  }

  /** The same content up to merging of text and abstraction of synthesized ids, and the same end. */
  predicate SameMessage(m: Message, r: Result<Response, ResponseError>) {
    && r.Ok? && Merge(m.blocks) == Merge(r.value.content)
    && m.stopReason == Some(r.value.stopReason) && m.stopSequence == r.value.stopSequence
  }

  /**
   * For every response that arrives without errors or a blocked prompt, in whatever chunks: the streaming client
   * reassembles what the non-streaming client is given if and only if every call comes in step.
   */
  lemma StreamingAgreesExactly(cfg: Config, streamIds: nat, plainIds: nat, chunks: seq<Chunk>)
    requires Plain(chunks)
    ensures RunStream(cfg, streamIds, chunks, false).failure.None?
    ensures SameMessage(Replay(RunStream(cfg, streamIds, chunks, false).conv.trace),
                        Respond(Whole(chunks), cfg.stops, plainIds))
            <==> CallsInStep(cfg.stops, Plan(chunks))
  {
    StreamMessage(cfg, streamIds, chunks);
    PlainMessage(chunks, plainIds, cfg.stops);
    if CallsInStep(cfg.stops, Plan(chunks)) {
      Lockstep(cfg.stops, Plan(chunks));
    } else {
      OutOfStepDiffers(cfg.stops, Plan(chunks));
    }
  }

  /** Text-only responses always agree, whatever the stop list. */
  lemma TextOnlyAgrees(cfg: Config, streamIds: nat, plainIds: nat, chunks: seq<Chunk>)
    requires Plain(chunks) && !HasCalls(Plan(chunks))
    ensures SameMessage(Replay(RunStream(cfg, streamIds, chunks, false).conv.trace),
                        Respond(Whole(chunks), cfg.stops, plainIds))
  {
    StreamingAgreesExactly(cfg, streamIds, plainIds, chunks);
  }

  /** Without a stop list, only repeated calls can tell the two apart. */
  lemma NoStopListAgrees(cfg: Config, streamIds: nat, plainIds: nat, chunks: seq<Chunk>)
    requires Plain(chunks) && cfg.stops == []
    ensures SameMessage(Replay(RunStream(cfg, streamIds, chunks, false).conv.trace),
                        Respond(Whole(chunks), cfg.stops, plainIds))
            <==> forall j :: 0 <= j < |Plan(chunks)| ==> !Plan(chunks)[j].Repeat?
  {
    StreamingAgreesExactly(cfg, streamIds, plainIds, chunks);
    var plan := Plan(chunks);
    forall j | 0 <= j < |plan| ensures CallInStep([], plan, j) <==> !plan[j].Repeat? {
      assert StopFree(Said(plan[..j]), []) && Keep(Said(plan[..j]), []) == 0;
    }
    assert cfg.stops == [];
  }

  // ----- Two inputs on which they differ -----

  function Saying(text: Str): Part {
    Part(false, Some(text), None, [])
  }

  function Calling(call: Call): Part {
    Part(false, None, Some(call), [])
  }

  function Bringing(parts: seq<Part>): Chunk {
    Chunk([], [], [], None, Parts(parts))
  }

  lemma OneTally(t: Tally, p: Part)
    ensures TallyParts(t, [p]) == TallyPart(t, p)
  {
    assert [p][..0] == [];
  }

  const AB: Str := [97, 98]

  function HeldChunks(call: Call): seq<Chunk> {
    [Bringing([Saying([97])]), Bringing([Calling(call)])]
  }

  /** With the stop "ab", the text "a" held back before a call ends up behind the call in the stream only. */
  lemma HeldTextDiffers(streamIds: nat, plainIds: nat, call: Call)
    requires call.name != []
    ensures var cfg, chunks := Config([AB], []), HeldChunks(call);
            && Plain(chunks)
            && !SameMessage(Replay(RunStream(cfg, streamIds, chunks, false).conv.trace),
                            Respond(Whole(chunks), cfg.stops, plainIds))
  {
    HeldChunksArePlain(call);
    HeldPlan(call);
    HeldOutOfStep(call);
    StreamingAgreesExactly(Config([AB], []), streamIds, plainIds, HeldChunks(call));
  }

  lemma HeldChunksArePlain(call: Call)
    requires call.name != []
    ensures Plain(HeldChunks(call))
  {
  }

  lemma HeldPlan(call: Call)
    ensures Plan(HeldChunks(call)) == [Say([97], []), Invoke(call, [])]
  {
    var a, b := Bringing([Saying([97])]), Bringing([Calling(call)]);
    assert [a, b][..1] == [a] && [a][..0] == [];
    OneTally(Tally(map[], map[], []), Saying([97]));
    NothingBefore([Say([97], [])]);
    assert TallyAll([a]) == Tally(map[], map[], [Say([97], [])]);
    OneTally(Tally(map[], map[], [Say([97], [])]), Calling(call));
  }

  lemma HeldOutOfStep(call: Call)
    ensures !CallsInStep([AB], [Say([97], []), Invoke(call, [])])
  {
    var stops, plan := [AB], [Say([97], []), Invoke(call, [])];
    assert plan[..1] == [Say([97], [])] && [Say([97], [])][..0] == [];
    NothingBefore<Byte>([97]);
    assert Said(plan[..1]) == [97];
    assert forall i :: !Hit([97], i, stops[0]);
    assert StopFree([97], stops);
    assert Begins([97], stops[0], 1);
    assert MayBegin([97], stops, 1);
    assert !CallInStep(stops, plan, 1);
  }

  /** A call made again in the next chunk is dropped in the stream only. */
  lemma RepeatDiffers(streamIds: nat, plainIds: nat, call: Call)
    requires call.name != []
    ensures var cfg, chunks := Config([], []), [Bringing([Calling(call)]), Bringing([Calling(call)])];
            && Plain(chunks)
            && !SameMessage(Replay(RunStream(cfg, streamIds, chunks, false).conv.trace),
                            Respond(Whole(chunks), cfg.stops, plainIds))
  {
    var cfg, chunks := Config([], []), [Bringing([Calling(call)]), Bringing([Calling(call)])];
    RepeatPlan(call);
    NoStopListAgrees(cfg, streamIds, plainIds, chunks);
    assert Plan(chunks)[1].Repeat?;
  }

  lemma RepeatPlan(call: Call)
    ensures Plan([Bringing([Calling(call)]), Bringing([Calling(call)])]) == [Invoke(call, []), Repeat(call, [])]
  {
    var a, fp := Bringing([Calling(call)]), CallFingerprint(call, []);
    assert [a, a][..1] == [a] && [a][..0] == [];
    OneTally(Tally(map[], map[], []), Calling(call));
    NothingBefore([Invoke(call, [])]);
    assert TallyAll([a]) == Tally(map[fp := 1], map[fp := 1], [Invoke(call, [])]);
    OneTally(Tally(map[fp := 1], map[], [Invoke(call, [])]), Calling(call));
  }
}
