/** The calls a streaming client holds, with their ids: read off the plan of the chunks. */
module StreamCallIds {
  import opened Bytes
  import opened StopMatching
  import opened StopFilter
  import opened AnthropicEvents
  import opened GeminiModel
  import opened StreamSpec
  import opened StreamLegality
  import opened StreamText
  import opened Merging
  import opened Agreement
  import Exactly = AgreementExactly
  import opened RoundTrip
  import opened StreamRoundTrip
  import Outcome = StreamOutcome

  // ----- The reference: the plan, the stop list and where the id counter starts -----

  /** The calls of the plan that are no repeats and come before a stop sequence has been said. */
  ghost function CallsShown(stops: seq<Str>, plan: seq<Act>): seq<Act> {
    if plan == [] then []
    else
      var init, a := plan[..|plan| - 1], plan[|plan| - 1];
      CallsShown(stops, init) + if a.Invoke? && StopFree(Said(init), stops) then [a] else []
  }

  function IdlessActs(acts: seq<Act>): nat {
    if acts == [] then 0
    else
      var a := acts[|acts| - 1];
      IdlessActs(acts[..|acts| - 1]) + if a.Invoke? && a.call.id == [] then 1 else 0
  }

  /** The calls with the ids the client knows them by: their own, or synthesized ones numbered from `base`. */
  function CallsFrom(acts: seq<Act>, base: nat): seq<Unit> {
    if acts == [] then []
    else
      var init, a := acts[..|acts| - 1], acts[|acts| - 1];
      CallsFrom(init, base) + if a.Invoke? then [CallUnit(a, base + IdlessActs(init))] else []
  }

  function CallUnit(a: Act, next: nat): Unit
    requires a.Invoke?
  {
    var id := if a.call.id == [] then SynthesizedToolId(next) else a.call.id;
    match a.call.args
    case Some(json) => Calling(id, a.call.name, json, a.signature)
    case None => Calling(id, a.call.name, Ascii("{}"), a.signature)
  }

  lemma CallsFromSnoc(acts: seq<Act>, a: Act, base: nat)
    requires a.Invoke?
    ensures CallsFrom(acts + [a], base) == CallsFrom(acts, base) + [CallUnit(a, base + IdlessActs(acts))]
    ensures IdlessActs(acts + [a]) == IdlessActs(acts) + if a.call.id == [] then 1 else 0
  {
    SnocInit(acts, a);
  }

  // ----- The calls among blocks -----

  function ClientCalls(blocks: seq<Block>): seq<Unit> {
    if blocks == [] then []
    else
      var b := blocks[|blocks| - 1];
      ClientCalls(blocks[..|blocks| - 1]) + if b.Tool? then [Calling(b.id, b.name, b.input, b.signature)] else []
  }

  lemma ClientCallsSnoc(blocks: seq<Block>, b: Block)
    ensures ClientCalls(blocks + [b]) ==
            ClientCalls(blocks) + if b.Tool? then [Calling(b.id, b.name, b.input, b.signature)] else []
  {
    SnocInit(blocks, b);
  }

  lemma CallsOfCall(blocks: seq<Block>, id: Str, call: Call, signature: Str)
    ensures ClientCalls(blocks + CallBlocks(id, call, signature)) ==
            ClientCalls(blocks) + [Calling(id, call.name, ObjectOrEmpty(call.args), signature)]
  {
    var carrier, tool := Carrier(ToolKey(id), signature), Tool(id, call.name, ObjectOrEmpty(call.args), signature);
    if signature == [] {
      NothingBefore([tool]);
      ClientCallsSnoc(blocks, tool);
    } else {
      PlusAssoc(blocks, [carrier], [tool]);
      ClientCallsSnoc(blocks, carrier);
      NothingAfter(ClientCalls(blocks));
      ClientCallsSnoc(blocks + [carrier], tool);
    }
  }

  lemma CallsOfText(c: Conv, text: Str, signature: Str)
    requires Coherent(c)
    ensures ClientCalls(WithText(c, text, signature)) == ClientCalls(Shown(c))
  {
    NothingAfter(ClientCalls(Shown(c)));
    if c.textOpen {
      var n := c.textIndex;
      var b := AppendDelta(Shown(c)[n], TextDelta(text));
      InitLast(Shown(c));
      UpdateLast(Shown(c)[..n], Shown(c)[n], b);
      ClientCallsSnoc(Shown(c)[..n], b);
    } else {
      ClientCallsSnoc(Shown(c), Text(text, signature));
    }
  }

  // ----- The stream numbers the calls it shows -----

  /**
   * The client holds these calls, numbered from `first`. Until the message starts that is where the counter stands, or
   * one further if the message will take a number for its own id.
   */
  ghost predicate Numbered(c: Conv, acts: seq<Act>, first: nat) {
    && ClientCalls(Shown(c)) == CallsFrom(acts, first)
    && if c.started then c.ids == first + IdlessActs(acts)
       else acts == [] && first == c.ids + if c.messageId == [] then 1 else 0
  }

  /** What starting the message does to the counter. */
  predicate Starts(c: Conv, d: Conv) {
    if c.started then d.started && d.ids == c.ids
    else if d.started then d.ids == c.ids + if c.messageId == [] then 1 else 0
    else d.ids == c.ids && d.messageId == c.messageId
  }

  lemma StartIds(c: Conv, cfg: Config)
    ensures Starts(c, StartMessage(c, cfg)) && StartMessage(c, cfg).started
  {
  }

  lemma EmitTextIds(c: Conv, cfg: Config, stops: seq<Str>, text: Str, signature: Str)
    ensures Starts(c, EmitText(c, cfg, stops, text, signature))
  {
  }

  lemma SameCallsNumbered(c: Conv, d: Conv, acts: seq<Act>, first: nat)
    requires Numbered(c, acts, first) && Starts(c, d) && ClientCalls(Shown(d)) == ClientCalls(Shown(c))
    ensures Numbered(d, acts, first)
  {
  }

  lemma SayNumbered(c: Conv, cfg: Config, stops: seq<Str>, text: Str, signature: Str, acts: seq<Act>, first: nat)
    requires Coherent(c) && Numbered(c, acts, first)
    ensures Numbered(EmitText(c, cfg, stops, text, signature), acts, first)
  {
    var visible := FeedText(stops, c.filter, text).visible;
    EmitTextEffect(c, cfg, stops, text, signature);
    EmitTextIds(c, cfg, stops, text, signature);
    CallsOfText(c, visible, signature);
    SameCallsNumbered(c, EmitText(c, cfg, stops, text, signature), acts, first);
  }

  lemma EmitToolIds(c: Conv, cfg: Config, call: Call, signature: Str)
    requires c.matchedStop == [] && call.name != []
    ensures var s, d := Prepared(c, cfg), EmitTool(c, cfg, call, signature).conv;
            && Starts(c, s) && s.started && d.started && d.ids == s.ids + if call.id == [] then 1 else 0
  {
    StartIds(c, cfg);
  }

  lemma NumberedMore(s: Conv, d: Conv, acts: seq<Act>, a: Act, first: nat)
    requires Numbered(s, acts, first) && a.Invoke? && s.started && d.started
    requires d.ids == s.ids + (if a.call.id == [] then 1 else 0)
    requires ClientCalls(Shown(d)) == ClientCalls(Shown(s)) + [CallUnit(a, s.ids)]
    ensures Numbered(d, acts + [a], first)
  {
    CallsFromSnoc(acts, a, first);
  }

  lemma CallAdded(c: Conv, cfg: Config, call: Call, signature: Str)
    requires Coherent(c) && c.matchedStop == [] && call.name != []
    ensures var s, d := Prepared(c, cfg), EmitTool(c, cfg, call, signature).conv;
            && ClientCalls(Shown(s)) == ClientCalls(Shown(c))
            && ClientCalls(Shown(d)) == ClientCalls(Shown(s)) + [CallUnit(Invoke(call, signature), s.ids)]
  {
    PreparedEffect(c, cfg);
    EmitToolEffect(c, cfg, call, signature);
    CallsOfCall(Shown(c), IdFor(Prepared(c, cfg), call), call, signature);
  }

  lemma InvokeNumbered(c: Conv, cfg: Config, call: Call, signature: Str, acts: seq<Act>, first: nat)
    requires Coherent(c) && Numbered(c, acts, first) && c.matchedStop == [] && call.name != []
    ensures Numbered(EmitTool(c, cfg, call, signature).conv, acts + [Invoke(call, signature)], first)
  {
    var s := Prepared(c, cfg);
    EmitToolIds(c, cfg, call, signature);
    CallAdded(c, cfg, call, signature);
    SameCallsNumbered(c, s, acts, first);
    NumberedMore(s, EmitTool(c, cfg, call, signature).conv, acts, Invoke(call, signature), first);
  }

  ghost predicate Tracks(s: Scan, t: Tally, stops: seq<Str>, first: nat) {
    Scans(s, t, stops) && Numbered(s.conv, CallsShown(stops, t.plan), first)
  }

  lemma ShownSnoc(stops: seq<Str>, plan: seq<Act>, a: Act)
    ensures CallsShown(stops, plan + [a]) ==
            CallsShown(stops, plan) + if a.Invoke? && StopFree(Said(plan), stops) then [a] else []
  {
    SnocInit(plan, a);
  }

  lemma SaidShowsNoCall(stops: seq<Str>, t: Tally, p: Part)
    requires p.Part?
    ensures CallsShown(stops, TallyText(t, p).plan) == CallsShown(stops, t.plan)
  {
    if p.text.Some? {
      ShownSnoc(stops, t.plan, Say(p.text.value, p.signature));
      NothingAfter(CallsShown(stops, t.plan));
    }
  }

  lemma TextNumbered(c: Conv, cfg: Config, p: Part, acts: seq<Act>, first: nat)
    requires Coherent(c) && Numbered(c, acts, first) && p.Part?
    ensures Numbered(ScanText(c, cfg, p), acts, first)
  {
    if p.text.Some? && p.text.value != [] {
      SayNumbered(c, cfg, cfg.stops, p.text.value, p.signature, acts, first);
    }
  }

  lemma ScanTextTracks(s: Scan, t: Tally, cfg: Config, p: Part, first: nat)
    requires Tracks(s, t, cfg.stops, first) && ValidPart(p) && !p.thought
    ensures Tracks(s.(conv := ScanText(s.conv, cfg, p)), TallyText(t, p), cfg.stops, first)
  {
    ScanTextScans(s, t, cfg, p);
    SaidShowsNoCall(cfg.stops, t, p);
    TextNumbered(s.conv, cfg, p, CallsShown(cfg.stops, t.plan), first);
  }

  /** A call that is no repeat: shown, unless a stop sequence has been said. */
  lemma NewCallNumbered(c: Conv, cfg: Config, plan: seq<Act>, call: Call, signature: Str, first: nat)
    requires Coherent(c) && Follows(c, StreamRun(cfg.stops, plan)) && call.name != []
    requires Numbered(c, CallsShown(cfg.stops, plan), first)
    ensures Numbered(EmitTool(c, cfg, call, signature).conv,
                     CallsShown(cfg.stops, plan + [Invoke(call, signature)]), first)
  {
    var shown := CallsShown(cfg.stops, plan);
    ShownSnoc(cfg.stops, plan, Invoke(call, signature));
    Exactly.StreamFilterFacts(cfg.stops, plan);
    if c.matchedStop == [] {
      InvokeNumbered(c, cfg, call, signature, shown, first);
    } else {
      NothingAfter(shown);
    }
  }

  lemma CountedNumbered(r: Step, seen: map<Str, nat>, fp: Str, n: nat, acts: seq<Act>, first: nat)
    requires r.failure.None? && Numbered(r.conv, acts, first)
    ensures Numbered(Counted(r, seen, fp, n).conv, acts, first)
  {
  }

  lemma RepeatNumbered(c: Conv, stops: seq<Str>, plan: seq<Act>, call: Call, signature: Str, first: nat)
    requires Numbered(c, CallsShown(stops, plan), first)
    ensures Numbered(c, CallsShown(stops, plan + [Repeat(call, signature)]), first)
  {
    ShownSnoc(stops, plan, Repeat(call, signature));
    NothingAfter(CallsShown(stops, plan));
  }

  lemma NewCallCounted(c: Conv, cfg: Config, plan: seq<Act>, call: Call, signature: Str, first: nat,
                       seen: map<Str, nat>, fp: Str, n: nat)
    requires Coherent(c) && Follows(c, StreamRun(cfg.stops, plan)) && call.name != []
    requires Numbered(c, CallsShown(cfg.stops, plan), first)
    ensures Numbered(Counted(EmitTool(c, cfg, call, signature), seen, fp, n).conv,
                     CallsShown(cfg.stops, plan + [Invoke(call, signature)]), first)
  {
    EmitToolSucceeds(c, cfg, call, signature);
    NewCallNumbered(c, cfg, plan, call, signature, first);
    CountedNumbered(EmitTool(c, cfg, call, signature), seen, fp, n,
                    CallsShown(cfg.stops, plan + [Invoke(call, signature)]), first);
  }

  lemma EmitToolSucceeds(c: Conv, cfg: Config, call: Call, signature: Str)
    requires call.name != []
    ensures EmitTool(c, cfg, call, signature).failure.None?
  {
  }

  /** A call is either a repeat, which changes nothing but counts, or it is emitted. */
  lemma CallCases(s: Scan, t: Tally, cfg: Config, call: Call, signature: Str)
    requires s.seen == t.seen && s.conv.emittedCalls == t.emitted
    ensures var fp := CallFingerprint(call, signature);
            var n := CountOf(s.seen, fp) + 1;
            var d, plan := ScanCall(s, cfg, call, signature).conv, TallyCall(t, call, signature).plan;
            || (d == s.conv && plan == t.plan + [Repeat(call, signature)])
            || (&& d == Counted(EmitTool(s.conv, cfg, call, signature), s.seen, fp, n).conv
                && plan == t.plan + [Invoke(call, signature)])
  {
  }

  lemma CallNumbered(s: Scan, t: Tally, cfg: Config, call: Call, signature: Str, first: nat, d: Conv, plan: seq<Act>)
    requires s.seen == t.seen && s.conv.emittedCalls == t.emitted && call.name != []
    requires Coherent(s.conv) && Follows(s.conv, StreamRun(cfg.stops, t.plan))
    requires Numbered(s.conv, CallsShown(cfg.stops, t.plan), first)
    requires d == ScanCall(s, cfg, call, signature).conv && plan == TallyCall(t, call, signature).plan
    ensures Numbered(d, CallsShown(cfg.stops, plan), first)
  {
    var fp := CallFingerprint(call, signature);
    var n := CountOf(s.seen, fp) + 1;
    CallCases(s, t, cfg, call, signature);
    if d == s.conv && plan == t.plan + [Repeat(call, signature)] {
      RepeatNumbered(s.conv, cfg.stops, t.plan, call, signature, first);
    } else {
      NewCallCounted(s.conv, cfg, t.plan, call, signature, first, s.seen, fp, n);
    }
  }

  lemma ScanCallTracks(s: Scan, t: Tally, cfg: Config, call: Call, signature: Str, first: nat)
    requires Tracks(s, t, cfg.stops, first) && call.name != []
    ensures Tracks(ScanCall(s, cfg, call, signature), TallyCall(t, call, signature), cfg.stops, first)
  {
    ScanCallScans(s, t, cfg, call, signature);
    CallNumbered(s, t, cfg, call, signature, first, ScanCall(s, cfg, call, signature).conv,
                 TallyCall(t, call, signature).plan);
  }

  lemma {:induction false} ScanPartsTrack(c: Conv, t: Tally, cfg: Config, parts: seq<Part>, first: nat)
    requires Tracks(Scan(c, map[], None), t, cfg.stops, first) && forall i :: 0 <= i < |parts| ==> ValidPart(parts[i])
    ensures Tracks(ScanParts(c, cfg, parts), TallyParts(t, parts), cfg.stops, first)
  {
    if parts != [] {
      var init, p := parts[..|parts| - 1], parts[|parts| - 1];
      ScanPartsTrack(c, t, cfg, init, first);
      var s, u := ScanParts(c, cfg, init), TallyParts(t, init);
      if !p.thought {
        ScanTextTracks(s, u, cfg, p, first);
        if p.call.Some? {
          ScanCallTracks(s.(conv := ScanText(s.conv, cfg, p)), TallyText(u, p), cfg, p.call.value, p.signature, first);
        }
      }
    }
  }

  /** Where numbers start once a chunk may have named the message. */
  function FirstAfter(c: Conv, chunk: Chunk, first: nat): nat
    requires chunk.Chunk?
  {
    if c.started then first else c.ids + if c.messageId == [] && chunk.responseId == [] then 1 else 0
  }

  lemma EnteredTracks(c: Conv, t: Tally, stops: seq<Str>, chunk: Chunk, first: nat)
    requires Tracks(Scan(c, map[], None), t, stops, first) && chunk.Chunk?
    ensures Tracks(Scan(Entered(c, chunk), map[], None), t, stops, FirstAfter(c, chunk, first))
  {
  }

  lemma ChunkTracks(c: Conv, cfg: Config, t: Tally, chunk: Chunk, first: nat, s: Step, u: Tally)
    requires Tracks(Scan(c, map[], None), t, cfg.stops, first) && PlainChunk(chunk) && chunk.Chunk?
    requires s == ProcessData(c, cfg, chunk) && u == TallyParts(t, ChunkParts(chunk))
    ensures Tracks(Scan(s.conv, u.seen, s.failure), u, cfg.stops, FirstAfter(c, chunk, first))
  {
    EnteredTracks(c, t, cfg.stops, chunk, first);
    ScanPartsTrack(Entered(c, chunk), t, cfg, chunk.content.parts, FirstAfter(c, chunk, first));
    ProcessDataScans(c, cfg, chunk);
  }

  /** Where the numbers of the calls start: after the message's own if no upstream id was there when it started. */
  function FirstNumber(ids: nat, chunks: seq<Chunk>, k: nat): nat
    requires k <= |chunks|
  {
    ids + if Outcome.FirstId(chunks[..k]) == [] then 1 else 0
  }

  /** The same one chunk earlier. */
  lemma StartsEarlier(cfg: Config, ids: nat, chunks: seq<Chunk>, k: nat) returns (j: nat)
    requires ProcessAll(cfg, ids, chunks).failure.None? && chunks != []
    requires k <= |chunks| && Outcome.StartsAt(cfg, ids, chunks, k)
    ensures j <= |chunks| - 1 && Outcome.StartsAt(cfg, ids, chunks[..|chunks| - 1], j)
    ensures if k < |chunks| then j == k else j == |chunks| - 1
  {
    var n := |chunks| - 1;
    if k < |chunks| {
      j := k;
      Outcome.StartsBefore(cfg, ids, chunks, k);
    } else {
      j := n;
      TakeAll(chunks[..n]);
      if n > 0 {
        TakeOfInit(chunks, n - 1);
        if ProcessAll(cfg, ids, chunks[..n - 1]).conv.trace != [] {
          Outcome.StaysWritten(cfg, ids, chunks, n - 1, n);
        }
      }
    }
  }

  lemma ChunkStartsAt(cfg: Config, ids: nat, chunks: seq<Chunk>, k: nat, j: nat)
    requires ProcessAll(cfg, ids, chunks).failure.None? && chunks != [] && chunks[|chunks| - 1].Chunk?
    requires k <= |chunks| && Outcome.StartsAt(cfg, ids, chunks, k)
    requires if k < |chunks| then j == k else j == |chunks| - 1
    ensures var n := |chunks| - 1;
            FirstAfter(ProcessAll(cfg, ids, chunks[..n]).conv, chunks[n], FirstNumber(ids, chunks[..n], j)) ==
            FirstNumber(ids, chunks, k)
  {
    var n := |chunks| - 1;
    var c := ProcessAll(cfg, ids, chunks[..n]).conv;
    Outcome.PrefixSucceeds(cfg, ids, chunks, n);
    ProcessAllCoherent(cfg, ids, chunks[..n]);
    if k < |chunks| {
      TakeOfInit(chunks, k);
      Outcome.StaysWritten(cfg, ids, chunks, k, n);
      Outcome.WrittenIsStarted(c);
    } else {
      TakeAll(chunks);
      Outcome.ChunksNamed(cfg, ids, chunks[..n]);
    }
  }

  lemma BlankStartsAt(ids: nat, chunks: seq<Chunk>, k: nat, j: nat)
    requires chunks != [] && !chunks[|chunks| - 1].Chunk? && k <= |chunks|
    requires if k < |chunks| then j == k else j == |chunks| - 1
    ensures FirstNumber(ids, chunks[..|chunks| - 1], j) == FirstNumber(ids, chunks, k)
  {
    if k < |chunks| {
      TakeOfInit(chunks, k);
    } else {
      TakeAll(chunks);
      TakeAll(chunks[..|chunks| - 1]);
    }
  }

  lemma {:induction false} StreamTracksPlan(cfg: Config, ids: nat, chunks: seq<Chunk>, k: nat)
    requires Plain(chunks) && ProcessAll(cfg, ids, chunks).failure.None?
    requires k <= |chunks| && Outcome.StartsAt(cfg, ids, chunks, k)
    ensures var s := ProcessAll(cfg, ids, chunks);
            Tracks(Scan(s.conv, TallyAll(chunks).seen, s.failure), TallyAll(chunks), cfg.stops,
                   FirstNumber(ids, chunks, k))
  {
    if chunks == [] {
      InitialIsCoherent(ids);
    } else {
      var init, chunk := chunks[..|chunks| - 1], chunks[|chunks| - 1];
      var j := StartsEarlier(cfg, ids, chunks, k);
      Outcome.PrefixSucceeds(cfg, ids, chunks, |init|);
      StreamTracksPlan(cfg, ids, init, j);
      assert PlainChunk(chunk);
      if chunk.Chunk? {
        ChunkTracks(ProcessAll(cfg, ids, init).conv, cfg, TallyAll(init).(seen := map[]), chunk,
                    FirstNumber(ids, init, j), ProcessAll(cfg, ids, chunks), TallyAll(chunks));
        ChunkStartsAt(cfg, ids, chunks, k, j);
      } else {
        BlankStartsAt(ids, chunks, k, j);
      }
    }
  }

  /** The end of a run shows no call. */
  lemma EndKeepsCalls(cfg: Config, ids: nat, chunks: seq<Chunk>)
    requires ProcessAll(cfg, ids, chunks).failure.None?
    ensures ClientCalls(Replay(RunStream(cfg, ids, chunks, false).conv.trace).blocks) ==
            ClientCalls(Shown(ProcessAll(cfg, ids, chunks).conv))
  {
    var c := ProcessAll(cfg, ids, chunks).conv;
    ProcessAllCoherent(cfg, ids, chunks);
    FlushEffect(c, cfg);
    if c.matchedStop == [] && !c.filter.stopped && c.filter.pending != [] {
      CallsOfText(c, c.filter.pending, []);
    }
    WrappedEffect(cfg, ids, chunks);
    ConcludeEffect(Wrapped(cfg, ids, chunks));
  }

  lemma PlainSucceeds(cfg: Config, ids: nat, chunks: seq<Chunk>)
    requires Plain(chunks)
    ensures ProcessAll(cfg, ids, chunks).failure.None? && RunStream(cfg, ids, chunks, false).failure.None?
  {
    StreamFollowsPlan(cfg, ids, chunks);
  }

  /**
   * The calls a streaming client holds in the end are those of the plan that are shown, in order, with their own ids or
   * with synthesized ones numbered on from the counter; the message itself has taken a number first if no upstream id
   * had been named by the chunk that first made anything visible.
   */
  lemma ClientCallsAreThePlans(cfg: Config, ids: nat, chunks: seq<Chunk>, k: nat)
    requires Plain(chunks) && k <= |chunks| && Outcome.StartsAt(cfg, ids, chunks, k)
    ensures RunStream(cfg, ids, chunks, false).failure.None?
    ensures ClientCalls(Replay(RunStream(cfg, ids, chunks, false).conv.trace).blocks) ==
            CallsFrom(CallsShown(cfg.stops, Plan(chunks)), FirstNumber(ids, chunks, k))
  {
    PlainSucceeds(cfg, ids, chunks);
    EndKeepsCalls(cfg, ids, chunks);
    StreamTracksPlan(cfg, ids, chunks, k);
  }

  /** There is always such a chunk. */
  lemma {:induction false} SomeStart(cfg: Config, ids: nat, chunks: seq<Chunk>) returns (k: nat)
    requires ProcessAll(cfg, ids, chunks).failure.None?
    ensures k <= |chunks| && Outcome.StartsAt(cfg, ids, chunks, k)
  {
    if chunks == [] {
      k := 0;
    } else {
      var n := |chunks| - 1;
      Outcome.PrefixSucceeds(cfg, ids, chunks, n);
      k := SomeStart(cfg, ids, chunks[..n]);
      TakeOfInit(chunks, k);
      if k > 0 {
        TakeOfInit(chunks, k - 1);
      }
      if k == n {
        TakeAll(chunks[..n]);
        if ProcessAll(cfg, ids, chunks[..n]).conv.trace == [] {
          k := |chunks|;
        }
      }
    }
  }
}
