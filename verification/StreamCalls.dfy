/** The calls of a streaming run: how often a repeated call is shown. */
module StreamCalls {
  import opened Bytes
  import opened StopFilter
  import opened AnthropicEvents
  import opened GeminiModel
  import opened StreamSpec
  import opened StreamLegality
  import opened StreamText

  // ----- The reference: what a call says, and how often it is made -----

  /** A call without its id. */
  datatype Shape = Shape(name: Str, input: Str, signature: Str)

  /** The blocks or calls in question, as a set of shapes. */
  type Shapes = iset<Shape>

  function ShapeOf(call: Call, signature: Str): Shape {
    match call.args
    case Some(json) => Shape(call.name, json, signature)
    case None => Shape(call.name, Ascii("{}"), signature)
  }

  ghost predicate IsCall(b: Block, like: Shapes) {
    b.Tool? && Shape(b.name, b.input, b.signature) in like
  }

  /** The tool_use blocks of such a shape. */
  ghost function BlockCalls(blocks: seq<Block>, like: Shapes): nat {
    if blocks == [] then 0
    else BlockCalls(blocks[..|blocks| - 1], like) + if IsCall(blocks[|blocks| - 1], like) then 1 else 0
  }

  predicate Calls(p: Part) {
    p.Part? && !p.thought && p.call.Some?
  }

  ghost function PartCall(p: Part, like: Shapes): nat {
    if Calls(p) && ShapeOf(p.call.value, p.signature) in like then 1 else 0
  }

  /** How often a chunk makes such a call, thoughts aside. */
  ghost function PartCalls(parts: seq<Part>, like: Shapes): nat {
    if parts == [] then 0 else PartCalls(parts[..|parts| - 1], like) + PartCall(parts[|parts| - 1], like)
  }

  ghost function ChunkCalls(chunk: Chunk, like: Shapes): nat {
    if chunk.Chunk? && chunk.blockReason == [] && chunk.content.Parts? then PartCalls(chunk.content.parts, like) else 0
  }

  function Max(a: nat, b: nat): nat {
    if a < b then b else a
  }

  ghost function MostCalls(chunks: seq<Chunk>, like: Shapes): nat {
    if chunks == [] then 0 else Max(MostCalls(chunks[..|chunks| - 1], like), ChunkCalls(chunks[|chunks| - 1], like))
  }

  /** Among the calls of `parts`, `like` are those with the fingerprint `fp`. */
  ghost predicate Told(parts: seq<Part>, like: Shapes, fp: Str) {
    forall i :: 0 <= i < |parts| && Calls(parts[i]) ==> ToldCall(parts[i].call.value, parts[i].signature, like, fp)
  }

  ghost predicate ToldCall(call: Call, signature: Str, like: Shapes, fp: Str) {
    ShapeOf(call, signature) in like <==> CallFingerprint(call, signature) == fp
  }

  ghost predicate ToldChunk(chunk: Chunk, like: Shapes, fp: Str) {
    chunk.Chunk? && chunk.content.Parts? ==> Told(chunk.content.parts, like, fp)
  }

  ghost predicate ToldAll(chunks: seq<Chunk>, like: Shapes, fp: Str) {
    forall i :: 0 <= i < |chunks| ==> ToldChunk(chunks[i], like, fp)
  }

  // ----- Duplicate tool-call accounting -----

  lemma BlockCallsSnoc(blocks: seq<Block>, b: Block, like: Shapes)
    ensures BlockCalls(blocks + [b], like) == BlockCalls(blocks, like) + if IsCall(b, like) then 1 else 0
  {
    SnocInit(blocks, b);
  }

  lemma BlockCallsOfText(c: Conv, text: Str, signature: Str, like: Shapes)
    requires Coherent(c)
    ensures BlockCalls(WithText(c, text, signature), like) == BlockCalls(Shown(c), like)
  {
    if c.textOpen {
      var blocks := Shown(c);
      var grown := AppendDelta(blocks[c.textIndex], TextDelta(text));
      assert blocks[c.textIndex := grown] == blocks[..c.textIndex] + [grown];
      BlockCallsSnoc(blocks[..c.textIndex], grown, like);
    } else {
      BlockCallsSnoc(Shown(c), Text(text, signature), like);
    }
  }

  lemma BlockCallsOfCall(blocks: seq<Block>, id: Str, call: Call, signature: Str, like: Shapes)
    ensures BlockCalls(blocks + CallBlocks(id, call, signature), like) ==
            BlockCalls(blocks, like) + if ShapeOf(call, signature) in like then 1 else 0
  {
    var carrier, tool := Carrier(ToolKey(id), signature), Tool(id, call.name, ObjectOrEmpty(call.args), signature);
    if signature == [] {
      NothingBefore([tool]);
      BlockCallsSnoc(blocks, tool, like);
    } else {
      PlusAssoc(blocks, [carrier], [tool]);
      BlockCallsSnoc(blocks, carrier, like);
      BlockCallsSnoc(blocks + [carrier], tool, like);
    }
  }

  /**
   * After part of a chunk that makes the call `k` times, with `e` calls emitted by earlier chunks: the larger of the
   * two is what is recorded as emitted and, as long as nothing stopped the stream, what the client has.
   */
  ghost predicate Accounted(s: Scan, like: Shapes, fp: Str, e: nat, k: nat) {
    && s.failure.None? && Coherent(s.conv)
    && CountOf(s.seen, fp) == k
    && CountOf(s.conv.emittedCalls, fp) == Max(e, k)
    && (s.conv.matchedStop == [] ==> BlockCalls(Shown(s.conv), like) == Max(e, k))
  }

  lemma AccountMoved(s: Scan, d: Conv, like: Shapes, fp: Str, e: nat, k: nat)
    requires Accounted(s, like, fp, e, k) && Coherent(d) && d.emittedCalls == s.conv.emittedCalls
    requires d.matchedStop == [] ==> s.conv.matchedStop == []
    requires BlockCalls(Shown(d), like) == BlockCalls(Shown(s.conv), like)
    ensures Accounted(s.(conv := d), like, fp, e, k)
  {
  }

  lemma TextMakesNoCall(c: Conv, cfg: Config, stops: seq<Str>, text: Str, signature: Str, like: Shapes)
    requires Coherent(c) && text != []
    ensures var d := EmitText(c, cfg, stops, text, signature);
            && Coherent(d) && BlockCalls(Shown(d), like) == BlockCalls(Shown(c), like)
            && (d.matchedStop == [] ==> c.matchedStop == []) && d.emittedCalls == c.emittedCalls
  {
    EmitTextEffect(c, cfg, stops, text, signature);
    EmitTextFrame(c, cfg, stops, text, signature);
    BlockCallsOfText(c, FeedText(stops, c.filter, text).visible, signature, like);
  }

  lemma AccountText(s: Scan, cfg: Config, p: Part, like: Shapes, fp: Str, e: nat, k: nat)
    requires Accounted(s, like, fp, e, k) && p.Part?
    ensures Accounted(s.(conv := ScanText(s.conv, cfg, p)), like, fp, e, k)
  {
    ScanTextCoherent(s.conv, cfg, p);
    if p.text.Some? && p.text.value != [] {
      TextMakesNoCall(s.conv, cfg, cfg.stops, p.text.value, p.signature, like);
      AccountMoved(s, ScanText(s.conv, cfg, p), like, fp, e, k);
    }
  }

  lemma AccountEmitted(r: Step, seen: map<Str, nat>, key: Str, n: nat, like: Shapes, fp: Str, e: nat, k: nat)
    requires r.failure.None? && Coherent(r.conv)
    requires CountOf(seen, fp) == k && CountOf(r.conv.emittedCalls, fp) == Max(e, k)
    requires key == fp ==> n == k + 1 && n > Max(e, k)
    requires r.conv.matchedStop == [] ==>
               BlockCalls(Shown(r.conv), like) == Max(e, k) + if key == fp then 1 else 0
    ensures Accounted(Counted(r, seen, key, n), like, fp, e, if key == fp then k + 1 else k)
  {
  }

  lemma EmittedCall(c: Conv, cfg: Config, call: Call, signature: Str, like: Shapes)
    requires Coherent(c) && call.name != []
    ensures var r := EmitTool(c, cfg, call, signature);
            && r.failure.None? && Coherent(r.conv)
            && r.conv.emittedCalls == c.emittedCalls && r.conv.matchedStop == c.matchedStop
            && (c.matchedStop == [] ==>
                  BlockCalls(Shown(r.conv), like) ==
                  BlockCalls(Shown(c), like) + if ShapeOf(call, signature) in like then 1 else 0)
  {
    EmitToolEffect(c, cfg, call, signature);
    EmitToolFrame(c, cfg, call, signature);
    BlockCallsOfCall(Shown(c), IdFor(Prepared(c, cfg), call), call, signature, like);
  }

  lemma AccountRepeat(s: Scan, key: Str, n: nat, like: Shapes, fp: Str, e: nat, k: nat)
    requires Accounted(s, like, fp, e, k) && n == CountOf(s.seen, key) + 1 <= CountOf(s.conv.emittedCalls, key)
    ensures Accounted(s.(seen := s.seen[key := n]), like, fp, e, if key == fp then k + 1 else k)
  {
  }

  lemma AccountNew(s: Scan, cfg: Config, call: Call, signature: Str, n: nat, like: Shapes, fp: Str, e: nat, k: nat)
    requires Accounted(s, like, fp, e, k) && call.name != [] && ToldCall(call, signature, like, fp)
    requires n == CountOf(s.seen, CallFingerprint(call, signature)) + 1
    requires n > CountOf(s.conv.emittedCalls, CallFingerprint(call, signature))
    ensures Accounted(Counted(EmitTool(s.conv, cfg, call, signature), s.seen, CallFingerprint(call, signature), n),
                      like, fp, e, if CallFingerprint(call, signature) == fp then k + 1 else k)
  {
    EmittedCall(s.conv, cfg, call, signature, like);
    AccountEmitted(EmitTool(s.conv, cfg, call, signature), s.seen, CallFingerprint(call, signature), n, like, fp, e, k);
  }

  lemma AccountCall(s: Scan, cfg: Config, call: Call, signature: Str, like: Shapes, fp: Str, e: nat, k: nat)
    requires Accounted(s, like, fp, e, k) && call.name != [] && ToldCall(call, signature, like, fp)
    ensures Accounted(ScanCall(s, cfg, call, signature), like, fp, e,
                      if CallFingerprint(call, signature) == fp then k + 1 else k)
  {
    var key := CallFingerprint(call, signature);
    var n := CountOf(s.seen, key) + 1;
    if n > CountOf(s.conv.emittedCalls, key) {
      AccountNew(s, cfg, call, signature, n, like, fp, e, k);
    } else {
      AccountRepeat(s, key, n, like, fp, e, k);
    }
  }

  lemma {:induction false} AccountParts(c: Conv, cfg: Config, parts: seq<Part>, like: Shapes, fp: Str, e: nat)
    requires Accounted(Scan(c, map[], None), like, fp, e, 0) && Told(parts, like, fp)
    requires forall i :: 0 <= i < |parts| ==> ValidPart(parts[i])
    ensures Accounted(ScanParts(c, cfg, parts), like, fp, e, PartCalls(parts, like))
  {
    if parts != [] {
      var init, p := parts[..|parts| - 1], parts[|parts| - 1];
      AccountParts(c, cfg, init, like, fp, e);
      var s, k := ScanParts(c, cfg, init), PartCalls(init, like);
      if !p.thought {
        AccountText(s, cfg, p, like, fp, e, k);
        if p.call.Some? {
          assert Calls(p);
          AccountCall(s.(conv := ScanText(s.conv, cfg, p)), cfg, p.call.value, p.signature, like, fp, e, k);
        }
      }
    }
  }

  lemma AccountChunk(c: Conv, cfg: Config, chunk: Chunk, like: Shapes, fp: Str, e: nat)
    requires Accounted(Scan(c, map[], None), like, fp, e, 0) && ToldChunk(chunk, like, fp)
    requires ProcessData(c, cfg, chunk).failure.None?
    ensures Accounted(Scan(ProcessData(c, cfg, chunk).conv, map[], None), like, fp, Max(e, ChunkCalls(chunk, like)), 0)
  {
    if chunk.Chunk? {
      var n := Identify(c, chunk);
      if chunk.blockReason != [] {
        var text, f := BLOCKED + chunk.blockReason, n.(finish := Some(SAFETY));
        TextMakesNoCall(f, cfg, cfg.stops, text, [], like);
      } else {
        var start := n.(finish := if chunk.finish.Some? then chunk.finish else n.finish);
        AccountParts(start, cfg, chunk.content.parts, like, fp, e);
      }
    }
  }

  lemma {:induction false} AccountAll(cfg: Config, ids: nat, chunks: seq<Chunk>, like: Shapes, fp: Str)
    requires ProcessAll(cfg, ids, chunks).failure.None? && ToldAll(chunks, like, fp)
    ensures Accounted(Scan(ProcessAll(cfg, ids, chunks).conv, map[], None), like, fp, MostCalls(chunks, like), 0)
  {
    if chunks == [] {
      InitialIsCoherent(ids);
    } else {
      var init := chunks[..|chunks| - 1];
      AccountAll(cfg, ids, init, like, fp);
      assert ToldChunk(chunks[|chunks| - 1], like, fp);
      AccountChunk(ProcessAll(cfg, ids, init).conv, cfg, chunks[|chunks| - 1], like, fp, MostCalls(init, like));
    }
  }

  /** A run that ends well, with no stop sequence found. */
  ghost predicate Unstopped(cfg: Config, ids: nat, chunks: seq<Chunk>) {
    var r := RunStream(cfg, ids, chunks, false);
    r.failure.None? && Replay(r.conv.trace).stopSequence == None
  }

  /** The tool_use blocks of such a shape that the client has in the end. */
  ghost function ClientCalls(cfg: Config, ids: nat, chunks: seq<Chunk>, like: Shapes): nat {
    BlockCalls(Replay(RunStream(cfg, ids, chunks, false).conv.trace).blocks, like)
  }

  /** The client has as many of them as the chunk that makes such calls most often. */
  ghost predicate ShownOnce(cfg: Config, ids: nat, chunks: seq<Chunk>, like: Shapes) {
    ClientCalls(cfg, ids, chunks, like) == MostCalls(chunks, like)
  }

  lemma ToldAreShownOnce(cfg: Config, ids: nat, chunks: seq<Chunk>, like: Shapes, fp: Str)
    requires Unstopped(cfg, ids, chunks) && ToldAll(chunks, like, fp)
    ensures ShownOnce(cfg, ids, chunks, like)
  {
    var c := ProcessAll(cfg, ids, chunks).conv;
    AccountAll(cfg, ids, chunks, like, fp);
    FlushEffect(c, cfg);
    WrappedEffect(cfg, ids, chunks);
    ConcludeEffect(Wrapped(cfg, ids, chunks));
    if !c.filter.stopped && c.filter.pending != [] {
      BlockCallsOfText(c, c.filter.pending, [], like);
    }
  }

  // ----- Which calls the converter takes for the same -----

  /** What a call is recognised by. */
  function Key(t: Shape): Str {
    t.name + Ascii(":") + t.input + Ascii(":") + t.signature
  }

  lemma KeyIsFingerprint(call: Call, signature: Str)
    ensures CallFingerprint(call, signature) == Key(ShapeOf(call, signature))
  {
  }

  ghost function WithKey(key: Str): Shapes {
    iset t: Shape | Key(t) == key
  }

  lemma KeyTells(chunks: seq<Chunk>, key: Str)
    ensures ToldAll(chunks, WithKey(key), key)
  {
    forall i | 0 <= i < |chunks| ensures ToldChunk(chunks[i], WithKey(key), key) {
      if chunks[i].Chunk? && chunks[i].content.Parts? {
        var parts := chunks[i].content.parts;
        forall j | 0 <= j < |parts| && Calls(parts[j])
          ensures ToldCall(parts[j].call.value, parts[j].signature, WithKey(key), key)
        {
          KeyIsFingerprint(parts[j].call.value, parts[j].signature);
        }
      }
    }
  }

  /**
   * In a successful stream without a stop match the client has, of the calls of each key, as many as the chunk that
   * makes such calls most often.
   */
  lemma CallsAreShownOnce(cfg: Config, ids: nat, chunks: seq<Chunk>, key: Str)
    requires Unstopped(cfg, ids, chunks)
    ensures ShownOnce(cfg, ids, chunks, WithKey(key))
  {
    KeyTells(chunks, key);
    ToldAreShownOnce(cfg, ids, chunks, WithKey(key), key);
  }

  /** All calls of the chunks are of these shapes. */
  ghost predicate MadeOf(chunks: seq<Chunk>, all: Shapes) {
    forall i :: 0 <= i < |chunks| ==> ChunkMadeOf(chunks[i], all)
  }

  ghost predicate ChunkMadeOf(chunk: Chunk, all: Shapes) {
    chunk.Chunk? && chunk.content.Parts? ==>
      forall j :: 0 <= j < |chunk.content.parts| && Calls(chunk.content.parts[j]) ==>
        ShapeOf(chunk.content.parts[j].call.value, chunk.content.parts[j].signature) in all
  }

  /** No two of them have the same key. */
  ghost predicate KeysDiffer(all: Shapes) {
    forall t, u :: t in all && u in all && Key(t) == Key(u) ==> t == u
  }

  lemma DifferentTells(chunks: seq<Chunk>, all: Shapes, t: Shape)
    requires MadeOf(chunks, all) && KeysDiffer(all) && t in all
    ensures ToldAll(chunks, iset{t}, Key(t))
  {
    forall i | 0 <= i < |chunks| ensures ToldChunk(chunks[i], iset{t}, Key(t)) {
      assert ChunkMadeOf(chunks[i], all);
      if chunks[i].Chunk? && chunks[i].content.Parts? {
        var parts := chunks[i].content.parts;
        forall j | 0 <= j < |parts| && Calls(parts[j])
          ensures ToldCall(parts[j].call.value, parts[j].signature, iset{t}, Key(t))
        {
          KeyIsFingerprint(parts[j].call.value, parts[j].signature);
        }
      }
    }
  }

  /** So if no two different shapes of the stream have one key, this holds of each shape by itself. */
  lemma EachIsShownOnce(cfg: Config, ids: nat, chunks: seq<Chunk>, all: Shapes, t: Shape)
    requires Unstopped(cfg, ids, chunks) && MadeOf(chunks, all) && KeysDiffer(all) && t in all
    ensures ShownOnce(cfg, ids, chunks, iset{t})
  {
    DifferentTells(chunks, all, t);
    ToldAreShownOnce(cfg, ids, chunks, iset{t}, Key(t));
  }
}
