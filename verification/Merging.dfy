/**
 * A reading of content that two converters can be compared by: adjacent text merged, empty text dropped, synthesized
 * ids and text signatures abstracted. And the plan of a chunk stream: what it says and calls, repeats marked.
 */
module Merging {
  import opened Bytes
  import opened StopMatching
  import opened StopFilter
  import opened AnthropicEvents
  import opened GeminiModel
  import opened StreamSpec

  function AbstractId(id: Str): Str {
    if id == [] || HasPrefix(id, SYNTHESIZED_TOOL) then SYNTHESIZED_TOOL else id
  }

  function AbstractKey(key: Str): Str {
    if HasPrefix(key, ToolKey(SYNTHESIZED_TOOL)) then ToolKey(SYNTHESIZED_TOOL) else key
  }

  function Abstract(b: Block): Block {
    match b
    case Text(text, _) => Text(text, [])
    case Carrier(key, signature) => Carrier(AbstractKey(key), signature)
    case Tool(id, name, input, signature) => Tool(AbstractId(id), name, input, signature)
  }

  function PushText(acc: seq<Block>, text: Str): seq<Block> {
    var n := |acc| - 1;
    if text == [] then acc
    else if acc != [] && acc[n].Text? then acc[..n] + [Text(acc[n].text + text, [])]
    else acc + [Text(text, [])]
  }

  function Push(acc: seq<Block>, b: Block): seq<Block> {
    if b.Text? then PushText(acc, b.text) else acc + [Abstract(b)]
  }

  function Merge(blocks: seq<Block>): seq<Block> {
    if blocks == [] then [] else Push(Merge(blocks[..|blocks| - 1]), blocks[|blocks| - 1])
  }

  lemma MergeSnoc(blocks: seq<Block>, b: Block)
    ensures Merge(blocks + [b]) == Push(Merge(blocks), b)
  {
    SnocInit(blocks, b);
  }

  lemma PushTextTwice(acc: seq<Block>, s: Str, t: Str)
    ensures PushText(PushText(acc, s), t) == PushText(acc, s + t)
  {
    var n := |acc| - 1;
    if s == [] {
      NothingBefore(t);
    } else if t != [] {
      if acc != [] && acc[n].Text? {
        PlusAssoc(acc[n].text, s, t);
      }
      var one := PushText(acc, s);
      assert one[..|one| - 1] == if acc != [] && acc[n].Text? then acc[..n] else acc;
    } else {
      assert s + t == s;
    }
  }

  /** Growing the last text block and pushing the new text come to the same. */
  lemma MergeGrow(blocks: seq<Block>, text: Str, signature: Str)
    requires blocks != [] && blocks[|blocks| - 1].Text?
    ensures var n := |blocks| - 1;
            Merge(blocks[n := Text(blocks[n].text + text, signature)]) == PushText(Merge(blocks), text)
  {
    var n := |blocks| - 1;
    var last := blocks[n];
    var grown := blocks[n := Text(last.text + text, signature)];
    assert grown[..n] == blocks[..n];
    PushTextTwice(Merge(blocks[..n]), last.text, text);
  }

  /** The abstract blocks of a call. */
  function CallAbstract(call: Call, signature: Str): seq<Block> {
    CallBlocks(AbstractId(call.id), call, signature)
  }

  lemma AbstractKeyOfTool(id: Str)
    requires id != []
    ensures AbstractKey(ToolKey(id)) == ToolKey(AbstractId(id))
  {
    assert ToolKey(id)[5..] == id && ToolKey(SYNTHESIZED_TOOL)[5..] == SYNTHESIZED_TOOL;
    if HasPrefix(id, SYNTHESIZED_TOOL) {
      assert id == SYNTHESIZED_TOOL + id[|SYNTHESIZED_TOOL|..];
      PlusAssoc(TOOL_KEY, SYNTHESIZED_TOOL, id[|SYNTHESIZED_TOOL|..]);
    }
    if HasPrefix(ToolKey(id), ToolKey(SYNTHESIZED_TOOL)) {
      assert ToolKey(id)[..|ToolKey(SYNTHESIZED_TOOL)|][5..] == id[..|SYNTHESIZED_TOOL|];
    }
  }

  lemma MergeCall(blocks: seq<Block>, id: Str, call: Call, signature: Str)
    requires id != [] && AbstractId(id) == AbstractId(call.id)
    ensures Merge(blocks + CallBlocks(id, call, signature)) == Merge(blocks) + CallAbstract(call, signature)
  {
    var carrier, tool := Carrier(ToolKey(id), signature), Tool(id, call.name, ObjectOrEmpty(call.args), signature);
    AbstractKeyOfTool(id);
    if signature == [] {
      NothingBefore([tool]);
      MergeSnoc(blocks, tool);
      NothingBefore([Abstract(tool)]);
    } else {
      PlusAssoc(blocks, [carrier], [tool]);
      MergeSnoc(blocks, carrier);
      MergeSnoc(blocks + [carrier], tool);
      PlusAssoc(Merge(blocks), [Abstract(carrier)], [Abstract(tool)]);
    }
  }

  lemma SynthesizedIsAbstract(counter: nat)
    ensures AbstractId(SynthesizedToolId(counter)) == AbstractId([])
  {
    PlusTakeLeft(SYNTHESIZED_TOOL, Decimal(counter), |SYNTHESIZED_TOOL|);
  }

  /**
   * What a response does, in order. An empty text only brings a signature for the text before it; `Repeat` is a call
   * the streaming converter takes for one it has emitted.
   */
  datatype Act =
    | Say(text: Str, signature: Str)
    | Invoke(call: Call, signature: Str)
    | Repeat(call: Call, signature: Str)

  /** `emitted` counts calls emitted by fingerprint, `seen` those of the current chunk. */
  datatype Tally = Tally(emitted: map<Str, nat>, seen: map<Str, nat>, plan: seq<Act>)

  function TallyText(t: Tally, p: Part): Tally
    requires p.Part?
  {
    if p.text.Some? && (p.text.value != [] || p.signature != []) then
      t.(plan := t.plan + [Say(p.text.value, p.signature)])
    else t
  }

  function TallyCall(t: Tally, call: Call, signature: Str): Tally {
    var fp := CallFingerprint(call, signature);
    var n := CountOf(t.seen, fp) + 1;
    if n <= CountOf(t.emitted, fp) then t.(seen := t.seen[fp := n], plan := t.plan + [Repeat(call, signature)])
    else Tally(t.emitted[fp := n], t.seen[fp := n], t.plan + [Invoke(call, signature)])
  }

  function TallyPart(t: Tally, p: Part): Tally {
    if p.Malformed? || p.thought then t
    else if p.call.None? then TallyText(t, p)
    else TallyCall(TallyText(t, p), p.call.value, p.signature)
  }

  function TallyParts(t: Tally, parts: seq<Part>): Tally {
    if parts == [] then t else TallyPart(TallyParts(t, parts[..|parts| - 1]), parts[|parts| - 1])
  }

  /** Chunks that bring parts, or nothing; no error and no blocked prompt. */
  predicate Plain(chunks: seq<Chunk>) {
    forall i :: 0 <= i < |chunks| ==> PlainChunk(chunks[i])
  }

  predicate PlainChunk(chunk: Chunk) {
    chunk.Blank? || (chunk.Chunk? && chunk.blockReason == [] && ValidContent(chunk.content))
  }

  function ChunkParts(chunk: Chunk): seq<Part> {
    if chunk.Chunk? && chunk.content.Parts? then chunk.content.parts else []
  }

  function TallyAll(chunks: seq<Chunk>): Tally {
    if chunks == [] then Tally(map[], map[], [])
    else TallyParts(TallyAll(chunks[..|chunks| - 1]).(seen := map[]), ChunkParts(chunks[|chunks| - 1]))
  }

  function Plan(chunks: seq<Chunk>): seq<Act> {
    TallyAll(chunks).plan
  }

  /** All parts of the response, as one non-streaming candidate would hold them. */
  function AllParts(chunks: seq<Chunk>): seq<Part> {
    if chunks == [] then [] else AllParts(chunks[..|chunks| - 1]) + ChunkParts(chunks[|chunks| - 1])
  }

  function LastFinish(chunks: seq<Chunk>): Option<Str> {
    if chunks == [] then None
    else
      var chunk := chunks[|chunks| - 1];
      if chunk.Chunk? && chunk.finish.Some? then chunk.finish else LastFinish(chunks[..|chunks| - 1])
  }

  /** The texts said by a plan. */
  function Says(plan: seq<Act>): seq<Str> {
    if plan == [] then []
    else
      var a := plan[|plan| - 1];
      Says(plan[..|plan| - 1]) + if a.Say? && a.text != [] then [a.text] else []
  }

  function Said(plan: seq<Act>): Str {
    Concat(Says(plan))
  }

  /** The merged content of a converter in progress; `calls` tells whether a call was emitted. */
  datatype Merged = Merged(acc: seq<Block>, filter: FilterState, matched: Str, calls: bool)

  const START := Merged([], FRESH, [], false)

  ghost function SayTo(stops: seq<Str>, m: Merged, text: Str): Merged {
    var r := FeedText(stops, m.filter, text);
    Merged(PushText(m.acc, r.visible), r.next, r.matched, m.calls)
  }

  /** The streaming converter on one act: repeats are skipped and a call leaves the held-back text where it is. */
  ghost function StreamAct(stops: seq<Str>, m: Merged, a: Act): Merged {
    if m.matched != [] then m
    else match a
      case Say(text, _) => if text == [] then m else SayTo(stops, m, text)
      case Invoke(call, signature) => m.(acc := m.acc + CallAbstract(call, signature), calls := true)
      case Repeat(_, _) => m
  }

  /** The non-streaming converter on one act: nothing is a repeat and a call flushes the held-back text first. */
  ghost function PlainAct(stops: seq<Str>, m: Merged, a: Act): Merged {
    if m.matched != [] then m
    else if a.Say? then (if a.text == [] then m else SayTo(stops, m, a.text))
    else
      Merged(PushText(m.acc, m.filter.pending) + CallAbstract(a.call, a.signature), m.filter.(pending := []), [], true)
  }

  ghost function StreamRun(stops: seq<Str>, plan: seq<Act>): Merged {
    if plan == [] then START else StreamAct(stops, StreamRun(stops, plan[..|plan| - 1]), plan[|plan| - 1])
  }

  ghost function PlainRun(stops: seq<Str>, plan: seq<Act>): Merged {
    if plan == [] then START else PlainAct(stops, PlainRun(stops, plan[..|plan| - 1]), plan[|plan| - 1])
  }

  /** The content at the end, with what is still held back released. */
  function Closed(m: Merged): seq<Block> {
    if m.matched != [] then m.acc else PushText(m.acc, m.filter.pending)
  }

  lemma StreamSnoc(stops: seq<Str>, plan: seq<Act>, a: Act)
    ensures StreamRun(stops, plan + [a]) == StreamAct(stops, StreamRun(stops, plan), a)
  {
    SnocInit(plan, a);
  }

  lemma PlainSnoc(stops: seq<Str>, plan: seq<Act>, a: Act)
    ensures PlainRun(stops, plan + [a]) == PlainAct(stops, PlainRun(stops, plan), a)
  {
    SnocInit(plan, a);
  }

  lemma SaidSnoc(plan: seq<Act>, a: Act)
    ensures Said(plan + [a]) == Said(plan) + if a.Say? then a.text else []
  {
    SnocInit(plan, a);
    if a.Say? && a.text != [] {
      ConcatSnoc(Says(plan), a.text);
    } else {
      assert Says(plan) + [] == Says(plan);
    }
  }
}
