/** The text blocks of a streaming run: which signature each shows, and which is remembered for its text. */
module StreamSignatures {
  import opened Bytes
  import opened StopMatching
  import opened StopFilter
  import opened AnthropicEvents
  import opened GeminiModel
  import opened StreamSpec
  import opened StreamLegality
  import opened StreamMemos
  import opened StreamText
  import opened Merging
  import opened Agreement
  import Exactly = AgreementExactly

  // ----- The reference: the plan and the filter -----

  /** A run of visible text: its first signature, which its block shows if it comes at once, and its last one. */
  datatype Spoken = Spoken(text: Str, shown: Str, last: Str)

  function Extended(o: Option<Spoken>, visible: Str, signature: Str): Spoken {
    match o
    case None => Spoken(visible, signature, signature)
    case Some(s) => Spoken(s.text + visible, s.shown, if signature == [] then s.last else signature)
  }

  /** The open text after `text` was said, of which `visible` is shown. */
  function Sounding(before: Option<Spoken>, text: Str, visible: Str, signature: Str): Option<Spoken> {
    if text == [] then (if before.Some? && signature != [] then Some(before.value.(last := signature)) else before)
    else if visible == [] then before
    else Some(Extended(before, visible, signature))
  }

  /** What the filter makes visible when `text` is said after the plan. */
  ghost function Visible(stops: seq<Str>, plan: seq<Act>, text: Str): Str {
    FeedText(stops, Run(stops, Says(plan)).filter, text).visible
  }

  /**
   * The text that a call would cut off: what has become visible since the last call, with the last signature that came
   * with something visible, or behind it with an empty text.
   */
  ghost function Open(stops: seq<Str>, plan: seq<Act>): Option<Spoken> {
    if plan == [] then None
    else
      var init, a := plan[..|plan| - 1], plan[|plan| - 1];
      var before := Open(stops, init);
      if a.Say? then Sounding(before, a.text, Visible(stops, init, a.text), a.signature)
      else if a.Invoke? && StopFree(Said(init), stops) then None
      else before
  }

  /** The texts that calls have cut off. */
  ghost function Done(stops: seq<Str>, plan: seq<Act>): seq<Spoken> {
    if plan == [] then []
    else
      var init, a := plan[..|plan| - 1], plan[|plan| - 1];
      Done(stops, init) +
      if a.Invoke? && StopFree(Said(init), stops) && Open(stops, init).Some? then [Open(stops, init).value] else []
  }

  /** All of them, the one at the end with what the filter still held. */
  ghost function AllSpoken(stops: seq<Str>, plan: seq<Act>): seq<Spoken> {
    var open, tail := Open(stops, plan), Run(stops, Says(plan)).filter.pending;
    Done(stops, plan) +
    if StopFree(Said(plan), stops) && tail != [] then [Extended(open, tail, [])]
    else if open.Some? then [open.value]
    else []
  }

  // ----- What the client and the store have of them -----

  function TextsOf(blocks: seq<Block>): seq<Block> {
    if blocks == [] then []
    else TextsOf(blocks[..|blocks| - 1]) + if blocks[|blocks| - 1].Text? then [blocks[|blocks| - 1]] else []
  }

  predicate ForText(m: Memo) {
    HasPrefix(m.key, Ascii("text:"))
  }

  function TextMemos(memos: seq<Memo>): seq<Memo> {
    if memos == [] then []
    else TextMemos(memos[..|memos| - 1]) + if ForText(memos[|memos| - 1]) then [memos[|memos| - 1]] else []
  }

  function BlocksFor(ss: seq<Spoken>): seq<Block> {
    if ss == [] then [] else BlocksFor(ss[..|ss| - 1]) + [Text(ss[|ss| - 1].text, ss[|ss| - 1].shown)]
  }

  function MemoFor(s: Spoken): seq<Memo> {
    if s.last == [] then [] else [Memo(Ascii("text:") + s.text, s.last)]
  }

  function MemosFor(ss: seq<Spoken>): seq<Memo> {
    if ss == [] then [] else MemosFor(ss[..|ss| - 1]) + MemoFor(ss[|ss| - 1])
  }

  function Optional(o: Option<Spoken>): seq<Spoken> {
    if o.Some? then [o.value] else []
  }

  lemma TextsSnoc(blocks: seq<Block>, b: Block)
    ensures TextsOf(blocks + [b]) == TextsOf(blocks) + if b.Text? then [b] else []
  {
    SnocInit(blocks, b);
  }

  lemma MemosSnoc(memos: seq<Memo>, m: Memo)
    ensures TextMemos(memos + [m]) == TextMemos(memos) + if ForText(m) then [m] else []
  {
    SnocInit(memos, m);
  }

  lemma SpokenSnoc(ss: seq<Spoken>, s: Spoken)
    ensures BlocksFor(ss + [s]) == BlocksFor(ss) + [Text(s.text, s.shown)]
    ensures MemosFor(ss + [s]) == MemosFor(ss) + MemoFor(s)
  {
    SnocInit(ss, s);
  }

  lemma KeysForText(text: Str, id: Str, signature: Str)
    ensures ForText(Memo(TextKey(text), signature)) && !ForText(Memo(ToolKey(id), signature))
  {
    assert Ascii("text:") == TEXT_KEY;
    assert ToolKey(id)[1] == 0x6F && TEXT_KEY[1] == 0x65;
  }

  // ----- The converter -----

  /** The open block is the open text, the others are those cut off, and so is what is remembered. */
  ghost predicate Tells(c: Conv, o: Option<Spoken>, done: seq<Spoken>) {
    && Coherent(c) && c.textOpen == o.Some?
    && (o.Some? ==> c.currentText == o.value.text && c.currentSignature == o.value.last
                    && Shown(c)[c.textIndex] == Text(o.value.text, o.value.shown))
    && TextsOf(ClosedBlocks(c)) == BlocksFor(done)
    && TextMemos(c.remembered) == MemosFor(done)
  }

  lemma ShowTextFields(c: Conv, cfg: Config, text: Str, signature: Str)
    ensures var d := ShowText(c, cfg, text, signature);
            && d.textOpen && d.currentText == c.currentText + text
            && d.currentSignature == if signature == [] then c.currentSignature else signature
  {
  }

  lemma ShowTells(c: Conv, cfg: Config, visible: Str, signature: Str, o: Option<Spoken>, done: seq<Spoken>)
    requires Tells(c, o, done) && visible != []
    ensures Tells(ShowText(c, cfg, visible, signature), Some(Extended(o, visible, signature)), done)
  {
    ShowTextEffect(c, cfg, visible, signature);
    ShowTextFrame(c, cfg, visible, signature);
    ShowTextFields(c, cfg, visible, signature);
    TextLeavesClosed(c, visible, signature);
    NothingBefore(visible);
  }

  lemma SameTells(c: Conv, d: Conv, o: Option<Spoken>, done: seq<Spoken>)
    requires Tells(c, o, done) && Coherent(d) && Shown(d) == Shown(c) && d.remembered == c.remembered
    requires d.textOpen == c.textOpen && d.textIndex == c.textIndex
    requires d.currentText == c.currentText && d.currentSignature == c.currentSignature
    ensures Tells(d, o, done)
  {
  }

  lemma LateTells(c: Conv, signature: Str, o: Option<Spoken>, done: seq<Spoken>)
    requires Tells(c, o, done) && o.Some? && signature != []
    ensures Tells(c.(currentSignature := signature), Some(o.value.(last := signature)), done)
  {
  }

  lemma SayTells(c: Conv, cfg: Config, stops: seq<Str>, text: Str, signature: Str, o: Option<Spoken>, done: seq<Spoken>)
    requires Tells(c, o, done) && text != []
    ensures var visible := FeedText(stops, c.filter, text).visible;
            Tells(EmitText(c, cfg, stops, text, signature),
                  if visible == [] then o else Some(Extended(o, visible, signature)), done)
  {
    var r := FeedText(stops, c.filter, text);
    SameTells(c, Filtered(c, r), o, done);
    if r.visible != [] {
      ShowTells(Filtered(c, r), cfg, r.visible, signature, o, done);
    }
  }

  lemma CloseTells(c: Conv, o: Option<Spoken>, done: seq<Spoken>)
    requires Tells(c, o, done)
    ensures Tells(CloseText(c), None, done + Optional(o))
  {
    CloseEffect(c);
    if o.Some? {
      var s := o.value;
      InitLast(Shown(c));
      TextsSnoc(ClosedBlocks(c), Text(s.text, s.shown));
      SpokenSnoc(done, s);
      KeysForText(s.text, [], s.last);
      MemosSnoc(c.remembered, Memo(TextKey(s.text), s.last));
      NothingAfter(MemosFor(done));
    } else {
      NothingAfter(done);
    }
  }

  lemma StartTells(c: Conv, cfg: Config, o: Option<Spoken>, done: seq<Spoken>)
    requires Tells(c, o, done)
    ensures Tells(StartMessage(c, cfg), o, done)
  {
    StartEffect(c, cfg);
    SameTells(c, StartMessage(c, cfg), o, done);
  }

  lemma CallIsNoText(blocks: seq<Block>, id: Str, call: Call, signature: Str)
    ensures TextsOf(blocks + CallBlocks(id, call, signature)) == TextsOf(blocks)
  {
    var carrier, tool := Carrier(ToolKey(id), signature), Tool(id, call.name, ObjectOrEmpty(call.args), signature);
    NothingAfter(TextsOf(blocks));
    if signature == [] {
      NothingBefore([tool]);
      TextsSnoc(blocks, tool);
    } else {
      PlusAssoc(blocks, [carrier], [tool]);
      TextsSnoc(blocks, carrier);
      TextsSnoc(blocks + [carrier], tool);
    }
  }

  lemma ShowCallTells(c: Conv, id: Str, call: Call, signature: Str, done: seq<Spoken>)
    requires Tells(c, None, done) && c.started
    ensures Tells(ShowCall(c, id, call, signature), None, done)
  {
    ShowCallEffect(c, id, call, signature);
    CallIsNoText(Shown(c), id, call, signature);
    KeysForText([], id, signature);
    MemosSnoc(c.remembered, Memo(ToolKey(id), signature));
    NothingAfter(TextMemos(c.remembered));
    ShowCallFields(c, id, call, signature);
  }

  lemma ShowCallFields(c: Conv, id: Str, call: Call, signature: Str)
    ensures var d := ShowCall(c, id, call, signature);
            && d.textOpen == c.textOpen
            && d.remembered == c.remembered + if signature == [] then [] else [Memo(ToolKey(id), signature)]
  {
  }

  lemma ToolTells(c: Conv, cfg: Config, call: Call, signature: Str, o: Option<Spoken>, done: seq<Spoken>)
    requires Tells(c, o, done) && c.matchedStop == [] && call.name != []
    ensures Tells(EmitTool(c, cfg, call, signature).conv, None, done + Optional(o))
  {
    var s := Prepared(c, cfg);
    StartTells(c, cfg, o, done);
    CloseTells(StartMessage(c, cfg), o, done);
    PreparedEffect(c, cfg);
    TakeIdEffect(s, call);
    SameTells(s, TakeId(s, call), None, done + Optional(o));
    ShowCallTells(TakeId(s, call), IdFor(s, call), call, signature, done + Optional(o));
  }

  // ----- The run -----

  lemma OpenSnoc(stops: seq<Str>, plan: seq<Act>, a: Act)
    ensures Done(stops, plan + [a]) ==
            Done(stops, plan) +
            if a.Invoke? && StopFree(Said(plan), stops) then Optional(Open(stops, plan)) else []
    ensures var before := Open(stops, plan);
            Open(stops, plan + [a]) ==
            if a.Say? then Sounding(before, a.text, Visible(stops, plan, a.text), a.signature)
            else if a.Invoke? && StopFree(Said(plan), stops) then None
            else before
  {
    SnocInit(plan, a);
  }

  ghost predicate TellsPlan(c: Conv, stops: seq<Str>, plan: seq<Act>) {
    Tells(c, Open(stops, plan), Done(stops, plan))
  }

  lemma TextTellsPlan(c: Conv, cfg: Config, t: Tally, p: Part)
    requires TellsPlan(c, cfg.stops, t.plan) && Follows(c, StreamRun(cfg.stops, t.plan)) && p.Part?
    ensures TellsPlan(ScanText(c, cfg, p), cfg.stops, TallyText(t, p).plan)
  {
    if p.text.Some? {
      OpenSnoc(cfg.stops, t.plan, Say(p.text.value, p.signature));
      NothingAfter(Done(cfg.stops, t.plan));
      if p.text.value != [] {
        Exactly.StreamFilterIsRun(cfg.stops, t.plan);
        SayTells(c, cfg, cfg.stops, p.text.value, p.signature, Open(cfg.stops, t.plan), Done(cfg.stops, t.plan));
      } else if p.signature != [] && c.textOpen {
        LateTells(c, p.signature, Open(cfg.stops, t.plan), Done(cfg.stops, t.plan));
      }
    }
  }

  lemma InvokeTellsPlan(c: Conv, cfg: Config, plan: seq<Act>, call: Call, signature: Str)
    requires TellsPlan(c, cfg.stops, plan) && Follows(c, StreamRun(cfg.stops, plan)) && call.name != []
    ensures TellsPlan(EmitTool(c, cfg, call, signature).conv, cfg.stops, plan + [Invoke(call, signature)])
  {
    OpenSnoc(cfg.stops, plan, Invoke(call, signature));
    Exactly.StreamFilterFacts(cfg.stops, plan);
    if c.matchedStop == [] {
      ToolTells(c, cfg, call, signature, Open(cfg.stops, plan), Done(cfg.stops, plan));
    } else {
      NothingAfter(Done(cfg.stops, plan));
    }
  }

  lemma RepeatTellsPlan(c: Conv, stops: seq<Str>, plan: seq<Act>, call: Call, signature: Str)
    requires TellsPlan(c, stops, plan)
    ensures TellsPlan(c, stops, plan + [Repeat(call, signature)])
  {
    OpenSnoc(stops, plan, Repeat(call, signature));
    NothingAfter(Done(stops, plan));
  }

  lemma CountedTells(r: Step, seen: map<Str, nat>, fp: Str, n: nat, stops: seq<Str>, plan: seq<Act>)
    requires r.failure.None? && TellsPlan(r.conv, stops, plan)
    ensures TellsPlan(Counted(r, seen, fp, n).conv, stops, plan)
  {
    SameTells(r.conv, Counted(r, seen, fp, n).conv, Open(stops, plan), Done(stops, plan));
  }

  lemma EmitToolSucceeds(c: Conv, cfg: Config, call: Call, signature: Str)
    requires call.name != []
    ensures EmitTool(c, cfg, call, signature).failure.None?
  {
  }

  lemma CallTellsPlan(s: Scan, t: Tally, cfg: Config, call: Call, signature: Str, d: Conv, plan: seq<Act>)
    requires s.seen == t.seen && s.conv.emittedCalls == t.emitted && call.name != []
    requires TellsPlan(s.conv, cfg.stops, t.plan) && Follows(s.conv, StreamRun(cfg.stops, t.plan))
    requires d == ScanCall(s, cfg, call, signature).conv && plan == TallyCall(t, call, signature).plan
    ensures TellsPlan(d, cfg.stops, plan)
  {
    var fp := CallFingerprint(call, signature);
    var n := CountOf(s.seen, fp) + 1;
    if n <= CountOf(s.conv.emittedCalls, fp) {
      RepeatTellsPlan(s.conv, cfg.stops, t.plan, call, signature);
    } else {
      EmitToolSucceeds(s.conv, cfg, call, signature);
      InvokeTellsPlan(s.conv, cfg, t.plan, call, signature);
      CountedTells(EmitTool(s.conv, cfg, call, signature), s.seen, fp, n, cfg.stops,
                   t.plan + [Invoke(call, signature)]);
    }
  }

  ghost predicate Told(s: Scan, t: Tally, stops: seq<Str>) {
    Scans(s, t, stops) && TellsPlan(s.conv, stops, t.plan)
  }

  lemma ScanTextTold(s: Scan, t: Tally, cfg: Config, p: Part)
    requires Told(s, t, cfg.stops) && ValidPart(p) && !p.thought
    ensures Told(s.(conv := ScanText(s.conv, cfg, p)), TallyText(t, p), cfg.stops)
  {
    ScanTextScans(s, t, cfg, p);
    TextTellsPlan(s.conv, cfg, t, p);
  }

  lemma ScanCallTold(s: Scan, t: Tally, cfg: Config, call: Call, signature: Str)
    requires Told(s, t, cfg.stops) && call.name != []
    ensures Told(ScanCall(s, cfg, call, signature), TallyCall(t, call, signature), cfg.stops)
  {
    ScanCallScans(s, t, cfg, call, signature);
    CallTellsPlan(s, t, cfg, call, signature, ScanCall(s, cfg, call, signature).conv,
                  TallyCall(t, call, signature).plan);
  }

  lemma {:induction false} ScanPartsTold(c: Conv, t: Tally, cfg: Config, parts: seq<Part>)
    requires Told(Scan(c, map[], None), t, cfg.stops) && forall i :: 0 <= i < |parts| ==> ValidPart(parts[i])
    ensures Told(ScanParts(c, cfg, parts), TallyParts(t, parts), cfg.stops)
  {
    if parts != [] {
      var init, p := parts[..|parts| - 1], parts[|parts| - 1];
      ScanPartsTold(c, t, cfg, init);
      var s, u := ScanParts(c, cfg, init), TallyParts(t, init);
      if !p.thought {
        ScanTextTold(s, u, cfg, p);
        if p.call.Some? {
          ScanCallTold(s.(conv := ScanText(s.conv, cfg, p)), TallyText(u, p), cfg, p.call.value, p.signature);
        }
      }
    }
  }

  lemma EnteredTold(c: Conv, t: Tally, stops: seq<Str>, chunk: Chunk)
    requires Told(Scan(c, map[], None), t, stops) && chunk.Chunk?
    ensures Told(Scan(Entered(c, chunk), map[], None), t, stops)
  {
    SameTells(c, Entered(c, chunk), Open(stops, t.plan), Done(stops, t.plan));
  }

  lemma ChunkTold(c: Conv, cfg: Config, t: Tally, chunk: Chunk, s: Step, u: Tally)
    requires Told(Scan(c, map[], None), t, cfg.stops) && PlainChunk(chunk) && chunk.Chunk?
    requires s == ProcessData(c, cfg, chunk) && u == TallyParts(t, ChunkParts(chunk))
    ensures Told(Scan(s.conv, u.seen, s.failure), u, cfg.stops)
  {
    EnteredTold(c, t, cfg.stops, chunk);
    ScanPartsTold(Entered(c, chunk), t, cfg, chunk.content.parts);
    ProcessDataScans(c, cfg, chunk);
  }

  lemma {:induction false} StreamTold(cfg: Config, ids: nat, chunks: seq<Chunk>)
    requires Plain(chunks)
    ensures var s := ProcessAll(cfg, ids, chunks);
            Told(Scan(s.conv, TallyAll(chunks).seen, s.failure), TallyAll(chunks), cfg.stops)
  {
    if chunks == [] {
      InitialIsCoherent(ids);
    } else {
      var init, chunk := chunks[..|chunks| - 1], chunks[|chunks| - 1];
      StreamTold(cfg, ids, init);
      assert PlainChunk(chunk);
      if chunk.Chunk? {
        ChunkTold(ProcessAll(cfg, ids, init).conv, cfg, TallyAll(init).(seen := map[]), chunk,
                  ProcessAll(cfg, ids, chunks), TallyAll(chunks));
      }
    }
  }

  /** The end of a run: the tail is shown without a signature, and the text is closed. */
  lemma EndTells(c: Conv, cfg: Config, plan: seq<Act>)
    requires TellsPlan(c, cfg.stops, plan) && Follows(c, StreamRun(cfg.stops, plan))
    ensures Tells(CloseText(StartMessage(FlushTail(c, cfg), cfg)), None, AllSpoken(cfg.stops, plan))
  {
    var open, done := Open(cfg.stops, plan), Done(cfg.stops, plan);
    Exactly.StreamFilterIsRun(cfg.stops, plan);
    Exactly.StreamFilterFacts(cfg.stops, plan);
    RunInvariant(cfg.stops, Says(plan));
    var tail := c.filter.pending;
    var last := if c.matchedStop == [] && tail != [] then Some(Extended(open, tail, [])) else open;
    if c.matchedStop == [] && tail != [] {
      var f := c.(filter := c.filter.(pending := []));
      UnfilteredFeed(f.filter, tail);
      SameTells(c, f, open, done);
      SayTells(f, cfg, [], tail, [], open, done);
    } else if c.matchedStop == [] {
      SameTells(c, FlushTail(c, cfg), open, done);
    }
    StartTells(FlushTail(c, cfg), cfg, last, done);
    CloseTells(StartMessage(FlushTail(c, cfg), cfg), last, done);
  }

  /**
   * The text blocks a streaming client ends up with are the runs of visible text between the calls that are shown, in
   * order. Each shows the signature that came with its first visible text; what is remembered under its text, if
   * anything, is the last signature that came with a visible part of it or with an empty text while it was open.
   */
  lemma TextsAreSpoken(cfg: Config, ids: nat, chunks: seq<Chunk>)
    requires Plain(chunks)
    ensures var c, spoken := RunStream(cfg, ids, chunks, false).conv, AllSpoken(cfg.stops, Plan(chunks));
            TextsOf(Replay(c.trace).blocks) == BlocksFor(spoken) && TextMemos(c.remembered) == MemosFor(spoken)
  {
    StreamTold(cfg, ids, chunks);
    EndTells(ProcessAll(cfg, ids, chunks).conv, cfg, Plan(chunks));
    WrappedEffect(cfg, ids, chunks);
    ConcludeEffect(Wrapped(cfg, ids, chunks));
  }
}
