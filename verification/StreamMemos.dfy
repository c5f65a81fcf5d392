/** What a streaming run stores thought signatures under: the text and ids the client itself ends up with. */
module StreamMemos {
  import opened Bytes
  import opened StopFilter
  import opened AnthropicEvents
  import opened GeminiModel
  import opened StreamSpec
  import opened StreamLegality
  import opened StreamText

  /** The memo is stored under this block's own text or id. */
  predicate Names(m: Memo, b: Block) {
    || (b.Text? && m.key == TextKey(b.text) && m.signature != [])
    || (b.Tool? && m == Memo(ToolKey(b.id), b.signature) && b.signature != [])
  }

  ghost predicate NamesOne(m: Memo, blocks: seq<Block>) {
    exists i :: 0 <= i < |blocks| && Names(m, blocks[i])
  }

  ghost predicate NamedByOne(b: Block, memos: seq<Memo>) {
    exists k :: 0 <= k < |memos| && Names(memos[k], b)
  }

  predicate Filled(b: Block) {
    b.Text? ==> b.text != []
  }

  /** Every memo names a block and every signed block is named; no text block is empty. */
  ghost predicate Keyed(blocks: seq<Block>, memos: seq<Memo>) {
    && (forall i :: 0 <= i < |blocks| ==> Filled(blocks[i]))
    && (forall k :: 0 <= k < |memos| ==> NamesOne(memos[k], blocks))
    && (forall i :: 0 <= i < |blocks| && SignedBlock(blocks[i]) ==> NamedByOne(blocks[i], memos))
  }

  /** The blocks that will not change any more. */
  function ClosedBlocks(c: Conv): seq<Block>
    requires c.textOpen ==> c.textIndex < |Shown(c)|
  {
    if c.textOpen then Shown(c)[..c.textIndex] else Shown(c)
  }

  ghost predicate Stored(c: Conv) {
    Coherent(c) && Keyed(ClosedBlocks(c), c.remembered)
  }

  lemma NamesMore(m: Memo, blocks: seq<Block>, b: Block)
    requires NamesOne(m, blocks) || Names(m, b)
    ensures NamesOne(m, blocks + [b])
  {
    if Names(m, b) {
      assert (blocks + [b])[|blocks|] == b;
    } else {
      var i :| 0 <= i < |blocks| && Names(m, blocks[i]);
      assert (blocks + [b])[i] == blocks[i];
    }
  }

  lemma NamedByMore(b: Block, memos: seq<Memo>, m: Memo)
    requires NamedByOne(b, memos) || Names(m, b)
    ensures NamedByOne(b, memos + [m])
  {
    if Names(m, b) {
      assert (memos + [m])[|memos|] == m;
    } else {
      var k :| 0 <= k < |memos| && Names(memos[k], b);
      assert (memos + [m])[k] == memos[k];
    }
  }

  lemma KeyedAddUnsigned(blocks: seq<Block>, memos: seq<Memo>, b: Block)
    requires Keyed(blocks, memos) && !SignedBlock(b) && Filled(b)
    ensures Keyed(blocks + [b], memos)
  {
    forall k | 0 <= k < |memos| ensures NamesOne(memos[k], blocks + [b]) {
      NamesMore(memos[k], blocks, b);
    }
  }

  lemma KeyedAddNamed(blocks: seq<Block>, memos: seq<Memo>, b: Block, m: Memo)
    requires Keyed(blocks, memos) && Names(m, b) && Filled(b)
    ensures Keyed(blocks + [b], memos + [m])
  {
    forall k | 0 <= k < |memos + [m]| ensures NamesOne((memos + [m])[k], blocks + [b]) {
      NamesMore((memos + [m])[k], blocks, b);
    }
    forall i | 0 <= i < |blocks + [b]| && SignedBlock((blocks + [b])[i])
      ensures NamedByOne((blocks + [b])[i], memos + [m])
    {
      NamedByMore((blocks + [b])[i], memos, m);
    }
  }

  lemma InitialStores(ids: nat)
    ensures Stored(Initial(ids))
  {
    InitialIsCoherent(ids);
  }

  lemma IdentifyStores(c: Conv, chunk: Chunk)
    requires Stored(c) && chunk.Chunk?
    ensures Stored(Identify(c, chunk))
  {
  }

  lemma FinishStores(c: Conv, finish: Option<Str>)
    requires Stored(c)
    ensures Stored(c.(finish := finish))
  {
  }

  lemma StartStores(c: Conv, cfg: Config)
    requires Stored(c)
    ensures Stored(StartMessage(c, cfg))
  {
    StartEffect(c, cfg);
  }

  lemma CloseStores(c: Conv)
    requires Stored(c)
    ensures Stored(CloseText(c))
  {
    CloseEffect(c);
    if c.textOpen {
      var b := Shown(c)[c.textIndex];
      InitLast(Shown(c));
      if c.currentSignature == [] {
        KeyedAddUnsigned(ClosedBlocks(c), c.remembered, b);
      } else {
        KeyedAddNamed(ClosedBlocks(c), c.remembered, b, Memo(TextKey(c.currentText), c.currentSignature));
      }
    }
  }

  lemma ShowTextFrame(c: Conv, cfg: Config, text: Str, signature: Str)
    ensures var d := ShowText(c, cfg, text, signature);
            && d.remembered == c.remembered
            && (c.textOpen ==> d.textIndex == c.textIndex)
            && (!c.textOpen ==> d.textIndex == c.nextIndex)
  {
  }

  lemma ShowTextStores(c: Conv, cfg: Config, text: Str, signature: Str)
    requires Stored(c) && text != []
    ensures Stored(ShowText(c, cfg, text, signature))
  {
    ShowTextEffect(c, cfg, text, signature);
    ShowTextFrame(c, cfg, text, signature);
    TextLeavesClosed(c, text, signature);
  }

  /** The filter is not seen by the client. */
  lemma FedStores(c: Conv, r: Fed)
    requires Stored(c)
    ensures Stored(Filtered(c, r))
  {
  }

  lemma EmitTextStores(c: Conv, cfg: Config, stops: seq<Str>, text: Str, signature: Str)
    requires Stored(c)
    ensures Stored(EmitText(c, cfg, stops, text, signature))
  {
    var r := FeedText(stops, c.filter, text);
    FedStores(c, r);
    if text != [] && r.visible != [] {
      ShowTextStores(Filtered(c, r), cfg, r.visible, signature);
    }
  }

  lemma TextLeavesClosed(c: Conv, text: Str, signature: Str)
    requires Coherent(c)
    ensures WithText(c, text, signature)[..if c.textOpen then c.textIndex else c.nextIndex] == ClosedBlocks(c)
  {
  }

  lemma ShowCallStores(c: Conv, id: Str, call: Call, signature: Str)
    requires Stored(c) && c.started && !c.textOpen
    ensures Stored(ShowCall(c, id, call, signature))
  {
    var d := ShowCall(c, id, call, signature);
    var carrier, tool := Carrier(ToolKey(id), signature), Tool(id, call.name, ObjectOrEmpty(call.args), signature);
    ShowCallEffect(c, id, call, signature);
    if signature == [] {
      NothingBefore([tool]);
      KeyedAddUnsigned(Shown(c), c.remembered, tool);
    } else {
      PlusAssoc(Shown(c), [carrier], [tool]);
      KeyedAddUnsigned(Shown(c), c.remembered, carrier);
      KeyedAddNamed(Shown(c) + [carrier], c.remembered, tool, Memo(ToolKey(id), signature));
    }
  }

  lemma PreparedStores(c: Conv, cfg: Config)
    requires Stored(c)
    ensures Stored(Prepared(c, cfg)) && Prepared(c, cfg).started && !Prepared(c, cfg).textOpen
  {
    StartStores(c, cfg);
    CloseStores(StartMessage(c, cfg));
    PreparedEffect(c, cfg);
  }

  lemma EmitToolStores(c: Conv, cfg: Config, call: Call, signature: Str)
    requires Stored(c)
    ensures Stored(EmitTool(c, cfg, call, signature).conv)
  {
    if c.matchedStop == [] {
      PreparedStores(c, cfg);
      var s := Prepared(c, cfg);
      TakeIdStores(s, call);
      if call.name != [] {
        ShowCallStores(TakeId(s, call), IdFor(s, call), call, signature);
      }
    }
  }

  lemma TakeIdStores(c: Conv, call: Call)
    requires Stored(c)
    ensures Stored(TakeId(c, call))
    ensures TakeId(c, call).started == c.started && TakeId(c, call).textOpen == c.textOpen
  {
  }

  lemma ScanTextStores(c: Conv, cfg: Config, p: Part)
    requires Stored(c) && p.Part?
    ensures Stored(ScanText(c, cfg, p))
  {
    if p.text.Some? {
      EmitTextStores(c, cfg, cfg.stops, p.text.value, p.signature);
    }
  }

  lemma ScanCallStores(s: Scan, cfg: Config, call: Call, signature: Str)
    requires Stored(s.conv)
    ensures Stored(ScanCall(s, cfg, call, signature).conv)
  {
    EmitToolStores(s.conv, cfg, call, signature);
  }

  lemma ScanPartStores(s: Scan, cfg: Config, p: Part)
    requires Stored(s.conv)
    ensures Stored(ScanPart(s, cfg, p).conv)
  {
    if s.failure.None? && p.Part? && !p.thought {
      ScanTextStores(s.conv, cfg, p);
      if p.call.Some? {
        ScanCallStores(s.(conv := ScanText(s.conv, cfg, p)), cfg, p.call.value, p.signature);
      }
    }
  }

  lemma {:induction false} ScanPartsStores(c: Conv, cfg: Config, parts: seq<Part>)
    requires Stored(c)
    ensures Stored(ScanParts(c, cfg, parts).conv)
  {
    if parts != [] {
      ScanPartsStores(c, cfg, parts[..|parts| - 1]);
      ScanPartStores(ScanParts(c, cfg, parts[..|parts| - 1]), cfg, parts[|parts| - 1]);
    }
  }

  lemma ProcessDataStores(c: Conv, cfg: Config, chunk: Chunk)
    requires Stored(c)
    ensures Stored(ProcessData(c, cfg, chunk).conv)
  {
    if chunk.Chunk? {
      var n := Identify(c, chunk);
      if chunk.blockReason != [] {
        EmitTextStores(n.(finish := Some(SAFETY)), cfg, cfg.stops, BLOCKED + chunk.blockReason, []);
      } else if ValidContent(chunk.content) {
        var f := if chunk.finish.Some? then chunk.finish else n.finish;
        ScanPartsStores(n.(finish := f), cfg, chunk.content.parts);
      }
    }
  }

  lemma {:induction false} ProcessAllStores(cfg: Config, ids: nat, chunks: seq<Chunk>)
    ensures Stored(ProcessAll(cfg, ids, chunks).conv)
  {
    if chunks == [] {
      InitialIsCoherent(ids);
    } else {
      var init := chunks[..|chunks| - 1];
      ProcessAllStores(cfg, ids, init);
      ProcessDataStores(ProcessAll(cfg, ids, init).conv, cfg, chunks[|chunks| - 1]);
    }
  }

  /**
   * Signature keying over whole successful runs, tail included: every signature handed to the store is under the key of
   * a text block or tool_use block exactly as the client reassembles it, and every block that carries a signature is
   * named by one.
   */
  lemma SignaturesAreKeyedByClientBlocks(cfg: Config, ids: nat, chunks: seq<Chunk>)
    requires RunStream(cfg, ids, chunks, false).failure.None?
    ensures var c := RunStream(cfg, ids, chunks, false).conv;
            Keyed(Replay(c.trace).blocks, c.remembered)
  {
    var c := ProcessAll(cfg, ids, chunks).conv;
    ProcessAllStores(cfg, ids, chunks);
    if c.matchedStop == [] {
      var tail := if c.filter.stopped then [] else c.filter.pending;
      var f := if c.filter.stopped then c else c.(filter := c.filter.(pending := []));
      EmitTextStores(f, cfg, [], tail, []);
    }
    var f := FlushTail(c, cfg);
    StartStores(f, cfg);
    CloseStores(StartMessage(f, cfg));
    WrappedEffect(cfg, ids, chunks);
    ConcludeEffect(Wrapped(cfg, ids, chunks));
  }
}
