/** From a streaming run through the bounded store to a later request of the same session. */
module SessionMemory {
  import opened Bytes
  import opened StopFilter
  import opened AnthropicEvents
  import opened GeminiModel
  import opened StreamSpec
  import opened StreamLegality
  import opened StreamMemos
  import opened SignatureStore
  import opened RequestModel
  import opened RequestContents
  import opened ToolResolution
  import opened ConversationContents
  import History = SignatureHistory
  import Entries = EntryHistory

  // ----- What a run remembers -----

  /** What an unbounded store would hold after a run's memos. */
  function Latest(memos: seq<Memo>): Table {
    if memos == [] then map[]
    else Latest(memos[..|memos| - 1])[memos[|memos| - 1].key := memos[|memos| - 1].signature]
  }

  lemma {:induction false} LatestIsRemembered(memos: seq<Memo>, key: Str)
    requires key in Latest(memos)
    ensures Memo(key, Latest(memos)[key]) in memos
  {
    var n := |memos| - 1;
    if key == memos[n].key {
      assert memos[n] in memos;
    } else {
      LatestIsRemembered(memos[..n], key);
    }
  }

  ghost predicate AllSigned(memos: seq<Memo>) {
    forall k :: 0 <= k < |memos| ==> memos[k].key != [] && memos[k].signature != []
  }

  lemma KeyedIsSigned(blocks: seq<Block>, memos: seq<Memo>)
    requires Keyed(blocks, memos)
    ensures AllSigned(memos)
  {
    forall k | 0 <= k < |memos| ensures memos[k].key != [] && memos[k].signature != [] {
      assert NamesOne(memos[k], blocks);
      var i :| 0 <= i < |blocks| && Names(memos[k], blocks[i]);
    }
  }

  /** A successful run, and block `i` of the message the client reassembled is a text with a remembered signature. */
  ghost predicate RemembersText(cfg: Config, ids: nat, chunks: seq<Chunk>, i: nat) {
    var r := RunStream(cfg, ids, chunks, false);
    var blocks := Replay(r.conv.trace).blocks;
    r.failure.None? && i < |blocks| && blocks[i].Text? && TextKey(blocks[i].text) in Latest(r.conv.remembered)
  }

  ghost function TextOf(cfg: Config, ids: nat, chunks: seq<Chunk>, i: nat): Str
    requires RemembersText(cfg, ids, chunks, i)
  {
    Replay(RunStream(cfg, ids, chunks, false).conv.trace).blocks[i].text
  }

  /** The run's last signature for the text of block `i`. */
  ghost function SignatureOf(cfg: Config, ids: nat, chunks: seq<Chunk>, i: nat): Str
    requires RemembersText(cfg, ids, chunks, i)
  {
    Latest(RunStream(cfg, ids, chunks, false).conv.remembered)[TextKey(TextOf(cfg, ids, chunks, i))]
  }

  lemma RememberedIsSigned(cfg: Config, ids: nat, chunks: seq<Chunk>, i: nat)
    requires RemembersText(cfg, ids, chunks, i)
    ensures var memos := RunStream(cfg, ids, chunks, false).conv.remembered;
            && AllSigned(memos)
            && Memo(TextKey(TextOf(cfg, ids, chunks, i)), SignatureOf(cfg, ids, chunks, i)) in memos
            && TextOf(cfg, ids, chunks, i) != [] && SignatureOf(cfg, ids, chunks, i) != []
  {
    var c := RunStream(cfg, ids, chunks, false).conv;
    var blocks := Replay(c.trace).blocks;
    SignaturesAreKeyedByClientBlocks(cfg, ids, chunks);
    KeyedIsSigned(blocks, c.remembered);
    LatestIsRemembered(c.remembered, TextKey(blocks[i].text));
    assert Filled(blocks[i]);
  }

  /** Every text block the client holds with a signature is remembered, among others. */
  lemma SignedTextIsRemembered(cfg: Config, ids: nat, chunks: seq<Chunk>, i: nat)
    requires RunStream(cfg, ids, chunks, false).failure.None?
    requires var blocks := Replay(RunStream(cfg, ids, chunks, false).conv.trace).blocks;
             i < |blocks| && blocks[i].Text? && blocks[i].signature != []
    ensures RemembersText(cfg, ids, chunks, i)
  {
    var c := RunStream(cfg, ids, chunks, false).conv;
    var blocks := Replay(c.trace).blocks;
    SignaturesAreKeyedByClientBlocks(cfg, ids, chunks);
    assert SignedBlock(blocks[i]);
    var k :| 0 <= k < |c.remembered| && Names(c.remembered[k], blocks[i]);
    RememberedIsLatest(c.remembered, k);
  }

  lemma {:induction false} RememberedIsLatest(memos: seq<Memo>, k: nat)
    requires k < |memos|
    ensures memos[k].key in Latest(memos)
  {
    if k < |memos| - 1 {
      RememberedIsLatest(memos[..|memos| - 1], k);
    }
  }

  /**
   * After a successful stream, in any accepted conversation that anywhere echoes the text of a block the run has a
   * signature for, without a signature field and with no carrier for it, the text gets that signature back, as long as
   * the server's table still has it. The client need not ever have seen the signature.
   */
  lemma StreamedTextIsRegained(cfg: Config, ids: nat, chunks: seq<Chunk>, i: nat, table: Table,
                               messages: seq<InMessage>, m: nat, j: nat)
    requires RemembersText(cfg, ids, chunks, i)
    requires Lookup(table, TextKey(TextOf(cfg, ids, chunks, i))) == SignatureOf(cfg, ids, chunks, i)
    requires Build(messages, table).Ok? && Echoes(messages, m, j, TextOf(cfg, ids, chunks, i))
    requires LastCarried(Spots(messages), TextKey(TextOf(cfg, ids, chunks, i))) == []
    ensures SignatureOf(cfg, ids, chunks, i) != []
    ensures TextPart(TextOf(cfg, ids, chunks, i), SignatureOf(cfg, ids, chunks, i))
            in PartsOf(Build(messages, table).value, {false})
  {
    RememberedIsSigned(cfg, ids, chunks, i);
    EchoedTextIsSigned(messages, table, m, j, TextOf(cfg, ids, chunks, i));
  }

  /**
   * Such signatures include those that arrive after the block was opened, which the client is never given: here in an
   * empty text part behind the text.
   */
  lemma LateSignatureIsRemembered(cfg: Config, ids: nat, text: Str, late: Str)
    requires cfg.stops == [] && text != [] && late != []
    ensures var chunk := LateChunk(text, late);
            && RemembersText(cfg, ids, [chunk], 0) && TextOf(cfg, ids, [chunk], 0) == text
            && SignatureOf(cfg, ids, [chunk], 0) == late
            && Replay(RunStream(cfg, ids, [chunk], false).conv.trace).blocks == [Text(text, [])]
  {
    LateRun(cfg, ids, text, late);
    LatestOfOne(Memo(TextKey(text), late));
  }

  lemma LatestOfOne(m: Memo)
    ensures Latest([m]) == map[m.key := m.signature]
  {
    assert [m][..0] == [];
  }

  lemma LateRun(cfg: Config, ids: nat, text: Str, late: Str)
    requires cfg.stops == [] && text != [] && late != []
    ensures var r := RunStream(cfg, ids, [LateChunk(text, late)], false);
            && r.failure.None? && r.conv.remembered == [Memo(TextKey(text), late)]
            && Replay(r.conv.trace).blocks == [Text(text, [])]
  {
    var chunk := LateChunk(text, late);
    var c := ProcessAll(cfg, ids, [chunk]).conv;
    LateChunkProcessed(cfg, ids, text, late);
    LateTextClosed(c, cfg, text, late);
    WrappedEffect(cfg, ids, [chunk]);
    ConcludeEffect(Wrapped(cfg, ids, [chunk]));
  }

  function LateChunk(text: Str, late: Str): Chunk {
    Chunk([], [], [], None, Parts([Part(false, Some(text), None, []), Part(false, Some([]), None, late)]))
  }

  /** The state after the chunk: the text is open, its late signature noted. */
  predicate LateOpen(c: Conv, text: Str, late: Str) {
    && c.started && c.textOpen && c.remembered == [] && c.filter == FRESH && c.matchedStop == []
    && c.currentText == text && c.currentSignature == late
  }

  lemma LateTextClosed(c: Conv, cfg: Config, text: Str, late: Str)
    requires LateOpen(c, text, late) && late != []
    ensures FlushTail(c, cfg) == c && StartMessage(c, cfg) == c
    ensures CloseText(c).remembered == [Memo(TextKey(text), late)]
  {
    NothingBefore([Memo(TextKey(text), late)]);
  }

  lemma LateTextShown(ids: nat, cfg: Config, text: Str)
    requires text != []
    ensures var c := EmitText(Initial(ids), cfg, [], text, []);
            Coherent(c) && Shown(c) == [Text(text, [])] && LateOpen(c, text, [])
  {
    InitialIsCoherent(ids);
    UnfilteredFeed(FRESH, text);
    EmitTextEffect(Initial(ids), cfg, [], text, []);
    NothingBefore([Text(text, [])]);
    NothingBefore(text);
  }

  lemma TwoParts(c: Conv, cfg: Config, p: Part, q: Part)
    ensures ScanParts(c, cfg, [p, q]) == ScanPart(ScanPart(Scan(c, map[], None), cfg, p), cfg, q)
  {
    assert [p, q][..1] == [p] && [p][..0] == [];
    assert ScanParts(c, cfg, [p]) == ScanPart(Scan(c, map[], None), cfg, p);
  }

  lemma OneChunk(cfg: Config, ids: nat, chunk: Chunk)
    ensures ProcessAll(cfg, ids, [chunk]) == ProcessData(Initial(ids), cfg, chunk)
  {
    assert [chunk][..0] == [];
  }

  lemma LateChunkScanned(cfg: Config, ids: nat, text: Str, late: Str)
    ensures var p, q := Part(false, Some(text), None, []), Part(false, Some([]), None, late);
            var s := ScanParts(Initial(ids), cfg, [p, q]);
            ProcessData(Initial(ids), cfg, LateChunk(text, late)) == Step(s.conv, s.failure)
  {
    assert Identify(Initial(ids), LateChunk(text, late)).(finish := None) == Initial(ids);
  }

  lemma LatePartsScanned(c: Conv, d: Conv, cfg: Config, text: Str, late: Str)
    requires cfg.stops == [] && text != [] && late != [] && d == EmitText(c, cfg, [], text, []) && d.textOpen
    ensures ScanPart(Scan(c, map[], None), cfg, Part(false, Some(text), None, [])) == Scan(d, map[], None)
    ensures ScanPart(Scan(d, map[], None), cfg, Part(false, Some([]), None, late)) ==
            Scan(d.(currentSignature := late), map[], None)
  {
  }

  lemma LateChunkProcessed(cfg: Config, ids: nat, text: Str, late: Str)
    requires cfg.stops == [] && text != [] && late != []
    ensures var s := ProcessAll(cfg, ids, [LateChunk(text, late)]);
            s.failure.None? && LateOpen(s.conv, text, late) && Shown(s.conv) == [Text(text, [])]
  {
    var p, q := Part(false, Some(text), None, []), Part(false, Some([]), None, late);
    var c := Initial(ids);
    OneChunk(cfg, ids, LateChunk(text, late));
    LateChunkScanned(cfg, ids, text, late);
    TwoParts(c, cfg, p, q);
    LateTextShown(ids, cfg, text);
    var d := EmitText(c, cfg, [], text, []);
    LatePartsScanned(c, d, cfg, text, late);
  }

  // ----- The store -----

  predicate WritesKey(c: History.Call, session: Str, key: Str) {
    c.RememberCall? && c.id == session != [] && History.Brings(c.signatures, key)
  }

  /** The values the calls write under a key of a session, in order; other calls may stand anywhere between. */
  function Written(calls: seq<History.Call>, session: Str, key: Str): seq<Str> {
    if calls == [] then []
    else
      var c := calls[|calls| - 1];
      Written(calls[..|calls| - 1], session, key) + if WritesKey(c, session, key) then [c.signatures[key]] else []
  }

  /** The signatures a run remembers under a key, in order. */
  function RunWrites(memos: seq<Memo>, key: Str): seq<Str> {
    if memos == [] then []
    else
      var m := memos[|memos| - 1];
      RunWrites(memos[..|memos| - 1], key) + if m.key == key then [m.signature] else []
  }

  lemma {:induction false} LatestIsLastWritten(calls: seq<History.Call>, session: Str, key: Str)
    ensures var w := Written(calls, session, key);
            History.LatestValue(calls, session, key) == if w == [] then None else Some(w[|w| - 1])
  {
    if calls != [] {
      LatestIsLastWritten(calls[..|calls| - 1], session, key);
    }
  }

  lemma {:induction false} LatestIsLastOfRun(memos: seq<Memo>, key: Str)
    ensures var w := RunWrites(memos, key);
            && (key in Latest(memos) <==> w != [])
            && (w != [] ==> Latest(memos)[key] == w[|w| - 1])
  {
    if memos != [] {
      LatestIsLastOfRun(memos[..|memos| - 1], key);
    }
  }

  /** If the last writes under a key are the run's, the history has the run's latest signature for it. */
  lemma RunWritesLatest(calls: seq<History.Call>, session: Str, memos: seq<Memo>, key: Str, earlier: seq<Str>)
    requires key in Latest(memos) && Written(calls, session, key) == earlier + RunWrites(memos, key)
    ensures History.LatestValue(calls, session, key) == Some(Latest(memos)[key])
  {
    LatestIsLastWritten(calls, session, key);
    LatestIsLastOfRun(memos, key);
  }

  /**
   * The whole way round: a run streams a text that it remembers a signature for; the store is called for this and
   * other sessions in any order, the last writes under that text's key in this session being the run's; as long as the
   * bounded store retains the entry, any accepted conversation of the session that echoes the text without a signature
   * field, and carries none for it, gets the signature back.
   */
  lemma RetainedTextIsRegained(cfg: Config, ids: nat, chunks: seq<Chunk>, i: nat, session: Str, l: Limits,
                               calls: seq<History.Call>, states: seq<Sessions>, earlier: seq<Str>,
                               messages: seq<InMessage>, m: nat, j: nat)
    requires RemembersText(cfg, ids, chunks, i)
    requires Sensible(l) && History.Run(l, calls, states) && session in states[|calls|]
    requires var key, memos := TextKey(TextOf(cfg, ids, chunks, i)), RunStream(cfg, ids, chunks, false).conv.remembered;
             && Written(calls, session, key) == earlier + RunWrites(memos, key)
             && key in states[|calls|][session].entries
             && LastCarried(Spots(messages), key) == []
    requires Build(messages, Values(states[|calls|][session].entries)).Ok?
    requires Echoes(messages, m, j, TextOf(cfg, ids, chunks, i))
    ensures SignatureOf(cfg, ids, chunks, i) != []
    ensures TextPart(TextOf(cfg, ids, chunks, i), SignatureOf(cfg, ids, chunks, i))
            in PartsOf(Build(messages, Values(states[|calls|][session].entries)).value, {false})
  {
    var key := TextKey(TextOf(cfg, ids, chunks, i));
    RunWritesLatest(calls, session, RunStream(cfg, ids, chunks, false).conv.remembered, key, earlier);
    History.EveryStoreIsBoundedAndSound(l, calls, states);
    StreamedTextIsRegained(cfg, ids, chunks, i, Values(states[|calls|][session].entries), messages, m, j);
  }

  /** By the history alone, a snapshot at `now` finds the key, whatever the map order has decided. */
  ghost predicate Survives(l: Limits, calls: seq<History.Call>, session: Str, key: Str, now: int) {
    var life := Entries.Life(l, calls, session);
    Entries.Found(l, calls, session, now) && key in life && |Entries.SameOrLater(life, key)| < l.maxEntries
  }

  /** The table a snapshot at `now` gives the request. */
  ghost function TableAt(l: Limits, s: Sessions, session: Str, now: int): Table {
    match Reading(Swept(l, s, session, now), session)
    case Some(values) => values
    case None => map[]
  }

  /**
   * The same with nothing assumed about the store: the entry is there if the session has gone on since the run's last
   * write under the key and fewer than maxEntries other keys of it have been written since.
   */
  lemma SurvivingTextIsRegained(cfg: Config, ids: nat, chunks: seq<Chunk>, i: nat, session: Str, l: Limits,
                                calls: seq<History.Call>, states: seq<Sessions>, now: int, earlier: seq<Str>,
                                messages: seq<InMessage>, m: nat, j: nat)
    requires RemembersText(cfg, ids, chunks, i)
    requires Sensible(l) && History.Run(l, calls, states) && History.Ticking(calls, now)
    requires var key, memos := TextKey(TextOf(cfg, ids, chunks, i)), RunStream(cfg, ids, chunks, false).conv.remembered;
             && Written(calls, session, key) == earlier + RunWrites(memos, key)
             && Survives(l, calls, session, key, now)
             && LastCarried(Spots(messages), key) == []
    requires Build(messages, TableAt(l, states[|calls|], session, now)).Ok?
    requires Echoes(messages, m, j, TextOf(cfg, ids, chunks, i))
    ensures SignatureOf(cfg, ids, chunks, i) != []
    ensures TextPart(TextOf(cfg, ids, chunks, i), SignatureOf(cfg, ids, chunks, i))
            in PartsOf(Build(messages, TableAt(l, states[|calls|], session, now)).value, {false})
  {
    Entries.EntryRetained(l, calls, states, session, TextKey(TextOf(cfg, ids, chunks, i)), now);
    RetainedTextIsRegained(cfg, ids, chunks, i, session, l, calls, states, earlier, messages, m, j);
  }
}
