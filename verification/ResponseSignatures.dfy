/** What the signature table of the non-streaming conversion names, before and after stop sequences are applied. */
module ResponseSignatures {
  import opened Bytes
  import opened StopMatching
  import opened StopFilter
  import opened AnthropicEvents
  import opened GeminiModel
  import opened ResponseConversion
  import opened StopLoop

  lemma TextTable(c: Converted, text: Str, signature: Str)
    requires c.signatures == LastSignatures(map[], c.content, true)
    ensures var d := ConvertText(c, text, signature); d.signatures == LastSignatures(map[], d.content, true)
  {
    var n := |c.content| - 1;
    if text != [] {
      LastSignaturesSnoc(map[], c.content, Text(text, signature), true);
    } else if signature != [] && c.content != [] && c.content[n].Text? {
      LateTable(c.content, signature);
    }
  }

  lemma LateTable(blocks: seq<Block>, signature: Str)
    requires blocks != [] && blocks[|blocks| - 1].Text? && signature != []
    ensures var b := Text(blocks[|blocks| - 1].text, signature);
            LastSignatures(map[], blocks[|blocks| - 1 := b], true) ==
            LastSignatures(map[], blocks, true)[TextKey(b.text) := signature]
  {
    var n := |blocks| - 1;
    var b := Text(blocks[n].text, signature);
    InitLast(blocks);
    UpdateLast(blocks[..n], blocks[n], b);
    LastSignaturesSnoc(map[], blocks[..n], blocks[n], true);
    LastSignaturesSnoc(map[], blocks[..n], b, true);
  }

  lemma CallTable(c: Converted, call: Call, signature: Str)
    requires c.signatures == LastSignatures(map[], c.content, true)
    ensures var d := ConvertCall(c, call, signature); d.signatures == LastSignatures(map[], d.content, true)
  {
    var id := if call.id == [] then SynthesizedToolId(c.ids) else call.id;
    var carrier, tool := Carrier(ToolKey(id), signature), Tool(id, call.name, ObjectOrEmpty(call.args), signature);
    if signature == [] {
      NothingBefore([tool]);
      LastSignaturesSnoc(map[], c.content, tool, true);
    } else {
      PlusAssoc(c.content, [carrier], [tool]);
      LastSignaturesSnoc(map[], c.content, carrier, true);
      LastSignaturesSnoc(map[], c.content + [carrier], tool, true);
    }
  }

  /** Before stop sequences are applied the table is read off the content. */
  lemma {:induction false} TableIsOfContent(parts: seq<Part>, ids: nat)
    ensures ConvertParts(parts, ids).signatures == LastSignatures(map[], ConvertParts(parts, ids).content, true)
  {
    if parts != [] {
      var init, p := parts[..|parts| - 1], parts[|parts| - 1];
      TableIsOfContent(init, ids);
      if p.Part? && !p.thought {
        var c := ConvertParts(init, ids);
        if p.text.Some? {
          TextTable(c, p.text.value, p.signature);
        }
        if p.call.Some? {
          CallTable(if p.text.Some? then ConvertText(c, p.text.value, p.signature) else c, p.call.value, p.signature);
        }
      }
    }
  }

  // ----- Which entries name a block of the response -----

  /** Some text or tool_use block of the response is the one the key stands for. */
  ghost predicate Named(key: Str, blocks: seq<Block>) {
    exists i :: 0 <= i < |blocks| && NamesIt(blocks[i], key)
  }

  predicate NamesIt(b: Block, key: Str) {
    !b.Carrier? && BlockKey(b) == key
  }

  lemma {:induction false} TableKeys(blocks: seq<Block>, key: Str)
    ensures key in LastSignatures(map[], blocks, true) <==> SignedFor(key, blocks)
  {
    if blocks != [] {
      var n := |blocks| - 1;
      TableKeys(blocks[..n], key);
      assert NamesIt(blocks[n], key) || !NamesIt(blocks[n], key);
      if SignedFor(key, blocks) {
        var i :| 0 <= i < |blocks| && SignedBlock(blocks[i]) && NamesIt(blocks[i], key);
        if i < n {
          assert SignedBlock(blocks[..n][i]) && NamesIt(blocks[..n][i], key);
        }
      }
    }
  }

  ghost predicate SignedFor(key: Str, blocks: seq<Block>) {
    exists i :: 0 <= i < |blocks| && SignedBlock(blocks[i]) && NamesIt(blocks[i], key)
  }

  ghost predicate EntriesNamed(table: map<Str, Str>, blocks: seq<Block>) {
    forall key :: key in table ==> Named(key, blocks)
  }

  lemma EntriesAreSigned(content: seq<Block>, result: seq<Block>)
    ensures EntriesNamed(LastSignatures(map[], content, true), result) <==>
            forall i :: 0 <= i < |content| && SignedBlock(content[i]) ==> Named(BlockKey(content[i]), result)
  {
    if EntriesNamed(LastSignatures(map[], content, true), result) {
      forall i | 0 <= i < |content| && SignedBlock(content[i]) ensures Named(BlockKey(content[i]), result) {
        assert NamesIt(content[i], BlockKey(content[i]));
        TableKeys(content, BlockKey(content[i]));
      }
    }
    if forall i :: 0 <= i < |content| && SignedBlock(content[i]) ==> Named(BlockKey(content[i]), result) {
      forall key | key in LastSignatures(map[], content, true) ensures Named(key, result) {
        TableKeys(content, key);
        var i :| 0 <= i < |content| && SignedBlock(content[i]) && NamesIt(content[i], key);
        assert Named(BlockKey(content[i]), result);
      }
    }
  }

  // ----- The condition, on the converted content and the stop list -----

  /**
   * Block `k` is reached by the stop loop and comes back with the key of the signed block `b`: a call with its id, or a
   * text whose own bytes and the ones held back before it are those of `b` and the ones held back after it, or, where
   * the stop is, a text that is cut to the one of `b`.
   */
  ghost predicate KeepsKey(content: seq<Block>, stops: seq<Str>, k: nat, b: Block) {
    && Reached(content, stops, k)
    && match b
       case Text(text, _) => content[k].Text? && ComesBackAs(content, stops, k, text)
       case Tool(id, _, _, _) => content[k].Tool? && content[k].id == id
       case Carrier(_, _) => false
  }

  ghost predicate KeyIsKept(content: seq<Block>, stops: seq<Str>, b: Block) {
    exists k :: KeepsKey(content, stops, k, b)
  }

  lemma ReturnedKey(r: Response, stops: seq<Str>, k: nat, b: Block)
    requires SignedBlock(b) && Reached(r.content, stops, k) && k < |ApplyStops(r, stops).content|
    requires ReturnsAs(r.content, stops, k, ApplyStops(r, stops).content[k])
    ensures NamesIt(ApplyStops(r, stops).content[k], BlockKey(b)) <==> KeepsKey(r.content, stops, k, b)
  {
    var back := ApplyStops(r, stops).content[k];
    var x, y := if back.Text? then back.text else if back.Tool? then back.id else [],
                if b.Text? then b.text else b.id;
    KeysAreDistinct(x, y);
    KeysAreDistinct(y, x);
    if r.content[k].Text? && b.Text? && ComesBackAs(r.content, stops, k, b.text) {
      OneWayBack(r.content, stops, k, b.text, back.text);
    }
  }

  lemma NamedExactly(r: Response, stops: seq<Str>, b: Block)
    requires SignedBlock(b)
    ensures Named(BlockKey(b), ApplyStops(r, stops).content) <==> KeyIsKept(r.content, stops, b)
  {
    var result := ApplyStops(r, stops).content;
    LoopReturns(r, stops);
    if Named(BlockKey(b), result) {
      var k :| 0 <= k < |result| && NamesIt(result[k], BlockKey(b));
      ReturnedKey(r, stops, k, b);
    }
    if KeyIsKept(r.content, stops, b) {
      var k :| KeepsKey(r.content, stops, k, b);
      ReturnedKey(r, stops, k, b);
    }
  }

  /**
   * Every entry of the signature table names a block of the response if and only if, by the texts of the converted
   * content and the stop list, every signed block of it has a reached block that comes back with its key.
   */
  lemma EntriesNameBlocksExactly(parts: seq<Part>, ids: nat, reason: StopReason, stops: seq<Str>)
    ensures var c := ConvertParts(parts, ids);
            EntriesNamed(c.signatures, ApplyStops(Response(c.content, reason, None), stops).content) <==>
            forall i :: 0 <= i < |c.content| && SignedBlock(c.content[i]) ==> KeyIsKept(c.content, stops, c.content[i])
  {
    var content := ConvertParts(parts, ids).content;
    var r := Response(content, reason, None);
    TableIsOfContent(parts, ids);
    EntriesAreSigned(content, ApplyStops(r, stops).content);
    forall i | 0 <= i < |content| && SignedBlock(content[i])
      ensures Named(BlockKey(content[i]), ApplyStops(r, stops).content) <==> KeyIsKept(content, stops, content[i])
    {
      NamedExactly(r, stops, content[i]);
    }
  }

  /** In particular if every signed block comes back unchanged, and always without a stop list. */
  lemma UnchangedBlocksAreNamed(parts: seq<Part>, ids: nat, reason: StopReason, stops: seq<Str>)
    ensures var c := ConvertParts(parts, ids);
            (forall i :: 0 <= i < |c.content| && SignedBlock(c.content[i]) ==> Unchanged(c.content, stops, i)) ==>
              EntriesNamed(c.signatures, ApplyStops(Response(c.content, reason, None), stops).content)
    ensures stops == [] ==> forall i :: 0 <= i < |ConvertParts(parts, ids).content| ==>
              Unchanged(ConvertParts(parts, ids).content, stops, i)
  {
    var content := ConvertParts(parts, ids).content;
    EntriesNameBlocksExactly(parts, ids, reason, stops);
    forall i | 0 <= i < |content| && SignedBlock(content[i]) && Unchanged(content, stops, i)
      ensures KeyIsKept(content, stops, content[i])
    {
      assert KeepsKey(content, stops, i, content[i]);
    }
    if stops == [] {
      NoStopList(content);
      forall i | 0 <= i < |content| ensures Unchanged(content, stops, i) {
        assert ReturnsAs(content, [], i, content[i]);
      }
    }
  }

  /** A stop sequence can orphan an entry: "ab" signed and cut to "a" by the stop "b" is remembered as "ab". */
  lemma StopOrphansEntry(ids: nat, signature: Str)
    requires signature != []
    ensures var parts, stops: seq<Str> := [Part(false, Some([97, 98]), None, signature)], [[98]];
            var c := ConvertParts(parts, ids);
            var result := ApplyStops(Response(c.content, EndTurn, None), stops).content;
            && result == [Text([97], signature)] && c.signatures == map[TextKey([97, 98]) := signature]
            && !EntriesNamed(c.signatures, result)
  {
    var ab: Str, stops: seq<Str> := [97, 98], [[98]];
    OneTextConverted(ids, ab, signature);
    CutAtB(ab, stops, signature);
    OtherTextIsNoName(signature);
  }

  lemma OneTextConverted(ids: nat, text: Str, signature: Str)
    requires text != [] && signature != []
    ensures var c := ConvertParts([Part(false, Some(text), None, signature)], ids);
            c.content == [Text(text, signature)] && c.signatures == map[TextKey(text) := signature]
  {
    var p := Part(false, Some(text), None, signature);
    assert [p][..0] == [];
    NothingBefore([Text(text, signature)]);
    assert ConvertParts([p], ids) == ConvertPart(Converted([], map[], false, ids), p);
  }

  lemma OtherTextIsNoName(signature: Str)
    ensures !Named(TextKey([97, 98]), [Text([97], signature)])
  {
    assert |TextKey([97, 98])| != |TextKey([97])|;
  }

  lemma OneApplied(stops: seq<Str>, b: Block)
    ensures ApplyBlocks(stops, [b]) == ApplyBlock(stops, Applied([], FRESH, []), b)
  {
    var none: seq<Block> := [];
    SnocInit(none, b);
    NothingBefore([b]);
    assert ApplyBlocks(stops, none) == Applied([], FRESH, []);
  }

  lemma CutAtB(ab: Str, stops: seq<Str>, signature: Str)
    requires ab == [97, 98] && stops == [[98]]
    ensures ApplyStops(Response([Text(ab, signature)], EndTurn, None), stops).content == [Text([97], signature)]
  {
    assert Hit(ab, 1, stops[0]) by {
      assert ab[1..2] == [98];
    }
    assert StopAt(ab, stops, 1);
    assert !StopAt(ab, stops, 0) by {
      assert ab[0..1] == [97];
    }
    assert StopPos(ab, stops) == 1;
    NothingBefore(ab);
    assert ab[..1] == [97];
    OneApplied(stops, Text(ab, signature));
    NothingBefore([Text([97], signature)]);
  }
}
