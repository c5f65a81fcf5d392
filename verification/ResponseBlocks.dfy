/** The content a response becomes, block for block, read off its parts. */
module ResponseBlocks {
  import opened Bytes
  import opened AnthropicEvents
  import opened GeminiModel
  import opened ResponseConversion

  // ----- The reference: the parts alone -----

  predicate Says(p: Part) {
    p.Part? && !p.thought && p.text.Some? && p.text.value != []
  }

  predicate Calls(p: Part) {
    p.Part? && !p.thought && p.call.Some?
  }

  /** A signature with an empty text: it is for the text in front of it. */
  predicate SignsLate(p: Part) {
    p.Part? && !p.thought && p.text == Some([]) && p.signature != []
  }

  /** One block for a text; one for a call, and one more for its signature. */
  function BlocksOf(p: Part): nat {
    (if Says(p) then 1 else 0) + if Calls(p) then (if p.signature == [] then 1 else 2) else 0
  }

  function BlocksBefore(parts: seq<Part>, n: nat): nat
    requires n <= |parts|
  {
    if n == 0 then 0 else BlocksBefore(parts, n - 1) + BlocksOf(parts[n - 1])
  }

  /** The calls without an id in front of part `n`: each takes one number. */
  function NumbersBefore(parts: seq<Part>, n: nat): nat
    requires n <= |parts|
  {
    if n == 0 then 0
    else NumbersBefore(parts, n - 1) + if Calls(parts[n - 1]) && parts[n - 1].call.value.id == [] then 1 else 0
  }

  /** No block stands between the text of part `i` and part `j`. */
  predicate Adjoin(parts: seq<Part>, i: nat, j: nat)
    requires i < j <= |parts|
  {
    !Calls(parts[i]) && forall k :: i < k < j ==> BlocksOf(parts[k]) == 0
  }

  /** The last signature for the text of part `i` among the first `n` parts: its own, or a late one. */
  function SignatureAmong(parts: seq<Part>, i: nat, n: nat): Str
    requires i < n <= |parts| && parts[i].Part?
    decreases n
  {
    if n == i + 1 then parts[i].signature
    else if SignsLate(parts[n - 1]) && Adjoin(parts, i, n - 1) then parts[n - 1].signature
    else SignatureAmong(parts, i, n - 1)
  }

  /** The tool_use block of a call, `number` being that of the next synthesized id. */
  function ToolFor(call: Call, signature: Str, number: nat): Block {
    var id := if call.id == [] then Ascii("gemini_synth_") + Decimal(number) else call.id;
    match call.args
    case Some(json) => Tool(id, call.name, json, signature)
    case None => Tool(id, call.name, Ascii("{}"), signature)
  }

  /** The text of part `i` is the block at its place, with the last signature among the first `n` parts. */
  ghost predicate TextStands(content: seq<Block>, parts: seq<Part>, i: nat, n: nat)
    requires i < n <= |parts|
  {
    Says(parts[i]) ==>
      && BlocksBefore(parts, i) < |content|
      && content[BlocksBefore(parts, i)] == Text(parts[i].text.value, SignatureAmong(parts, i, n))
  }

  /** The call of part `i` is the last block of its part, behind the carrier for its signature. */
  ghost predicate CallStands(content: seq<Block>, parts: seq<Part>, i: nat, ids: nat)
    requires i < |parts|
  {
    Calls(parts[i]) ==>
      var at, b := BlocksBefore(parts, i + 1),
                   ToolFor(parts[i].call.value, parts[i].signature, ids + NumbersBefore(parts, i));
      && 0 < at <= |content| && content[at - 1] == b
      && (parts[i].signature != [] ==> 1 < at && content[at - 2] == Carrier(Ascii("tool:") + b.id, parts[i].signature))
  }

  /** The content is that of the first `n` parts, with the late signatures among the first `m`. */
  ghost predicate Stand(content: seq<Block>, parts: seq<Part>, n: nat, m: nat, ids: nat)
    requires n <= m <= |parts|
  {
    && (forall i :: 0 <= i < n ==> TextStands(content, parts, i, m))
    && (forall i :: 0 <= i < n ==> CallStands(content, parts, i, ids))
  }

  // ----- The loop -----

  lemma {:induction false} BlocksGrow(parts: seq<Part>, i: nat, n: nat)
    requires i <= n <= |parts|
    ensures BlocksBefore(parts, i) <= BlocksBefore(parts, n)
    ensures BlocksBefore(parts, i) == BlocksBefore(parts, n) <==> forall k :: i <= k < n ==> BlocksOf(parts[k]) == 0
  {
    if i < n {
      BlocksGrow(parts, i, n - 1);
    }
  }

  /** The last block is that of the last part that has any. */
  lemma {:induction false} LastPart(parts: seq<Part>, n: nat) returns (i: nat)
    requires n <= |parts| && BlocksBefore(parts, n) > 0
    ensures i < n && BlocksOf(parts[i]) > 0 && forall k :: i < k < n ==> BlocksOf(parts[k]) == 0
    ensures BlocksBefore(parts, i + 1) == BlocksBefore(parts, n)
  {
    if BlocksOf(parts[n - 1]) > 0 {
      i := n - 1;
    } else {
      i := LastPart(parts, n - 1);
    }
  }

  /** Blocks at the end leave the others where they are. */
  lemma StillStand(content: seq<Block>, more: seq<Block>, parts: seq<Part>, n: nat, m: nat, ids: nat)
    requires n <= m <= |parts| && Stand(content, parts, n, m, ids)
    ensures Stand(content + more, parts, n, m, ids)
  {
    forall i | 0 <= i < n ensures TextStands(content + more, parts, i, m) {
      assert TextStands(content, parts, i, m);
    }
    forall i | 0 <= i < n ensures CallStands(content + more, parts, i, ids) {
      assert CallStands(content, parts, i, ids);
    }
  }

  /** A part that signs no text leaves the signatures as they are. */
  lemma SameSignatures(content: seq<Block>, parts: seq<Part>, n: nat, ids: nat)
    requires n < |parts| && Stand(content, parts, n, n, ids)
    requires !SignsLate(parts[n]) || forall i :: 0 <= i < n && Says(parts[i]) ==> !Adjoin(parts, i, n)
    ensures Stand(content, parts, n, n + 1, ids)
  {
    var m := n + 1;
    forall i | 0 <= i < n ensures TextStands(content, parts, i, m) {
      assert TextStands(content, parts, i, n);
    }
  }

  /** Where no block stands between part `i` and part `n`, the others stand in front of that of part `i`. */
  lemma Elsewhere(parts: seq<Part>, i: nat, n: nat, k: nat)
    requires i < n <= |parts| && Adjoin(parts, i, n) && k < n && k != i
    ensures BlocksOf(parts[k]) == 0 || BlocksBefore(parts, k + 1) <= BlocksBefore(parts, i)
  {
    if k < i {
      BlocksGrow(parts, k + 1, i);
    }
  }

  lemma LastBlockOf(parts: seq<Part>, i: nat, n: nat)
    requires i < n <= |parts| && Adjoin(parts, i, n) && Says(parts[i])
    ensures BlocksBefore(parts, i) == BlocksBefore(parts, n) - 1
  {
    BlocksGrow(parts, i + 1, n);
  }

  lemma ElsewhereTextStands(content: seq<Block>, parts: seq<Part>, i: nat, n: nat, k: nat, b: Block)
    requires i < n < |parts| && Adjoin(parts, i, n) && Says(parts[i]) && k < n && k != i
    requires |content| == BlocksBefore(parts, n) > 0 && TextStands(content, parts, k, n)
    ensures TextStands(content[|content| - 1 := b], parts, k, n + 1)
  {
    LastBlockOf(parts, i, n);
    Elsewhere(parts, i, n, k);
    if Says(parts[k]) {
      assert k < i && BlocksOf(parts[i]) > 0;
      assert !Adjoin(parts, k, n);
    }
  }

  lemma ElsewhereCallStands(content: seq<Block>, parts: seq<Part>, i: nat, n: nat, ids: nat, k: nat, b: Block)
    requires i < n < |parts| && Adjoin(parts, i, n) && Says(parts[i]) && k < n
    requires |content| == BlocksBefore(parts, n) > 0 && CallStands(content, parts, k, ids)
    ensures CallStands(content[|content| - 1 := b], parts, k, ids)
  {
    LastBlockOf(parts, i, n);
    if k != i {
      Elsewhere(parts, i, n, k);
    }
  }

  lemma LateTextStands(content: seq<Block>, parts: seq<Part>, i: nat, n: nat)
    requires i < n < |parts| && Adjoin(parts, i, n) && Says(parts[i]) && SignsLate(parts[n])
    requires |content| == BlocksBefore(parts, n) > 0
    ensures TextStands(content[|content| - 1 := Text(parts[i].text.value, parts[n].signature)], parts, i, n + 1)
  {
    LastBlockOf(parts, i, n);
  }

  lemma TextsSignedLate(content: seq<Block>, parts: seq<Part>, n: nat, m: nat, i: nat, b: Block, signed: seq<Block>)
    requires m == n + 1 && content != [] && signed == content[|content| - 1 := b]
    requires i < n < |parts| && Adjoin(parts, i, n) && Says(parts[i]) && SignsLate(parts[n])
    requires |content| == BlocksBefore(parts, n) > 0 && forall k :: 0 <= k < n ==> TextStands(content, parts, k, n)
    requires b == Text(parts[i].text.value, parts[n].signature)
    ensures forall k :: 0 <= k < n ==> TextStands(signed, parts, k, m)
  {
    forall k | 0 <= k < n ensures TextStands(signed, parts, k, m) {
      if k == i {
        LateTextStands(content, parts, i, n);
      } else {
        ElsewhereTextStands(content, parts, i, n, k, b);
      }
    }
  }

  lemma CallsSignedLate(content: seq<Block>, parts: seq<Part>, n: nat, ids: nat, i: nat, b: Block, signed: seq<Block>)
    requires content != [] && signed == content[|content| - 1 := b]
    requires i < n < |parts| && Adjoin(parts, i, n) && Says(parts[i])
    requires |content| == BlocksBefore(parts, n) > 0 && forall k :: 0 <= k < n ==> CallStands(content, parts, k, ids)
    ensures forall k :: 0 <= k < n ==> CallStands(signed, parts, k, ids)
  {
    forall k | 0 <= k < n ensures CallStands(signed, parts, k, ids) {
      ElsewhereCallStands(content, parts, i, n, ids, k, b);
    }
  }

  /** A late signature for the text of part `i`, whose block is the last one. */
  lemma SignedLate(content: seq<Block>, parts: seq<Part>, n: nat, m: nat, ids: nat, i: nat, b: Block,
                   signed: seq<Block>)
    requires m == n + 1 && content != [] && signed == content[|content| - 1 := b]
    requires n < |parts| && Stand(content, parts, n, n, ids) && |content| == BlocksBefore(parts, n) > 0
    requires i < n && Says(parts[i]) && SignsLate(parts[n]) && Adjoin(parts, i, n)
    requires b == Text(parts[i].text.value, parts[n].signature)
    ensures Stand(signed, parts, n, m, ids)
  {
    TextsSignedLate(content, parts, n, m, i, b, signed);
    CallsSignedLate(content, parts, n, ids, i, b, signed);
  }

  /** A text block at the end is that of the last part with any block. */
  lemma LastText(content: seq<Block>, parts: seq<Part>, n: nat, ids: nat) returns (i: nat)
    requires n <= |parts| && Stand(content, parts, n, n, ids) && |content| == BlocksBefore(parts, n) > 0
    requires content[|content| - 1].Text?
    ensures i < n && Says(parts[i]) && Adjoin(parts, i, n)
    ensures content[|content| - 1].text == parts[i].text.value
  {
    i := LastPart(parts, n);
    assert CallStands(content, parts, i, ids);
    assert !Calls(parts[i]);
    assert TextStands(content, parts, i, n);
  }

  /** A late signature with no text right in front of it is dropped. */
  lemma NotSignedLate(content: seq<Block>, parts: seq<Part>, n: nat, ids: nat)
    requires n < |parts| && Stand(content, parts, n, n, ids) && |content| == BlocksBefore(parts, n)
    requires content == [] || !content[|content| - 1].Text?
    ensures forall i :: 0 <= i < n && Says(parts[i]) ==> !Adjoin(parts, i, n)
  {
    forall i | 0 <= i < n && Says(parts[i]) ensures !Adjoin(parts, i, n) {
      assert TextStands(content, parts, i, n);
      BlocksGrow(parts, i + 1, n);
    }
  }

  lemma NewText(c: Converted, parts: seq<Part>, n: nat, ids: nat)
    requires n < |parts| && Stand(c.content, parts, n, n, ids) && Says(parts[n])
    ensures var d := ConvertText(c, parts[n].text.value, parts[n].signature);
            && Stand(d.content, parts, n, n + 1, ids)
            && d.content == c.content + [Text(parts[n].text.value, parts[n].signature)]
  {
    SameSignatures(c.content, parts, n, ids);
    StillStand(c.content, [Text(parts[n].text.value, parts[n].signature)], parts, n, n + 1, ids);
  }

  lemma NoNewText(content: seq<Block>, parts: seq<Part>, n: nat, m: nat, ids: nat, late: seq<Block>)
    requires n < |parts| && Stand(content, parts, n, n, ids) && |content| == BlocksBefore(parts, n)
    requires SignsLate(parts[n]) && m == n + 1 && late == WithLate(content, parts[n].signature)
    ensures Stand(late, parts, n, m, ids)
  {
    if content != [] && content[|content| - 1].Text? {
      var i := LastText(content, parts, n, ids);
      SignedLate(content, parts, n, m, ids, i, Text(parts[i].text.value, parts[n].signature), late);
    } else {
      NotSignedLate(content, parts, n, ids);
      SameSignatures(content, parts, n, ids);
    }
  }

  /** The content with a late signature on a text block at its end. */
  function WithLate(content: seq<Block>, signature: Str): seq<Block> {
    var last := |content| - 1;
    if content != [] && content[last].Text? then content[last := Text(content[last].text, signature)] else content
  }

  lemma LateConverted(c: Converted, signature: Str)
    requires signature != []
    ensures ConvertText(c, [], signature).content == WithLate(c.content, signature)
    ensures |WithLate(c.content, signature)| == |c.content|
  {
  }

  /** The text of part `n`. */
  lemma TextStep(c: Converted, parts: seq<Part>, n: nat, ids: nat)
    requires n < |parts| && Stand(c.content, parts, n, n, ids) && |c.content| == BlocksBefore(parts, n)
    requires parts[n].Part? && !parts[n].thought && parts[n].text.Some?
    ensures var d := ConvertText(c, parts[n].text.value, parts[n].signature);
            && Stand(d.content, parts, n, n + 1, ids)
            && |d.content| == BlocksBefore(parts, n) + (if Says(parts[n]) then 1 else 0)
            && (Says(parts[n]) ==> d.content[|c.content|] == Text(parts[n].text.value, parts[n].signature))
  {
    if Says(parts[n]) {
      NewText(c, parts, n, ids);
    } else if SignsLate(parts[n]) {
      LateConverted(c, parts[n].signature);
      NoNewText(c.content, parts, n, n + 1, ids, WithLate(c.content, parts[n].signature));
    } else {
      SameSignatures(c.content, parts, n, ids);
    }
  }

  lemma CallPlaced(before: seq<Block>, id: Str, call: Call, signature: Str)
    ensures var after, tool := before + CallBlocks(id, call, signature),
                               Tool(id, call.name, ObjectOrEmpty(call.args), signature);
            && |after| == |before| + (if signature == [] then 1 else 2)
            && after[|after| - 1] == tool
            && (signature != [] ==> after[|after| - 2] == Carrier(ToolKey(id), signature))
  {
  }

  lemma NewCallStands(before: seq<Block>, parts: seq<Part>, n: nat, ids: nat, id: Str)
    requires n < |parts| && Calls(parts[n])
    requires |before| == BlocksBefore(parts, n) + (if Says(parts[n]) then 1 else 0)
    requires id == if parts[n].call.value.id == [] then SynthesizedToolId(ids + NumbersBefore(parts, n))
                   else parts[n].call.value.id
    ensures CallStands(before + CallBlocks(id, parts[n].call.value, parts[n].signature), parts, n, ids)
  {
    CallPlaced(before, id, parts[n].call.value, parts[n].signature);
  }

  /** The call of part `n`, whose text has been dealt with. */
  lemma CallStep(before: seq<Block>, parts: seq<Part>, n: nat, ids: nat, id: Str)
    requires n < |parts| && Calls(parts[n]) && Stand(before, parts, n, n + 1, ids)
    requires |before| == BlocksBefore(parts, n) + (if Says(parts[n]) then 1 else 0)
    requires Says(parts[n]) ==> before[BlocksBefore(parts, n)] == Text(parts[n].text.value, parts[n].signature)
    requires id == if parts[n].call.value.id == [] then SynthesizedToolId(ids + NumbersBefore(parts, n))
                   else parts[n].call.value.id
    ensures var after := before + CallBlocks(id, parts[n].call.value, parts[n].signature);
            Stand(after, parts, n + 1, n + 1, ids) && |after| == BlocksBefore(parts, n + 1)
  {
    var more := CallBlocks(id, parts[n].call.value, parts[n].signature);
    StillStand(before, more, parts, n, n + 1, ids);
    NewCallStands(before, parts, n, ids, id);
    assert TextStands(before + more, parts, n, n + 1);
  }

  ghost predicate Described(c: Converted, parts: seq<Part>, n: nat, ids: nat)
    requires n <= |parts|
  {
    && Stand(c.content, parts, n, n, ids) && |c.content| == BlocksBefore(parts, n)
    && c.ids == ids + NumbersBefore(parts, n)
    && (c.hasToolUse <==> exists i :: 0 <= i < n && Calls(parts[i]))
  }

  lemma QuietStep(c: Converted, parts: seq<Part>, n: nat, ids: nat)
    requires n < |parts| && Described(c, parts, n, ids)
    requires parts[n].Part? ==> parts[n].thought || (parts[n].text.None? && parts[n].call.None?)
    ensures Described(c, parts, n + 1, ids)
  {
    SameSignatures(c.content, parts, n, ids);
  }

  lemma PartStep(c: Converted, parts: seq<Part>, n: nat, ids: nat)
    requires n < |parts| && Described(c, parts, n, ids)
    ensures Described(ConvertPart(c, parts[n]), parts, n + 1, ids)
  {
    var p := parts[n];
    if p.Malformed? || p.thought || (p.text.None? && p.call.None?) {
      QuietStep(c, parts, n, ids);
    } else {
      var t := if p.text.Some? then ConvertText(c, p.text.value, p.signature) else c;
      if p.text.Some? {
        TextStep(c, parts, n, ids);
      } else {
        SameSignatures(c.content, parts, n, ids);
      }
      if p.call.Some? {
        CallStep(t.content, parts, n, ids,
                 if p.call.value.id == [] then SynthesizedToolId(t.ids) else p.call.value.id);
      } else {
        assert TextStands(t.content, parts, n, n + 1);
      }
    }
  }

  lemma {:induction false} PrefixDescribed(parts: seq<Part>, ids: nat, n: nat)
    requires n <= |parts|
    ensures Described(ConvertParts(parts[..n], ids), parts, n, ids)
  {
    if n > 0 {
      PrefixDescribed(parts, ids, n - 1);
      assert parts[..n][..n - 1] == parts[..n - 1];
      PartStep(ConvertParts(parts[..n - 1], ids), parts, n - 1, ids);
    }
  }

  /**
   * The content of any response, block for block: every non-empty text that is no thought is a text block of its own,
   * with the last signature among its own part and the empty texts behind it that no block stands in front of; every
   * call is a tool_use block with its id or the next synthesized one, its name, its arguments or `{}`, and its
   * signature, which its carrier has too; and there is nothing else.
   */
  lemma ContentIsOfParts(parts: seq<Part>, ids: nat)
    ensures var c, n := ConvertParts(parts, ids), |parts|;
            && |c.content| == BlocksBefore(parts, n)
            && (forall i :: 0 <= i < n ==> TextStands(c.content, parts, i, n))
            && (forall i :: 0 <= i < n ==> CallStands(c.content, parts, i, ids))
            && c.ids == ids + NumbersBefore(parts, n)
            && (c.hasToolUse <==> exists i :: 0 <= i < n && Calls(parts[i]))
  {
    PrefixDescribed(parts, ids, |parts|);
    TakeAll(parts);
  }
}
