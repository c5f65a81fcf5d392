/** The non-streaming conversion of a Gemini response, and the local enforcement of stop sequences on it. */
module ResponseConversion {
  import opened Bytes
  import opened StopFilter
  import opened AnthropicEvents
  import opened GeminiModel

  /** The first candidate; an absent or empty one is None. */
  datatype Candidate = Candidate(finish: Option<Str>, content: Content)

  datatype GeminiResponse = GeminiResponse(blockReason: Str, candidate: Option<Candidate>)

  datatype Response = Response(content: seq<Block>, stopReason: StopReason, stopSequence: Option<Str>)

  datatype ResponseError = NoCandidates | InvalidCandidate

  /** Progress of the parts loop: the content, the signatures to remember and the synthesized-id counter. */
  datatype Converted = Converted(content: seq<Block>, signatures: map<Str, Str>, hasToolUse: bool, ids: nat)

  function ConvertText(c: Converted, text: Str, signature: Str): Converted {
    var n := |c.content| - 1;
    if text != [] then
      c.(content := c.content + [Text(text, signature)],
         signatures := if signature == [] then c.signatures else c.signatures[TextKey(text) := signature])
    else if signature != [] && c.content != [] && c.content[n].Text? then
      c.(content := c.content[n := Text(c.content[n].text, signature)],
         signatures := c.signatures[TextKey(c.content[n].text) := signature])
    else c
  }

  function ConvertCall(c: Converted, call: Call, signature: Str): Converted {
    var id := if call.id == [] then SynthesizedToolId(c.ids) else call.id;
    c.(content := c.content + CallBlocks(id, call, signature),
       signatures := if signature == [] then c.signatures else c.signatures[ToolKey(id) := signature],
       hasToolUse := true,
       ids := if call.id == [] then c.ids + 1 else c.ids)
  }

  function ConvertPart(c: Converted, p: Part): Converted {
    if p.Malformed? || p.thought then c
    else
      var t := if p.text.Some? then ConvertText(c, p.text.value, p.signature) else c;
      if p.call.Some? then ConvertCall(t, p.call.value, p.signature) else t
  }

  function ConvertParts(parts: seq<Part>, ids: nat): Converted {
    if parts == [] then Converted([], map[], false, ids)
    else ConvertPart(ConvertParts(parts[..|parts| - 1], ids), parts[|parts| - 1])
  }

  /** Progress of the stop-sequence loop over content blocks. */
  datatype Applied = Applied(result: seq<Block>, filter: FilterState, matched: Str)

  /** A tail goes to the end of the last block, if that is a text block. */
  function AppendTail(result: seq<Block>, tail: Str): seq<Block> {
    var n := |result| - 1;
    if tail != [] && result != [] && result[n].Text? then
      result[n := result[n].(text := result[n].text + tail)]
    else result
  }

  function Tail(f: FilterState): Str {
    if f.stopped then [] else f.pending
  }

  function Flushed(f: FilterState): FilterState {
    if f.stopped then f else f.(pending := [])
  }

  ghost function ApplyBlock(stops: seq<Str>, a: Applied, b: Block): Applied {
    if a.matched != [] then a
    else if b.Text? then
      var r := FeedText(stops, a.filter, b.text);
      Applied(a.result + [b.(text := r.visible)], r.next, r.matched)
    else
      Applied(AppendTail(a.result, Tail(a.filter)) + [b], Flushed(a.filter), [])
  }

  ghost function ApplyBlocks(stops: seq<Str>, blocks: seq<Block>): Applied {
    if blocks == [] then Applied([], FRESH, [])
    else ApplyBlock(stops, ApplyBlocks(stops, blocks[..|blocks| - 1]), blocks[|blocks| - 1])
  }

  ghost function ApplyStops(r: Response, stops: seq<Str>): Response {
    if stops == [] then r
    else
      var a := ApplyBlocks(stops, r.content);
      if a.matched != [] then Response(a.result, StopSequence, Some(a.matched))
      else r.(content := AppendTail(a.result, Tail(a.filter)))
  }

  function Unstopped(g: GeminiResponse, ids: nat): Response {
    if g.blockReason != [] then Response([Text(BLOCKED + g.blockReason, [])], Refusal, None)
    else
      var candidate := if g.candidate.Some? then g.candidate.value else Candidate(None, Parts([]));
      var parts := if candidate.content.Parts? then candidate.content.parts else [];
      var c := ConvertParts(parts, ids);
      Response(c.content, MapFinishReason(candidate.finish, c.hasToolUse), None)
  }

  ghost function Respond(g: GeminiResponse, stops: seq<Str>, ids: nat): Result<Response, ResponseError> {
    if g.candidate.None? && g.blockReason == [] then Err(NoCandidates)
    else if g.candidate.Some? && !ValidContent(g.candidate.value.content) then Err(InvalidCandidate)
    else Ok(ApplyStops(Unstopped(g, ids), stops))
  }

  method Convert(parts: seq<Part>, firstId: nat)
    returns (content: seq<Block>, signatures: map<Str, Str>, hasToolUse: bool, ids: nat)
    ensures Converted(content, signatures, hasToolUse, ids) == ConvertParts(parts, firstId)
  {
    content, signatures, hasToolUse, ids := [], map[], false, firstId;
    for i := 0 to |parts|
      invariant Converted(content, signatures, hasToolUse, ids) == ConvertParts(parts[..i], firstId)
    {
      var part := parts[i];
      assert parts[..i + 1][..i] == parts[..i];
      if part.Malformed? || part.thought {
        continue;
      }
      var signature := part.signature;
      if part.text.Some? && part.text.value != [] {
        var text := part.text.value;
        if signature != [] {
          signatures := signatures[TextKey(text) := signature];
        }
        content := content + [Text(text, signature)];
      } else if part.text.Some? && signature != [] && content != [] {
        var previous := content[|content| - 1];
        if previous.Text? {
          content := content[|content| - 1 := Text(previous.text, signature)];
          signatures := signatures[TextKey(previous.text) := signature];
        }
      }
      if part.call.Some? {
        hasToolUse := true;
        var call := part.call.value;
        var id := call.id;
        if id == [] {
          id := SynthesizedToolId(ids);
          ids := ids + 1;
        }
        if signature != [] {
          signatures := signatures[ToolKey(id) := signature];
        }
        content := content + CallBlocks(id, call, signature);
      }
    }
    assert parts[..|parts|] == parts;
  }

  method ApplyStopSequences(response: Response, sequences: seq<Str>) returns (r: Response)
    ensures r == ApplyStops(response, sequences)
  {
    if sequences == [] {
      return response;
    }
    var blocks := response.content;
    var filter := new TextStopFilter(sequences);
    var result: seq<Block> := [];
    for i := 0 to |blocks|
      invariant filter.sequences == sequences
      invariant Applied(result, filter.State(), []) == ApplyBlocks(sequences, blocks[..i])
    {
      assert blocks[..i + 1][..i] == blocks[..i];
      if !blocks[i].Text? {
        var tail := filter.Flush();
        result := AppendTail(result, tail) + [blocks[i]];
        continue;
      }
      var visible, matched := filter.Feed(blocks[i].text);
      result := result + [blocks[i].(text := visible)];
      if matched != [] {
        MatchedStays(sequences, blocks, i + 1);
        return Response(result, StopSequence, Some(matched));
      }
    }
    assert blocks[..|blocks|] == blocks;
    var tail := filter.Flush();
    return response.(content := AppendTail(result, tail));
  }

  /** A match ends the loop. */
  lemma {:induction false} MatchedStays(stops: seq<Str>, blocks: seq<Block>, i: nat)
    requires i <= |blocks| && ApplyBlocks(stops, blocks[..i]).matched != []
    ensures ApplyBlocks(stops, blocks) == ApplyBlocks(stops, blocks[..i])
  {
    if i == |blocks| {
      assert blocks[..i] == blocks;
    } else {
      assert blocks[..|blocks| - 1][..i] == blocks[..i];
      MatchedStays(stops, blocks[..|blocks| - 1], i);
    }
  }
}
