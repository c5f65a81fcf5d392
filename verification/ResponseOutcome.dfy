/** How the non-streaming conversion ends: refused, blocked, or a message with its reason. */
module ResponseOutcome {
  import opened Bytes
  import opened AnthropicEvents
  import opened GeminiModel
  import opened ResponseConversion
  import opened StopReasons
  import Blocks = ResponseBlocks
  import opened StreamOutcome

  /** The parts of a response; none if there is no candidate. */
  function PartsOf(g: GeminiResponse): seq<Part> {
    if g.candidate.Some? && g.candidate.value.content.Parts? then g.candidate.value.content.parts else []
  }

  function FinishOf(g: GeminiResponse): Option<Str> {
    if g.candidate.Some? then g.candidate.value.finish else None
  }

  /**
   * Before stop sequences are applied: a response without a candidate is refused unless the prompt was blocked, and so
   * is one whose candidate cannot be read. A blocked prompt is answered with a text that says why, and anything else
   * with the content of its parts and the reason for a message with or without calls.
   */
  lemma RespondsExactly(g: GeminiResponse, ids: nat)
    ensures var r := Respond(g, [], ids);
            && (r == Err(NoCandidates) <==> g.candidate.None? && g.blockReason == [])
            && (r == Err(InvalidCandidate) <==> g.candidate.Some? && !Readable(g.candidate.value.content))
            && (r.Ok? && g.blockReason != [] ==>
                  r.value == Response([Text(Ascii("Request blocked by Gemini safety filters: ") + g.blockReason, [])],
                                      Refusal, None))
            && (r.Ok? && g.blockReason == [] ==>
                  && r.value.content == ConvertParts(PartsOf(g), ids).content && r.value.stopSequence == None
                  && Told(r.value.stopReason, FinishOf(g),
                          exists i :: 0 <= i < |PartsOf(g)| && Blocks.Calls(PartsOf(g)[i])))
  {
    if g.candidate.Some? {
      ReadableIsValid(g.candidate.value.content);
    }
    Blocks.ContentIsOfParts(PartsOf(g), ids);
    MapIsTold(FinishOf(g), ConvertParts(PartsOf(g), ids).hasToolUse);
  }

  /** Stop sequences change what is accepted, never whether it is. */
  lemma StopsComeLast(g: GeminiResponse, stops: seq<Str>, ids: nat)
    ensures match Respond(g, [], ids)
            case Err(e) => Respond(g, stops, ids) == Err(e)
            case Ok(response) => Respond(g, stops, ids) == Ok(ApplyStops(response, stops))
  {
  }
}
