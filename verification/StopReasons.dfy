/** Which stop reason a finish reason becomes. */
module StopReasons {
  import opened Bytes
  import opened AnthropicEvents
  import opened GeminiModel

  /** The upstream has refused, by one of these names. */
  predicate NamesRefusal(r: Str) {
    || r == Ascii("SAFETY") || r == Ascii("RECITATION") || r == Ascii("LANGUAGE") || r == Ascii("OTHER")
    || r == Ascii("SPII") || r == Ascii("BLOCKLIST") || r == Ascii("PROHIBITED_CONTENT") || r == Ascii("IMAGE_SAFETY")
    || r == Ascii("IMAGE_PROHIBITED_CONTENT") || r == Ascii("MODEL_ARMOR") || r == Ascii("JAILBREAK")
    || r == Ascii("MALFORMED_FUNCTION_CALL") || r == Ascii("UNEXPECTED_TOOL_CALL")
    || r == Ascii("TOO_MANY_TOOL_CALLS") || r == Ascii("NO_IMAGE") || r == Ascii("IMAGE_RECITATION")
    || r == Ascii("IMAGE_OTHER")
  }

  /** The reason told to the client, for a finish reason and whether there are calls to answer. */
  predicate Told(reason: StopReason, finish: Option<Str>, called: bool) {
    && (reason == MaxTokens <==> finish == Some(Ascii("MAX_TOKENS")))
    && (reason == Refusal <==> finish.Some? && NamesRefusal(finish.value))
    && (reason == ToolUse ==> called)
    && (reason == EndTurn ==> !called)
    && reason != StopSequence
  }

  lemma RefusalsAreNamed(r: Str)
    ensures r in REFUSALS <==> NamesRefusal(r)
  {
    var m := REFUSALS;
    assert |m| == 17;
    assert m[0] == Ascii("SAFETY") && m[1] == Ascii("RECITATION") && m[2] == Ascii("LANGUAGE");
    assert m[3] == Ascii("OTHER");
    assert m[4] == Ascii("SPII") && m[5] == Ascii("BLOCKLIST") && m[6] == Ascii("PROHIBITED_CONTENT");
    assert m[7] == Ascii("IMAGE_SAFETY") && m[8] == Ascii("IMAGE_PROHIBITED_CONTENT") && m[9] == Ascii("MODEL_ARMOR");
    assert m[10] == Ascii("JAILBREAK") && m[11] == Ascii("MALFORMED_FUNCTION_CALL");
    assert m[12] == Ascii("UNEXPECTED_TOOL_CALL") && m[13] == Ascii("TOO_MANY_TOOL_CALLS");
    assert m[14] == Ascii("NO_IMAGE");
    assert m[15] == Ascii("IMAGE_RECITATION") && m[16] == Ascii("IMAGE_OTHER");
  }

  lemma MaxTokensIsNoRefusal()
    ensures !NamesRefusal(Ascii("MAX_TOKENS"))
  {
    assert Ascii("MAX_TOKENS")[0] != Ascii("RECITATION")[0];
  }

  lemma MapIsTold(finish: Option<Str>, called: bool)
    ensures Told(MapFinishReason(finish, called), finish, called)
  {
    MaxTokensIsNoRefusal();
    if finish.Some? {
      RefusalsAreNamed(finish.value);
    }
  }
}
