/** Decoded Gemini responses, and the small functions both converters share. */
module GeminiModel {
  import opened Bytes
  import opened AnthropicEvents

  /** A function call; `args` is the canonical JSON text of the argument object, absent or null being None. */
  datatype Call = Call(id: Str, name: Str, args: Option<Str>)

  /** A response part. `Malformed` stands for a part, text, functionCall or args value of the wrong JSON type. */
  datatype Part =
    | Part(thought: bool, text: Option<Str>, call: Option<Call>, signature: Str)
    | Malformed

  /** The content of the first candidate: its parts, possibly none, or a content or parts value of the wrong type. */
  datatype Content = Parts(parts: seq<Part>) | BadContent

  predicate ValidPart(p: Part) {
    p.Part? && (p.call.Some? ==> p.call.value.name != [])
  }

  predicate ValidContent(c: Content) {
    c.Parts? && forall i :: 0 <= i < |c.parts| ==> ValidPart(c.parts[i])
  }

  const SYNTHESIZED_TOOL: Str := Ascii("gemini_synth_")
  const SYNTHESIZED_MESSAGE: Str := Ascii("msg_gemini_")
  const TOOL_KEY: Str := Ascii("tool:")
  const TEXT_KEY: Str := Ascii("text:")
  const COLON: Str := Ascii(":")
  const EMPTY_OBJECT: Str := Ascii("{}")
  const BLOCKED: Str := Ascii("Request blocked by Gemini safety filters: ")
  const SAFETY: Str := Ascii("SAFETY")
  const MAX_TOKENS: Str := Ascii("MAX_TOKENS")
  const REFUSALS: seq<Str> := [
    Ascii("SAFETY"), Ascii("RECITATION"), Ascii("LANGUAGE"), Ascii("OTHER"), Ascii("SPII"), Ascii("BLOCKLIST"),
    Ascii("PROHIBITED_CONTENT"), Ascii("IMAGE_SAFETY"), Ascii("IMAGE_PROHIBITED_CONTENT"), Ascii("MODEL_ARMOR"),
    Ascii("JAILBREAK"), Ascii("MALFORMED_FUNCTION_CALL"), Ascii("UNEXPECTED_TOOL_CALL"),
    Ascii("TOO_MANY_TOOL_CALLS"), Ascii("NO_IMAGE"), Ascii("IMAGE_RECITATION"), Ascii("IMAGE_OTHER")]

  function ToolKey(id: Str): Str {
    TOOL_KEY + id
  }

  /** The source hashes the text; the text itself stands in for its hash here. */
  function TextKey(text: Str): Str {
    TEXT_KEY + text
  }

  lemma KeysAreDistinct(a: Str, b: Str)
    ensures ToolKey(a) == ToolKey(b) ==> a == b
    ensures TextKey(a) == TextKey(b) ==> a == b
    ensures ToolKey(a) != TextKey(b)
  {
    assert ToolKey(a)[1] == 0x6F && TextKey(b)[1] == 0x65;
    assert ToolKey(a)[5..] == a && ToolKey(b)[5..] == b;
    assert TextKey(a)[5..] == a && TextKey(b)[5..] == b;
  }

  function Decimal(n: nat): Str {
    if n < 10 then [0x30 + n] else Decimal(n / 10) + [0x30 + n % 10]
  }

  lemma {:induction false} DecimalIsInjective(m: nat, n: nat)
    requires Decimal(m) == Decimal(n)
    ensures m == n
  {
    assert Decimal(m)[|Decimal(m)| - 1] == Decimal(n)[|Decimal(n)| - 1];
    if m >= 10 && n >= 10 {
      assert Decimal(m)[..|Decimal(m)| - 1] == Decimal(m / 10);
      assert Decimal(n)[..|Decimal(n)| - 1] == Decimal(n / 10);
      DecimalIsInjective(m / 10, n / 10);
    } else {
      DecimalIsNotEmpty(m / 10);
      DecimalIsNotEmpty(n / 10);
    }
  }

  lemma DecimalIsNotEmpty(n: nat)
    ensures Decimal(n) != []
  {
  }

  function SynthesizedToolId(counter: nat): Str {
    SYNTHESIZED_TOOL + Decimal(counter)
  }

  function SynthesizedMessageId(counter: nat): Str {
    SYNTHESIZED_MESSAGE + Decimal(counter)
  }

  function ObjectOrEmpty(args: Option<Str>): Str {
    if args.Some? then args.value else EMPTY_OBJECT
  }

  /** What the streaming converter recognises a repeated call by. */
  function Fingerprint(name: Str, input: Str, signature: Str): Str {
    name + COLON + input + COLON + signature
  }

  function CallFingerprint(call: Call, signature: Str): Str {
    Fingerprint(call.name, ObjectOrEmpty(call.args), signature)
  }

  function MapFinishReason(finish: Option<Str>, hasToolUse: bool): StopReason {
    if finish == Some(MAX_TOKENS) then MaxTokens
    else if finish.Some? && finish.value in REFUSALS then Refusal
    else if hasToolUse then ToolUse
    else EndTurn
  }

  /** The blocks a call becomes: a carrier for its signature, when it has one, and the tool_use block. */
  function CallBlocks(id: Str, call: Call, signature: Str): seq<Block> {
    (if signature == [] then [] else [Carrier(ToolKey(id), signature)])
    + [Tool(id, call.name, ObjectOrEmpty(call.args), signature)]
  }

  // ----- Signatures of blocks -----

  /** A text or tool_use block with a signature; a carrier only stands in for one. */
  predicate SignedBlock(b: Block) {
    !b.Carrier? && b.signature != []
  }

  /** The key the signature of a block is remembered under. */
  function BlockKey(b: Block): Str {
    match b
    case Text(text, _) => TextKey(text)
    case Carrier(key, _) => key
    case Tool(id, _, _, _) => ToolKey(id)
  }

  /** `start` with each key's last signature among the blocks over it; `texts` says whether those of texts count. */
  function LastSignatures(start: map<Str, Str>, blocks: seq<Block>, texts: bool): map<Str, Str> {
    if blocks == [] then start
    else
      var b, before := blocks[|blocks| - 1], LastSignatures(start, blocks[..|blocks| - 1], texts);
      if SignedBlock(b) && (texts || b.Tool?) then before[BlockKey(b) := b.signature] else before
  }

  lemma LastSignaturesSnoc(start: map<Str, Str>, blocks: seq<Block>, b: Block, texts: bool)
    ensures LastSignatures(start, blocks + [b], texts) ==
            var before := LastSignatures(start, blocks, texts);
            if SignedBlock(b) && (texts || b.Tool?) then before[BlockKey(b) := b.signature] else before
  {
    SnocInit(blocks, b);
  }

  function CountOf(m: map<Str, nat>, key: Str): nat {
    if key in m then m[key] else 0
  }
}
