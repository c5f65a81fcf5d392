/** The Anthropic message stream: its events, which event sequences are legal, and what a client makes of one. */
module AnthropicEvents {
  import opened Bytes

  datatype StopReason = EndTurn | ToolUse | MaxTokens | Refusal | StopSequence

  /** A content block of an assistant message. A carrier is a redacted_thinking block holding a signature. */
  datatype Block =
    | Text(text: Str, signature: Str)
    | Carrier(key: Str, signature: Str)
    | Tool(id: Str, name: Str, input: Str, signature: Str)

  datatype Delta = TextDelta(text: Str) | JsonDelta(json: Str)

  datatype Failure =
    | Undecodable
    | Upstream(message: Str)
    | BadCandidate
    | MissingName
    | ReadFailed

  datatype Event =
    | MessageStart(id: Str, model: Str)
    | BlockStart(index: nat, block: Block)
    | BlockDelta(index: nat, delta: Delta)
    | BlockStop(index: nat)
    | MessageDelta(stopReason: StopReason, stopSequence: Option<Str>)
    | MessageStop
    | Error(failure: Failure)

  /**
   * The position inside a legal stream. Blocks are numbered 0, 1, 2, ... and do not interleave; a text block has one or
   * more non-empty deltas, a carrier none and a tool_use block exactly one.
   */
  datatype Phase =
    | Fresh
    | Between(next: nat)
    | InText(index: nat, some: bool)
    | InCarrier(index: nat)
    | InTool(index: nat, sent: bool)
    | Closing
    | Done
    | Illegal

  function Advance(p: Phase, e: Event): Phase {
    match p
    case Fresh => if e.MessageStart? then Between(0) else Illegal
    case Between(n) =>
      if e.MessageDelta? then Closing
      else if !e.BlockStart? || e.index != n then Illegal
      else (match e.block
            case Text(text, _) => if text == [] then InText(n, false) else Illegal
            case Carrier(_, _) => InCarrier(n)
            case Tool(_, _, input, _) => if input == [] then InTool(n, false) else Illegal)
    case InText(n, some) =>
      if e.BlockDelta? && e.index == n && e.delta.TextDelta? && e.delta.text != [] then InText(n, true)
      else if e.BlockStop? && e.index == n && some then Between(n + 1)
      else Illegal
    case InCarrier(n) => if e == BlockStop(n) then Between(n + 1) else Illegal
    case InTool(n, sent) =>
      if e.BlockDelta? && e.index == n && e.delta.JsonDelta? && !sent then InTool(n, true)
      else if e == BlockStop(n) && sent then Between(n + 1)
      else Illegal
    case Closing => if e.MessageStop? then Done else Illegal
    case Done => Illegal
    case Illegal => Illegal
  }

  function PhaseAfter(trace: seq<Event>): Phase {
    if trace == [] then Fresh else Advance(PhaseAfter(trace[..|trace| - 1]), trace[|trace| - 1])
  }

  predicate LegalStream(trace: seq<Event>) {
    PhaseAfter(trace) == Done
  }

  lemma PhaseSnoc(trace: seq<Event>, e: Event)
    ensures PhaseAfter(trace + [e]) == Advance(PhaseAfter(trace), e)
  {
    SnocInit(trace, e);
  }

  /** How many more events the shortest completion needs. */
  function Missing(p: Phase): nat {
    match p
    case Fresh => 3
    case Between(_) => 2
    case InText(_, some) => if some then 3 else 4
    case InCarrier(_) => 3
    case InTool(_, sent) => if sent then 3 else 4
    case Closing => 1
    case Done => 0
    case Illegal => 0
  }

  /** The next event of a shortest completion. */
  function NextEvent(p: Phase): Event
    requires p != Done && p != Illegal
  {
    match p
    case Fresh => MessageStart([], [])
    case Between(n) => MessageDelta(EndTurn, None)
    case InText(n, some) => if some then BlockStop(n) else BlockDelta(n, TextDelta([0x61]))
    case InCarrier(n) => BlockStop(n)
    case InTool(n, sent) => if sent then BlockStop(n) else BlockDelta(n, JsonDelta([]))
    case Closing => MessageStop
  }

  function Completion(p: Phase): seq<Event>
    decreases Missing(p)
  {
    if p == Done || p == Illegal then [] else [NextEvent(p)] + Completion(Advance(p, NextEvent(p)))
  }

  /** Whatever has not gone wrong can still be completed to a legal stream. */
  lemma {:induction false} Completable(trace: seq<Event>)
    requires PhaseAfter(trace) != Illegal
    ensures LegalStream(trace + Completion(PhaseAfter(trace)))
    decreases Missing(PhaseAfter(trace))
  {
    var p := PhaseAfter(trace);
    if p == Done {
      NothingAfter(trace);
    } else {
      var e := NextEvent(p);
      PhaseSnoc(trace, e);
      Completable(trace + [e]);
      PlusAssoc(trace, [e], Completion(Advance(p, e)));
    }
  }

  /** What the client has assembled so far. */
  datatype Message = Message(blocks: seq<Block>, stopReason: Option<StopReason>, stopSequence: Option<Str>)

  const EMPTY := Message([], None, None)

  function AppendDelta(b: Block, d: Delta): Block {
    match (b, d)
    case (Text(text, _), TextDelta(t)) => b.(text := text + t)
    case (Tool(_, _, input, _), JsonDelta(j)) => b.(input := input + j)
    case _ => b
  }

  function Apply(m: Message, e: Event): Message {
    match e
    case BlockStart(i, b) => if i == |m.blocks| then m.(blocks := m.blocks + [b]) else m
    case BlockDelta(i, d) => if i < |m.blocks| then m.(blocks := m.blocks[i := AppendDelta(m.blocks[i], d)]) else m
    case MessageDelta(reason, sequence) => m.(stopReason := Some(reason), stopSequence := sequence)
    case _ => m
  }

  /** The message a client reassembles from a stream. */
  function Replay(trace: seq<Event>): Message {
    if trace == [] then EMPTY else Apply(Replay(trace[..|trace| - 1]), trace[|trace| - 1])
  }

  lemma ReplaySnoc(trace: seq<Event>, e: Event)
    ensures Replay(trace + [e]) == Apply(Replay(trace), e)
  {
    SnocInit(trace, e);
  }

  /** All text a client displays, in the order of the deltas. */
  function DeltaText(trace: seq<Event>): Str {
    if trace == [] then []
    else
      var e := trace[|trace| - 1];
      DeltaText(trace[..|trace| - 1]) + (if e.BlockDelta? && e.delta.TextDelta? then e.delta.text else [])
  }

  lemma DeltaTextSnoc(trace: seq<Event>, e: Event)
    ensures DeltaText(trace + [e]) ==
            DeltaText(trace) + if e.BlockDelta? && e.delta.TextDelta? then e.delta.text else []
  {
    SnocInit(trace, e);
  }
}
