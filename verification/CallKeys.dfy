/** When every call of a stream is shown: which calls the converter cannot tell apart, and what that costs. */
module CallKeys {
  import opened Bytes
  import opened AnthropicEvents
  import opened GeminiModel
  import opened StreamSpec
  import opened StreamText
  import opened StreamCalls
  import opened StopMatching
  import Merging
  import Agreement

  // ----- Which keys differ -----

  lemma Cancel<T>(p: seq<T>, x: seq<T>, q: seq<T>, y: seq<T>)
    requires p + x + q == p + y + q
    ensures x == y
  {
    assert |x| == |y|;
    assert (p + x + q)[|p|..|p| + |x|] == x && (p + y + q)[|p|..|p| + |y|] == y;
  }

  /** Calls that differ in one thing only never share a key. */
  lemma KeysDifferInOne(t: Shape, u: Shape)
    requires Key(t) == Key(u)
    requires (t.name == u.name && t.input == u.input) || (t.name == u.name && t.signature == u.signature)
             || (t.input == u.input && t.signature == u.signature)
    ensures t == u
  {
    var colon := Ascii(":");
    if t.name == u.name && t.input == u.input {
      NothingAfter(Key(t));
      NothingAfter(Key(u));
      Cancel(t.name + colon + t.input + colon, t.signature, [], u.signature);
    } else if t.name == u.name {
      PlusAssoc(t.name + colon + t.input, colon, t.signature);
      PlusAssoc(u.name + colon + u.input, colon, u.signature);
      Cancel(t.name + colon, t.input, colon + t.signature, u.input);
    } else {
      Front(t);
      Front(u);
      Cancel([], t.name, colon + t.input + colon + t.signature, u.name);
    }
  }

  lemma Front(t: Shape)
    ensures var colon := Ascii(":"); Key(t) == [] + t.name + (colon + t.input + colon + t.signature)
  {
    var colon := Ascii(":");
    NothingBefore(t.name);
    assert Key(t) == t.name + (colon + t.input + colon + t.signature);
  }

  predicate NoColon(name: Str) {
    forall i :: 0 <= i < |name| ==> name[i] != 0x3A
  }

  /** Neither text goes on where the other ends: so it is with any two JSON objects that differ. */
  predicate NoPrefix(a: Str, b: Str) {
    (a <= b || b <= a) ==> a == b
  }

  lemma ShorterName(t: Shape, u: Shape)
    requires NoColon(u.name) && Key(t) == Key(u)
    ensures |u.name| <= |t.name|
  {
    var colon := Ascii(":");
    assert colon == [0x3A];
    assert Key(t)[|t.name|] == 0x3A;
    assert forall i :: 0 <= i < |u.name| ==> Key(u)[i] == u.name[i];
  }

  lemma Heads<T>(a: seq<T>, b: seq<T>, x: seq<T>, y: seq<T>)
    requires a + x == b + y && |a| <= |b|
    ensures a <= b
  {
    assert (a + x)[..|a|] == a && (b + y)[..|a|] == b[..|a|];
  }

  /** Nor do calls of tools without a colon in their names, whose arguments are complete. */
  lemma KeysDifferWithoutColon(t: Shape, u: Shape)
    requires Key(t) == Key(u) && NoColon(t.name) && NoColon(u.name) && NoPrefix(t.input, u.input)
    ensures t == u
  {
    var colon := Ascii(":");
    ShorterName(t, u);
    ShorterName(u, t);
    Rest(t);
    Rest(u);
    Heads(t.name, u.name, colon + t.input + (colon + t.signature), colon + u.input + (colon + u.signature));
    PlusAssoc(colon, t.input, colon + t.signature);
    PlusAssoc(colon, u.input, colon + u.signature);
    AfterSame(t.name + colon, t.input + (colon + t.signature), u.input + (colon + u.signature));
    if |t.input| <= |u.input| {
      Heads(t.input, u.input, colon + t.signature, colon + u.signature);
    } else {
      Heads(u.input, t.input, colon + u.signature, colon + t.signature);
    }
    KeysDifferInOne(t, u);
  }

  lemma Rest(t: Shape)
    ensures var colon := Ascii(":");
            && Key(t) == t.name + (colon + t.input + (colon + t.signature))
            && Key(t) == t.name + colon + (t.input + (colon + t.signature))
  {
  }

  lemma AfterSame<T>(p: seq<T>, x: seq<T>, y: seq<T>)
    requires p + x == p + y
    ensures x == y
  {
    assert (p + x)[|p|..] == x && (p + y)[|p|..] == y;
  }

  /** With a colon they can: "a" with the signature "{}:s", and "a:{}" with the signature "s". */
  lemma ColonsShareKeys()
    ensures var t, u := Shape(Ascii("a"), Ascii("{}"), Ascii("{}:s")), Shape(Ascii("a:{}"), Ascii("{}"), Ascii("s"));
            t != u && Key(t) == Key(u)
  {
    var t, u := Shape(Ascii("a"), Ascii("{}"), Ascii("{}:s")), Shape(Ascii("a:{}"), Ascii("{}"), Ascii("s"));
    assert |t.name| != |u.name|;
    assert Key(t) == Ascii("a:{}:{}:s") && Key(u) == Ascii("a:{}:{}:s");
  }

  // ----- What a shared key costs -----

  /** Of every shape the client has as many tool_use blocks as the chunk that makes such calls most often. */
  ghost predicate EachShownOnce(cfg: Config, ids: nat, chunks: seq<Chunk>, all: Shapes) {
    Unstopped(cfg, ids, chunks) && MadeOf(chunks, all) ==> forall t :: t in all ==> ShownOnce(cfg, ids, chunks, iset{t})
  }

  ghost predicate AlwaysShownOnce(all: Shapes) {
    forall cfg: Config, ids: nat, chunks: seq<Chunk> :: EachShownOnce(cfg, ids, chunks, all)
  }

  function OneCall(t: Shape): Chunk {
    Chunk([], [], [], None, Parts([Part(false, None, Some(Call([], t.name, Some(t.input))), t.signature)]))
  }

  lemma OneCallCounts(t: Shape, like: Shapes)
    ensures ChunkCalls(OneCall(t), like) == if t in like then 1 else 0
    ensures t in like ==> ChunkMadeOf(OneCall(t), like)
  {
    var parts := OneCall(t).content.parts;
    assert parts[..|parts| - 1] == [] && PartCalls([], like) == 0;
    assert ShapeOf(parts[0].call.value, parts[0].signature) == t;
    assert PartCalls(parts, like) == PartCall(parts[0], like);
  }

  lemma TwoCallsCount(t: Shape, u: Shape, like: Shapes)
    ensures MostCalls([OneCall(t), OneCall(u)], like) == if t in like || u in like then 1 else 0
    ensures t in like && u in like ==> MadeOf([OneCall(t), OneCall(u)], like)
  {
    OneCallCounts(t, like);
    OneCallCounts(u, like);
    var one, two := [OneCall(t)], [OneCall(t), OneCall(u)];
    assert two[..|two| - 1] == one && one[..|one| - 1] == [] && MostCalls([], like) == 0;
    assert MostCalls(one, like) == ChunkCalls(OneCall(t), like);
  }

  const NO_STOPS := Config([], [])

  lemma TwoCallsRun(t: Shape, u: Shape)
    requires t.name != [] && u.name != []
    ensures Unstopped(NO_STOPS, 0, [OneCall(t), OneCall(u)])
  {
    var chunks := [OneCall(t), OneCall(u)];
    Agreement.StreamMessage(NO_STOPS, 0, chunks);
    TextIsConserved(NO_STOPS, 0, chunks);
  }

  lemma {:induction false} CallsAddUp(blocks: seq<Block>, t: Shape, u: Shape, like: Shapes)
    requires t != u && t in like && u in like
    ensures BlockCalls(blocks, iset{t}) + BlockCalls(blocks, iset{u}) <= BlockCalls(blocks, like)
  {
    if blocks != [] {
      CallsAddUp(blocks[..|blocks| - 1], t, u, like);
    }
  }

  /** Of two calls that share a key, in two chunks, one is never shown. */
  lemma SharedKeyLosesACall(t: Shape, u: Shape)
    requires t != u && Key(t) == Key(u) && t.name != [] && u.name != []
    ensures var chunks := [OneCall(t), OneCall(u)];
            && Unstopped(NO_STOPS, 0, chunks)
            && !(ShownOnce(NO_STOPS, 0, chunks, iset{t}) && ShownOnce(NO_STOPS, 0, chunks, iset{u}))
  {
    var chunks := [OneCall(t), OneCall(u)];
    TwoCallsRun(t, u);
    CallsAreShownOnce(NO_STOPS, 0, chunks, Key(t));
    TwoCallsCount(t, u, WithKey(Key(t)));
    TwoCallsCount(t, u, iset{t});
    TwoCallsCount(t, u, iset{u});
    CallsAddUp(Replay(RunStream(NO_STOPS, 0, chunks, false).conv.trace).blocks, t, u, WithKey(Key(t)));
  }

  /**
   * Repeats are recognised across chunks by one text of name, arguments and signature. So every successful stream
   * without a stop match, whatever calls of these shapes it makes, shows each shape as often as the chunk has it that
   * has it most often, if and only if no two of the shapes share that text.
   */
  lemma ShownOnceExactly(all: Shapes)
    requires forall t :: t in all ==> t.name != []
    ensures AlwaysShownOnce(all) <==> KeysDiffer(all)
  {
    if KeysDiffer(all) {
      forall cfg: Config, ids: nat, chunks: seq<Chunk> ensures EachShownOnce(cfg, ids, chunks, all) {
        if Unstopped(cfg, ids, chunks) && MadeOf(chunks, all) {
          forall t | t in all ensures ShownOnce(cfg, ids, chunks, iset{t}) {
            EachIsShownOnce(cfg, ids, chunks, all, t);
          }
        }
      }
    }
    if AlwaysShownOnce(all) {
      forall t, u | t in all && u in all && Key(t) == Key(u) ensures t == u {
        assert EachShownOnce(NO_STOPS, 0, [OneCall(t), OneCall(u)], all);
        TwoCallsCount(t, u, all);
        if t != u {
          SharedKeyLosesACall(t, u);
          assert false;
        }
      }
    }
  }
}
