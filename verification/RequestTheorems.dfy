/** What holds of every accepted request: well-formed turns, and the same turns however user content is split up. */
module RequestTheorems {
  import opened Bytes
  import opened RequestModel
  import opened FoldSupplements
  import opened FoldAlgebra
  import opened RequestContents

  /** A user turn is all function responses or has none; no turn is empty. */
  ghost predicate GoodTurn(t: Turn) {
    t.parts != [] && (t.user ==> Uniform(t.parts))
  }

  /** Good turns with alternating roles. */
  ghost predicate WellFormed(contents: seq<Turn>) {
    && (forall i :: 0 <= i < |contents| ==> GoodTurn(contents[i]))
    && (forall i :: 0 < i < |contents| ==> contents[i - 1].user != contents[i].user)
  }

  lemma AddTurnWellFormed(contents: seq<Turn>, user: bool, parts: seq<OutPart>)
    requires WellFormed(contents) && (user ==> Uniform(parts))
    ensures AddTurn(contents, user, parts).Ok? ==> WellFormed(AddTurn(contents, user, parts).value)
  {
    var last := |contents| - 1;
    if parts != [] {
      if contents == [] || contents[last].user != user {
        AppendWellFormed(contents, Turn(user, parts));
      } else {
        var merged := contents[last].parts + parts;
        InitWellFormed(contents);
        if !user {
          AppendWellFormed(contents[..last], Turn(user, merged));
        } else if Fold(merged).Ok? {
          FoldIsIdempotent(merged);
          AppendWellFormed(contents[..last], Turn(user, Fold(merged).value));
        }
      }
    }
  }

  lemma AppendWellFormed(contents: seq<Turn>, t: Turn)
    requires WellFormed(contents) && GoodTurn(t)
    requires contents == [] || contents[|contents| - 1].user != t.user
    ensures WellFormed(contents + [t])
  {
  }

  lemma InitWellFormed(contents: seq<Turn>)
    requires WellFormed(contents) && contents != []
    ensures var init := contents[..|contents| - 1];
            WellFormed(init) && (init != [] ==> init[|init| - 1].user != contents[|contents| - 1].user)
  {
  }

  lemma SettleUniform(c: Conversion, assistant: bool)
    ensures Settle(c, assistant).error.None? && !assistant ==> Uniform(Settle(c, assistant).parts)
  {
    if Fold(c.parts).Ok? {
      FoldIsIdempotent(c.parts);
    }
  }

  lemma BuildMessageWellFormed(b: Building, signatures: Table, m: InMessage)
    requires WellFormed(b.contents)
    ensures WellFormed(BuildMessage(b, signatures, m).contents)
  {
    if b.error.None? && m.InMessage? && (m.role == User || m.role == Assistant) {
      var c := ConvertContent(b.names, m.role == Assistant, signatures, m.content);
      if m.content.BlockContent? {
        SettleUniform(ConvertBlocks(b.names, m.role == Assistant, signatures, m.content.blocks), m.role == Assistant);
      }
      if c.error.None? {
        AddTurnWellFormed(b.contents, m.role == User, c.parts);
      }
    }
  }

  lemma {:induction false} BuildMessagesWellFormed(start: Building, signatures: Table, messages: seq<InMessage>)
    requires WellFormed(start.contents)
    ensures WellFormed(BuildMessages(start, signatures, messages).contents)
  {
    if messages != [] {
      BuildMessagesWellFormed(start, signatures, messages[..|messages| - 1]);
      BuildMessageWellFormed(BuildMessages(start, signatures, messages[..|messages| - 1]), signatures,
                             messages[|messages| - 1]);
    }
  }

  /** Contents well-formedness, for every accepted message list. */
  lemma AcceptedContentsAreWellFormed(messages: seq<InMessage>, signatures: Table)
    requires Build(messages, signatures).Ok?
    ensures WellFormed(Build(messages, signatures).value)
  {
    var known := Learn(Known(map[], signatures), messages);
    BuildMessagesWellFormed(Building([], known.names, None), known.signatures, messages);
  }

  // ----- Splitting a user message -----

  lemma {:induction false} LearnAppend(k: Known, a: seq<InMessage>, b: seq<InMessage>)
    ensures Learn(k, a + b) == Learn(Learn(k, a), b)
  {
    if b == [] {
      assert a + b == a;
    } else {
      var init, m := b[..|b| - 1], b[|b| - 1];
      InitLast(b);
      PlusAssoc(a, init, [m]);
      SnocInit(a + init, m);
      LearnAppend(k, a, init);
    }
  }

  lemma {:induction false} BuildAppend(start: Building, signatures: Table, a: seq<InMessage>, b: seq<InMessage>)
    ensures BuildMessages(start, signatures, a + b) == BuildMessages(BuildMessages(start, signatures, a), signatures, b)
  {
    if b == [] {
      assert a + b == a;
    } else {
      var init, m := b[..|b| - 1], b[|b| - 1];
      InitLast(b);
      PlusAssoc(a, init, [m]);
      SnocInit(a + init, m);
      BuildAppend(start, signatures, a, init);
    }
  }

  lemma {:induction false} ErrorStays(start: Building, signatures: Table, messages: seq<InMessage>)
    requires start.error.Some?
    ensures BuildMessages(start, signatures, messages) == start
  {
    if messages != [] {
      ErrorStays(start, signatures, messages[..|messages| - 1]);
    }
  }

  /** A user's blocks convert one by one and leave the tool names alone. */
  lemma {:induction false} UserBlocksAppend(names: Table, signatures: Table, a: seq<InBlock>, b: seq<InBlock>)
    requires ConvertBlocks(names, false, signatures, a + b).error.None?
    ensures var x, y, z := ConvertBlocks(names, false, signatures, a), ConvertBlocks(names, false, signatures, b),
                           ConvertBlocks(names, false, signatures, a + b);
            && x.error.None? && y.error.None? && z.parts == x.parts + y.parts
            && x.names == names && y.names == names && z.names == names
  {
    if b == [] {
      assert a + b == a;
      var x := ConvertBlocks(names, false, signatures, a);
      assert x.parts + [] == x.parts;
      UserNames(names, signatures, a);
    } else {
      var init, last := b[..|b| - 1], b[|b| - 1];
      InitLast(b);
      PlusAssoc(a, init, [last]);
      SnocInit(a + init, last);
      UserBlocksAppend(names, signatures, a, init);
      UserBlockTwice(ConvertBlocks(names, false, signatures, a + init), ConvertBlocks(names, false, signatures, init),
                     ConvertBlocks(names, false, signatures, a).parts, signatures, last);
    }
  }

  lemma UserBlockTwice(c: Conversion, d: Conversion, before: seq<OutPart>, signatures: Table, b: InBlock)
    requires c.error.None? && d.error.None? && c.names == d.names && c.parts == before + d.parts
    requires ConvertBlock(c, false, signatures, b).error.None?
    ensures var x, y := ConvertBlock(c, false, signatures, b), ConvertBlock(d, false, signatures, b);
            y.error.None? && x.parts == before + y.parts && x.names == y.names == c.names
  {
    var y := ConvertBlock(d, false, signatures, b);
    if |y.parts| > |d.parts| {
      PlusAssoc(before, d.parts, [y.parts[|d.parts|]]);
    }
  }

  lemma {:induction false} UserNames(names: Table, signatures: Table, a: seq<InBlock>)
    requires ConvertBlocks(names, false, signatures, a).error.None?
    ensures ConvertBlocks(names, false, signatures, a).names == names
  {
    if a != [] {
      UserNames(names, signatures, a[..|a| - 1]);
    }
  }

  /** Adding a folded user turn at once or half by half. */
  lemma AddInHalves(contents: seq<Turn>, a: seq<OutPart>, b: seq<OutPart>)
    requires WellFormed(contents) && Fold(a + b).Ok?
    requires AddTurn(contents, true, Fold(a + b).value).Ok?
    ensures Fold(a).Ok? && Fold(b).Ok? && AddTurn(contents, true, Fold(a).value).Ok?
    ensures AddTurn(AddTurn(contents, true, Fold(a).value).value, true, Fold(b).value) ==
            AddTurn(contents, true, Fold(a + b).value)
  {
    FoldInHalves(a, b);
    FoldIsIdempotent(a);
    FoldIsIdempotent(b);
    FoldIsIdempotent(a + b);
    if a == [] {
      NothingBefore(b);
    } else if b == [] {
      assert a + b == a;
    } else if contents != [] && contents[|contents| - 1].user {
      JoinInHalves(contents[|contents| - 1].parts, a, b);
      AddTwice(contents, Fold(a).value, Fold(b).value);
    } else {
      AddAfterModel(contents, a, b);
    }
  }

  lemma AddAfterModel(contents: seq<Turn>, a: seq<OutPart>, b: seq<OutPart>)
    requires contents == [] || !contents[|contents| - 1].user
    requires a != [] && b != [] && Fold(a + b).Ok?
    ensures Fold(a).Ok? && Fold(b).Ok? && AddTurn(contents, true, Fold(a).value).Ok?
    ensures AddTurn(AddTurn(contents, true, Fold(a).value).value, true, Fold(b).value) ==
            AddTurn(contents, true, Fold(a + b).value)
  {
    FoldInHalves(a, b);
    FoldIsIdempotent(a);
    FoldIsIdempotent(b);
    FoldIsIdempotent(a + b);
    NewTurn(contents, Fold(a).value);
    NewTurn(contents, Fold(a + b).value);
    JoinTurn(contents, Fold(a).value, Fold(b).value);
  }

  lemma NewTurn(contents: seq<Turn>, p: seq<OutPart>)
    requires p != [] && (contents == [] || !contents[|contents| - 1].user)
    ensures AddTurn(contents, true, p) == Ok(contents + [Turn(true, p)])
  {
  }

  lemma JoinTurn(contents: seq<Turn>, p: seq<OutPart>, q: seq<OutPart>)
    requires q != [] && Fold(p + q).Ok?
    ensures AddTurn(contents + [Turn(true, p)], true, q) == Ok(contents + [Turn(true, Fold(p + q).value)])
  {
    SnocInit(contents, Turn(true, p));
  }

  lemma JoinInHalves(q: seq<OutPart>, a: seq<OutPart>, b: seq<OutPart>)
    requires Uniform(q) && Fold(a + b).Ok? && Fold(q + Fold(a + b).value).Ok?
    ensures Fold(a).Ok? && Fold(b).Ok? && Fold(q + Fold(a).value).Ok?
    ensures Fold(Fold(q + Fold(a).value).value + Fold(b).value) == Fold(q + Fold(a + b).value)
  {
    UniformFolds(q);
    NotMixed(q);
    FoldInHalvesExactly(q, a + b);
    PlusAssoc(q, a, b);
    FoldInHalves(q + a, b);
    FoldInHalves(a, b);
    FoldInHalvesExactly(q, a);
  }

  lemma NotMixed(q: seq<OutPart>)
    requires Uniform(q)
    ensures !Mixed(q)
  {
  }

  lemma AddTwice(contents: seq<Turn>, a: seq<OutPart>, b: seq<OutPart>)
    requires contents != [] && contents[|contents| - 1].user && a != [] && b != []
    requires Fold(contents[|contents| - 1].parts + a).Ok?
    ensures AddTurn(contents, true, a).Ok?
    ensures AddTurn(AddTurn(contents, true, a).value, true, b) ==
            var merged := Fold(Fold(contents[|contents| - 1].parts + a).value + b);
            if merged.Err? then Err(merged.error)
            else Ok(contents[..|contents| - 1] + [Turn(true, merged.value)])
  {
    SnocInit(contents[..|contents| - 1], Turn(true, Fold(contents[|contents| - 1].parts + a).value));
  }

  function UserMessage(blocks: seq<InBlock>): InMessage {
    InMessage(User, BlockContent(blocks))
  }

  lemma BuildHalves(b: Building, signatures: Table, x: seq<InBlock>, y: seq<InBlock>)
    requires WellFormed(b.contents) && BuildMessage(b, signatures, UserMessage(x + y)).error.None?
    ensures BuildMessage(BuildMessage(b, signatures, UserMessage(x)), signatures, UserMessage(y)) ==
            BuildMessage(b, signatures, UserMessage(x + y))
  {
    UserBlocksAppend(b.names, signatures, x, y);
    AddInHalves(b.contents, ConvertBlocks(b.names, false, signatures, x).parts,
                ConvertBlocks(b.names, false, signatures, y).parts);
  }

  lemma LearnIgnoresUsers(k: Known, blocks: seq<InBlock>)
    ensures Learn(k, [UserMessage(blocks)]) == k
  {
    assert [UserMessage(blocks)][..0] == [];
  }

  lemma OneMessage(start: Building, signatures: Table, m: InMessage)
    ensures BuildMessages(start, signatures, [m]) == BuildMessage(start, signatures, m)
  {
    assert [m][..0] == [];
  }

  lemma LearnSplit(k: Known, pre: seq<InMessage>, x: seq<InBlock>, y: seq<InBlock>, post: seq<InMessage>)
    ensures Learn(k, pre + [UserMessage(x)] + [UserMessage(y)] + post) == Learn(k, pre + [UserMessage(x + y)] + post)
  {
    var u, v, w := [UserMessage(x)], [UserMessage(y)], [UserMessage(x + y)];
    LearnAppend(k, pre + u + v, post);
    LearnAppend(k, pre + u, v);
    LearnAppend(k, pre, u);
    LearnAppend(k, pre + w, post);
    LearnAppend(k, pre, w);
    LearnIgnoresUsers(Learn(k, pre), x);
    LearnIgnoresUsers(Learn(k, pre), y);
    LearnIgnoresUsers(Learn(k, pre), x + y);
  }

  lemma BuildSplit(start: Building, signatures: Table, pre: seq<InMessage>, x: seq<InBlock>, y: seq<InBlock>,
                   post: seq<InMessage>)
    requires WellFormed(start.contents)
    requires BuildMessages(start, signatures, pre + [UserMessage(x + y)] + post).error.None?
    ensures BuildMessages(start, signatures, pre + [UserMessage(x)] + [UserMessage(y)] + post) ==
            BuildMessages(start, signatures, pre + [UserMessage(x + y)] + post)
  {
    var u, v, w := [UserMessage(x)], [UserMessage(y)], [UserMessage(x + y)];
    var s := BuildMessages(start, signatures, pre);
    BuildMessagesWellFormed(start, signatures, pre);
    BuildAppend(start, signatures, pre + u + v, post);
    BuildAppend(start, signatures, pre + u, v);
    BuildAppend(start, signatures, pre, u);
    BuildAppend(start, signatures, pre + w, post);
    BuildAppend(start, signatures, pre, w);
    OneMessage(s, signatures, UserMessage(x));
    OneMessage(BuildMessage(s, signatures, UserMessage(x)), signatures, UserMessage(y));
    OneMessage(s, signatures, UserMessage(x + y));
    var after := BuildMessage(s, signatures, UserMessage(x + y));
    if after.error.Some? {
      ErrorStays(after, signatures, post);
    }
    BuildHalves(s, signatures, x, y);
  }

  /**
   * Split invariance: cutting the block array of a user message anywhere into two consecutive user messages gives the
   * same turns whenever the uncut request is accepted, wherever in the conversation it stands.
   */
  lemma SplitUserMessage(pre: seq<InMessage>, x: seq<InBlock>, y: seq<InBlock>, post: seq<InMessage>, signatures: Table)
    requires Build(pre + [UserMessage(x + y)] + post, signatures).Ok?
    ensures Build(pre + [UserMessage(x)] + [UserMessage(y)] + post, signatures) ==
            Build(pre + [UserMessage(x + y)] + post, signatures)
  {
    var whole, cut := pre + [UserMessage(x + y)] + post, pre + [UserMessage(x)] + [UserMessage(y)] + post;
    SplitKeepsObjects(pre, x, y, post);
    var k := Known(map[], signatures);
    LearnSplit(k, pre, x, y, post);
    var known := Learn(k, whole);
    BuildSplit(Building([], known.names, None), known.signatures, pre, x, y, post);
  }

  lemma SplitKeepsObjects(pre: seq<InMessage>, x: seq<InBlock>, y: seq<InBlock>, post: seq<InMessage>)
    requires AllObjects(pre + [UserMessage(x + y)] + post)
    ensures AllObjects(pre + [UserMessage(x)] + [UserMessage(y)] + post)
  {
    var whole, cut := pre + [UserMessage(x + y)] + post, pre + [UserMessage(x)] + [UserMessage(y)] + post;
    forall i | 0 <= i < |cut| ensures cut[i].InMessage? {
      if i < |pre| {
        assert cut[i] == whole[i];
      } else if i >= |pre| + 2 {
        assert cut[i] == whole[i - 1];
      }
    }
  }
}
