/** What the stop-sequence loop of the non-streaming conversion returns, block for block. */
module StopLoop {
  import opened Bytes
  import opened StopMatching
  import opened StopFilter
  import opened AnthropicEvents
  import opened ResponseConversion

  // ----- The reference: texts of the content only, no filter -----

  /** The text said in the run of adjacent text blocks that the first `m` blocks end with. */
  function RunText(content: seq<Block>, m: nat): Str
    requires m <= |content|
  {
    if m == 0 || !content[m - 1].Text? then [] else RunText(content, m - 1) + content[m - 1].text
  }

  /** The end of that text that may begin a stop sequence. */
  ghost function Held(content: seq<Block>, stops: seq<Str>, m: nat): Str
    requires m <= |content|
  {
    var t := RunText(content, m);
    t[|t| - Keep(t, stops)..]
  }

  ghost predicate ClearUpTo(content: seq<Block>, stops: seq<Str>, m: nat)
    requires m <= |content|
  {
    StopFree(RunText(content, m), stops)
  }

  /** The block whose text is the first to complete a stop sequence in its run; the number of blocks if none is. */
  ghost function StopBlock(content: seq<Block>, stops: seq<Str>, from: nat := 0): (s: nat)
    requires from <= |content|
    requires forall i :: 0 <= i <= from ==> ClearUpTo(content, stops, i)
    ensures from <= s <= |content|
    ensures forall i :: 0 <= i <= s ==> ClearUpTo(content, stops, i)
    ensures s < |content| ==> !ClearUpTo(content, stops, s + 1)
    decreases |content| - from
  {
    if from == |content| || !ClearUpTo(content, stops, from + 1) then from else StopBlock(content, stops, from + 1)
  }

  /** What is held back from block `i` after the loop: it is shown in the next block, if that is text, else here. */
  ghost function HeldAfter(content: seq<Block>, stops: seq<Str>, i: nat): Str
    requires i < |content|
  {
    if i + 1 < |content| && content[i + 1].Text? then Held(content, stops, i + 1) else []
  }

  /** Text block `i` comes back with the text `x`. */
  ghost predicate ComesBackAs(content: seq<Block>, stops: seq<Str>, i: nat, x: Str)
    requires i < |content| && content[i].Text?
  {
    var combined := Held(content, stops, i) + content[i].text;
    if i == StopBlock(content, stops) then StopPos(combined, stops) >= 0 && x == combined[..StopPos(combined, stops)]
    else combined == x + HeldAfter(content, stops, i)
  }

  /** Block `i` comes back as `b`: a text with its text changed, and anything else as it is. */
  ghost predicate ReturnsAs(content: seq<Block>, stops: seq<Str>, i: nat, b: Block)
    requires i < |content|
  {
    if content[i].Text? then
      b.Text? && b.signature == content[i].signature && ComesBackAs(content, stops, i, b.text)
    else b == content[i]
  }

  /** The blocks that come back: up to and including the one that completes a stop sequence. */
  ghost predicate Reached(content: seq<Block>, stops: seq<Str>, i: nat) {
    i < |content| && i <= StopBlock(content, stops)
  }

  // ----- The loop while nothing has matched -----

  /** Block `i` so far, with `after` still held back from it. */
  ghost predicate SoFar(content: seq<Block>, stops: seq<Str>, i: nat, after: Str, b: Block)
    requires i < |content|
  {
    if content[i].Text? then
      && b.Text? && b.signature == content[i].signature
      && Held(content, stops, i) + content[i].text == b.text + after
    else b == content[i]
  }

  /** What is held back from block `i` after `m` blocks. */
  ghost function HeldSoFar(content: seq<Block>, stops: seq<Str>, i: nat, m: nat): Str
    requires i < m <= |content|
  {
    if i + 1 < m && !content[i + 1].Text? then [] else Held(content, stops, i + 1)
  }

  ghost predicate Progress(content: seq<Block>, stops: seq<Str>, m: nat, a: Applied)
    requires m <= |content|
  {
    && a.matched == [] && a.filter == FilterState(Held(content, stops, m), false)
    && AllSoFar(content, stops, m, a.result)
  }

  ghost predicate AllSoFar(content: seq<Block>, stops: seq<Str>, m: nat, result: seq<Block>)
    requires m <= |content|
  {
    |result| == m && forall i :: 0 <= i < m ==> SoFar(content, stops, i, HeldSoFar(content, stops, i, m), result[i])
  }

  /** Behind anything but text nothing is held back. */
  lemma NothingHeld(content: seq<Block>, stops: seq<Str>, m: nat)
    requires m <= |content| && (m == 0 || !content[m - 1].Text?)
    ensures RunText(content, m) == [] && Held(content, stops, m) == []
  {
  }

  /** One Feed: what is in front of the held-back text plays no part. */
  lemma FeedHeld(content: seq<Block>, stops: seq<Str>, m: nat)
    requires m < |content| && content[m].Text? && ClearUpTo(content, stops, m)
    ensures var r, combined := FeedText(stops, FilterState(Held(content, stops, m), false), content[m].text),
                               Held(content, stops, m) + content[m].text;
            && (r.matched != [] <==> !ClearUpTo(content, stops, m + 1))
            && (r.matched != [] ==> StopPos(combined, stops) >= 0 && r.visible == combined[..StopPos(combined, stops)]
                                    && r.matched == StopFound(combined, stops))
            && (r.matched == [] ==> r.next == FilterState(Held(content, stops, m + 1), false)
                                    && combined == r.visible + Held(content, stops, m + 1))
  {
    var t := RunText(content, m);
    var k := |t| - Keep(t, stops);
    var f := FilterState(Held(content, stops, m), false);
    TakeDrop(t, k);
    FeedWhileClear(stops, t[..k], f, content[m].text);
    var all := t[..k] + f.pending + content[m].text;
    assert all == RunText(content, m + 1);
    var r := FeedText(stops, f, content[m].text);
    if r.matched == [] {
      SuffixIsHeld(t[..k] + r.visible, r.next.pending, stops);
      PlusAssoc(t[..k], f.pending, content[m].text);
      PlusAssoc(t[..k], r.visible, r.next.pending);
      TakeDrop(f.pending + content[m].text, |f.pending + content[m].text| - Keep(f.pending + content[m].text, stops));
    }
  }

  lemma SuffixIsHeld(p: Str, q: Str, stops: seq<Str>)
    requires |q| == Keep(p + q, stops)
    ensures (p + q)[|p + q| - Keep(p + q, stops)..] == q
  {
  }

  lemma HeldSoFarNext(content: seq<Block>, stops: seq<Str>, i: nat, m: nat)
    requires i < m < |content| && (i + 1 < m || content[m].Text?)
    ensures HeldSoFar(content, stops, i, m + 1) == HeldSoFar(content, stops, i, m)
  {
  }

  /** What is so far of the blocks before the last one does not change any more. */
  lemma SoFarStays(content: seq<Block>, stops: seq<Str>, m: nat, result: seq<Block>, more: seq<Block>, n: nat)
    requires n <= m < |content| && n <= |result| && n <= |more|
    requires n < m || content[m].Text?
    requires forall i :: 0 <= i < n ==> SoFar(content, stops, i, HeldSoFar(content, stops, i, m), result[i])
    requires forall i :: 0 <= i < n ==> more[i] == result[i]
    ensures forall i :: 0 <= i < n ==> SoFar(content, stops, i, HeldSoFar(content, stops, i, m + 1), more[i])
  {
    forall i | 0 <= i < n ensures SoFar(content, stops, i, HeldSoFar(content, stops, i, m + 1), more[i]) {
      HeldSoFarNext(content, stops, i, m);
      assert SoFar(content, stops, i, HeldSoFar(content, stops, i, m), result[i]);
    }
  }

  lemma TextSoFar(content: seq<Block>, stops: seq<Str>, m: nat)
    requires m < |content| && content[m].Text? && ClearUpTo(content, stops, m) && ClearUpTo(content, stops, m + 1)
    ensures var r := FeedText(stops, FilterState(Held(content, stops, m), false), content[m].text);
            && r.matched == [] && r.next == FilterState(Held(content, stops, m + 1), false)
            && SoFar(content, stops, m, HeldSoFar(content, stops, m, m + 1), content[m].(text := r.visible))
  {
    FeedHeld(content, stops, m);
  }

  lemma TextProgress(content: seq<Block>, stops: seq<Str>, m: nat, a: Applied)
    requires m < |content| && content[m].Text? && ClearUpTo(content, stops, m) && ClearUpTo(content, stops, m + 1)
    requires Progress(content, stops, m, a)
    ensures Progress(content, stops, m + 1, ApplyBlock(stops, a, content[m]))
  {
    TextSoFar(content, stops, m);
    SoFarStays(content, stops, m, a.result, ApplyBlock(stops, a, content[m]).result, m);
  }

  lemma SnocAt<T>(a: seq<T>, x: T)
    ensures |a + [x]| == |a| + 1 && (a + [x])[|a|] == x && forall i :: 0 <= i < |a| ==> (a + [x])[i] == a[i]
  {
  }

  lemma OtherSoFar(content: seq<Block>, stops: seq<Str>, m: nat, a: Applied, more: seq<Block>)
    requires m < |content| && !content[m].Text? && Progress(content, stops, m, a) && |more| == m + 1
    requires forall i :: 0 <= i < m ==> more[i] == AppendTail(a.result, Tail(a.filter))[i]
    requires more[m] == content[m]
    ensures AllSoFar(content, stops, m + 1, more)
  {
    TailShown(content, stops, m, a);
    if m > 0 {
      SoFarStays(content, stops, m, a.result, more, m - 1);
    }
  }

  lemma OtherApplied(stops: seq<Str>, a: Applied, b: Block)
    requires a.matched == [] && !b.Text?
    ensures ApplyBlock(stops, a, b) == Applied(AppendTail(a.result, Tail(a.filter)) + [b], Flushed(a.filter), [])
  {
  }

  lemma OtherProgress(content: seq<Block>, stops: seq<Str>, m: nat, a: Applied)
    requires m < |content| && !content[m].Text? && Progress(content, stops, m, a)
    ensures Progress(content, stops, m + 1, ApplyBlock(stops, a, content[m]))
  {
    var shown := AppendTail(a.result, Tail(a.filter));
    NothingHeld(content, stops, m + 1);
    TailShown(content, stops, m, a);
    SnocAt(shown, content[m]);
    OtherSoFar(content, stops, m, a, shown + [content[m]]);
    OtherApplied(stops, a, content[m]);
  }

  /** The tail goes back to the block it was held back from. */
  lemma TailShown(content: seq<Block>, stops: seq<Str>, m: nat, a: Applied)
    requires m <= |content| && Progress(content, stops, m, a)
    ensures var result := AppendTail(a.result, Tail(a.filter));
            && |result| == m
            && (forall i :: 0 <= i < m - 1 ==> result[i] == a.result[i])
            && (m > 0 ==> SoFar(content, stops, m - 1, [], result[m - 1]))
  {
    if m > 0 {
      assert SoFar(content, stops, m - 1, HeldSoFar(content, stops, m - 1, m), a.result[m - 1]);
      if content[m - 1].Text? {
        var b := a.result[m - 1];
        NothingAfter(b.text + Held(content, stops, m));
        NothingAfter(b.text);
      } else {
        NothingHeld(content, stops, m);
      }
    } else {
      NothingHeld(content, stops, 0);
    }
  }

  lemma {:induction false} ClearProgress(content: seq<Block>, stops: seq<Str>, m: nat)
    requires m <= StopBlock(content, stops)
    ensures Progress(content, stops, m, ApplyBlocks(stops, content[..m]))
  {
    if m == 0 {
      NothingHeld(content, stops, 0);
    } else {
      ClearProgress(content, stops, m - 1);
      OneMoreBlock(content, stops, m - 1);
      assert ClearUpTo(content, stops, m - 1) && ClearUpTo(content, stops, m);
      if content[m - 1].Text? {
        TextProgress(content, stops, m - 1, ApplyBlocks(stops, content[..m - 1]));
      } else {
        OtherProgress(content, stops, m - 1, ApplyBlocks(stops, content[..m - 1]));
      }
    }
  }

  lemma OneMoreBlock(content: seq<Block>, stops: seq<Str>, m: nat)
    requires m < |content|
    ensures ApplyBlocks(stops, content[..m + 1]) == ApplyBlock(stops, ApplyBlocks(stops, content[..m]), content[m])
  {
    TakeOneMore(content, m);
    SnocInit(content[..m], content[m]);
  }

  // ----- The whole loop -----

  lemma StopBlockIsText(content: seq<Block>, stops: seq<Str>)
    requires StopBlock(content, stops) < |content|
    ensures content[StopBlock(content, stops)].Text?
  {
  }

  /** Without a stop sequence in any run. */
  lemma RunsThrough(content: seq<Block>, stops: seq<Str>)
    requires StopBlock(content, stops) == |content|
    ensures var a := ApplyBlocks(stops, content);
            var result := AppendTail(a.result, Tail(a.filter));
            && a.matched == [] && |result| == |content|
            && forall i :: 0 <= i < |content| ==> ReturnsAs(content, stops, i, result[i])
  {
    var n := |content|;
    TakeAll(content);
    ClearProgress(content, stops, n);
    var a := ApplyBlocks(stops, content);
    var result := AppendTail(a.result, Tail(a.filter));
    TailShown(content, stops, n, a);
    forall i | 0 <= i < n ensures ReturnsAs(content, stops, i, result[i]) {
      assert SoFar(content, stops, i, HeldSoFar(content, stops, i, n), a.result[i]);
    }
  }

  lemma StopStep(content: seq<Block>, stops: seq<Str>, s: nat, a: Applied)
    requires s < |content| && content[s].Text? && s == StopBlock(content, stops) && Progress(content, stops, s, a)
    ensures var d := ApplyBlock(stops, a, content[s]);
            && |d.result| == s + 1 && (forall i :: 0 <= i < s ==> d.result[i] == a.result[i])
            && d.matched == StopFound(Held(content, stops, s) + content[s].text, stops) != []
            && ReturnsAs(content, stops, s, d.result[s])
  {
    FeedHeld(content, stops, s);
  }

  /** With one, the loop ends at the block that completes it. */
  lemma StopsThere(content: seq<Block>, stops: seq<Str>)
    requires StopBlock(content, stops) < |content|
    ensures var a, s := ApplyBlocks(stops, content), StopBlock(content, stops);
            && content[s].Text? && |a.result| == s + 1
            && a.matched == StopFound(Held(content, stops, s) + content[s].text, stops) != []
            && forall i :: 0 <= i <= s ==> ReturnsAs(content, stops, i, a.result[i])
  {
    var s := StopBlock(content, stops);
    var before := ApplyBlocks(stops, content[..s]);
    StopBlockIsText(content, stops);
    ClearProgress(content, stops, s);
    StopStep(content, stops, s, before);
    OneMoreBlock(content, stops, s);
    MatchedStays(stops, content, s + 1);
    SoFarReturns(content, stops, s, before.result, ApplyBlocks(stops, content).result);
  }

  lemma SoFarReturns(content: seq<Block>, stops: seq<Str>, s: nat, before: seq<Block>, result: seq<Block>)
    requires s < |content| && content[s].Text? && s == StopBlock(content, stops)
    requires AllSoFar(content, stops, s, before) && |result| == s + 1
    requires forall i :: 0 <= i < s ==> result[i] == before[i]
    ensures forall i :: 0 <= i < s ==> ReturnsAs(content, stops, i, result[i])
  {
    forall i | 0 <= i < s ensures ReturnsAs(content, stops, i, result[i]) {
      OneReturns(content, stops, i, s, before[i]);
    }
  }

  lemma OneReturns(content: seq<Block>, stops: seq<Str>, i: nat, s: nat, b: Block)
    requires i < s < |content| && content[s].Text? && s == StopBlock(content, stops)
    requires SoFar(content, stops, i, HeldSoFar(content, stops, i, s), b)
    ensures ReturnsAs(content, stops, i, b)
  {
  }

  /** Without a stop list no text has a stop sequence in it and none is held back. */
  lemma NoStopList(content: seq<Block>)
    ensures StopBlock(content, []) == |content|
    ensures forall i :: 0 <= i < |content| ==> ReturnsAs(content, [], i, content[i])
  {
    forall i | 0 <= i < |content| ensures ReturnsAs(content, [], i, content[i]) {
      if content[i].Text? {
        NothingBefore(content[i].text);
        NothingAfter(content[i].text);
      }
    }
  }

  /**
   * What the stop loop makes of any content and stop list, read off their texts: it returns the blocks up to and
   * including the first whose run of text holds a stop sequence. That one is cut at the earliest stop in it and what
   * was held back before it; in front of it every text gives what was held back before it plus its own, less what is
   * held back after it; and everything else comes back as it is. The stop sequence reported is the one found at
   * the cut.
   */
  lemma LoopReturns(r: Response, stops: seq<Str>)
    ensures var result, s := ApplyStops(r, stops), StopBlock(r.content, stops);
            && |result.content| == (if s < |r.content| then s + 1 else |r.content|)
            && (forall i :: 0 <= i < |result.content| ==> ReturnsAs(r.content, stops, i, result.content[i]))
            && (if s < |r.content| then
                  && r.content[s].Text? && result.stopReason == StopSequence
                  && result.stopSequence == Some(StopFound(Held(r.content, stops, s) + r.content[s].text, stops))
                else result.stopReason == r.stopReason && result.stopSequence == r.stopSequence)
  {
    if stops == [] {
      NoStopList(r.content);
    } else if StopBlock(r.content, stops) < |r.content| {
      StopsThere(r.content, stops);
    } else {
      RunsThrough(r.content, stops);
    }
  }

  // ----- Which blocks come back unchanged -----

  /** The block still stands where it stood, with the text it had. */
  predicate Survives(content: seq<Block>, result: seq<Block>, i: nat)
    requires i < |content|
  {
    i < |result| && result[i] == content[i]
  }

  /** The block is reached and, if it is text, comes back as the text it was. */
  ghost predicate Unchanged(content: seq<Block>, stops: seq<Str>, i: nat)
    requires i < |content|
  {
    Reached(content, stops, i) && (content[i].Text? ==> ComesBackAs(content, stops, i, content[i].text))
  }

  lemma OneWayBack(content: seq<Block>, stops: seq<Str>, i: nat, x: Str, y: Str)
    requires i < |content| && content[i].Text?
    requires ComesBackAs(content, stops, i, x) && ComesBackAs(content, stops, i, y)
    ensures x == y
  {
    if i != StopBlock(content, stops) {
      var after := HeldAfter(content, stops, i);
      assert |x| == |y|;
      assert (x + after)[..|x|] == x && (y + after)[..|y|] == y;
    }
  }

  /**
   * Which blocks come back unchanged: any that is no text and not behind the stop; a text in front of the stop exactly
   * if what was held back before it and its own make its own and what is held back after it; and the text at the stop
   * exactly if it is what the cut leaves.
   */
  lemma SurvivesExactly(r: Response, stops: seq<Str>, i: nat)
    requires i < |r.content|
    ensures Survives(r.content, ApplyStops(r, stops).content, i) <==> Unchanged(r.content, stops, i)
  {
    LoopReturns(r, stops);
    var result := ApplyStops(r, stops).content;
    if i < |result| {
      assert ReturnsAs(r.content, stops, i, result[i]);
      if r.content[i].Text? && ComesBackAs(r.content, stops, i, r.content[i].text) {
        OneWayBack(r.content, stops, i, r.content[i].text, result[i].text);
      }
    }
  }
}
