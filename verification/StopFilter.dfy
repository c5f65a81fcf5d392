/** The online stop-sequence filter: its state machine, the class that implements it, and its runs. */
module StopFilter {
  import opened Bytes
  import opened StopMatching

  datatype FilterState = FilterState(pending: Str, stopped: bool)

  const FRESH := FilterState([], false)

  /** What one Feed returns ("" is no match) and the state it leaves. */
  datatype Fed = Fed(visible: Str, matched: Str, next: FilterState)

  ghost function FeedText(stops: seq<Str>, f: FilterState, text: Str): (r: Fed)
    ensures r.matched != [] <==> !f.stopped && r.next.stopped
  {
    var combined := f.pending + text;
    var keep := Keep(combined, stops);
    if f.stopped then Fed([], [], f)
    else if StopPos(combined, stops) >= 0 then
      Fed(combined[..StopPos(combined, stops)], StopFound(combined, stops), FilterState([], true))
    else
      Fed(combined[..|combined| - keep], [], FilterState(combined[|combined| - keep..], false))
  }

  class TextStopFilter {
    var sequences: seq<Str>
    var pending: Str
    var stopped: bool

    constructor (sequences: seq<Str>)
      ensures this.sequences == sequences && State() == FRESH
    {
      this.sequences, pending, stopped := sequences, [], false;
    }

    ghost function State(): FilterState
      reads this
    {
      FilterState(pending, stopped)
    }

    method Feed(text: Str) returns (visible: Str, matched: Str)
      modifies this`pending, this`stopped
      ensures Fed(visible, matched, State()) == FeedText(sequences, old(State()), text)
    {
      if stopped {
        return [], [];
      }
      var combined := pending + text;
      var index, found := EarliestStop(combined, sequences);
      if index >= 0 {
        pending, stopped := [], true;
        return combined[..index], found;
      }
      var keep := LongestBeginning(combined, sequences);
      pending := combined[|combined| - keep..];
      return combined[..|combined| - keep], [];
    }

    method Flush() returns (tail: Str)
      modifies this`pending
      ensures tail == if stopped then [] else old(pending)
      ensures pending == if stopped then old(pending) else []
    {
      if stopped {
        return [];
      }
      tail := pending;
      pending := [];
    }
  }

  /** The hold-back loop of Feed: every proper prefix of every stop sequence is tried against the end of the text. */
  method LongestBeginning(combined: Str, sequences: seq<Str>) returns (keep: nat)
    ensures keep == Keep(combined, sequences)
  {
    keep := 0;
    for k := 0 to |sequences|
      invariant keep <= |combined|
      invariant keep > 0 ==> MayBegin(combined, sequences, keep)
      invariant forall j, n :: 0 <= j < k && Begins(combined, sequences[j], n) ==> n <= keep
    {
      var s := sequences[k];
      var length := 1;
      while length < |s| && length <= |combined|
        invariant 1 <= length && keep <= |combined|
        invariant keep > 0 ==> MayBegin(combined, sequences, keep)
        invariant forall j, n :: 0 <= j < k && Begins(combined, sequences[j], n) ==> n <= keep
        invariant forall n :: n < length && Begins(combined, s, n) ==> n <= keep
      {
        if combined[|combined| - length..] == s[..length] && length > keep {
          assert Begins(combined, sequences[k], length);
          keep := length;
        }
        length := length + 1;
      }
    }
    assert forall n :: MayBegin(combined, sequences, n) ==> n <= keep;
  }

  /** A run: Feed on each piece in turn. `visible` is all that was released. */
  datatype Progress = Progress(visible: Str, matched: Str, filter: FilterState)

  ghost function Run(stops: seq<Str>, pieces: seq<Str>): Progress {
    if pieces == [] then Progress([], [], FRESH)
    else
      var before := Run(stops, pieces[..|pieces| - 1]);
      var r := FeedText(stops, before.filter, pieces[|pieces| - 1]);
      Progress(before.visible + r.visible, if r.matched != [] then r.matched else before.matched, r.next)
  }

  /** A run followed by Flush, which releases what is still held back unless a stop sequence matched. */
  ghost function Finish(stops: seq<Str>, pieces: seq<Str>): Progress {
    var r := Run(stops, pieces);
    if r.filter.stopped then r
    else Progress(r.visible + r.filter.pending, r.matched, FRESH)
  }

  lemma RunSnoc(stops: seq<Str>, pieces: seq<Str>, t: Str)
    ensures Run(stops, pieces + [t]) ==
            var before := Run(stops, pieces);
            var r := FeedText(stops, before.filter, t);
            Progress(before.visible + r.visible, if r.matched != [] then r.matched else before.matched, r.next)
  {
    assert (pieces + [t])[..|pieces|] == pieces;
  }

  /** The first `i` pieces together hold no stop sequence. */
  ghost predicate ClearUpTo(stops: seq<Str>, pieces: seq<Str>, i: nat)
    requires i <= |pieces|
  {
    StopFree(Concat(pieces[..i]), stops)
  }

  /**
   * The number of pieces fed when the text first holds a stop sequence; all of them when it never does. This is a
   * statement about texts only: no filter state takes part in it.
   */
  ghost function Detected(stops: seq<Str>, pieces: seq<Str>, from: nat := 0): (j: nat)
    requires from <= |pieces|
    requires forall i :: 0 <= i < from ==> ClearUpTo(stops, pieces, i)
    ensures j <= |pieces|
    ensures forall i :: 0 <= i < j ==> ClearUpTo(stops, pieces, i)
    ensures j < |pieces| ==> !ClearUpTo(stops, pieces, j)
    decreases |pieces| - from
  {
    if from == |pieces| || !ClearUpTo(stops, pieces, from) then from else Detected(stops, pieces, from + 1)
  }

  /** The text the filter had seen when it decided. */
  ghost function SeenText(stops: seq<Str>, pieces: seq<Str>): Str {
    Concat(pieces[..Detected(stops, pieces)])
  }

  lemma ClearPrefix(stops: seq<Str>, pieces: seq<Str>, i: nat, j: nat)
    requires i <= j <= |pieces| && ClearUpTo(stops, pieces, j)
    ensures ClearUpTo(stops, pieces, i)
  {
    ConcatPrefix(pieces, i, j);
    var a, b := Concat(pieces[..i]), Concat(pieces[..j]);
    assert b == a + b[|a|..];
    StopFreeLeft(a, b[|a|..], stops);
  }

  lemma ClearSnoc(stops: seq<Str>, pieces: seq<Str>, t: Str, i: nat)
    requires i <= |pieces|
    ensures ClearUpTo(stops, pieces + [t], i) <==> ClearUpTo(stops, pieces, i)
  {
    assert (pieces + [t])[..i] == pieces[..i];
  }

  lemma DetectedSnoc(stops: seq<Str>, pieces: seq<Str>, t: Str)
    ensures Detected(stops, pieces + [t]) ==
            if ClearUpTo(stops, pieces, |pieces|) then |pieces| + 1 else Detected(stops, pieces)
  {
    var d, e := Detected(stops, pieces), Detected(stops, pieces + [t]);
    ClearSnoc(stops, pieces, t, d);
    if e <= |pieces| {
      ClearSnoc(stops, pieces, t, e);
    }
    if ClearUpTo(stops, pieces, |pieces|) {
      if e <= |pieces| {
        ClearPrefix(stops, pieces, e, |pieces|);
      }
    } else {
      ClearSnoc(stops, pieces, t, |pieces|);
    }
  }

  /** The state invariant of every run, read off the texts fed. */
  ghost predicate RunFacts(stops: seq<Str>, pieces: seq<Str>, r: Progress) {
    var all := Concat(pieces);
    && (r.filter.stopped <==> !StopFree(all, stops))
    && (r.matched != [] <==> r.filter.stopped)
    && (!r.filter.stopped ==> r.visible + r.filter.pending == all && |r.filter.pending| == Keep(all, stops))
    && (r.filter.stopped ==>
          && r.filter.pending == []
          && (var seen := SeenText(stops, pieces);
              && StopPos(seen, stops) >= 0
              && r.visible == seen[..StopPos(seen, stops)]
              && r.matched == StopFound(seen, stops)))
  }

  /**
   * Filter state invariant and stop exactness in one: while nothing matched, released ++ pending is everything fed
   * and pending is the longest suffix of everything fed that may begin a stop sequence; once something matched, the
   * release is the text seen by then cut at the earliest stop, and the match is the first listed one there.
   */
  lemma {:induction false} RunInvariant(stops: seq<Str>, pieces: seq<Str>)
    ensures RunFacts(stops, pieces, Run(stops, pieces))
    decreases |pieces|, 0
  {
    if pieces == [] {
      assert StopFree([], stops) && Keep([], stops) == 0;
    } else {
      RunStep(stops, pieces[..|pieces| - 1], pieces[|pieces| - 1]);
      InitLast(pieces);
    }
  }

  lemma {:induction false} RunStep(stops: seq<Str>, init: seq<Str>, t: Str)
    ensures RunFacts(stops, init + [t], Run(stops, init + [t]))
    decreases |init|, 1
  {
    RunInvariant(stops, init);
    RunSnoc(stops, init, t);
    ConcatSnoc(init, t);
    DetectedSnoc(stops, init, t);
    assert init[..|init|] == init;
    if Run(stops, init).filter.stopped {
      if StopFree(Concat(init + [t]), stops) {
        StopFreeLeft(Concat(init), t, stops);
      }
      var d := Detected(stops, init);
      assert (init + [t])[..d] == init[..d];
    } else {
      var before := Run(stops, init);
      assert (init + [t])[..|init| + 1] == init + [t];
      FeedWhileClear(stops, before.visible, before.filter, t);
    }
  }

  /** One Feed from a state that holds back the right suffix `f.pending` of the text `p + f.pending` seen so far. */
  lemma FeedWhileClear(stops: seq<Str>, p: Str, f: FilterState, t: Str)
    requires !f.stopped && StopFree(p + f.pending, stops) && |f.pending| == Keep(p + f.pending, stops)
    ensures var all, r := p + f.pending + t, FeedText(stops, f, t);
            && (r.next.stopped <==> !StopFree(all, stops))
            && (r.next.stopped ==>
                  && StopPos(all, stops) >= 0
                  && p + r.visible == all[..StopPos(all, stops)]
                  && r.matched == StopFound(all, stops)
                  && r.next.pending == [])
            && (!r.next.stopped ==>
                  p + r.visible + r.next.pending == all && |r.next.pending| == Keep(all, stops))
  {
    var q := f.pending;
    ScanFromPending(p, q, t, stops);
    KeepFromPending(p, q, t, stops);
    PlusAssoc(p, q, t);
    var r := FeedText(stops, f, t);
    if r.next.stopped {
      PlusTake(p, q + t, StopPos(q + t, stops));
    } else {
      TakeDrop(q + t, |q + t| - Keep(q + t, stops));
      PlusAssoc(p, r.visible, r.next.pending);
    }
  }

  /** What was released never contains a stop sequence. */
  lemma ReleasedIsStopFree(stops: seq<Str>, pieces: seq<Str>)
    ensures StopFree(Run(stops, pieces).visible, stops)
    ensures StopFree(Finish(stops, pieces).visible, stops)
  {
    RunInvariant(stops, pieces);
    var r := Run(stops, pieces);
    if r.filter.stopped {
      StopFreeBefore(SeenText(stops, pieces), stops);
    } else {
      StopFreeLeft(r.visible, r.filter.pending, stops);
    }
  }

  /** After a match, later Feeds and the Flush release nothing and report nothing. */
  lemma {:induction false} StoppedIsSilent(stops: seq<Str>, pieces: seq<Str>, more: seq<Str>)
    requires Run(stops, pieces).filter.stopped
    ensures Run(stops, pieces + more) == Run(stops, pieces) == Finish(stops, pieces + more)
  {
    if more == [] {
      assert pieces + more == pieces;
    } else {
      var init, t := more[..|more| - 1], more[|more| - 1];
      StoppedIsSilent(stops, pieces, init);
      InitLast(more);
      PlusAssoc(pieces, init, [t]);
      RunSnoc(stops, pieces + init, t);
    }
  }

  /**
   * Hold-back is optimal: as long as something is pending there is a next piece that makes a stop sequence match
   * exactly at the first pending byte, so releasing one more byte could leak part of a stop sequence.
   */
  lemma HoldBackIsOptimal(stops: seq<Str>, pieces: seq<Str>) returns (next: Str)
    requires Run(stops, pieces).filter.pending != []
    ensures var before, after := Run(stops, pieces), Run(stops, pieces + [next]);
            && after.filter.stopped
            && after.visible == before.visible
            && StopPos(Concat(pieces + [next]), stops) == |before.visible|
  {
    RunInvariant(stops, pieces);
    var p, q := Run(stops, pieces).visible, Run(stops, pieces).filter.pending;
    next := Completion(p, q, stops);
    ScanFromPending(p, q, next, stops);
    RunSnoc(stops, pieces, next);
    ConcatSnoc(pieces, next);
  }

  /** What completes the pending bytes to a stop sequence. */
  lemma Completion(p: Str, q: Str, stops: seq<Str>) returns (next: Str)
    requires q != [] && Keep(p + q, stops) == |q|
    ensures StopPos(q + next, stops) == 0
  {
    var k :| 0 <= k < |stops| && Begins(p + q, stops[k], |q|);
    next := stops[k][|q|..];
    assert (p + q)[|p + q| - |q|..] == q;
    assert q + next == stops[k];
    assert Hit(q + next, 0, stops[k]);
    assert StopAt(q + next, stops, 0);
  }
}
