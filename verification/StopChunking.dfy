/** How the outcome of the stop filter depends on where the upstream cuts the text. */
module StopChunking {
  import opened Bytes
  import opened StopMatching
  import opened StopFilter

  /** Every proper prefix of a stop sequence that holds a stop sequence holds one at its very start. */
  ghost predicate StopsEarly(stops: seq<Str>) {
    forall k, n :: 0 <= k < |stops| && 0 <= n < |stops[k]| ==> PrefixStopsEarly(stops, stops[k], n)
  }

  ghost predicate PrefixStopsEarly(stops: seq<Str>, s: Str, n: nat)
    requires n < |s|
  {
    !StopFree(s[..n], stops) ==> StopPos(s[..n], stops) == 0
  }

  /** Moreover the first listed stop there is the one found at the start of the whole stop sequence. */
  ghost predicate StopsAlike(stops: seq<Str>) {
    forall k, n :: 0 <= k < |stops| && 0 <= n < |stops[k]| ==> PrefixStopsAlike(stops, stops[k], n)
  }

  ghost predicate PrefixStopsAlike(stops: seq<Str>, s: Str, n: nat)
    requires n < |s|
  {
    !StopFree(s[..n], stops) ==> StopFound(s[..n], stops) == StopFound(s, stops)
  }

  ghost predicate SameVisible(stops: seq<Str>, a: seq<Str>, b: seq<Str>) {
    Finish(stops, a).visible == Finish(stops, b).visible
  }

  ghost predicate SameMatch(stops: seq<Str>, a: seq<Str>, b: seq<Str>) {
    Finish(stops, a).matched == Finish(stops, b).matched
  }

  /** Any two cuts of the same text show the same text. */
  ghost predicate VisibleIndependent(stops: seq<Str>) {
    forall a, b {:trigger SameVisible(stops, a, b)} :: Concat(a) == Concat(b) ==> SameVisible(stops, a, b)
  }

  ghost predicate MatchIndependent(stops: seq<Str>) {
    forall a, b {:trigger SameMatch(stops, a, b)} :: Concat(a) == Concat(b) ==> SameMatch(stops, a, b)
  }

  lemma FinishFacts(stops: seq<Str>, pieces: seq<Str>)
    ensures var all, seen, r := Concat(pieces), SeenText(stops, pieces), Finish(stops, pieces);
            && seen <= all
            && (StopFree(all, stops) ==> r.visible == all && r.matched == [])
            && (!StopFree(all, stops) ==>
                  && StopPos(seen, stops) >= 0
                  && r.visible == seen[..StopPos(seen, stops)]
                  && r.matched == StopFound(seen, stops) != [])
  {
    RunInvariant(stops, pieces);
    ConcatPrefix(pieces, Detected(stops, pieces), |pieces|);
    assert pieces[..|pieces|] == pieces;
  }

  /** Whether a stop sequence is found never depends on the cuts. */
  lemma WhetherStopsIndependent(stops: seq<Str>, a: seq<Str>, b: seq<Str>)
    requires Concat(a) == Concat(b)
    ensures Finish(stops, a).matched != [] <==> Finish(stops, b).matched != []
    ensures Finish(stops, a).matched != [] <==> !StopFree(Concat(a), stops)
  {
    FinishFacts(stops, a);
    FinishFacts(stops, b);
  }

  /** A match of `stops[k]` that runs over the end of `a` leaves a proper prefix of it at the end of `a`. */
  lemma Overrun(a: Str, c: Str, stops: seq<Str>, p: int, k: nat)
    requires k < |stops| && Hit(a + c, p, stops[k]) && p <= |a| < p + |stops[k]|
    ensures a == a[..p] + stops[k][..|a| - p]
  {
    var s := stops[k];
    assert s[..|a| - p] == (a + c)[p..p + |s|][..|a| - p] == (a + c)[p..|a|] == a[p..];
    TakeDrop(a, p);
  }

  lemma PrefixKeepsStop(a: Str, c: Str, stops: seq<Str>)
    requires !StopFree(a, stops)
    ensures 0 <= StopPos(a + c, stops) <= StopPos(a, stops)
  {
    StopAtInPrefix(a, c, stops, StopPos(a, stops));
  }

  /** With early stops, more text does not move the earliest stop. */
  lemma PositionStable(a: Str, c: Str, stops: seq<Str>)
    requires StopsEarly(stops) && !StopFree(a, stops)
    ensures StopPos(a + c, stops) == StopPos(a, stops)
  {
    PrefixKeepsStop(a, c, stops);
    var p := StopPos(a + c, stops);
    StartIsSeen(a, c, stops, p, FirstListed(a + c, stops, p));
  }

  lemma StartIsSeen(a: Str, c: Str, stops: seq<Str>, p: nat, k: nat)
    requires StopsEarly(stops) && p <= StopPos(a, stops)
    requires k < |stops| && Hit(a + c, p, stops[k])
    ensures StopAt(a, stops, p)
  {
    if p + |stops[k]| <= |a| {
      HitInPrefix(a, c, p, stops[k]);
    } else {
      Overrun(a, c, stops, p, k);
      StartOfCutStop(a[..p], stops, k, |a| - p);
    }
  }

  lemma StartOfCutStop(u: Str, stops: seq<Str>, k: nat, n: nat)
    requires StopsEarly(stops) && k < |stops| && n < |stops[k]|
    requires StopPos(u + stops[k][..n], stops) >= |u|
    ensures StopAt(u + stops[k][..n], stops, |u|)
  {
    var w := stops[k][..n];
    StopAtAfter(u, w, stops, StopPos(u + w, stops));
    assert PrefixStopsEarly(stops, stops[k], n);
    StopAtInSuffix(u, w, stops, 0);
  }

  lemma StopAtAfter(a: Str, b: Str, stops: seq<Str>, q: int)
    requires StopAt(a + b, stops, q) && q >= |a|
    ensures StopAt(b, stops, q - |a|)
  {
    var j :| 0 <= j < |stops| && Hit(a + b, q, stops[j]);
    HitShift(a, b, q - |a|, stops[j]);
  }

  /** With stops that are alike as well, more text does not change which stop is reported either. */
  lemma NameStable(a: Str, c: Str, stops: seq<Str>)
    requires StopsEarly(stops) && StopsAlike(stops) && !StopFree(a, stops)
    ensures StopFound(a + c, stops) == StopFound(a, stops)
  {
    PositionStable(a, c, stops);
    var p := StopPos(a, stops);
    var j, k := FirstListed(a, stops, p), FirstListed(a + c, stops, p);
    HitInPrefix(a, c, p, stops[j]);
    FoundEndsInside(a, c, stops, p, k);
    HitInPrefix(a, c, p, stops[k]);
    assert j == k;
  }

  lemma FoundEndsInside(a: Str, c: Str, stops: seq<Str>, p: nat, k: nat)
    requires StopsAlike(stops)
    requires StopPos(a, stops) == p == StopPos(a + c, stops) && FirstListed(a + c, stops, p) == k
    ensures p + |stops[k]| <= |a|
  {
    if p + |stops[k]| > |a| {
      var u, rest := SplitAtOverrun(a, c, stops, p, k);
      NameOfCutStop(u, stops, k, |a| - p, rest, a, a + c);
    }
  }

  lemma SplitAtOverrun(a: Str, c: Str, stops: seq<Str>, p: nat, k: nat) returns (u: Str, rest: Str)
    requires k < |stops| && Hit(a + c, p, stops[k]) && p <= |a| < p + |stops[k]|
    ensures |u| == p && a == u + stops[k][..|a| - p] && a + c == u + stops[k] + rest
  {
    Overrun(a, c, stops, p, k);
    SuffixStartsWith(a + c, p, stops[k]);
    PlusTakeLeft(a, c, p);
    u, rest := a[..p], (a + c)[p + |stops[k]|..];
  }

  lemma NameOfCutStop(u: Str, stops: seq<Str>, k: nat, n: nat, rest: Str, a: Str, all: Str)
    requires StopsAlike(stops) && k < |stops| && n <= |stops[k]|
    requires a == u + stops[k][..n] && all == u + stops[k] + rest
    requires StopAt(all, stops, |u|) && FirstListed(all, stops, |u|) == k
    requires StopPos(a, stops) == |u|
    ensures n == |stops[k]|
  {
    FirstListedShift(u, stops[k][..n], stops);
    if n < |stops[k]| {
      assert PrefixStopsAlike(stops, stops[k], n);
      FirstListedOfItself(u, stops, k, rest);
    }
  }

  lemma SuffixStartsWith(text: Str, p: nat, s: Str)
    requires Hit(text, p, s)
    ensures text == text[..p] + s + text[p + |s|..]
  {
  }

  lemma FirstListedShift(a: Str, w: Str, stops: seq<Str>)
    requires StopPos(a + w, stops) == |a|
    ensures StopPos(w, stops) == 0 && StopFound(w, stops) == StopFound(a + w, stops)
  {
    StopAtAfter(a, w, stops, |a|);
    assert StopPos(w, stops) == 0;
    var j, m := FirstListed(a + w, stops, |a|), FirstListed(w, stops, 0);
    HitShift(a, w, 0, stops[j]);
    HitShift(a, w, 0, stops[m]);
    assert j == m;
  }

  lemma FirstListedOfItself(a: Str, stops: seq<Str>, k: nat, rest: Str)
    requires k < |stops| && stops[k] != []
    requires StopAt(a + stops[k] + rest, stops, |a|) && FirstListed(a + stops[k] + rest, stops, |a|) == k
    ensures StopPos(stops[k], stops) == 0 && StopFound(stops[k], stops) == stops[k]
  {
    var s := stops[k];
    assert Hit(s, 0, s);
    assert StopAt(s, stops, 0);
    var m := FirstListed(s, stops, 0);
    HitInPrefix(s, rest, 0, stops[m]);
    HitShift(a, s + rest, 0, stops[m]);
    PlusAssoc(a, s, rest);
    assert m == k;
  }

  lemma CutStable(seen: Str, rest: Str, stops: seq<Str>)
    requires StopsEarly(stops) && !StopFree(seen, stops)
    ensures StopPos(seen + rest, stops) >= 0
    ensures (seen + rest)[..StopPos(seen + rest, stops)] == seen[..StopPos(seen, stops)]
    ensures StopsAlike(stops) ==> StopFound(seen + rest, stops) == StopFound(seen, stops)
  {
    PositionStable(seen, rest, stops);
    if StopsAlike(stops) {
      NameStable(seen, rest, stops);
    }
  }

  ghost function CutAtStop(text: Str, stops: seq<Str>): Str {
    if StopPos(text, stops) < 0 then text else text[..StopPos(text, stops)]
  }

  /** With early stops the visible text is the whole text cut at its earliest stop, however it was cut into pieces. */
  lemma VisibleIsCutText(stops: seq<Str>, pieces: seq<Str>)
    requires StopsEarly(stops)
    ensures Finish(stops, pieces).visible == CutAtStop(Concat(pieces), stops)
    ensures StopsAlike(stops) ==> Finish(stops, pieces).matched == StopFound(Concat(pieces), stops)
  {
    FinishFacts(stops, pieces);
    var all, seen := Concat(pieces), SeenText(stops, pieces);
    if !StopFree(all, stops) {
      CutStable(seen, all[|seen|..], stops);
      PrefixSplit(seen, all);
    }
  }

  lemma FirstPieceStops(stops: seq<Str>, x: Str, rest: seq<Str>)
    requires !StopFree(x, stops)
    ensures Finish(stops, [x] + rest).visible == x[..StopPos(x, stops)]
    ensures Finish(stops, [x] + rest).matched == StopFound(x, stops)
  {
    var pieces := [x] + rest;
    assert pieces[..0] == [] && pieces[..1] == [x];
    ConcatOne(x);
    assert ClearUpTo(stops, pieces, 0) && !ClearUpTo(stops, pieces, 1);
    assert Detected(stops, pieces) == 1;
    ConcatPrefix(pieces, 1, |pieces|);
    assert pieces[..|pieces|] == pieces;
    FinishFacts(stops, pieces);
    PrefixSplit(x, Concat(pieces));
    PrefixKeepsStop(x, Concat(pieces)[|x|..], stops);
  }

  /** The two cuts of a stop sequence that tell a bad list apart: all of it at once, or a prefix first. */
  lemma CutTwoWays(stops: seq<Str>, k: nat, n: nat)
    requires k < |stops| && n < |stops[k]| && !StopFree(stops[k][..n], stops)
    ensures var s := stops[k];
            && Concat([s]) == Concat([s[..n], s[n..]]) == s
            && Finish(stops, [s]).visible == []
            && Finish(stops, [s[..n], s[n..]]).visible == s[..n][..StopPos(s[..n], stops)]
            && (SameVisible(stops, [s], [s[..n], s[n..]]) <==> StopPos(s[..n], stops) == 0)
            && (SameMatch(stops, [s], [s[..n], s[n..]]) <==> StopFound(s[..n], stops) == StopFound(s, stops))
  {
    var s := stops[k];
    assert Hit(s, 0, s);
    assert StopAt(s, stops, 0) && StopPos(s, stops) == 0;
    FirstPieceStops(stops, s, []);
    FirstPieceStops(stops, s[..n], [s[n..]]);
    assert [s] + [] == [s] && [s[..n]] + [s[n..]] == [s[..n], s[n..]];
    ConcatOne(s);
    ConcatOne(s[..n]);
    ConcatSnoc([s[..n]], s[n..]);
    TakeDrop(s, n);
  }

  lemma UseIndependence(stops: seq<Str>, a: seq<Str>, b: seq<Str>)
    requires Concat(a) == Concat(b)
    ensures VisibleIndependent(stops) ==> SameVisible(stops, a, b)
    ensures MatchIndependent(stops) ==> SameMatch(stops, a, b)
  {
  }

  lemma IndependenceNeeds(stops: seq<Str>, k: nat, n: nat)
    requires k < |stops| && n < |stops[k]|
    ensures VisibleIndependent(stops) ==> PrefixStopsEarly(stops, stops[k], n)
    ensures MatchIndependent(stops) ==> PrefixStopsAlike(stops, stops[k], n)
  {
    var s := stops[k];
    if !StopFree(s[..n], stops) {
      CutTwoWays(stops, k, n);
      UseIndependence(stops, [s], [s[..n], s[n..]]);
    }
  }

  /** Exactly when the visible text does not depend on the cuts. */
  lemma VisibleIndependentExactly(stops: seq<Str>)
    ensures VisibleIndependent(stops) <==> StopsEarly(stops)
  {
    if StopsEarly(stops) {
      forall a, b | Concat(a) == Concat(b) ensures SameVisible(stops, a, b) {
        VisibleIsCutText(stops, a);
        VisibleIsCutText(stops, b);
      }
    }
    if VisibleIndependent(stops) {
      forall k, n | 0 <= k < |stops| && 0 <= n < |stops[k]| ensures PrefixStopsEarly(stops, stops[k], n) {
        IndependenceNeeds(stops, k, n);
      }
    }
  }

  /** Exactly when neither the visible text nor the reported stop sequence depends on the cuts. */
  lemma OutcomeIndependentExactly(stops: seq<Str>)
    ensures VisibleIndependent(stops) && MatchIndependent(stops) <==> StopsEarly(stops) && StopsAlike(stops)
  {
    VisibleIndependentExactly(stops);
    if StopsEarly(stops) && StopsAlike(stops) {
      forall a, b | Concat(a) == Concat(b) ensures SameMatch(stops, a, b) {
        VisibleIsCutText(stops, a);
        VisibleIsCutText(stops, b);
      }
    }
    if MatchIndependent(stops) {
      forall k, n | 0 <= k < |stops| && 0 <= n < |stops[k]| ensures PrefixStopsAlike(stops, stops[k], n) {
        IndependenceNeeds(stops, k, n);
      }
    }
  }

  /** No stop sequence occurs strictly inside another: at a positive offset, ending before its end. */
  ghost predicate NoneInside(stops: seq<Str>) {
    forall j, k, i :: 0 <= j < |stops| && 0 <= k < |stops| && 0 < i && i + |stops[j]| < |stops[k]| ==>
      !Hit(stops[k], i, stops[j])
  }

  ghost predicate NoProperPrefix(stops: seq<Str>) {
    forall j, k :: 0 <= j < |stops| && 0 <= k < |stops| && stops[j] != [] ==> !(stops[j] < stops[k])
  }

  /** The easily checked list shapes that are enough. */
  lemma SimpleListsAreIndependent(stops: seq<Str>)
    requires NoneInside(stops)
    ensures VisibleIndependent(stops)
    ensures NoProperPrefix(stops) ==> MatchIndependent(stops)
  {
    forall k, n | 0 <= k < |stops| && 0 <= n < |stops[k]|
      ensures PrefixStopsEarly(stops, stops[k], n)
      ensures NoProperPrefix(stops) ==> PrefixStopsAlike(stops, stops[k], n)
    {
      var s := stops[k];
      if !StopFree(s[..n], stops) {
        var i := StopPos(s[..n], stops);
        var j := FirstListed(s[..n], stops, i);
        TakeDrop(s, n);
        HitInPrefix(s[..n], s[n..], i, stops[j]);
        assert i == 0;
        assert stops[j] < s;
      }
    }
    VisibleIndependentExactly(stops);
    OutcomeIndependentExactly(stops);
  }

  const A: Str := [97]
  const BC: Str := [98, 99]
  const ABC: Str := [97, 98, 99]
  const D: Str := [100]
  const ABCD: Str := [97, 98, 99, 100]

  /** The cuts matter in general: with stops "abcd" and "bc", "abc" + "d" shows "a" and "abcd" shows nothing. */
  lemma CutsMatter()
    ensures Concat([ABCD]) == Concat([ABC, D])
    ensures Finish([ABCD, BC], [ABCD]).visible == [] && Finish([ABCD, BC], [ABC, D]).visible == A
  {
    var stops := [ABCD, BC];
    assert ABCD[..3] == ABC && ABCD[3..] == D;
    InsideABC(stops);
    CutTwoWays(stops, 0, 3);
  }

  lemma InsideABC(stops: seq<Str>)
    requires stops == [ABCD, BC]
    ensures StopPos(ABC, stops) == 1 && ABC[..1] == A
  {
    assert ABC[1..3] == BC && ABC[0..2] == [97, 98];
    assert Hit(ABC, 1, stops[1]);
    assert StopAt(ABC, stops, 1);
    assert !Hit(ABC, 0, stops[0]) && !Hit(ABC, 0, stops[1]);
    assert !StopAt(ABC, stops, 0);
  }
}
