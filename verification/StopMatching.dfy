/** Where stop sequences occur in a text: the reference notions behind the stop filter. */
module StopMatching {
  import opened Bytes

  /** A non-empty `s` occurs in `text` at byte offset `i`. */
  predicate Hit(text: Str, i: int, s: Str) {
    s != [] && 0 <= i && i + |s| <= |text| && text[i..i + |s|] == s
  }

  ghost predicate StopAt(text: Str, stops: seq<Str>, i: int) {
    exists k :: 0 <= k < |stops| && Hit(text, i, stops[k])
  }

  ghost predicate StopFree(text: Str, stops: seq<Str>) {
    forall i :: !StopAt(text, stops, i)
  }

  /** The least offset at or after `i` where a stop sequence occurs, or -1. */
  ghost function StopFrom(text: Str, stops: seq<Str>, i: nat): (r: int)
    requires i <= |text|
    ensures r < 0 ==> r == -1 && forall j :: i <= j ==> !StopAt(text, stops, j)
    ensures r >= 0 ==> i <= r <= |text| && StopAt(text, stops, r)
    ensures forall j :: i <= j < r ==> !StopAt(text, stops, j)
    decreases |text| - i
  {
    if StopAt(text, stops, i) then i
    else if i == |text| then -1
    else StopFrom(text, stops, i + 1)
  }

  /** The least offset where a stop sequence occurs, or -1 when none does. */
  ghost function StopPos(text: Str, stops: seq<Str>): (r: int)
    ensures r < 0 <==> StopFree(text, stops)
    ensures r < 0 ==> r == -1
    ensures r >= 0 ==> r <= |text| && StopAt(text, stops, r)
    ensures forall j :: j < r ==> !StopAt(text, stops, j)
  {
    StopFrom(text, stops, 0)
  }

  /** The index of the first listed stop sequence occurring at `i`. */
  ghost function FirstListed(text: Str, stops: seq<Str>, i: int): (k: nat)
    requires StopAt(text, stops, i)
    ensures k < |stops| && Hit(text, i, stops[k])
    ensures forall j :: 0 <= j < k ==> !Hit(text, i, stops[j])
  {
    FirstListedFrom(text, stops, i, 0)
  }

  ghost function FirstListedFrom(text: Str, stops: seq<Str>, i: int, from: nat): (k: nat)
    requires exists k :: from <= k < |stops| && Hit(text, i, stops[k])
    ensures from <= k < |stops| && Hit(text, i, stops[k])
    ensures forall j :: from <= j < k ==> !Hit(text, i, stops[j])
    decreases |stops| - from
  {
    if Hit(text, i, stops[from]) then from else FirstListedFrom(text, stops, i, from + 1)
  }

  /** The stop sequence a scan of the whole text reports: "" when there is none. */
  ghost function StopFound(text: Str, stops: seq<Str>): Str {
    if StopPos(text, stops) < 0 then [] else stops[FirstListed(text, stops, StopPos(text, stops))]
  }

  /** The last `n` bytes of `text` are a non-empty proper prefix of `s`. */
  predicate Begins(text: Str, s: Str, n: int) {
    0 < n < |s| && n <= |text| && text[|text| - n..] == s[..n]
  }

  ghost predicate MayBegin(text: Str, stops: seq<Str>, n: int) {
    exists k :: 0 <= k < |stops| && Begins(text, stops[k], n)
  }

  /** The greatest `m` no larger than `n` such that the last `m` bytes may begin a stop sequence, or 0. */
  ghost function KeepUpTo(text: Str, stops: seq<Str>, n: nat): (m: nat)
    ensures m <= n
    ensures m > 0 ==> MayBegin(text, stops, m)
    ensures forall j :: m < j <= n ==> !MayBegin(text, stops, j)
  {
    if n == 0 || MayBegin(text, stops, n) then n else KeepUpTo(text, stops, n - 1)
  }

  /** The length of the longest suffix of `text` that is a non-empty proper prefix of a stop sequence, or 0. */
  ghost function Keep(text: Str, stops: seq<Str>): (m: nat)
    ensures m <= |text|
    ensures m > 0 ==> MayBegin(text, stops, m)
    ensures forall j :: j > m ==> !MayBegin(text, stops, j)
  {
    KeepUpTo(text, stops, |text|)
  }

  /** Go's strings.Index. */
  function IndexOf(text: Str, s: Str, from: nat := 0): (r: int)
    requires s != [] && from <= |text|
    ensures r < 0 ==> forall i :: from <= i ==> !Hit(text, i, s)
    ensures r >= 0 ==> from <= r && Hit(text, r, s)
    ensures forall i :: from <= i < r ==> !Hit(text, i, s)
    decreases |text| - from
  {
    if Hit(text, from, s) then from
    else if from == |text| then -1
    else IndexOf(text, s, from + 1)
  }

  /** The list-major scan of the source finds what the text-major reference defines. */
  method EarliestStop(text: Str, stops: seq<Str>) returns (best: int, matched: Str)
    ensures best == StopPos(text, stops)
    ensures matched == StopFound(text, stops)
  {
    best, matched := -1, [];
    ghost var m := 0;
    for n := 0 to |stops|
      invariant -1 <= best
      invariant best < 0 ==> matched == [] && forall i, j :: 0 <= j < n ==> !Hit(text, i, stops[j])
      invariant best >= 0 ==> 0 <= m < n && matched == stops[m] && Hit(text, best, stops[m])
      invariant best >= 0 ==> forall i, j :: 0 <= j < n && i < best ==> !Hit(text, i, stops[j])
      invariant best >= 0 ==> forall j :: 0 <= j < m ==> !Hit(text, best, stops[j])
    {
      if stops[n] == [] {
        continue;
      }
      var index := IndexOf(text, stops[n]);
      if index >= 0 && (best < 0 || index < best) {
        best, matched, m := index, stops[n], n;
      }
    }
    if best >= 0 {
      assert StopAt(text, stops, best);
      assert StopPos(text, stops) == best;
    }
  }

  /** Occurrences only depend on the bytes they cover. */
  lemma HitShift(a: Str, b: Str, i: int, s: Str)
    ensures i >= 0 ==> (Hit(a + b, |a| + i, s) <==> Hit(b, i, s))
  {
    if i >= 0 && |a| + i + |s| <= |a + b| {
      assert (a + b)[|a| + i..|a| + i + |s|] == b[i..i + |s|];
    }
  }

  lemma HitInPrefix(a: Str, b: Str, i: int, s: Str)
    requires i + |s| <= |a|
    ensures Hit(a + b, i, s) <==> Hit(a, i, s)
  {
    if i >= 0 {
      assert (a + b)[i..i + |s|] == a[i..i + |s|];
    }
  }

  lemma StopAtInPrefix(a: Str, b: Str, stops: seq<Str>, i: int)
    requires StopAt(a, stops, i)
    ensures StopAt(a + b, stops, i)
  {
    var k :| 0 <= k < |stops| && Hit(a, i, stops[k]);
    HitInPrefix(a, b, i, stops[k]);
  }

  lemma StopAtInSuffix(a: Str, b: Str, stops: seq<Str>, i: int)
    requires StopAt(b, stops, i)
    ensures StopAt(a + b, stops, |a| + i)
  {
    var k :| 0 <= k < |stops| && Hit(b, i, stops[k]);
    HitShift(a, b, i, stops[k]);
  }

  /** Stopping is monotone: every text around a text that holds a stop sequence holds one. */
  lemma StopFreePart(a: Str, b: Str, c: Str, stops: seq<Str>)
    requires StopFree(a + b + c, stops)
    ensures StopFree(b, stops)
  {
    forall i ensures !StopAt(b, stops, i) {
      if StopAt(b, stops, i) {
        StopAtInSuffix(a, b, stops, i);
        StopAtInPrefix(a + b, c, stops, |a| + i);
      }
    }
  }

  /** A match that starts inside `a` either lies in `a` or has begun at the end of `a`. */
  lemma MatchStartedIn(a: Str, t: Str, stops: seq<Str>, i: int, k: nat)
    requires k < |stops| && i < |a| && Hit(a + t, i, stops[k])
    ensures StopAt(a, stops, i) || MayBegin(a, stops, |a| - i)
  {
    var s, n := stops[k], |a| - i;
    if |s| <= n {
      HitInPrefix(a, t, i, s);
    } else {
      assert (a + t)[i..i + |s|][..n] == (a + t)[i..|a|] == a[i..];
      assert Begins(a, s, n);
    }
  }

  lemma StopFreeLeft(a: Str, b: Str, stops: seq<Str>)
    requires StopFree(a + b, stops)
    ensures StopFree(a, stops)
  {
    assert [] + a + b == a + b;
    StopFreePart([], a, b, stops);
  }

  /** What lies before the earliest stop holds none. */
  lemma StopFreeBefore(text: Str, stops: seq<Str>)
    requires StopPos(text, stops) >= 0
    ensures StopFree(text[..StopPos(text, stops)], stops)
  {
    var i := StopPos(text, stops);
    assert text == text[..i] + text[i..];
    forall j ensures !StopAt(text[..i], stops, j) {
      if j >= i {
        NoMatchAtEnd(text[..i], stops, j);
      } else if StopAt(text[..i], stops, j) {
        StopAtInPrefix(text[..i], text[i..], stops, j);
        assert false;
      }
    }
  }

  lemma NoMatchAtEnd(text: Str, stops: seq<Str>, j: int)
    requires j >= |text|
    ensures !StopAt(text, stops, j)
  {
  }

  /**
   * The heart of the online matcher: when `q` is the longest suffix of `p + q` that may still begin a stop
   * sequence, and nothing has matched so far, every later match starts inside `q` or after it.
   */
  lemma MatchesStartInPending(p: Str, q: Str, t: Str, stops: seq<Str>, i: int, k: nat)
    requires StopFree(p + q, stops) && Keep(p + q, stops) == |q|
    requires k < |stops|
    ensures Hit(p + q + t, i, stops[k]) <==> i >= |p| && Hit(q + t, i - |p|, stops[k])
  {
    if i >= |p| {
      PlusAssoc(p, q, t);
      HitShift(p, q + t, i - |p|, stops[k]);
    } else {
      NoMatchBeforePending(p + q, t, stops, i, k);
    }
  }

  lemma NoMatchBeforePending(a: Str, t: Str, stops: seq<Str>, i: int, k: nat)
    requires StopFree(a, stops) && Keep(a, stops) < |a| - i && k < |stops|
    ensures !Hit(a + t, i, stops[k])
  {
    if Hit(a + t, i, stops[k]) {
      MatchStartedIn(a, t, stops, i, k);
    }
  }

  /** Two texts whose matches differ only by an offset `d`. */
  ghost predicate SameMatches(a: Str, b: Str, d: nat, stops: seq<Str>) {
    forall i, k :: 0 <= k < |stops| ==> (Hit(a, i, stops[k]) <==> i >= d && Hit(b, i - d, stops[k]))
  }

  lemma ScanShift(a: Str, b: Str, d: nat, stops: seq<Str>)
    requires SameMatches(a, b, d, stops)
    ensures StopFree(b, stops) <==> StopFree(a, stops)
    ensures StopPos(b, stops) >= 0 ==> StopPos(a, stops) == d + StopPos(b, stops)
    ensures StopFound(b, stops) == StopFound(a, stops)
  {
    var r, w := StopPos(b, stops), StopPos(a, stops);
    if r >= 0 {
      StopAtMoves(a, b, d, stops, r);
    }
    if w >= 0 {
      StopAtMovesBack(a, b, d, stops, w);
    }
    if r >= 0 && w >= 0 {
      FirstListedMoves(a, b, d, stops, w);
    }
  }

  lemma StopAtMovesBack(a: Str, b: Str, d: nat, stops: seq<Str>, i: int)
    requires SameMatches(a, b, d, stops) && StopAt(a, stops, i)
    ensures i >= d && StopAt(b, stops, i - d)
  {
    var k := FirstListed(a, stops, i);
    assert Hit(b, i - d, stops[k]);
  }

  lemma StopAtMoves(a: Str, b: Str, d: nat, stops: seq<Str>, i: nat)
    requires SameMatches(a, b, d, stops) && StopAt(b, stops, i)
    ensures StopAt(a, stops, d + i)
  {
    var k := FirstListed(b, stops, i);
    assert Hit(b, d + i - d, stops[k]);
    assert Hit(a, d + i, stops[k]);
  }

  lemma FirstListedMoves(a: Str, b: Str, d: nat, stops: seq<Str>, i: int)
    requires SameMatches(a, b, d, stops) && StopAt(a, stops, i) && StopAt(b, stops, i - d)
    ensures FirstListed(a, stops, i) == FirstListed(b, stops, i - d)
  {
    var k, m := FirstListed(b, stops, i - d), FirstListed(a, stops, i);
    assert Hit(a, i, stops[k]) <==> i >= d && Hit(b, i - d, stops[k]);
    assert Hit(a, i, stops[m]) <==> i >= d && Hit(b, i - d, stops[m]);
  }

  /** Scanning what is pending plus the new text finds exactly what scanning everything would find. */
  lemma ScanFromPending(p: Str, q: Str, t: Str, stops: seq<Str>)
    requires StopFree(p + q, stops) && Keep(p + q, stops) == |q|
    ensures StopFree(q + t, stops) <==> StopFree(p + q + t, stops)
    ensures StopPos(q + t, stops) >= 0 ==> StopPos(p + q + t, stops) == |p| + StopPos(q + t, stops)
    ensures StopFound(q + t, stops) == StopFound(p + q + t, stops)
  {
    forall i, k | 0 <= k < |stops|
      ensures Hit(p + q + t, i, stops[k]) <==> i >= |p| && Hit(q + t, i - |p|, stops[k])
    {
      MatchesStartInPending(p, q, t, stops, i, k);
    }
    ScanShift(p + q + t, q + t, |p|, stops);
  }

  lemma BeginsShift(p: Str, q: Str, s: Str, n: int)
    requires n <= |q|
    ensures Begins(p + q, s, n) <==> Begins(q, s, n)
  {
    if 0 < n {
      assert (p + q)[|p + q| - n..] == q[|q| - n..];
    }
  }

  lemma BegunBefore(a: Str, t: Str, stops: seq<Str>, n: int)
    requires MayBegin(a + t, stops, n) && n > |t|
    ensures MayBegin(a, stops, n - |t|)
  {
    var k :| 0 <= k < |stops| && Begins(a + t, stops[k], n);
    assert a[|a| - (n - |t|)..] == (a + t)[|a + t| - n..][..n - |t|];
    assert Begins(a, stops[k], n - |t|);
  }

  lemma MayBeginFromPending(p: Str, q: Str, t: Str, stops: seq<Str>, n: int)
    requires Keep(p + q, stops) == |q|
    ensures MayBegin(p + q + t, stops, n) <==> MayBegin(q + t, stops, n)
  {
    assert p + q + t == p + (q + t);
    if MayBegin(q + t, stops, n) {
      var k :| 0 <= k < |stops| && Begins(q + t, stops[k], n);
      BeginsShift(p, q + t, stops[k], n);
    }
    if MayBegin(p + q + t, stops, n) {
      if n > |q + t| {
        BegunBefore(p + q, t, stops, n);
        assert false;
      }
      var k :| 0 <= k < |stops| && Begins(p + q + t, stops[k], n);
      BeginsShift(p, q + t, stops[k], n);
    }
  }

  /** What is held back after more text is also decided by the pending text alone. */
  lemma KeepFromPending(p: Str, q: Str, t: Str, stops: seq<Str>)
    requires Keep(p + q, stops) == |q|
    ensures Keep(q + t, stops) == Keep(p + q + t, stops)
  {
    var x, y := Keep(q + t, stops), Keep(p + q + t, stops);
    MayBeginFromPending(p, q, t, stops, x);
    MayBeginFromPending(p, q, t, stops, y);
  }
}
