/** Well-formed UTF-8 (section 3 of RFC 3629) and why a byte-level filter never splits a code point. */
module Utf8 {
  import opened Bytes
  import opened StopMatching
  import opened StopFilter

  predicate Tail(b: Byte) {
    0x80 <= b <= 0xBF
  }

  /** The length of the well-formed character at the start of `t` (section 4 of RFC 3629), or 0. */
  function CharLength(t: Str): (n: nat)
    ensures n <= |t|
    ensures n > 0 ==> !Tail(t[0]) && forall i :: 0 < i < n ==> Tail(t[i])
  {
    if |t| >= 1 && t[0] <= 0x7F then 1
    else if |t| >= 2 && 0xC2 <= t[0] <= 0xDF && Tail(t[1]) then 2
    else if |t| >= 3 && Tail(t[1]) && Tail(t[2])
            && (|| (t[0] == 0xE0 && 0xA0 <= t[1])
                || 0xE1 <= t[0] <= 0xEC
                || (t[0] == 0xED && t[1] <= 0x9F)
                || 0xEE <= t[0] <= 0xEF) then 3
    else if |t| >= 4 && Tail(t[1]) && Tail(t[2]) && Tail(t[3])
            && (|| (t[0] == 0xF0 && 0x90 <= t[1])
                || 0xF1 <= t[0] <= 0xF3
                || (t[0] == 0xF4 && t[1] <= 0x8F)) then 4
    else 0
  }

  predicate WellFormed(t: Str)
    decreases |t|
  {
    t == [] || (CharLength(t) > 0 && WellFormed(t[CharLength(t)..]))
  }

  lemma CharLengthExtends(a: Str, b: Str)
    requires CharLength(a) > 0
    ensures CharLength(a + b) == CharLength(a)
  {
  }

  lemma CharLengthTake(t: Str, i: nat)
    requires CharLength(t) <= i <= |t|
    ensures CharLength(t[..i]) == CharLength(t) || CharLength(t) == 0
  {
  }

  lemma {:induction false} WellFormedConcat(a: Str, b: Str)
    requires WellFormed(a) && WellFormed(b)
    ensures WellFormed(a + b)
    decreases |a|
  {
    if a == [] {
      assert a + b == b;
    } else {
      var n := CharLength(a);
      CharLengthExtends(a, b);
      WellFormedConcat(a[n..], b);
      PlusDropLeft(a, b, n);
    }
  }

  /** A cut before a byte that is not a tail byte is a cut between characters. */
  lemma {:induction false} CutBetweenCharacters(t: Str, i: nat)
    requires WellFormed(t) && i <= |t| && (i < |t| ==> !Tail(t[i]))
    ensures WellFormed(t[..i]) && WellFormed(t[i..])
    decreases |t|
  {
    if i == |t| {
      assert t[..i] == t;
    } else if i > 0 {
      var n := CharLength(t);
      assert n <= i;
      CharLengthTake(t, i);
      CutBetweenCharacters(t[n..], i - n);
      assert t[..i][n..] == t[n..][..i - n];
      assert t[i..] == t[n..][i - n..];
    }
  }

  lemma StartsCharacter(s: Str)
    requires WellFormed(s) && s != []
    ensures !Tail(s[0])
  {
  }

  ghost predicate AllWellFormed(texts: seq<Str>) {
    forall i :: 0 <= i < |texts| ==> WellFormed(texts[i])
  }

  /** A match begins a character, and so does text that may still become a match. */
  lemma StopsStartCharacters(text: Str, stops: seq<Str>)
    requires AllWellFormed(stops)
    ensures StopPos(text, stops) >= 0 ==> StopPos(text, stops) < |text| && !Tail(text[StopPos(text, stops)])
    ensures Keep(text, stops) > 0 ==> !Tail(text[|text| - Keep(text, stops)])
  {
    var i, n := StopPos(text, stops), Keep(text, stops);
    if i >= 0 {
      var s := stops[FirstListed(text, stops, i)];
      StartsCharacter(s);
      assert text[i] == text[i..i + |s|][0];
    }
    if n > 0 {
      var k :| 0 <= k < |stops| && Begins(text, stops[k], n);
      StartsCharacter(stops[k]);
      assert text[|text| - n] == text[|text| - n..][0] == stops[k][..n][0];
    }
  }

  lemma FeedKeepsCharacters(stops: seq<Str>, f: FilterState, text: Str)
    requires AllWellFormed(stops) && WellFormed(f.pending) && WellFormed(text)
    ensures WellFormed(FeedText(stops, f, text).visible)
    ensures WellFormed(FeedText(stops, f, text).next.pending)
  {
    var combined := f.pending + text;
    WellFormedConcat(f.pending, text);
    StopsStartCharacters(combined, stops);
    CutBetweenCharacters(combined, |combined| - Keep(combined, stops));
    if StopPos(combined, stops) >= 0 {
      CutBetweenCharacters(combined, StopPos(combined, stops));
    }
  }

  lemma {:induction false} RunKeepsCharacters(stops: seq<Str>, pieces: seq<Str>)
    requires AllWellFormed(stops) && AllWellFormed(pieces)
    ensures WellFormed(Run(stops, pieces).visible)
    ensures WellFormed(Run(stops, pieces).filter.pending)
  {
    if pieces != [] {
      var init, t := pieces[..|pieces| - 1], pieces[|pieces| - 1];
      RunKeepsCharacters(stops, init);
      var before := Run(stops, init);
      FeedKeepsCharacters(stops, before.filter, t);
      WellFormedConcat(before.visible, FeedText(stops, before.filter, t).visible);
    }
  }

  /**
   * Whole runs: everything released, what each Feed releases and what the Flush releases are well-formed, although
   * every cut is made at a byte offset.
   */
  lemma CodePointsAreNeverSplit(stops: seq<Str>, pieces: seq<Str>, i: nat)
    requires AllWellFormed(stops) && AllWellFormed(pieces) && i < |pieces|
    ensures WellFormed(FeedText(stops, Run(stops, pieces[..i]).filter, pieces[i]).visible)
    ensures WellFormed(Run(stops, pieces).filter.pending)
    ensures WellFormed(Finish(stops, pieces).visible)
  {
    RunKeepsCharacters(stops, pieces[..i]);
    FeedKeepsCharacters(stops, Run(stops, pieces[..i]).filter, pieces[i]);
    RunKeepsCharacters(stops, pieces);
    WellFormedConcat(Run(stops, pieces).visible, Run(stops, pieces).filter.pending);
  }
}
