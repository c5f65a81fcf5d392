/** Folding a turn in two goes: exactly when it gives what folding it at once gives. */
module FoldAlgebra {
  import opened Bytes
  import opened RequestModel
  import opened FoldSupplements

  /** Tool results followed by supplemental content. */
  ghost predicate Mixed(parts: seq<OutPart>) {
    HasResponse(parts) && !AllResponses(parts)
  }

  lemma NoOffenceNoResponse(ss: seq<OutPart>, supplementing: bool)
    requires Offences(ss, supplementing) == None
    ensures !HasResponse(ss)
  {
    NoOffences(ss, supplementing);
  }

  /** Plain content before tool results is refused, folded or not. */
  lemma ContentThenResult(a: seq<OutPart>, b: seq<OutPart>)
    requires a != [] && !HasResponse(a) && b != [] && b[0].ResponsePart?
    ensures Fold(a + b) == Err(ResultAfterSupplement)
  {
    FoldShape([], a + b);
    NothingBefore(a + b);
    NoOffences(a, false);
    OffencesAppend(a, b, false);
    FirstOffends(b, false);
  }

  lemma {:induction false} FirstOffends(b: seq<OutPart>, supplementing: bool)
    requires b != [] && b[0].ResponsePart?
    ensures Offences(b, supplementing) == Some(ResultAfterSupplement)
  {
    if |b| > 1 {
      FirstOffends(b[..|b| - 1], supplementing);
    } else {
      assert b[..0] == [];
    }
  }

  /** Results, then content, then results again is refused. */
  lemma ResultAfterMixed(rs: seq<OutPart>, ss: seq<OutPart>, b: seq<OutPart>)
    requires rs != [] && AllResponses(rs) && ss != [] && !ss[0].ResponsePart? && Offences(ss, true) == None
    requires b != [] && b[0].ResponsePart?
    ensures Fold(rs + ss + b) == Err(ResultAfterSupplement)
  {
    PlusAssoc(rs, ss, b);
    assert (ss + b)[0] == ss[0];
    FoldShape(rs, ss + b);
    OffencesAppend(ss, b, true);
    FirstOffends(b, true);
  }

  /** More results after results alone: only the last one takes up what follows. */
  lemma ResultsThenTurn(a: seq<OutPart>, rs: seq<OutPart>, ss: seq<OutPart>)
    requires AllResponses(a) && rs != [] && AllResponses(rs) && (ss != [] ==> !ss[0].ResponsePart?)
    requires Fold(rs + ss).Ok?
    ensures Fold(a + (rs + ss)) == Ok(a + Fold(rs + ss).value)
    ensures Fold(a + Fold(rs + ss).value) == Fold(a + (rs + ss))
  {
    PlusAssoc(a, rs, ss);
    FoldShape(rs, ss);
    FoldShape(a + rs, ss);
    var last := [Absorb(rs[|rs| - 1], ss)];
    PlusTake(a, rs, |rs| - 1);
    PlusAssoc(a, rs[..|rs| - 1], last);
    ResponsesFold(a + Fold(rs + ss).value);
  }

  /** More supplements after a mixed turn go where the first ones went. */
  lemma MixedThenContent(rs: seq<OutPart>, ss: seq<OutPart>, b: seq<OutPart>)
    requires rs != [] && AllResponses(rs) && ss != [] && !ss[0].ResponsePart? && Offences(ss, true) == None
    requires !HasResponse(b)
    ensures Fold(rs + ss).Ok? && Fold(Fold(rs + ss).value + b) == Fold(rs + ss + b)
  {
    var init, r := rs[..|rs| - 1], rs[|rs| - 1];
    PlusAssoc(rs, ss, b);
    assert (ss + b)[0] == ss[0];
    FoldShape(rs, ss);
    FoldShape(rs, ss + b);
    OffencesAppend(ss, b, true);
    var f := init + [Absorb(r, ss)];
    FoldShape(f, b);
    SnocInit(init, Absorb(r, ss));
    AbsorbTwice(r, ss, b);
  }

  /** Whenever the whole turn is accepted, so are both halves, and no tool result follows supplemental content. */
  lemma HalvesAreAccepted(a: seq<OutPart>, b: seq<OutPart>)
    requires Fold(a + b).Ok?
    ensures Fold(a).Ok? && Fold(b).Ok? && !(Mixed(a) && HasResponse(b))
  {
    var ra, sa := Split(a);
    var rb, sb := Split(b);
    FoldShape(ra, sa);
    FoldShape(rb, sb);
    if sa != [] {
      PlusAssoc(ra, sa, b);
      assert (sa + b)[0] == sa[0];
      FoldShape(ra, sa + b);
      OffencesAppend(sa, b, ra != []);
      NoOffenceNoResponse(b, ra != []);
      SupplementsFold(b);
    } else {
      assert ra + sa == ra;
      PlusAssoc(ra, rb, sb);
      FoldShape(ra + rb, sb);
      NoOffences(sb, ra + rb != []);
      NoOffences(sb, rb != []);
    }
  }

  /**
   * Folding the halves first changes nothing, exactly unless a tool result follows supplemental content of an earlier
   * half: the whole turn is then refused, the halves are not.
   */
  lemma FoldInHalvesExactly(a: seq<OutPart>, b: seq<OutPart>)
    requires Fold(a).Ok? && Fold(b).Ok?
    ensures Fold(Fold(a).value + Fold(b).value) == Fold(a + b) <==> !(Mixed(a) && HasResponse(b))
  {
    var ra, sa := Split(a);
    FoldShape(ra, sa);
    NoOffenceNoResponse(sa, ra != []);
    if ra == [] {
      ResultsComeFirst(b);
      HalvesAfterContent(a, b, sa);
    } else if sa == [] {
      assert ra + sa == ra;
      HalvesAfterResults(a, b);
    } else {
      HalvesAfterMixed(ra, sa, b);
    }
  }

  lemma ResultsComeFirst(b: seq<OutPart>)
    requires Fold(b).Ok?
    ensures HasResponse(b) ==> b[0].ResponsePart? && Fold(b).value != [] && AllResponses(Fold(b).value)
  {
    var rb, sb := Split(b);
    FoldShape(rb, sb);
    NoOffenceNoResponse(sb, rb != []);
    if rb == [] {
      NothingBefore(sb);
    } else {
      assert b[0] == rb[0];
      FoldedResponses(rb[..|rb| - 1], Absorb(rb[|rb| - 1], sb));
    }
  }

  lemma HalvesAfterResults(a: seq<OutPart>, b: seq<OutPart>)
    requires a != [] && AllResponses(a) && Fold(b).Ok?
    ensures Fold(a) == Ok(a) && Fold(a + Fold(b).value) == Fold(a + b)
  {
    var rb, sb := Split(b);
    FoldShape(rb, sb);
    ResponsesFold(a);
    if rb == [] {
      NothingBefore(sb);
    } else {
      ResultsThenTurn(a, rb, sb);
    }
  }

  lemma HalvesAfterMixed(ra: seq<OutPart>, sa: seq<OutPart>, b: seq<OutPart>)
    requires ra != [] && AllResponses(ra) && sa != [] && !sa[0].ResponsePart? && Offences(sa, true) == None
    requires Fold(b).Ok?
    ensures Mixed(ra + sa) && Fold(ra + sa).Ok?
    ensures Fold(Fold(ra + sa).value + Fold(b).value) == Fold(ra + sa + b) <==> !HasResponse(b)
  {
    assert (ra + sa)[0] == ra[0] && (ra + sa)[|ra|] == sa[0];
    FoldShape(ra, sa);
    if HasResponse(b) {
      ResultsComeFirst(b);
      ResultAfterMixed(ra, sa, b);
      FoldedResponses(ra[..|ra| - 1], Absorb(ra[|ra| - 1], sa));
      ResponsesFold(Fold(ra + sa).value + Fold(b).value);
    } else {
      SupplementsFold(b);
      MixedThenContent(ra, sa, b);
    }
  }

  lemma HalvesAfterContent(a: seq<OutPart>, b: seq<OutPart>, sa: seq<OutPart>)
    requires a == [] + sa && !HasResponse(sa) && Fold(b).Ok?
    requires HasResponse(b) ==> b[0].ResponsePart? && Fold(b).value != [] && Fold(b).value[0].ResponsePart?
    ensures Fold(a) == Ok(a) && !HasResponse(a) && Fold(a + Fold(b).value) == Fold(a + b)
  {
    NothingBefore(sa);
    SupplementsFold(a);
    FoldIsIdempotent(b);
    if a == [] {
      NothingBefore(b);
      NothingBefore(Fold(b).value);
    } else if HasResponse(b) {
      ContentThenResult(a, b);
      ContentThenResult(a, Fold(b).value);
    } else {
      SupplementsFold(b);
    }
  }

  /** Cutting an accepted turn anywhere and folding the pieces as they come gives the same turn. */
  lemma FoldInHalves(a: seq<OutPart>, b: seq<OutPart>)
    requires Fold(a + b).Ok?
    ensures Fold(a).Ok? && Fold(b).Ok?
    ensures Fold(Fold(a).value + Fold(b).value) == Fold(a + b)
    ensures Fold(Fold(a).value + b) == Fold(a + b)
  {
    HalvesAreAccepted(a, b);
    FoldInHalvesExactly(a, b);
    FoldIsIdempotent(a);
    FoldInHalvesExactly(Fold(a).value, b);
  }

  // ----- What is accepted, and what it becomes -----

  /** What a tool result may take up: text, and media of the types a function response may have. */
  predicate Attachable(p: OutPart) {
    || p.TextPart?
    || (p.MediaPart? &&
        (|| p.media.mime == Ascii("image/png") || p.media.mime == Ascii("image/jpeg")
         || p.media.mime == Ascii("image/webp") || p.media.mime == Ascii("application/pdf")
         || p.media.mime == Ascii("text/plain")))
  }

  /** Part `p` may stand behind the leading results, `some` saying whether there are any. */
  predicate MayFollow(p: OutPart, some: bool) {
    !p.ResponsePart? && (some ==> Attachable(p))
  }

  /** `n` results, and behind them only what may follow. */
  ghost predicate Foldable(parts: seq<OutPart>, n: nat) {
    && n <= |parts|
    && (forall i :: 0 <= i < n ==> parts[i].ResponsePart?)
    && (forall i :: n <= i < |parts| ==> MayFollow(parts[i], n > 0))
  }

  lemma FollowsWithoutOffence(p: OutPart, some: bool)
    ensures MayFollow(p, some) <==> Offence(p, some) == None
  {
    if p.MediaPart? {
      assert ResultMime(p.media) <==> Attachable(p) by {
        var m := RESULT_MIMES;
        assert m[0] == Ascii("image/png") && m[1] == Ascii("image/jpeg") && m[2] == Ascii("image/webp");
        assert m[3] == Ascii("application/pdf") && m[4] == Ascii("text/plain") && |m| == 5;
      }
    }
  }

  lemma FollowWithoutOffence(ss: seq<OutPart>, some: bool)
    ensures Offences(ss, some) == None <==> forall i :: 0 <= i < |ss| ==> MayFollow(ss[i], some)
  {
    NoOffences(ss, some);
    forall i | 0 <= i < |ss| ensures MayFollow(ss[i], some) <==> Offence(ss[i], some) == None {
      FollowsWithoutOffence(ss[i], some);
    }
  }

  /** The result `r` with the texts and media of `ss`: all texts behind its own, a blank line between neighbours. */
  function Supplemented(r: OutPart, ss: seq<OutPart>): OutPart
    requires r.ResponsePart?
  {
    ResponsePart(r.id, r.name, Reply(r.reply.isError, Join([r.reply.text] + Texts(ss), Ascii("\n\n"))),
                 r.attached + Medias(ss))
  }

  lemma FoldableFolds(parts: seq<OutPart>, n: nat)
    requires Foldable(parts, n)
    ensures Fold(parts) == Ok(if n == 0 then parts else parts[..n - 1] + [Supplemented(parts[n - 1], parts[n..])])
  {
    LeadingIs(parts, n);
    FollowWithoutOffence(parts[n..], n > 0);
  }

  /**
   * A turn is accepted exactly if it is results followed by what may follow them. It is then unchanged if it has no
   * results; otherwise the last one has taken up everything behind it.
   */
  lemma FoldExactly(parts: seq<OutPart>)
    ensures Fold(parts).Ok? <==> exists n: nat :: Foldable(parts, n)
    ensures forall n: nat :: Foldable(parts, n) ==>
              Fold(parts) == Ok(if n == 0 then parts else parts[..n - 1] + [Supplemented(parts[n - 1], parts[n..])])
  {
    var n := Leading(parts);
    FollowWithoutOffence(parts[n..], n > 0);
    if Fold(parts).Ok? {
      assert forall i :: n <= i < |parts| ==> parts[i] == parts[n..][i - n];
      assert Foldable(parts, n);
    }
    forall m: nat | Foldable(parts, m)
      ensures Fold(parts) == Ok(if m == 0 then parts else parts[..m - 1] + [Supplemented(parts[m - 1], parts[m..])])
    {
      FoldableFolds(parts, m);
    }
  }

  /** Otherwise the first part that may not stand where it does decides the error. */
  lemma FoldRefusal(parts: seq<OutPart>, n: nat, i: nat)
    requires n <= i < |parts| && AllResponses(parts[..n]) && !parts[n].ResponsePart?
    requires (forall j :: n <= j < i ==> MayFollow(parts[j], n > 0)) && !MayFollow(parts[i], n > 0)
    ensures Fold(parts) == Err(match parts[i]
                               case ResponsePart(_, _, _, _) => ResultAfterSupplement
                               case MediaPart(_) => UnsupportedMime
                               case _ => UnsupportedSupplement)
  {
    LeadingIs(parts, n);
    FollowWithoutOffence(parts[n..i], n > 0);
    FollowsWithoutOffence(parts[i], n > 0);
    FoldRefused(parts, n, i);
  }

  // ----- Nothing is lost -----

  function TextOf(p: OutPart): seq<Str> {
    if p.TextPart? then [p.text] else if p.ResponsePart? then [p.reply.text] else []
  }

  function MediaIn(p: OutPart): seq<Media> {
    if p.MediaPart? then [p.media] else if p.ResponsePart? then p.attached else []
  }

  /** All text of a turn in order: reply texts and supplemental texts. */
  function AllTexts(parts: seq<OutPart>): seq<Str> {
    if parts == [] then [] else AllTexts(parts[..|parts| - 1]) + TextOf(parts[|parts| - 1])
  }

  /** All media of a turn in order: attached to replies, and supplemental. */
  function AllMedia(parts: seq<OutPart>): seq<Media> {
    if parts == [] then [] else AllMedia(parts[..|parts| - 1]) + MediaIn(parts[|parts| - 1])
  }

  lemma AppendTextAssoc(a: Str, b: Str, c: Str, separator: Str)
    ensures AppendText(AppendText(a, b, separator), c, separator) ==
            AppendText(a, AppendText(b, c, separator), separator)
  {
    if a != [] && b != [] && c != [] {
      assert a + separator + b + separator + c == a + separator + (b + separator + c);
    }
  }

  lemma {:induction false} JoinAppend(s: seq<Str>, t: seq<Str>, separator: Str)
    ensures Join(s + t, separator) == AppendText(Join(s, separator), Join(t, separator), separator)
  {
    if t == [] {
      assert s + t == s;
    } else {
      var init, last := t[..|t| - 1], t[|t| - 1];
      InitLast(t);
      PlusAssoc(s, init, [last]);
      JoinSnoc(s + init, last, separator);
      JoinSnoc(init, last, separator);
      JoinAppend(s, init, separator);
      AppendTextAssoc(Join(s, separator), Join(init, separator), last, separator);
    }
  }

  lemma {:induction false} SupplementsOnly(ss: seq<OutPart>)
    requires !HasResponse(ss)
    ensures AllTexts(ss) == Texts(ss) && AllMedia(ss) == Medias(ss)
  {
    if ss != [] {
      SupplementsOnly(ss[..|ss| - 1]);
    }
  }

  lemma {:induction false} AllAppend(a: seq<OutPart>, b: seq<OutPart>)
    ensures AllTexts(a + b) == AllTexts(a) + AllTexts(b) && AllMedia(a + b) == AllMedia(a) + AllMedia(b)
  {
    if b == [] {
      assert a + b == a;
    } else {
      var init, p := b[..|b| - 1], b[|b| - 1];
      InitLast(b);
      PlusAssoc(a, init, [p]);
      SnocInit(a + init, p);
      AllAppend(a, init);
      PlusAssoc(AllTexts(a), AllTexts(init), TextOf(p));
      PlusAssoc(AllMedia(a), AllMedia(init), MediaIn(p));
    }
  }

  lemma AllOfOne(r: OutPart)
    requires r.ResponsePart?
    ensures AllTexts([r]) == [r.reply.text] && AllMedia([r]) == r.attached
  {
    assert [r][..0] == [];
    NothingBefore([r.reply.text]);
    NothingBefore(r.attached);
  }

  /** Folding keeps every piece of text and every media item of the turn, in order. */
  lemma FoldKeepsEverything(parts: seq<OutPart>)
    requires Fold(parts).Ok?
    ensures Join(AllTexts(Fold(parts).value), PARAGRAPH) == Join(AllTexts(parts), PARAGRAPH)
    ensures AllMedia(Fold(parts).value) == AllMedia(parts)
  {
    var rs, ss := Split(parts);
    FoldShape(rs, ss);
    if rs == [] {
      NothingBefore(ss);
    } else {
      NoOffenceNoResponse(ss, true);
      SupplementsOnly(ss);
      InitLast(rs);
      FoldedKeeps(rs[..|rs| - 1], rs[|rs| - 1], ss);
    }
  }

  lemma FoldedKeeps(init: seq<OutPart>, r: OutPart, ss: seq<OutPart>)
    requires r.ResponsePart? && AllTexts(ss) == Texts(ss) && AllMedia(ss) == Medias(ss)
    ensures Join(AllTexts(init + [Absorb(r, ss)]), PARAGRAPH) == Join(AllTexts(init + [r] + ss), PARAGRAPH)
    ensures AllMedia(init + [Absorb(r, ss)]) == AllMedia(init + [r] + ss)
  {
    var a := Absorb(r, ss);
    AllAppend(init, [a]);
    AllAppend(init, [r]);
    AllAppend(init + [r], ss);
    AllOfOne(a);
    AllOfOne(r);
    var s, t := AllTexts(init), [r.reply.text] + Texts(ss);
    PlusAssoc(s, [r.reply.text], Texts(ss));
    JoinAppend(s, [Join(t, PARAGRAPH)], PARAGRAPH);
    JoinAppend(s, t, PARAGRAPH);
    JoinOne(Join(t, PARAGRAPH), PARAGRAPH);
    PlusAssoc(AllMedia(init), r.attached, Medias(ss));
  }

  lemma ResultThenText(r: OutPart, text: Str)
    requires r.ResponsePart?
    ensures Fold([r, TextPart(text, [])]) == Ok([Absorb(r, [TextPart(text, [])])])
  {
    var p := TextPart(text, []);
    FoldShape([r], [p]);
    assert [r] + [p] == [r, p] && [p][..0] == [];
    NothingBefore([Absorb(r, [p])]);
  }

  lemma ResultTextResult(r: OutPart, text: Str, q: OutPart)
    requires r.ResponsePart? && q.ResponsePart?
    ensures Fold([r, TextPart(text, []), q]) == Err(ResultAfterSupplement)
  {
    FoldRefusal([r, TextPart(text, []), q], 1, 2);
  }

  /** A result, a text, and in the second half another result: each half folds, the whole is refused. */
  lemma ResultAfterSupplementDiffers(r: OutPart, q: OutPart, text: Str)
    requires r.ResponsePart? && q.ResponsePart?
    ensures var a, b := [r, TextPart(text, [])], [q];
            && Fold(a).Ok? && Fold(b).Ok? && Fold(Fold(a).value + Fold(b).value).Ok?
            && Fold(a + b) == Err(ResultAfterSupplement)
  {
    var p := TextPart(text, []);
    ResultThenText(r, text);
    ResultsFoldTogether(Absorb(r, [p]), q);
    ResultTextResult(r, text, q);
    assert [r, p] + [q] == [r, p, q];
  }

  lemma ResultsFoldTogether(r: OutPart, q: OutPart)
    requires r.ResponsePart? && q.ResponsePart?
    ensures Fold([q]) == Ok([q]) && Fold([r] + [q]).Ok?
  {
    ResponsesFold([q]);
    ResponsesFold([r] + [q]);
  }
}
