/** Folding of supplemental content into the last functionResponse of a user turn. */
module FoldSupplements {
  import opened Bytes
  import opened RequestModel

  function AppendText(existing: Str, supplement: Str, separator: Str): Str {
    if supplement == [] then existing else if existing == [] then supplement else existing + separator + supplement
  }

  function NonEmpty(texts: seq<Str>): seq<Str> {
    if texts == [] then []
    else
      var last := texts[|texts| - 1];
      NonEmpty(texts[..|texts| - 1]) + if last == [] then [] else [last]
  }

  function Spaced(texts: seq<Str>, separator: Str): seq<Str> {
    if |texts| <= 1 then texts
    else Spaced(texts[..|texts| - 1], separator) + [separator, texts[|texts| - 1]]
  }

  /** The non-empty texts in order, with the separator between neighbours. */
  function Join(texts: seq<Str>, separator: Str): Str {
    Concat(Spaced(NonEmpty(texts), separator))
  }

  function Texts(parts: seq<OutPart>): seq<Str> {
    if parts == [] then []
    else Texts(parts[..|parts| - 1]) + if parts[|parts| - 1].TextPart? then [parts[|parts| - 1].text] else []
  }

  function Medias(parts: seq<OutPart>): seq<Media> {
    if parts == [] then []
    else Medias(parts[..|parts| - 1]) + if parts[|parts| - 1].MediaPart? then [parts[|parts| - 1].media] else []
  }

  /** A response that has taken up supplements: every text and every media item, in order, after its own. */
  function Absorb(r: OutPart, supplements: seq<OutPart>): OutPart
    requires r.ResponsePart?
  {
    r.(reply := r.reply.(text := Join([r.reply.text] + Texts(supplements), PARAGRAPH)),
       attached := r.attached + Medias(supplements))
  }

  /** The number of functionResponse parts a turn starts with. */
  function Leading(parts: seq<OutPart>, from: nat := 0): (n: nat)
    requires from <= |parts| && forall i :: 0 <= i < from ==> parts[i].ResponsePart?
    ensures from <= n <= |parts|
    ensures forall i :: 0 <= i < n ==> parts[i].ResponsePart?
    ensures n < |parts| ==> !parts[n].ResponsePart?
    decreases |parts| - from
  {
    if from == |parts| || !parts[from].ResponsePart? then from else Leading(parts, from + 1)
  }

  /** What is wrong with a part that comes after the leading responses, `supplementing` if there are any. */
  function Offence(p: OutPart, supplementing: bool): Option<RequestError> {
    match p
    case ResponsePart(_, _, _, _) => Some(ResultAfterSupplement)
    case TextPart(_, _) => None
    case MediaPart(m) => if supplementing && !ResultMime(m) then Some(UnsupportedMime) else None
    case CallPart(_, _, _, _) => if supplementing then Some(UnsupportedSupplement) else None
  }

  /** The first thing wrong. */
  function Offences(parts: seq<OutPart>, supplementing: bool): Option<RequestError> {
    if parts == [] then None
    else
      var before := Offences(parts[..|parts| - 1], supplementing);
      if before.Some? then before else Offence(parts[|parts| - 1], supplementing)
  }

  /** Responses first, then supplements, which go into the last response; without responses nothing changes. */
  function Fold(parts: seq<OutPart>): Result<seq<OutPart>, RequestError> {
    var n := Leading(parts);
    var offence := Offences(parts[n..], n > 0);
    if offence.Some? then Err(offence.value)
    else if n == 0 then Ok(parts)
    else Ok(parts[..n - 1] + [Absorb(parts[n - 1], parts[n..])])
  }

  // ----- The loop of the source -----

  method FoldFunctionResponseSupplements(parts: seq<OutPart>) returns (r: Result<seq<OutPart>, RequestError>)
    ensures r == Fold(parts)
  {
    var folded: seq<OutPart> := [];
    var hasResponse, seenSupplement := false, false;
    ghost var n := Leading(parts);
    assert AllResponses(parts[..n]);
    for i := 0 to |parts|
      invariant FoldedSoFar(parts, n, i, folded)
      invariant hasResponse <==> 0 < n && 0 < i
      invariant seenSupplement <==> 0 < n < i
    {
      var part := parts[i];
      KeepProgress(parts, n, i, folded);
      if 0 < n <= i {
        TakeProgress(parts, n, i, folded);
      }
      if part.ResponsePart? {
        if seenSupplement || (!hasResponse && folded != []) {
          FoldRefused(parts, n, i);
          return Err(ResultAfterSupplement);
        }
        folded := folded + [part];
        hasResponse := true;
        continue;
      }
      if !hasResponse {
        folded := folded + [part];
        continue;
      }
      seenSupplement := true;
      var last := |folded| - 1;
      var taken := TakeUpOne(folded[last], part);
      if taken.Err? {
        FoldRefused(parts, n, i);
        return Err(taken.error);
      }
      folded := folded[last := taken.value];
    }
    FoldedAll(parts, folded);
    return Ok(folded);
  }

  /** What the loop has after the first `i` parts, `n` of which at the start of the turn are responses. */
  ghost predicate FoldedSoFar(parts: seq<OutPart>, n: nat, i: nat, folded: seq<OutPart>)
    requires n <= |parts| && i <= |parts| && AllResponses(parts[..n])
  {
    if i <= n then folded == parts[..i]
    else if n == 0 then Offences(parts[n..i], false) == None && folded == parts[..i]
    else Offences(parts[n..i], true) == None && folded == parts[..n - 1] + [Absorb(parts[..n][n - 1], parts[n..i])]
  }

  /** A turn of the loop that keeps the part as it is. */
  lemma KeepProgress(parts: seq<OutPart>, n: nat, i: nat, folded: seq<OutPart>)
    requires n <= |parts| && i < |parts| && AllResponses(parts[..n]) && FoldedSoFar(parts, n, i, folded)
    ensures i >= n ==> Offences(parts[n..i], n > 0) == None
    ensures folded == [] <==> i == 0
    ensures i < n || (n == 0 && !parts[i].ResponsePart?) ==> FoldedSoFar(parts, n, i + 1, folded + [parts[i]])
  {
    TakeOneMore(parts, i);
    if i >= n {
      SliceOneMore(parts, n, i);
      SnocInit(parts[n..i], parts[i]);
    }
  }

  /** A turn of the loop that lets the last response take up the part. */
  lemma TakeProgress(parts: seq<OutPart>, n: nat, i: nat, folded: seq<OutPart>)
    requires 0 < n <= i < |parts| && AllResponses(parts[..n]) && FoldedSoFar(parts, n, i, folded)
    ensures folded != [] && folded[|folded| - 1].ResponsePart?
    ensures Offence(parts[i], true) == None ==>
              FoldedSoFar(parts, n, i + 1, folded[|folded| - 1 := TakeUp(folded[|folded| - 1], parts[i])])
  {
    var r, before := parts[..n][n - 1], parts[n..i];
    KeepProgress(parts, n, i, folded);
    AbsorbOneMore(parts, n, i);
    SliceOneMore(parts, n, i);
    SnocInit(before, parts[i]);
    UpdateLast(parts[..n - 1], Absorb(r, before), Absorb(r, parts[n..i + 1]));
  }

  lemma FoldedAll(parts: seq<OutPart>, folded: seq<OutPart>)
    requires FoldedSoFar(parts, Leading(parts), |parts|, folded)
    ensures Fold(parts) == Ok(folded)
  {
    TakeAll(parts);
    var n := Leading(parts);
    if n == |parts| {
      AllLeading(parts);
      UniformFolds(parts);
    } else {
      DropToEnd(parts, n);
    }
  }

  lemma AllLeading(parts: seq<OutPart>)
    requires Leading(parts) == |parts|
    ensures AllResponses(parts)
  {
  }

  lemma AbsorbOneMore(parts: seq<OutPart>, n: nat, i: nat)
    requires 0 < n <= i < |parts| && parts[n - 1].ResponsePart?
    ensures Absorb(parts[n - 1], parts[n..i + 1]) == TakeUp(Absorb(parts[n - 1], parts[n..i]), parts[i])
    ensures parts[n..n] == [] && Absorb(parts[n - 1], []) == parts[n - 1]
    ensures parts[..n - 1] + [parts[n - 1]] == parts[..n]
  {
    AbsorbNothing(parts[n - 1]);
    SliceOneMore(parts, n, i);
    AbsorbSnoc(parts[n - 1], parts[n..i], parts[i]);
  }

  /** A response with one more supplement. */
  function TakeUp(r: OutPart, p: OutPart): (t: OutPart)
    requires r.ResponsePart?
    ensures t.ResponsePart?
  {
    match p
    case TextPart(text, _) => r.(reply := r.reply.(text := AppendText(r.reply.text, text, PARAGRAPH)))
    case MediaPart(m) => r.(attached := r.attached + [m])
    case _ => r
  }

  method TakeUpOne(response: OutPart, part: OutPart) returns (r: Result<OutPart, RequestError>)
    requires response.ResponsePart? && !part.ResponsePart?
    ensures r == var offence := Offence(part, true);
                 if offence.Some? then Err(offence.value) else Ok(TakeUp(response, part))
  {
    match part
    case TextPart(text, _) =>
      var extended := AppendFunctionResponseText(response.reply, text);
      return Ok(response.(reply := extended));
    case MediaPart(media) =>
      if !ResultMime(media) {
        return Err(UnsupportedMime);
      }
      return Ok(response.(attached := response.attached + [media]));
    case CallPart(_, _, _, _) => return Err(UnsupportedSupplement);
  }

  /** The text goes under the key the response already has. */
  method AppendFunctionResponseText(reply: Reply, supplement: Str) returns (r: Reply)
    ensures r.isError == reply.isError
    ensures supplement == [] ==> r.text == reply.text
    ensures reply.text == [] ==> r.text == supplement
    ensures reply.text != [] && supplement != [] ==> r.text == reply.text + Ascii("\n\n") + supplement
  {
    if supplement == [] {
      return reply;
    }
    if reply.text == [] {
      return reply.(text := supplement);
    }
    return reply.(text := reply.text + PARAGRAPH + supplement);
  }

  lemma FoldRefused(parts: seq<OutPart>, n: nat, i: nat)
    requires n == Leading(parts) <= i < |parts|
    requires Offences(parts[n..i], n > 0) == None && Offence(parts[i], n > 0).Some?
    ensures Fold(parts) == Err(Offence(parts[i], n > 0).value)
  {
    OffenceStays(parts, n, i);
  }

  lemma {:induction false} OffenceStays(parts: seq<OutPart>, n: nat, i: nat)
    requires n <= i < |parts| && Offences(parts[n..i], n > 0) == None && Offence(parts[i], n > 0).Some?
    ensures Offences(parts[n..], n > 0) == Offence(parts[i], n > 0)
    decreases |parts|
  {
    var m := |parts| - 1;
    assert parts[n..][..m - n] == parts[..m][n..] && parts[n..][m - n] == parts[m];
    if i == m {
      assert parts[n..i] == parts[..m][n..];
    } else {
      assert parts[..m][n..i] == parts[n..i];
      OffenceStays(parts[..m], n, i);
    }
  }

  // ----- Joining -----

  lemma ConcatSpaced(texts: seq<Str>, t: Str, separator: Str)
    requires texts != []
    ensures Concat(Spaced(texts + [t], separator)) == Concat(Spaced(texts, separator)) + separator + t
  {
    var before := Spaced(texts, separator);
    SnocInit(texts, t);
    OneByOne(before, separator, t, t);
    ConcatSnoc(before, separator);
    ConcatSnoc(before + [separator], t);
  }

  lemma {:induction false} NothingJoined(texts: seq<Str>, separator: Str)
    requires forall i :: 0 <= i < |texts| ==> texts[i] != []
    ensures Concat(Spaced(texts, separator)) == [] <==> texts == []
  {
    if |texts| == 1 {
      ConcatOne(texts[0]);
    } else if texts != [] {
      InitLast(texts);
      ConcatSpaced(texts[..|texts| - 1], texts[|texts| - 1], separator);
    }
  }

  lemma {:induction false} NonEmptyOnly(texts: seq<Str>)
    ensures forall i :: 0 <= i < |NonEmpty(texts)| ==> NonEmpty(texts)[i] != []
  {
    if texts != [] {
      NonEmptyOnly(texts[..|texts| - 1]);
    }
  }

  /** One more text is appended the way the source does. */
  lemma JoinSnoc(texts: seq<Str>, t: Str, separator: Str)
    ensures Join(texts + [t], separator) == AppendText(Join(texts, separator), t, separator)
  {
    var before := NonEmpty(texts);
    SnocInit(texts, t);
    NonEmptyOnly(texts);
    NothingJoined(before, separator);
    if t == [] {
      NothingAfter(before);
    } else if before == [] {
      NothingBefore([t]);
      ConcatOne(t);
    } else {
      ConcatSpaced(before, t, separator);
    }
  }

  /** What non-empty texts take in front of a later one: each its own length and a separator. */
  function Offset(texts: seq<Str>, separator: Str): nat {
    if texts == [] then 0
    else
      var last := texts[|texts| - 1];
      Offset(texts[..|texts| - 1], separator) + if last == [] then 0 else |last| + |separator|
  }

  lemma {:induction false} JoinLength(texts: seq<Str>, separator: Str)
    ensures Offset(texts, separator) == if Join(texts, separator) == [] then 0
                                        else |Join(texts, separator)| + |separator|
  {
    if texts != [] {
      var n := |texts| - 1;
      JoinLength(texts[..n], separator);
      InitLast(texts);
      JoinSnoc(texts[..n], texts[n], separator);
    }
  }

  /** The text stands in `joined` at `offset`, after a separator unless it is the first. */
  predicate StandsAt(joined: Str, text: Str, separator: Str, offset: nat) {
    && offset + |text| <= |joined| && joined[offset..offset + |text|] == text
    && (offset > 0 ==> |separator| < offset && joined[offset - |separator|..offset] == separator)
  }

  lemma StandsLast(joined: Str, text: Str, separator: Str)
    requires joined != []
    ensures StandsAt(joined + separator + text, text, separator, |joined| + |separator|)
  {
    var all := joined + separator + text;
    assert all[|joined|..|joined| + |separator|] == separator;
    assert all[|joined| + |separator|..] == text;
  }

  lemma StandsStill(joined: Str, more: Str, text: Str, separator: Str, offset: nat)
    requires StandsAt(joined, text, separator, offset)
    ensures StandsAt(joined + more, text, separator, offset)
  {
    assert (joined + more)[offset..offset + |text|] == joined[offset..offset + |text|];
    if offset > 0 {
      assert (joined + more)[offset - |separator|..offset] == joined[offset - |separator|..offset];
    }
  }

  /** Every non-empty text stands whole in the joined text, at the offset that those before it leave. */
  lemma {:induction false} JoinHolds(texts: seq<Str>, separator: Str, i: nat)
    requires i < |texts| && texts[i] != []
    ensures StandsAt(Join(texts, separator), texts[i], separator, Offset(texts[..i], separator))
  {
    var n := |texts| - 1;
    var before := Join(texts[..n], separator);
    InitLast(texts);
    JoinSnoc(texts[..n], texts[n], separator);
    if i < n {
      TakeOfInit(texts, i);
      JoinHolds(texts[..n], separator, i);
      NothingAfter(before);
      PlusAssoc(before, separator, texts[n]);
      StandsStill(before, if texts[n] == [] then [] else separator + texts[n], texts[i], separator,
                  Offset(texts[..i], separator));
      JoinedIsNotEmpty(before, texts[i], separator, Offset(texts[..i], separator));
    } else {
      JoinLength(texts[..n], separator);
      if before != [] {
        StandsLast(before, texts[n], separator);
      }
    }
  }

  lemma JoinedIsNotEmpty(joined: Str, text: Str, separator: Str, offset: nat)
    requires StandsAt(joined, text, separator, offset) && text != []
    ensures joined != []
  {
  }

  lemma JoinOne(text: Str, separator: Str)
    ensures Join([text], separator) == text
  {
    assert [text][..0] == [];
    assert NonEmpty([text]) == if text == [] then [] else [text];
    ConcatOne(text);
  }

  lemma AbsorbNothing(r: OutPart)
    requires r.ResponsePart?
    ensures Absorb(r, []) == r
  {
    JoinOne(r.reply.text, PARAGRAPH);
    NothingAfter([r.reply.text]);
    NothingAfter(r.attached);
  }

  lemma AbsorbSnoc(r: OutPart, supplements: seq<OutPart>, p: OutPart)
    requires r.ResponsePart?
    ensures Absorb(r, supplements + [p]) == TakeUp(Absorb(r, supplements), p)
  {
    SnocInit(supplements, p);
    var texts, one := Texts(supplements), if p.TextPart? then [p.text] else [];
    PlusAssoc([r.reply.text], texts, one);
    if p.TextPart? {
      JoinSnoc([r.reply.text] + texts, p.text, PARAGRAPH);
    } else {
      assert [r.reply.text] + texts + one == [r.reply.text] + texts;
    }
    PlusAssoc(r.attached, Medias(supplements), if p.MediaPart? then [p.media] else []);
    assert r.attached + Medias(supplements) + [] == r.attached + Medias(supplements);
  }

  // ----- The algebra of folding -----

  /** Taking up supplements in two goes is taking them up at once. */
  lemma {:induction false} AbsorbTwice(r: OutPart, s: seq<OutPart>, t: seq<OutPart>)
    requires r.ResponsePart?
    ensures Absorb(Absorb(r, s), t) == Absorb(r, s + t)
  {
    if t == [] {
      AbsorbNothing(Absorb(r, s));
      assert s + t == s;
    } else {
      var init, p := t[..|t| - 1], t[|t| - 1];
      AbsorbTwice(r, s, init);
      InitLast(t);
      PlusAssoc(s, init, [p]);
      AbsorbSnoc(Absorb(r, s), init, p);
      AbsorbSnoc(r, s + init, p);
    }
  }

  ghost predicate HasResponse(parts: seq<OutPart>) {
    exists i :: 0 <= i < |parts| && parts[i].ResponsePart?
  }

  ghost predicate AllResponses(parts: seq<OutPart>) {
    forall i :: 0 <= i < |parts| ==> parts[i].ResponsePart?
  }

  /** A turn that is either only function responses or has none. */
  ghost predicate Uniform(parts: seq<OutPart>) {
    AllResponses(parts) || !HasResponse(parts)
  }

  lemma {:induction false} OffencesAppend(a: seq<OutPart>, b: seq<OutPart>, supplementing: bool)
    ensures Offences(a + b, supplementing) ==
            if Offences(a, supplementing).Some? then Offences(a, supplementing) else Offences(b, supplementing)
  {
    if b == [] {
      assert a + b == a;
    } else {
      var init, p := b[..|b| - 1], b[|b| - 1];
      InitLast(b);
      PlusAssoc(a, init, [p]);
      SnocInit(a + init, p);
      OffencesAppend(a, init, supplementing);
    }
  }

  lemma {:induction false} NoOffences(parts: seq<OutPart>, supplementing: bool)
    ensures Offences(parts, supplementing) == None <==>
            forall i :: 0 <= i < |parts| ==> Offence(parts[i], supplementing) == None
  {
    if parts != [] {
      NoOffences(parts[..|parts| - 1], supplementing);
      InitLast(parts);
    }
  }

  lemma LeadingIs(parts: seq<OutPart>, n: nat)
    requires n <= |parts| && AllResponses(parts[..n]) && (n < |parts| ==> !parts[n].ResponsePart?)
    ensures Leading(parts) == n
  {
    assert forall i :: 0 <= i < n ==> parts[..n][i] == parts[i];
  }

  /** The shape of what Fold accepts: `rs` responses followed by `ss` supplements. */
  lemma FoldShape(rs: seq<OutPart>, ss: seq<OutPart>)
    requires AllResponses(rs) && (ss != [] ==> !ss[0].ResponsePart?)
    ensures Leading(rs + ss) == |rs|
    ensures Fold(rs + ss) ==
            var offence := Offences(ss, rs != []);
            if offence.Some? then Err(offence.value)
            else if rs == [] then Ok(ss)
            else Ok(rs[..|rs| - 1] + [Absorb(rs[|rs| - 1], ss)])
  {
    LeadingIs(rs + ss, |rs|);
    assert (rs + ss)[|rs|..] == ss;
    if rs == [] {
      NothingBefore(ss);
    } else {
      PlusTakeLeft(rs, ss, |rs| - 1);
    }
  }

  lemma Split(parts: seq<OutPart>) returns (rs: seq<OutPart>, ss: seq<OutPart>)
    ensures parts == rs + ss && AllResponses(rs) && (ss != [] ==> !ss[0].ResponsePart?)
    ensures |rs| == Leading(parts)
  {
    var n := Leading(parts);
    rs, ss := parts[..n], parts[n..];
    TakeDrop(parts, n);
  }

  lemma ResponsesFold(rs: seq<OutPart>)
    requires rs != [] && AllResponses(rs)
    ensures Fold(rs) == Ok(rs)
  {
    FoldShape(rs, []);
    assert rs + [] == rs;
    AbsorbNothing(rs[|rs| - 1]);
    InitLast(rs);
  }

  lemma FoldedResponses(init: seq<OutPart>, r: OutPart)
    requires AllResponses(init) && r.ResponsePart?
    ensures AllResponses(init + [r]) && Fold(init + [r]) == Ok(init + [r])
  {
    ResponsesFold(init + [r]);
  }

  lemma SupplementsFold(ss: seq<OutPart>)
    requires !HasResponse(ss)
    ensures Fold(ss) == Ok(ss)
  {
    FoldShape([], ss);
    NothingBefore(ss);
    NoOffences(ss, false);
  }

  /** Folding gives a uniform turn, and folding again changes nothing. */
  lemma FoldIsIdempotent(parts: seq<OutPart>)
    requires Fold(parts).Ok?
    ensures Uniform(Fold(parts).value)
    ensures Fold(Fold(parts).value) == Fold(parts)
    ensures Fold(parts).value == [] <==> parts == []
  {
    var rs, ss := Split(parts);
    FoldShape(rs, ss);
    if rs == [] {
      NoOffences(ss, false);
      SupplementsFold(ss);
    } else {
      FoldedResponses(rs[..|rs| - 1], Absorb(rs[|rs| - 1], ss));
    }
  }

  lemma UniformFolds(parts: seq<OutPart>)
    requires Uniform(parts)
    ensures Fold(parts) == Ok(parts)
  {
    var rs, ss := Split(parts);
    FoldShape(rs, ss);
    if rs == [] {
      NothingBefore(ss);
      assert !HasResponse(parts) || AllResponses(parts);
      assert ss != [] ==> parts[0] == ss[0];
      SupplementsFold(ss);
    } else if ss == [] {
      assert rs + [] == rs;
      ResponsesFold(rs);
    } else {
      MixedIsNotUniform(rs, ss);
    }
  }

  lemma MixedIsNotUniform(rs: seq<OutPart>, ss: seq<OutPart>)
    requires rs != [] && AllResponses(rs) && ss != [] && !ss[0].ResponsePart?
    ensures !Uniform(rs + ss)
  {
    assert (rs + ss)[0] == rs[0] && (rs + ss)[|rs|] == ss[0];
  }
}
