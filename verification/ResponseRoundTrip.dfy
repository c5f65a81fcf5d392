/** The non-streaming response and its echo: what a later request restores of the upstream's parts. */
module ResponseRoundTrip {
  import opened Bytes
  import opened AnthropicEvents
  import opened GeminiModel
  import opened ResponseConversion
  import opened RequestModel
  import opened RequestContents
  import opened RoundTrip

  /** One kind per part, no thoughts: non-empty text, or a named call. */
  predicate Simple(p: Part) {
    && p.Part? && !p.thought
    && (p.text.Some? <==> p.call.None?)
    && (p.text.Some? ==> p.text.value != [])
    && (p.call.Some? ==> p.call.value.name != [])
  }

  predicate AllSimple(parts: seq<Part>) {
    forall i :: 0 <= i < |parts| ==> Simple(parts[i])
  }

  /** The calls without an id among the parts: each takes one synthesized id. */
  function Idless(parts: seq<Part>): nat {
    if parts == [] then 0
    else
      var p := parts[|parts| - 1];
      Idless(parts[..|parts| - 1]) + if p.Part? && p.call.Some? && p.call.value.id == [] then 1 else 0
  }

  /** The number of the next synthesized id when part `i` is converted. */
  function Next(parts: seq<Part>, ids: nat, i: nat): nat
    requires i <= |parts|
  {
    ids + Idless(parts[..i])
  }

  /** The id the client knows a call by, `next` being the number of the next synthesized id. */
  function ClientId(p: Part, next: nat): Str
    requires Simple(p)
  {
    if p.call.None? then []
    else if p.call.value.id == [] then SynthesizedToolId(next)
    else p.call.value.id
  }

  function UnitOf(p: Part, next: nat): (u: Unit)
    requires Simple(p)
    ensures WholeUnit(u)
  {
    if p.text.Some? then Saying(p.text.value, p.signature)
    else
      var id := ClientId(p, next);
      assert id != [];
      match p.call.value.args
      case Some(json) => Calling(id, p.call.value.name, json, p.signature)
      case None => Calling(id, p.call.value.name, Ascii("{}"), p.signature)
  }

  /** The parts as the client holds them. */
  function UnitsOf(parts: seq<Part>, ids: nat): (us: seq<Unit>)
    requires AllSimple(parts)
    ensures AreUnits(us, parts, ids)
  {
    seq(|parts|, i requires 0 <= i < |parts| => UnitOf(parts[i], Next(parts, ids, i)))
  }

  ghost predicate AreUnits(us: seq<Unit>, parts: seq<Part>, ids: nat)
    requires AllSimple(parts)
  {
    |us| == |parts| && forall i :: 0 <= i < |us| ==> us[i] == UnitOf(parts[i], Next(parts, ids, i))
  }

  lemma UnitsInit(us: seq<Unit>, parts: seq<Part>, ids: nat)
    requires AllSimple(parts) && parts != [] && AreUnits(us, parts, ids)
    ensures var n := |parts| - 1;
            && AllSimple(parts[..n]) && Simple(parts[n]) && AreUnits(us[..n], parts[..n], ids)
            && us[n] == UnitOf(parts[n], ids + Idless(parts[..n]))
  {
    var n := |parts| - 1;
    forall i | 0 <= i < n ensures us[..n][i] == UnitOf(parts[..n][i], Next(parts[..n], ids, i)) {
      SameNext(parts, ids, i);
      assert us[..n][i] == us[i] && parts[..n][i] == parts[i];
    }
  }

  lemma SameNext(parts: seq<Part>, ids: nat, i: nat)
    requires i < |parts|
    ensures Next(parts[..|parts| - 1], ids, i) == Next(parts, ids, i)
  {
    TakeOfInit(parts, i);
  }

  lemma UnitsWhole(us: seq<Unit>, parts: seq<Part>, ids: nat)
    requires AllSimple(parts) && AreUnits(us, parts, ids)
    ensures AllWhole(us)
  {
  }

  lemma CallIsUnit(id: Str, call: Call, signature: Str)
    ensures CallBlocks(id, call, signature) ==
            UnitBlocks(Calling(id, call.name, ObjectOrEmpty(call.args), signature))
  {
    var tool := Tool(id, call.name, ObjectOrEmpty(call.args), signature);
    NothingBefore([tool]);
    OneByOne([], Carrier(ToolKey(id), signature), tool, tool);
  }

  lemma ConvertCallUnit(c: Converted, id: Str, call: Call, signature: Str)
    requires id == if call.id == [] then SynthesizedToolId(c.ids) else call.id
    ensures var d, u := ConvertCall(c, call, signature), Calling(id, call.name, ObjectOrEmpty(call.args), signature);
            && d.content == c.content + UnitBlocks(u)
            && d.signatures == (if signature == [] then c.signatures else c.signatures[ToolKey(id) := signature])
            && d.ids == c.ids + if call.id == [] then 1 else 0
  {
    CallIsUnit(id, call, signature);
  }

  lemma ConvertPartUnit(c: Converted, p: Part)
    requires Simple(p)
    ensures var d, u := ConvertPart(c, p), UnitOf(p, c.ids);
            && d.content == c.content + UnitBlocks(u)
            && d.signatures == (if u.signature == [] then c.signatures else c.signatures[UnitKey(u) := u.signature])
            && d.ids == c.ids + if p.call.Some? && p.call.value.id == [] then 1 else 0
  {
    if p.call.Some? {
      ConvertCallUnit(c, ClientId(p, c.ids), p.call.value, p.signature);
    }
  }

  predicate Holds(c: Converted, us: seq<Unit>, next: nat) {
    c.content == Blocks(us) && c.signatures == TableOf(us, true) && c.ids == next
  }

  lemma HoldsMore(c: Converted, us: seq<Unit>, next: nat, p: Part)
    requires Simple(p) && Holds(c, us, next)
    ensures Holds(ConvertPart(c, p), us + [UnitOf(p, next)],
                  next + if p.call.Some? && p.call.value.id == [] then 1 else 0)
  {
    ConvertPartUnit(c, p);
    SnocInit(us, UnitOf(p, next));
    UnitSignatures(map[], us + [UnitOf(p, next)], true);
  }

  lemma OnePartMore(parts: seq<Part>, ids: nat, k: nat)
    requires k < |parts| && Simple(parts[k])
    ensures ConvertParts(parts[..k + 1], ids) == ConvertPart(ConvertParts(parts[..k], ids), parts[k])
    ensures Next(parts, ids, k + 1) ==
            Next(parts, ids, k) + if parts[k].call.Some? && parts[k].call.value.id == [] then 1 else 0
  {
    TakeOneMore(parts, k);
    SnocInit(parts[..k], parts[k]);
  }

  /** The first `m` parts are converted to the first `m` units. */
  ghost predicate HoldsUpTo(us: seq<Unit>, parts: seq<Part>, ids: nat, m: nat)
    requires m <= |parts| && m <= |us|
  {
    Holds(ConvertParts(parts[..m], ids), us[..m], Next(parts, ids, m))
  }

  lemma HoldsUpToNext(us: seq<Unit>, parts: seq<Part>, ids: nat, k: nat)
    requires k < |parts| && k < |us| && Simple(parts[k]) && us[k] == UnitOf(parts[k], Next(parts, ids, k))
    requires HoldsUpTo(us, parts, ids, k)
    ensures HoldsUpTo(us, parts, ids, k + 1)
  {
    HoldsMore(ConvertParts(parts[..k], ids), us[..k], Next(parts, ids, k), parts[k]);
    OnePartMore(parts, ids, k);
    TakeOneMore(us, k);
  }

  lemma {:induction false} PrefixHolds(us: seq<Unit>, parts: seq<Part>, ids: nat, m: nat)
    requires AllSimple(parts) && AreUnits(us, parts, ids) && m <= |parts|
    ensures HoldsUpTo(us, parts, ids, m)
  {
    if m > 0 {
      PrefixHolds(us, parts, ids, m - 1);
      HoldsUpToNext(us, parts, ids, m - 1);
    }
  }

  /** The content the client gets, and the signatures the server remembers for it. */
  lemma ConvertsToUnits(us: seq<Unit>, parts: seq<Part>, ids: nat)
    requires AllSimple(parts) && AreUnits(us, parts, ids)
    ensures Holds(ConvertParts(parts, ids), us, ids + Idless(parts))
  {
    PrefixHolds(us, parts, ids, |parts|);
    TakeAll(parts);
    TakeAll(us);
  }

  // ----- What should come back, in terms of the parts -----

  /** The part as a model turn should hold it again. */
  function RestoredPart(p: Part, kept: bool, stored: bool): OutPart
    requires Simple(p)
  {
    if p.text.Some? then TextPart(p.text.value, if kept || stored then p.signature else [])
    else
      match p.call.value.args
      case Some(json) => CallPart(p.call.value.id, p.call.value.name, json, p.signature)
      case None => CallPart(p.call.value.id, p.call.value.name, Ascii("{}"), p.signature)
  }

  /** Where the text or tool_use block of part `p` stands among the client's blocks, after those of `before`. */
  function Position(before: seq<Part>, p: Part, ids: nat): nat
    requires Simple(p)
  {
    |ConvertParts(before, ids).content| + if p.call.Some? && p.signature != [] then 1 else 0
  }

  function RestoredParts(parts: seq<Part>, ids: nat, keep: nat -> bool, stored: bool): seq<OutPart>
    requires AllSimple(parts)
  {
    if parts == [] then []
    else
      var before, p := parts[..|parts| - 1], parts[|parts| - 1];
      RestoredParts(before, ids, keep, stored) +
      [RestoredPart(p, keep(Position(before, p, ids)), stored)]
  }

  /** The signatures the server remembers after the conversion, or none. */
  function Remembered(parts: seq<Part>, ids: nat, stored: bool): Table {
    if stored then ConvertParts(parts, ids).signatures else map[]
  }

  ghost predicate PartsRestored(parts: seq<Part>, ids: nat, keep: nat -> bool, stored: bool)
    requires AllSimple(parts)
  {
    Build(Request(Echo(ConvertParts(parts, ids).content, keep)), Remembered(parts, ids, stored)) ==
    Ok(Turns(RestoredParts(parts, ids, keep, stored)))
  }

  /** No id looks synthesized. */
  ghost predicate OwnIds(parts: seq<Part>)
    requires AllSimple(parts)
  {
    forall i :: 0 <= i < |parts| && parts[i].call.Some? ==> !(Ascii("gemini_synth_") <= parts[i].call.value.id)
  }

  predicate SameOwnId(p: Part, q: Part)
    requires Simple(p) && Simple(q)
  {
    p.call.Some? && q.call.Some? && p.call.value.id == q.call.value.id != []
  }

  predicate SameText(p: Part, q: Part)
    requires Simple(p) && Simple(q)
  {
    p.text.Some? && q.text.Some? && p.text.value == q.text.value
  }

  /** The two are remembered under one key: calls with one id or, if texts are stored, the same text. */
  predicate Share(p: Part, q: Part, stored: bool)
    requires Simple(p) && Simple(q)
  {
    SameOwnId(p, q) || (stored && SameText(p, q))
  }

  /** Calls that share an id share a signature; if the server stores signatures, so do texts that are the same. */
  ghost predicate SharersAgree(parts: seq<Part>, stored: bool)
    requires AllSimple(parts)
  {
    forall i, j :: 0 <= i < |parts| && 0 <= j < |parts| && Share(parts[i], parts[j], stored) ==>
      parts[i].signature == parts[j].signature
  }

  /** The key a signed part is remembered under. */
  function PartKey(p: Part, next: nat): Str
    requires Simple(p)
  {
    if p.text.Some? then TextKey(p.text.value) else ToolKey(ClientId(p, next))
  }

  predicate Clashes(parts: seq<Part>, ids: nat, stored: bool, i: nat, j: nat)
    requires AllSimple(parts) && i < |parts| && j < |parts|
  {
    && parts[i].call.Some? && parts[i].signature == []
    && parts[j].signature != [] && (stored || parts[j].call.Some?)
    && parts[i].call.value.id == PartKey(parts[j], Next(parts, ids, j))
  }

  /** No unsigned call has for its id the key of a signed call or, if the server stores signatures, of a signed text. */
  ghost predicate NoClash(parts: seq<Part>, ids: nat, stored: bool)
    requires AllSimple(parts)
  {
    forall i, j :: 0 <= i < |parts| && 0 <= j < |parts| ==> !Clashes(parts, ids, stored, i, j)
  }

  // ----- Ids -----

  lemma {:induction false} IdlessGrows(parts: seq<Part>, i: nat, j: nat)
    requires i <= j <= |parts|
    ensures Idless(parts[..i]) <= Idless(parts[..j])
  {
    if i < j {
      IdlessGrows(parts, i, j - 1);
      TakeOneMore(parts, j - 1);
    }
  }

  lemma SynthesizedHasPrefix(n: nat)
    ensures HasPrefix(SynthesizedToolId(n), SYNTHESIZED_TOOL)
  {
  }

  lemma SynthesizedIsNoKey(n: nat, id: Str)
    ensures SynthesizedToolId(n) != ToolKey(id) && SynthesizedToolId(n) != TextKey(id)
  {
    assert SynthesizedToolId(n)[0] == SYNTHESIZED_TOOL[0] == 0x67;
    assert ToolKey(id)[0] == TOOL_KEY[0] == 0x74;
    assert TextKey(id)[0] == TEXT_KEY[0] == 0x74;
  }

  lemma SynthesizedApart(parts: seq<Part>, ids: nat, i: nat, j: nat)
    requires AllSimple(parts) && i < j < |parts|
    requires parts[i].call.Some? && parts[i].call.value.id == [] && parts[j].call.Some? && parts[j].call.value.id == []
    ensures ClientId(parts[i], Next(parts, ids, i)) != ClientId(parts[j], Next(parts, ids, j))
  {
    var m, n := ids + Idless(parts[..i]), ids + Idless(parts[..j]);
    TakeOneMore(parts, i);
    IdlessGrows(parts, i + 1, j);
    assert SynthesizedToolId(m)[|SYNTHESIZED_TOOL|..] == Decimal(m);
    assert SynthesizedToolId(n)[|SYNTHESIZED_TOOL|..] == Decimal(n);
    if Decimal(m) == Decimal(n) {
      DecimalIsInjective(m, n);
    }
  }

  /** Synthesized ids are never shared, nor do own ids that do not look synthesized meet one. */
  lemma SameClientId(parts: seq<Part>, ids: nat, i: nat, j: nat)
    requires AllSimple(parts) && OwnIds(parts) && i < |parts| && j < |parts|
    requires parts[i].call.Some? && parts[j].call.Some?
    requires ClientId(parts[i], Next(parts, ids, i)) == ClientId(parts[j], Next(parts, ids, j))
    ensures i == j || SameOwnId(parts[i], parts[j])
  {
    if parts[i].call.value.id == [] && parts[j].call.value.id == [] {
      if i < j {
        SynthesizedApart(parts, ids, i, j);
      } else if j < i {
        SynthesizedApart(parts, ids, j, i);
      }
    } else {
      SynthesizedHasPrefix(ids + Idless(parts[..i]));
      SynthesizedHasPrefix(ids + Idless(parts[..j]));
    }
  }

  /** Two parts are remembered under one key exactly if they share an id or a text, or are one. */
  lemma SameKeyIs(us: seq<Unit>, parts: seq<Part>, ids: nat, stored: bool, i: nat, j: nat)
    requires AllSimple(parts) && AreUnits(us, parts, ids) && OwnIds(parts) && i < |parts| && j < |parts| && i != j
    ensures SameKey(us[i], us[j], stored) <==> Share(parts[i], parts[j], stored)
  {
    var p, q := parts[i], parts[j];
    var x, y := if p.text.Some? then p.text.value else ClientId(p, Next(parts, ids, i)),
                if q.text.Some? then q.text.value else ClientId(q, Next(parts, ids, j));
    KeysAreDistinct(x, y);
    KeysAreDistinct(y, x);
    if p.call.Some? && q.call.Some? && x == y {
      SameClientId(parts, ids, i, j);
    }
  }

  lemma AgreeAsParts(us: seq<Unit>, parts: seq<Part>, ids: nat, stored: bool)
    requires AllSimple(parts) && AreUnits(us, parts, ids) && OwnIds(parts)
    ensures KeysAgree(us, stored) <==> SharersAgree(parts, stored)
  {
    forall i, j | 0 <= i < |parts| && 0 <= j < |parts|
      ensures i != j ==> (SameKey(us[i], us[j], stored) <==> Share(parts[i], parts[j], stored))
      ensures us[i].signature == parts[i].signature && us[j].signature == parts[j].signature
    {
      if i != j {
        SameKeyIs(us, parts, ids, stored, i, j);
      }
    }
  }

  lemma ClashIs(us: seq<Unit>, parts: seq<Part>, ids: nat, stored: bool, i: nat, j: nat)
    requires AllSimple(parts) && AreUnits(us, parts, ids) && i < |parts| && j < |parts|
    ensures Clashes(parts, ids, stored, i, j) <==> TakesKey(us[i], us[j], stored)
  {
    if parts[i].call.Some? && parts[i].call.value.id == [] {
      var q := parts[j];
      SynthesizedIsNoKey(Next(parts, ids, i), if q.text.Some? then q.text.value else ClientId(q, Next(parts, ids, j)));
    }
  }

  ghost predicate ClashesMatch(us: seq<Unit>, parts: seq<Part>, ids: nat, stored: bool)
    requires AllSimple(parts) && |us| == |parts|
  {
    forall i, j :: 0 <= i < |us| && 0 <= j < |us| ==>
      (Clashes(parts, ids, stored, i, j) <==> TakesKey(us[i], us[j], stored))
  }

  lemma ClashesAre(us: seq<Unit>, parts: seq<Part>, ids: nat, stored: bool)
    requires AllSimple(parts) && AreUnits(us, parts, ids)
    ensures ClashesMatch(us, parts, ids, stored)
  {
    forall i, j | 0 <= i < |us| && 0 <= j < |us|
      ensures Clashes(parts, ids, stored, i, j) <==> TakesKey(us[i], us[j], stored)
    {
      ClashIs(us, parts, ids, stored, i, j);
    }
  }

  lemma ClashAsParts(us: seq<Unit>, parts: seq<Part>, ids: nat, stored: bool)
    requires AllSimple(parts) && |us| == |parts| && ClashesMatch(us, parts, ids, stored)
    ensures NoKeyForId(us, stored) <==> NoClash(parts, ids, stored)
  {
  }

  // ----- The theorem -----

  /** A part comes back with its own id exactly if that does not look synthesized. */
  lemma RestoredAlike(p: Part, next: nat, kept: bool, stored: bool)
    requires Simple(p)
    ensures RestoredPart(p, kept, stored) == Restored(UnitOf(p, next), kept, stored) <==>
            (p.call.Some? ==> !HasPrefix(p.call.value.id, SYNTHESIZED_TOOL))
  {
    SynthesizedHasPrefix(next);
  }

  lemma PositionIsOwn(us: seq<Unit>, parts: seq<Part>, ids: nat)
    requires AllSimple(parts) && parts != [] && AreUnits(us, parts, ids)
    ensures var n := |parts| - 1; Position(parts[..n], parts[n], ids) == OwnBlock(us[..n], us[n])
  {
    var n := |parts| - 1;
    UnitsInit(us, parts, ids);
    ConvertsToUnits(us[..n], parts[..n], ids);
  }

  lemma {:induction false} OwnIdsRestore(us: seq<Unit>, parts: seq<Part>, ids: nat, keep: nat -> bool, stored: bool)
    requires AllSimple(parts) && AreUnits(us, parts, ids) && OwnIds(parts)
    ensures RestoredParts(parts, ids, keep, stored) == RestoredAll(us, keep, stored)
  {
    if parts != [] {
      var n := |parts| - 1;
      UnitsInit(us, parts, ids);
      OwnIdsRestore(us[..n], parts[..n], ids, keep, stored);
      PositionIsOwn(us, parts, ids);
      RestoredAlike(parts[n], ids + Idless(parts[..n]), keep(OwnBlock(us[..n], us[n])), stored);
    }
  }

  lemma {:induction false} ReturnedHaveIds(us: seq<Unit>, keep: nat -> bool, table: Table, i: nat)
    requires i < |us| && us[i].Calling?
    ensures var out := ReturnedAll(us, keep, table);
            |out| == |us| && out[i].CallPart? && out[i].id == OutId(us[i].id)
  {
    ReturnedLength(us[..|us| - 1], keep, table);
    if i < |us| - 1 {
      ReturnedHaveIds(us[..|us| - 1], keep, table, i);
    }
  }

  lemma {:induction false} ReturnedLength(us: seq<Unit>, keep: nat -> bool, table: Table)
    ensures |ReturnedAll(us, keep, table)| == |us|
  {
    if us != [] {
      ReturnedLength(us[..|us| - 1], keep, table);
    }
  }

  lemma {:induction false} RestoredLength(parts: seq<Part>, ids: nat, keep: nat -> bool, stored: bool)
    requires AllSimple(parts)
    ensures |RestoredParts(parts, ids, keep, stored)| == |parts|
  {
    if parts != [] {
      RestoredLength(parts[..|parts| - 1], ids, keep, stored);
    }
  }

  lemma {:induction false} RestoredHaveIds(parts: seq<Part>, ids: nat, keep: nat -> bool, stored: bool, i: nat)
    requires AllSimple(parts) && i < |parts| && parts[i].call.Some?
    ensures var out := RestoredParts(parts, ids, keep, stored);
            |out| == |parts| && out[i].CallPart? && out[i].id == parts[i].call.value.id
  {
    RestoredLength(parts[..|parts| - 1], ids, keep, stored);
    if i < |parts| - 1 {
      RestoredHaveIds(parts[..|parts| - 1], ids, keep, stored, i);
    }
  }

  /** Whatever the table, the ids that come back are those of `OutId`. */
  lemma ReturnedIds(us: seq<Unit>, parts: seq<Part>, ids: nat, keep: nat -> bool, stored: bool, table: Table)
    requires AllSimple(parts) && AreUnits(us, parts, ids)
    requires ReturnedAll(us, keep, table) == RestoredParts(parts, ids, keep, stored)
    ensures OwnIds(parts)
  {
    forall i | 0 <= i < |parts| && parts[i].call.Some?
      ensures !HasPrefix(parts[i].call.value.id, SYNTHESIZED_TOOL)
    {
      ReturnedHaveIds(us, keep, table, i);
      RestoredHaveIds(parts, ids, keep, stored, i);
      OwnIdOut(parts[i], Next(parts, ids, i));
    }
  }

  lemma OwnIdOut(p: Part, next: nat)
    requires Simple(p) && p.call.Some?
    ensures OutId(UnitOf(p, next).id) == p.call.value.id ==> !HasPrefix(p.call.value.id, SYNTHESIZED_TOOL)
  {
  }

  lemma EchoOfParts(us: seq<Unit>, parts: seq<Part>, ids: nat, keep: nat -> bool, stored: bool)
    requires AllSimple(parts) && AreUnits(us, parts, ids)
    ensures PartsRestored(parts, ids, keep, stored) <==>
            ReturnedAll(us, keep, TableOf(us, stored)) == RestoredParts(parts, ids, keep, stored)
  {
    ConvertsToUnits(us, parts, ids);
    UnitsWhole(us, parts, ids);
    EchoBuilds(us, keep, stored);
    SameTurns(ReturnedAll(us, keep, TableOf(us, stored)), RestoredParts(parts, ids, keep, stored));
  }

  lemma PartsRestoredIs(us: seq<Unit>, parts: seq<Part>, ids: nat, keep: nat -> bool, stored: bool)
    requires AllSimple(parts) && AreUnits(us, parts, ids)
    ensures PartsRestored(parts, ids, keep, stored) ==> OwnIds(parts)
    ensures OwnIds(parts) ==> (PartsRestored(parts, ids, keep, stored) <==> Restores(us, keep, stored))
  {
    EchoOfParts(us, parts, ids, keep, stored);
    if PartsRestored(parts, ids, keep, stored) {
      ReturnedIds(us, parts, ids, keep, stored, TableOf(us, stored));
    }
    if OwnIds(parts) {
      OwnIdsRestore(us, parts, ids, keep, stored);
      ConvertsToUnits(us, parts, ids);
    }
  }

  lemma PartsRestoredAre(us: seq<Unit>, parts: seq<Part>, ids: nat, stored: bool)
    requires AllSimple(parts) && AreUnits(us, parts, ids)
    ensures (forall keep: nat -> bool :: PartsRestored(parts, ids, keep, stored)) <==>
            OwnIds(parts) && forall keep: nat -> bool :: Restores(us, keep, stored)
  {
    if OwnIds(parts) {
      forall keep: nat -> bool ensures PartsRestored(parts, ids, keep, stored) <==> Restores(us, keep, stored) {
        PartsRestoredIs(us, parts, ids, keep, stored);
      }
    } else {
      var all: nat -> bool := i => true;
      PartsRestoredIs(us, parts, ids, all, stored);
    }
  }

  /**
   * A response of simple parts that the client echoes, dropping whatever thought_signature fields it likes, of texts
   * and calls alike, comes back as a model turn with the same texts, names, arguments and ids; every call has its
   * signature again; a text has its own exactly when the field was kept, or always if the server has stored what the
   * conversion told it to. That holds for every way of dropping fields if and only if no id looks synthesized, sharers
   * agree and no id of an unsigned call is a key.
   */
  lemma RoundTripExactly(parts: seq<Part>, ids: nat, stored: bool)
    requires AllSimple(parts)
    ensures (forall keep: nat -> bool :: PartsRestored(parts, ids, keep, stored)) <==>
            OwnIds(parts) && SharersAgree(parts, stored) && NoClash(parts, ids, stored)
  {
    var us := UnitsOf(parts, ids);
    UnitsWhole(us, parts, ids);
    EchoRestoresExactly(us, stored);
    PartsRestoredAre(us, parts, ids, stored);
    if OwnIds(parts) {
      AgreeAsParts(us, parts, ids, stored);
      ClashesAre(us, parts, ids, stored);
      ClashAsParts(us, parts, ids, stored);
    }
  }

  function ToolKeyParts(name: Str, signature: Str): seq<Part> {
    [Part(false, None, Some(Call([0x78], name, None)), signature),
     Part(false, None, Some(Call(ToolKey([0x78]), name, None)), [])]
  }

  /**
   * The unsigned call "tool:x" behind the signed call "x" does not come back as it was: it takes that one's signature.
   */
  lemma ToolKeyAsId(ids: nat, name: Str, signature: Str)
    requires name != [] && signature != []
    ensures var parts := ToolKeyParts(name, signature);
            && AllSimple(parts) && OwnIds(parts)
            && !forall keep: nat -> bool :: PartsRestored(parts, ids, keep, false)
  {
    var parts := ToolKeyParts(name, signature);
    ToolKeyPartsClash(ids, name, signature);
    RoundTripExactly(parts, ids, false);
    assert !NoClash(parts, ids, false);
  }

  lemma ToolKeyPartsClash(ids: nat, name: Str, signature: Str)
    requires name != [] && signature != []
    ensures var parts := ToolKeyParts(name, signature);
            AllSimple(parts) && OwnIds(parts) && Clashes(parts, ids, false, 1, 0)
  {
    assert ToolKey([0x78])[0] == TOOL_KEY[0] == 0x74;
    assert SYNTHESIZED_TOOL[0] == 0x67;
  }
}
