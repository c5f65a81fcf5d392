/** What decides whether a caller is served from the cache, and what the cache and the flights hold. */
module TokenOutcomes {
  import opened Bytes
  import opened TokenProtocol

  // ----- The reference: the actions of the run alone -----

  /** Caller `c` came with this request in one of the first `i` actions. */
  ghost predicate CameWith(actions: seq<Action>, i: nat, c: nat, request: Request)
    requires i <= |actions|
  {
    exists h :: 0 <= h < i && actions[h] == Arrive(c, request)
  }

  /** Caller `c` read this pair in one of the first `i` actions: it was in the cache at that time. */
  ghost predicate Saw(states: seq<State>, actions: seq<Action>, i: nat, c: nat, seen: Credential)
    requires i <= |actions| < |states|
  {
    exists j :: 0 <= j < i && actions[j] == Read(c) && states[j].stored == seen
  }

  /** The auth server's answer in action `a` gives flight `f` this pair. */
  predicate Gives(a: Action, f: nat, c: Credential) {
    && a.Answer? && a.flight == f && a.idToken != []
    && c.bearer == Ascii("Bearer ") + a.idToken
    && c.expiresAt == a.now + if a.expiresIn > 0 then a.expiresIn else 300
  }

  /** Flight `f` got no usable answer. */
  predicate GivesUp(a: Action, f: nat) {
    a == Fail(f) || (a.Answer? && a.flight == f && a.idToken == [])
  }

  ghost predicate Given(actions: seq<Action>, i: nat, f: nat, c: Credential)
    requires i <= |actions|
  {
    exists j :: 0 <= j < i && Gives(actions[j], f, c)
  }

  ghost predicate GivenUp(actions: seq<Action>, i: nat, f: nat)
    requires i <= |actions|
  {
    exists j :: 0 <= j < i && GivesUp(actions[j], f)
  }

  // ----- Callers -----

  ghost predicate CallerKnown(states: seq<State>, actions: seq<Action>, i: nat, c: nat)
    requires i <= |actions| < |states|
  {
    c in states[i].callers ==>
      match states[i].callers[c]
      case Reading(request) => CameWith(actions, i, c, request)
      case Deciding(request, seen) => CameWith(actions, i, c, request) && Saw(states, actions, i, c, seen)
      case _ => true
  }

  lemma {:induction false} CallersAreKnown(states: seq<State>, actions: seq<Action>, skew: int, i: nat, c: nat)
    requires Run(states, actions, skew) && i <= |actions|
    ensures CallerKnown(states, actions, i, c)
  {
    if i > 0 {
      var s, a := states[i - 1], actions[i - 1];
      CallersAreKnown(states, actions, skew, i - 1, c);
      assert Enabled(s, a) && states[i] == Apply(s, a, skew);
    }
  }

  /**
   * In every run, when a caller decides, it does so on the pair that was in the cache when it read it, token and expiry
   * together. A caller that came for a token is given that token if and only if there is one and the time with the skew
   * has not reached its expiry; one whose token was rejected if and only if there is one and it is another. Any other
   * goes on to join a refresh.
   */
  lemma DecidedByTheCache(states: seq<State>, actions: seq<Action>, skew: int, i: nat, c: nat, now: int)
    returns (request: Request, seen: Credential)
    requires Run(states, actions, skew) && i < |actions| && actions[i] == Decide(c, now)
    ensures CameWith(actions, i, c, request) && Saw(states, actions, i, c, seen)
    ensures c in states[i + 1].callers
    ensures states[i + 1].callers[c] ==
            match request
            case Get =>
              if seen.bearer != [] && now + skew < seen.expiresAt then Returned(Cached(request, seen, now)) else Joining
            case Rejected(token) =>
              if seen.bearer != [] && seen.bearer != token then Returned(Cached(request, seen, now)) else Joining
    ensures states[i + 1] == states[i].(callers := states[i].callers[c := states[i + 1].callers[c]])
  {
    CallersAreKnown(states, actions, skew, i, c);
    assert Enabled(states[i], actions[i]) && states[i + 1] == Apply(states[i], actions[i], skew);
    request, seen := states[i].callers[c].request, states[i].callers[c].seen;
  }

  /** A caller that joins waits for the refresh that runs, if one does; otherwise it starts one. */
  lemma JoinsTheRefresh(states: seq<State>, actions: seq<Action>, skew: int, i: nat, c: nat)
    requires Run(states, actions, skew) && i < |actions| && actions[i] == Join(c)
    ensures var s, t := states[i], states[i + 1];
            && c in t.callers && t.callers[c].Waiting? && t.running.Keys == {t.callers[c].flight}
            && (if s.running != map[] then t.running == s.running
                else t.running == map[t.callers[c].flight := Asking] && t.callers[c].flight !in s.results)
            && t.stored == s.stored
  {
    EveryStateIsRight(states, actions, skew, i);
    var s := states[i];
    assert Enabled(s, actions[i]) && states[i + 1] == Apply(s, actions[i], skew);
    if s.inflight.Some? {
      assert s.running.Keys == {s.inflight.value};
    } else {
      assert s.running == map[];
    }
  }

  // ----- Flights -----

  /** What flight `f` holds or has delivered is what the auth server answered it. */
  ghost predicate FlightKnown(s: State, actions: seq<Action>, i: nat, f: nat)
    requires i <= |actions|
  {
    && (f in s.running ==>
          match s.running[f]
          case Asking => true
          case Answered(c) => Given(actions, i, f, c)
          case Stored(c) => Given(actions, i, f, c)
          case Broken => GivenUp(actions, i, f))
    && (f in s.results ==>
          match s.results[f]
          case Some(c) => Given(actions, i, f, c)
          case None => GivenUp(actions, i, f))
  }

  lemma StillGiven(actions: seq<Action>, i: nat, f: nat)
    requires i < |actions|
    ensures forall c :: Given(actions, i, f, c) || Gives(actions[i], f, c) ==> Given(actions, i + 1, f, c)
    ensures GivenUp(actions, i, f) || GivesUp(actions[i], f) ==> GivenUp(actions, i + 1, f)
  {
  }

  lemma FlightMoves(s: State, actions: seq<Action>, skew: int, i: nat, f: nat)
    requires i < |actions| && FlightKnown(s, actions, i, f) && Enabled(s, actions[i])
    ensures FlightKnown(Apply(s, actions[i], skew), actions, i + 1, f)
  {
    StillGiven(actions, i, f);
    if actions[i].Answer? && actions[i].flight == f && actions[i].idToken != [] {
      var a := actions[i];
      assert Gives(a, f, FromReply(a.idToken, a.expiresIn, a.now));
    }
  }

  lemma {:induction false} FlightsAreKnown(states: seq<State>, actions: seq<Action>, skew: int, i: nat, f: nat)
    requires Run(states, actions, skew) && i <= |actions|
    ensures FlightKnown(states[i], actions, i, f)
  {
    if i > 0 {
      FlightsAreKnown(states, actions, skew, i - 1, f);
      FlightMoves(states[i - 1], actions, skew, i - 1, f);
    }
  }

  /**
   * The pair in the cache is always the auth server's answer to the flight that wrote it: the bearer form of a
   * non-empty token, and the time of the answer plus the lifetime named, or five minutes if none is. The same goes for
   * what a flight delivers; it delivers nothing exactly after a failure or an answer without a token.
   */
  lemma CacheIsTheAnswer(states: seq<State>, actions: seq<Action>, skew: int, i: nat)
    requires Run(states, actions, skew) && i <= |actions|
    ensures states[i].storedBy > 0 ==> Given(actions, i, states[i].storedBy, states[i].stored)
    ensures forall f :: f in states[i].results ==>
              match states[i].results[f]
              case Some(c) => Given(actions, i, f, c)
              case None => GivenUp(actions, i, f)
  {
    EveryStateIsRight(states, actions, skew, i);
    FlightsAreKnown(states, actions, skew, i, states[i].storedBy);
    forall f | f in states[i].results
      ensures match states[i].results[f]
              case Some(c) => Given(actions, i, f, c)
              case None => GivenUp(actions, i, f)
    {
      FlightsAreKnown(states, actions, skew, i, f);
    }
  }

  /** An answer with a token is in hand at once, and in the cache once it is stored. */
  lemma AnswerIsStored(states: seq<State>, actions: seq<Action>, skew: int, i: nat, f: nat)
    requires Run(states, actions, skew) && i < |actions|
    ensures actions[i].Answer? && actions[i].flight == f && actions[i].idToken != [] ==>
              f in states[i + 1].running && states[i + 1].running[f].Answered?
              && Gives(actions[i], f, states[i + 1].running[f].credential)
    ensures actions[i] == Store(f) ==>
              && f in states[i].running && states[i].running[f].Answered?
              && states[i + 1].stored == states[i].running[f].credential && states[i + 1].storedBy == f
  {
    assert Enabled(states[i], actions[i]) && states[i + 1] == Apply(states[i], actions[i], skew);
  }
}
