/** The token provider as interleaved steps of any number of callers and of the refreshes they share. */
module TokenProtocol {
  import opened Bytes

  datatype Credential = Credential(bearer: Str, expiresAt: int)

  const NOTHING := Credential([], 0)
  const BEARER: Str := Ascii("Bearer ")

  /** GetBearerToken, or RefreshAfterRejection of a token. */
  datatype Request = Get | Rejected(token: Str)

  datatype Outcome =
    | Cached(request: Request, seen: Credential, checkedAt: int)
    | Refreshed(flight: nat, token: Str)
    | RefreshFailed(flight: nat)
    | Cancelled(flight: nat)

  /** Where a caller is: before its read of the cache, with what it read, about to join a flight, waiting, or done. */
  datatype Caller =
    | Reading(request: Request)
    | Deciding(request: Request, seen: Credential)
    | Joining
    | Waiting(flight: nat)
    | Returned(outcome: Outcome)

  /** Where a refresh is: waiting for the auth server, with a reply in hand, with the reply stored, or failed. */
  datatype Refresh = Asking | Answered(credential: Credential) | Stored(credential: Credential) | Broken

  /**
   * `stored` is the cached pair and `storedBy` the flight that wrote it (0 is none, flights count from 1); `inflight`
   * is the call registered with the singleflight group; `running` are the refresh goroutines; `results` what ended
   * flights delivered.
   */
  datatype State = State(
    stored: Credential, storedBy: nat, inflight: Option<nat>, running: map<nat, Refresh>,
    results: map<nat, Option<Credential>>, callers: map<nat, Caller>, nextFlight: nat)

  const INITIAL := State(NOTHING, 0, None, map[], map[], map[], 1)

  datatype Action =
    | Arrive(caller: nat, request: Request)
    | Read(caller: nat)
    | Decide(caller: nat, now: int)
    | Join(caller: nat)
    | Answer(flight: nat, idToken: Str, expiresIn: int, now: int)
    | Fail(flight: nat)
    | Store(flight: nat)
    | End(flight: nat)
    | Receive(caller: nat)
    | Cancel(caller: nat)

  predicate IsFresh(seen: Credential, skew: int, now: int) {
    seen.bearer != [] && now + skew < seen.expiresAt
  }

  /** The cache check of either entry point. */
  predicate UseCache(request: Request, seen: Credential, skew: int, now: int) {
    match request
    case Get => IsFresh(seen, skew, now)
    case Rejected(token) => seen.bearer != [] && seen.bearer != token
  }

  function FromReply(idToken: Str, expiresIn: int, now: int): Credential {
    Credential(BEARER + idToken, now + if expiresIn <= 0 then 300 else expiresIn)
  }

  predicate Enabled(s: State, a: Action) {
    match a
    case Arrive(c, _) => c !in s.callers
    case Read(c) => c in s.callers && s.callers[c].Reading?
    case Decide(c, _) => c in s.callers && s.callers[c].Deciding?
    case Join(c) => c in s.callers && s.callers[c].Joining?
    case Answer(f, _, _, _) => f in s.running && s.running[f].Asking?
    case Fail(f) => f in s.running && s.running[f].Asking?
    case Store(f) => f in s.running && s.running[f].Answered?
    case End(f) => f in s.running && (s.running[f].Stored? || s.running[f].Broken?)
    case Receive(c) => c in s.callers && s.callers[c].Waiting? && s.callers[c].flight in s.results
    case Cancel(c) => c in s.callers && s.callers[c].Waiting?
  }

  function At(s: State, c: nat, p: Caller): State {
    s.(callers := s.callers[c := p])
  }

  function Apply(s: State, a: Action, skew: int): State
    requires Enabled(s, a)
  {
    match a
    case Arrive(c, request) => At(s, c, Reading(request))
    case Read(c) => At(s, c, Deciding(s.callers[c].request, s.stored))
    case Decide(c, now) =>
      var p := s.callers[c];
      At(s, c, if UseCache(p.request, p.seen, skew, now) then Returned(Cached(p.request, p.seen, now)) else Joining)
    case Join(c) =>
      if s.inflight.Some? then At(s, c, Waiting(s.inflight.value))
      else
        At(s, c, Waiting(s.nextFlight)).(inflight := Some(s.nextFlight), running := s.running[s.nextFlight := Asking],
                                         nextFlight := s.nextFlight + 1)
    case Answer(f, idToken, expiresIn, now) =>
      s.(running := s.running[f := if idToken == [] then Broken else Answered(FromReply(idToken, expiresIn, now))])
    case Fail(f) => s.(running := s.running[f := Broken])
    case Store(f) =>
      var c := s.running[f].credential;
      s.(stored := c, storedBy := f, running := s.running[f := Stored(c)])
    case End(f) =>
      s.(running := s.running - {f}, inflight := if s.inflight == Some(f) then None else s.inflight,
         results := s.results[f := if s.running[f].Stored? then Some(s.running[f].credential) else None])
    case Receive(c) =>
      var f := s.callers[c].flight;
      At(s, c, Returned(if s.results[f].Some? then Refreshed(f, s.results[f].value.bearer) else RefreshFailed(f)))
    case Cancel(c) => At(s, c, Returned(Cancelled(s.callers[c].flight)))
  }

  /** A run from the start, in any interleaving. */
  ghost predicate Run(states: seq<State>, actions: seq<Action>, skew: int) {
    && |states| == |actions| + 1 && states[0] == INITIAL
    && forall i :: 0 <= i < |actions| ==>
         Enabled(states[i], actions[i]) && states[i + 1] == Apply(states[i], actions[i], skew)
  }

  // ----- The invariant -----

  /** Flight `f` has put `c` into the cache: its result says so, or it is between storing and ending. */
  predicate Wrote(s: State, f: nat, c: Credential) {
    (f in s.results && s.results[f] == Some(c)) || (f in s.running && s.running[f] == Stored(c))
  }

  /** A pair that was in the cache: both halves from one refresh, or the empty pair of the start. */
  ghost predicate Genuine(s: State, c: Credential) {
    c == NOTHING || exists f: nat :: Wrote(s, f, c)
  }

  /** The group registers exactly the refresh that runs; flights are numbered as they start. */
  ghost predicate OneFlight(s: State) {
    && s.nextFlight > 0
    && (forall f :: f in s.running <==> s.inflight == Some(f))
    && (forall f :: f in s.running || f in s.results <==> 0 < f < s.nextFlight)
    && (forall f :: f in s.running ==> f !in s.results && forall g :: g in s.results ==> g < f)
  }

  /** The cached pair was written whole by one flight, and by none before the newest that wrote. */
  ghost predicate CacheIsNewest(s: State) {
    && (s.storedBy == 0 ==> s.stored == NOTHING)
    && (s.storedBy > 0 ==> Wrote(s, s.storedBy, s.stored))
    && (forall f: nat, c :: Wrote(s, f, c) ==> f <= s.storedBy && c.bearer != [])
  }

  ghost predicate OutcomeRight(s: State, o: Outcome, skew: int) {
    match o
    case Cached(request, seen, now) => Genuine(s, seen) && UseCache(request, seen, skew, now)
    case Refreshed(f, token) => f in s.results && s.results[f].Some? && s.results[f].value.bearer == token
    case RefreshFailed(f) => f in s.results && s.results[f].None?
    case Cancelled(f) => 0 < f < s.nextFlight
  }

  ghost predicate CallerRight(s: State, p: Caller, skew: int) {
    match p
    case Reading(_) => true
    case Deciding(_, seen) => Genuine(s, seen)
    case Joining => true
    case Waiting(f) => f in s.running || f in s.results
    case Returned(o) => OutcomeRight(s, o, skew)
  }

  ghost predicate Invariant(s: State, skew: int) {
    OneFlight(s) && CacheIsNewest(s) && forall c :: c in s.callers ==> CallerRight(s, s.callers[c], skew)
  }

  /** The actions of a refresh, which touch no caller. */
  predicate OfFlight(a: Action) {
    a.Answer? || a.Fail? || a.Store? || a.End?
  }

  lemma FlightKeepsOne(s: State, a: Action, skew: int)
    requires OneFlight(s) && Enabled(s, a)
    ensures OneFlight(Apply(s, a, skew))
  {
  }

  lemma WroteStays(s: State, a: Action, skew: int, f: nat, c: Credential)
    requires OneFlight(s) && Enabled(s, a) && Wrote(s, f, c)
    ensures Wrote(Apply(s, a, skew), f, c)
  {
  }

  lemma WroteNew(s: State, a: Action, skew: int, f: nat, c: Credential)
    requires OneFlight(s) && Enabled(s, a) && Wrote(Apply(s, a, skew), f, c) && !Wrote(s, f, c)
    ensures a == Store(f) && c == s.running[f].credential
  {
  }

  /** Credentials in hand always have a token. */
  ghost predicate AnswersHaveTokens(s: State) {
    forall f :: f in s.running && s.running[f].Answered? ==> s.running[f].credential.bearer != []
  }

  lemma AnswersStay(s: State, a: Action, skew: int)
    requires AnswersHaveTokens(s) && Enabled(s, a)
    ensures AnswersHaveTokens(Apply(s, a, skew))
  {
  }

  lemma CacheStaysNewest(s: State, a: Action, skew: int)
    requires OneFlight(s) && CacheIsNewest(s) && AnswersHaveTokens(s) && Enabled(s, a)
    ensures CacheIsNewest(Apply(s, a, skew))
    ensures s.storedBy <= Apply(s, a, skew).storedBy
  {
    var t := Apply(s, a, skew);
    forall f: nat, c | Wrote(t, f, c) ensures f <= t.storedBy && c.bearer != [] {
      if !Wrote(s, f, c) {
        WroteNew(s, a, skew, f, c);
      } else if a.Store? && s.storedBy > 0 {
        assert Wrote(s, s.storedBy, s.stored);
      }
    }
    if a.Store? {
      NewestIsLast(s, a.flight);
    } else if s.storedBy > 0 {
      WroteStays(s, a, skew, s.storedBy, s.stored);
    }
  }

  lemma NewestIsLast(s: State, f: nat)
    requires OneFlight(s) && CacheIsNewest(s) && f in s.running && s.running[f].Answered?
    ensures s.storedBy < f
  {
    if s.storedBy > 0 {
      assert Wrote(s, s.storedBy, s.stored);
    }
  }

  lemma GenuineStays(s: State, a: Action, skew: int, c: Credential)
    requires OneFlight(s) && Enabled(s, a) && Genuine(s, c)
    ensures Genuine(Apply(s, a, skew), c)
  {
    if c != NOTHING {
      var f: nat :| Wrote(s, f, c);
      WroteStays(s, a, skew, f, c);
    }
  }

  lemma CallerStaysRight(s: State, a: Action, skew: int, p: Caller)
    requires OneFlight(s) && Enabled(s, a) && CallerRight(s, p, skew)
    ensures CallerRight(Apply(s, a, skew), p, skew)
  {
    match p
    case Deciding(_, seen) => GenuineStays(s, a, skew, seen);
    case Returned(Cached(_, seen, _)) => GenuineStays(s, a, skew, seen);
    case _ =>
  }

  lemma MovedCallerIsRight(s: State, a: Action, skew: int, c: nat)
    requires Invariant(s, skew) && Enabled(s, a)
    requires c in Apply(s, a, skew).callers && (c !in s.callers || Apply(s, a, skew).callers[c] != s.callers[c])
    ensures CallerRight(Apply(s, a, skew), Apply(s, a, skew).callers[c], skew)
  {
    if a.Read? && s.storedBy > 0 {
      assert Wrote(s, s.storedBy, s.stored);
    }
    if a.Read? {
      GenuineStays(s, a, skew, s.stored);
    }
    if a.Decide? {
      GenuineStays(s, a, skew, s.callers[c].seen);
    }
  }

  lemma StepKeepsInvariant(s: State, a: Action, skew: int)
    requires Invariant(s, skew) && AnswersHaveTokens(s) && Enabled(s, a)
    ensures Invariant(Apply(s, a, skew), skew) && AnswersHaveTokens(Apply(s, a, skew))
  {
    var t := Apply(s, a, skew);
    FlightKeepsOne(s, a, skew);
    CacheStaysNewest(s, a, skew);
    AnswersStay(s, a, skew);
    forall c | c in t.callers ensures CallerRight(t, t.callers[c], skew) {
      if c in s.callers && t.callers[c] == s.callers[c] {
        CallerStaysRight(s, a, skew, s.callers[c]);
      } else {
        MovedCallerIsRight(s, a, skew, c);
      }
    }
  }

  lemma {:induction false} EveryStateIsRight(states: seq<State>, actions: seq<Action>, skew: int, i: nat)
    requires Run(states, actions, skew) && i <= |actions|
    ensures Invariant(states[i], skew) && AnswersHaveTokens(states[i])
  {
    if i > 0 {
      EveryStateIsRight(states, actions, skew, i - 1);
      StepKeepsInvariant(states[i - 1], actions[i - 1], skew);
    }
  }

  // ----- What callers can rely on, in every interleaving -----

  /** At most one refresh is in flight, whatever the callers do. */
  lemma AtMostOneRefresh(states: seq<State>, actions: seq<Action>, skew: int, i: nat)
    requires Run(states, actions, skew) && i <= |actions|
    ensures |states[i].running| <= 1
  {
    EveryStateIsRight(states, actions, skew, i);
    var keys := states[i].running.Keys;
    if keys != {} {
      var f :| f in keys;
      assert keys == {f};
    }
  }

  /** The cache of `t` is that of `s` or a newer one. */
  predicate NotOlder(s: State, t: State) {
    s.storedBy < t.storedBy || (s.storedBy == t.storedBy && s.stored == t.stored)
  }

  lemma CacheMovesForward(s: State, a: Action, skew: int)
    requires Invariant(s, skew) && AnswersHaveTokens(s) && Enabled(s, a)
    ensures NotOlder(s, Apply(s, a, skew))
  {
    CacheStaysNewest(s, a, skew);
    if a.Store? {
      NewestIsLast(s, a.flight);
    }
  }

  /** The cached pair never reverts to that of an older refresh. */
  lemma {:induction false} CacheNeverReverts(states: seq<State>, actions: seq<Action>, skew: int, i: nat, j: nat)
    requires Run(states, actions, skew) && i <= j <= |actions|
    ensures NotOlder(states[i], states[j])
  {
    if i < j {
      CacheNeverReverts(states, actions, skew, i, j - 1);
      EveryStateIsRight(states, actions, skew, j - 1);
      CacheMovesForward(states[j - 1], actions[j - 1], skew);
    }
  }

  /** Token and expiry in the cache always come from the same refresh, and from no older one than the newest stored. */
  lemma CacheIsFromOneRefresh(states: seq<State>, actions: seq<Action>, skew: int, i: nat)
    requires Run(states, actions, skew) && i <= |actions|
    ensures states[i].storedBy == 0 ==> states[i].stored == NOTHING
    ensures states[i].storedBy > 0 ==> Wrote(states[i], states[i].storedBy, states[i].stored)
    ensures forall f: nat, c :: Wrote(states[i], f, c) ==> f <= states[i].storedBy
  {
    EveryStateIsRight(states, actions, skew, i);
  }

  /** What a caller that has returned was given. */
  lemma ReturnedTokens(states: seq<State>, actions: seq<Action>, skew: int, i: nat, c: nat)
    requires Run(states, actions, skew) && i <= |actions|
    requires c in states[i].callers && states[i].callers[c].Returned?
    ensures var s, o := states[i], states[i].callers[c].outcome;
            match o
            case Cached(Get, seen, now) =>
              (exists f: nat :: Wrote(s, f, seen)) && now + skew < seen.expiresAt
            case Cached(Rejected(token), seen, _) =>
              (exists f: nat :: Wrote(s, f, seen)) && seen.bearer != token
            case Refreshed(f, token) => f in s.results && s.results[f].Some? && token == s.results[f].value.bearer != []
            case RefreshFailed(f) => f in s.results && s.results[f].None?
            case Cancelled(f) => 0 < f < s.nextFlight
  {
    EveryStateIsRight(states, actions, skew, i);
    var s, o := states[i], states[i].callers[c].outcome;
    assert CallerRight(s, s.callers[c], skew);
    if o.Refreshed? {
      assert Wrote(s, o.flight, s.results[o.flight].value);
    }
  }

  /** Callers that waited for the same flight got the same answer. */
  lemma JoinersShareTheAnswer(states: seq<State>, actions: seq<Action>, skew: int, i: nat, c: nat, d: nat)
    requires Run(states, actions, skew) && i <= |actions|
    requires c in states[i].callers && states[i].callers[c].Returned? && states[i].callers[c].outcome.Refreshed?
    requires d in states[i].callers && states[i].callers[d].Returned?
    requires var o := states[i].callers[d].outcome;
             (o.Refreshed? || o.RefreshFailed?) && o.flight == states[i].callers[c].outcome.flight
    ensures states[i].callers[d].outcome == states[i].callers[c].outcome
  {
    EveryStateIsRight(states, actions, skew, i);
    assert CallerRight(states[i], states[i].callers[c], skew);
    assert CallerRight(states[i], states[i].callers[d], skew);
  }

  predicate ActsFor(a: Action, c: nat) {
    !OfFlight(a) && a.caller == c
  }

  /**
   * A caller's cancellation is invisible to everyone else: whatever any other caller or the shared refresh could do
   * next it still can, with the same effect, as if the cancellation came later.
   */
  lemma CancelCommutes(s: State, c: nat, a: Action, skew: int)
    requires Enabled(s, Cancel(c)) && Enabled(s, a) && !ActsFor(a, c)
    ensures Enabled(Apply(s, Cancel(c), skew), a)
    ensures Enabled(Apply(s, a, skew), Cancel(c))
    ensures Apply(Apply(s, Cancel(c), skew), a, skew) == Apply(Apply(s, a, skew), Cancel(c), skew)
    ensures Apply(s, Cancel(c), skew).running == s.running && Apply(s, Cancel(c), skew).stored == s.stored
  {
    var cancelled := Apply(s, Cancel(c), skew).callers[c];
    match a
    case Answer(_, _, _, _) =>
    case Fail(_) =>
    case Store(_) =>
    case End(_) =>
    case _ =>
      assert a.caller != c;
      UpdatesCommute(s.callers, c, cancelled, a.caller, Apply(s, a, skew).callers[a.caller]);
  }

  lemma UpdatesCommute<V>(m: map<nat, V>, a: nat, x: V, b: nat, y: V)
    requires a != b
    ensures m[a := x][b := y] == m[b := y][a := x]
  {
  }

  /** The steps that bring the flight a caller waits for to its end. */
  function Remaining(s: State, f: nat, idToken: Str, expiresIn: int, now: int): seq<Action> {
    if f !in s.running then []
    else match s.running[f]
      case Asking => if idToken == [] then [Answer(f, idToken, expiresIn, now), End(f)]
                     else [Answer(f, idToken, expiresIn, now), Store(f), End(f)]
      case Answered(_) => [Store(f), End(f)]
      case _ => [End(f)]
  }

  ghost predicate Follows(s: State, actions: seq<Action>, skew: int, t: State)
    decreases |actions|
  {
    if actions == [] then t == s
    else Enabled(s, actions[0]) && Follows(Apply(s, actions[0], skew), actions[1..], skew, t)
  }

  /**
   * No waiter is stranded: once the auth server answers, in whatever way, the flight alone, without any other caller,
   * gets to a state in which the waiter can take its answer.
   */
  lemma WaiterIsServed(states: seq<State>, actions: seq<Action>, skew: int, i: nat, c: nat,
                       idToken: Str, expiresIn: int, now: int) returns (t: State)
    requires Run(states, actions, skew) && i <= |actions|
    requires c in states[i].callers && states[i].callers[c].Waiting?
    ensures Follows(states[i], Remaining(states[i], states[i].callers[c].flight, idToken, expiresIn, now), skew, t)
    ensures t.callers == states[i].callers && Enabled(t, Receive(c))
  {
    EveryStateIsRight(states, actions, skew, i);
    var s := states[i];
    assert CallerRight(s, s.callers[c], skew);
    t := Carry(s, s.callers[c].flight, idToken, expiresIn, now, skew);
  }

  lemma Carry(s: State, f: nat, idToken: Str, expiresIn: int, now: int, skew: int) returns (t: State)
    requires f in s.running || f in s.results
    ensures Follows(s, Remaining(s, f, idToken, expiresIn, now), skew, t)
    ensures t.callers == s.callers && f in t.results
    decreases if f !in s.running then 0 else match s.running[f] case Asking => 3 case Answered(_) => 2 case _ => 1
  {
    var todo := Remaining(s, f, idToken, expiresIn, now);
    if todo == [] {
      t := s;
    } else {
      var u := Apply(s, todo[0], skew);
      assert todo[1..] == Remaining(u, f, idToken, expiresIn, now);
      t := Carry(u, f, idToken, expiresIn, now, skew);
    }
  }

  /**
   * RefreshAfterRejection does not look at the expiry: whatever the clock says, it hands out a cached token without a
   * refresh exactly when that is another token than the rejected one.
   */
  lemma RejectionIgnoresExpiry(s: State, c: nat, rejected: Str, now: int, skew: int) returns (t: State)
    requires c !in s.callers
    ensures Follows(s, [Arrive(c, Rejected(rejected)), Read(c), Decide(c, now)], skew, t)
    ensures t == At(s, c, if s.stored.bearer != [] && s.stored.bearer != rejected
                          then Returned(Cached(Rejected(rejected), s.stored, now)) else Joining)
  {
    var arrive, read, decide := Arrive(c, Rejected(rejected)), Read(c), Decide(c, now);
    var u := Apply(s, arrive, skew);
    var v := Apply(u, read, skew);
    t := Apply(v, decide, skew);
    assert [arrive, read, decide][1..] == [read, decide] && [read, decide][1..] == [decide] && [decide][1..] == [];
    assert Follows(v, [decide], skew, t);
    assert Follows(u, [read, decide], skew, t);
    assert t.callers == s.callers[c := t.callers[c]];
  }

  /** One step more at the end of a run. */
  lemma RunMore(states: seq<State>, actions: seq<Action>, skew: int, a: Action) returns (more: seq<State>)
    requires Run(states, actions, skew) && Enabled(states[|actions|], a)
    ensures Run(more, actions + [a], skew) && more[|actions| + 1] == Apply(states[|actions|], a, skew)
  {
    more := states + [Apply(states[|actions|], a, skew)];
    forall i | 0 <= i < |actions + [a]|
      ensures Enabled(more[i], (actions + [a])[i]) && more[i + 1] == Apply(more[i], (actions + [a])[i], skew)
    {
      if i < |actions| {
        assert states[i + 1] == Apply(states[i], actions[i], skew);
      }
    }
  }

  /**
   * So a run of the protocol, whatever the time that passes, hands an expired token to a caller whose own token was
   * rejected: one refresh by a first caller, then a rejection at any later time.
   */
  lemma ExpiredTokenIsHandedOut(skew: int, rejected: Str, later: int)
    returns (states: seq<State>, actions: seq<Action>)
    requires later >= 300 && rejected != BEARER + Ascii("t")
    ensures Run(states, actions, skew)
    ensures var s := states[|actions|];
            && 1 in s.callers && s.callers[1].Returned? && s.callers[1].outcome.Cached?
            && s.callers[1].outcome.request == Rejected(rejected) && s.callers[1].outcome.seen == s.stored
            && s.callers[1].outcome.checkedAt == later && s.stored.bearer != [] && s.stored.expiresAt <= later
  {
    states, actions := [INITIAL], [];
    states := RunMore(states, actions, skew, Arrive(0, Get));
    actions := actions + [Arrive(0, Get)];
    states := RunMore(states, actions, skew, Read(0));
    actions := actions + [Read(0)];
    states := RunMore(states, actions, skew, Decide(0, 0));
    actions := actions + [Decide(0, 0)];
    states := RunMore(states, actions, skew, Join(0));
    actions := actions + [Join(0)];
    states := RunMore(states, actions, skew, Answer(1, Ascii("t"), 300, 0));
    actions := actions + [Answer(1, Ascii("t"), 300, 0)];
    states := RunMore(states, actions, skew, Store(1));
    actions := actions + [Store(1)];
    states := RunMore(states, actions, skew, Arrive(1, Rejected(rejected)));
    actions := actions + [Arrive(1, Rejected(rejected))];
    states := RunMore(states, actions, skew, Read(1));
    actions := actions + [Read(1)];
    states := RunMore(states, actions, skew, Decide(1, later));
    actions := actions + [Decide(1, later)];
  }
}
