/** What the signing-key cache promises, in every run of concurrent loads, fetches and failures. */
module KeyRefreshTheorems {
  import opened Values
  import opened SigningKeys
  import opened KeyRefresh

  // ---- each step keeps the invariant ----------------------------------------

  /** Answers stay good: successes are only added. */
  ghost predicate Grows(s: State, t: State) {
    && s.now <= t.now
    && |s.flights| <= |t.flights|
    && |s.successes| <= |t.successes|
    && (forall i :: 0 <= i < |s.successes| ==> t.successes[i] == s.successes[i])
  }

  /** The logins after a step of login `l`. */
  lemma LoadsFrame(s: State, t: State, l: nat)
    requires LoadsOk(s) && Grows(s, t) && |t.loads| == |s.loads|
    requires forall k :: 0 <= k < |s.loads| && k != l ==> t.loads[k] == s.loads[k]
    requires l < |t.loads| ==> LoadOk(t, t.loads[l])
    ensures LoadsOk(t)
  {
  }

  /** The flights after a step of flight `f`. */
  lemma FlightsFrame(s: State, t: State, f: nat)
    requires FlightsOk(s) && Grows(s, t) && |t.flights| == |s.flights| && t.running == s.running
    requires forall g :: 0 <= g < |s.flights| && g != f ==> t.flights[g] == s.flights[g]
    requires f < |t.flights| ==> FlightOk(t, f, t.flights[f])
    ensures FlightsOk(t)
  {
  }

  /** A step that leaves the cache and the flights alone. */
  lemma LoginStep(s: State, t: State, l: nat)
    requires Inv(s) && t == s.(loads := t.loads) && |t.loads| == |s.loads|
    requires forall k :: 0 <= k < |s.loads| && k != l ==> t.loads[k] == s.loads[k]
    requires l < |t.loads| ==> LoadOk(t, t.loads[l])
    ensures Inv(t)
  {
  }

  lemma CachedIsCurrent(s: State)
    requires SuccessesOk(s) && Current(s.cache, s.now)
    ensures Cached(s).Some? && AnswerOk(s, Cached(s).value)
  {
  }

  lemma AnswerFrame(s: State, t: State, a: Answer)
    requires AnswerOk(s, a) && Grows(s, t)
    ensures AnswerOk(t, a)
  {
  }

  /** What beginning a refresh does to everything but the fetch log. */
  lemma BegunShape(s: State, f: nat)
    requires AtFlight(s, f).Opened?
    ensures var t := DoBeginRefresh(s, f);
            var d := Decide(s.cache, s.now, s.flights[f].forced);
            && t == s.(cache := s.cache.(lastAttempt := t.cache.lastAttempt), flights := t.flights, fetches := t.fetches)
            && t.flights == s.flights[f := if d.Serve? then Answered(Cached(s)) else if d.Refuse? then Answered(None) else Fetching(s.now)]
            && (d.Serve? ==> Current(s.cache, s.now))
  {
  }

  lemma BegunFlightOk(s: State, t: State, f: nat)
    requires SuccessesOk(s) && f < |s.flights| && s.running == Some(f)
    requires t == s.(cache := s.cache.(lastAttempt := t.cache.lastAttempt), flights := t.flights, fetches := t.fetches)
    requires |t.flights| == |s.flights|
    requires t.flights[f] == Answered(None) || t.flights[f].Fetching? ||
             (t.flights[f] == Answered(Cached(s)) && Current(s.cache, s.now))
    ensures SuccessesOk(t) && FlightOk(t, f, t.flights[f])
  {
    if t.flights[f] == Answered(Cached(s)) && Current(s.cache, s.now) {
      CachedIsCurrent(s);
      AnswerFrame(s, t, Cached(s).value);
    }
  }

  lemma BegunFetchesOk(s: State, f: nat)
    requires FetchesOk(s) && AtFlight(s, f).Opened?
    ensures FetchesOk(DoBeginRefresh(s, f))
  {
  }

  lemma BeginRefreshKeeps(s: State, f: nat)
    requires Inv(s)
    ensures Inv(DoBeginRefresh(s, f))
  {
    if AtFlight(s, f).Opened? {
      assert FlightOk(s, f, s.flights[f]);
      BegunShape(s, f);
      BegunFlightOk(s, DoBeginRefresh(s, f), f);
      BegunFetchesOk(s, f);
      FlightsFrame(s, DoBeginRefresh(s, f), f);
      LoadsFrame(s, DoBeginRefresh(s, f), |s.loads|);
    }
  }

  /** A finished fetch appends its success, and keeps the usable keys of that document. */
  lemma StoredShape(s: State, f: nat, document: seq<RawKey>)
    requires AtFlight(s, f).Fetching? && Acceptable(document)
    ensures var t := DoFinishRefresh(s, f, Document(document));
            && t.successes == s.successes + [Success(s.now, document)] && t.now == s.now
            && t.cache.keys == UsableKeys(document) && t.cache.lastSuccess == s.now
            && |t.flights| == |s.flights|
            && t.flights[f] == Answered(Some(Answer(UsableKeys(document), s.now, |s.successes|)))
  {
  }

  lemma StoredOk(s: State, f: nat, document: seq<RawKey>)
    requires SuccessesOk(s) && AtFlight(s, f).Fetching? && Acceptable(document)
    ensures var t := DoFinishRefresh(s, f, Document(document));
            Grows(s, t) && SuccessesOk(t) && t.flights[f].Answered? && AnswerOk(t, t.flights[f].answer.value)
  {
    StoredShape(s, f, document);
    var t := DoFinishRefresh(s, f, Document(document));
    forall i | 0 <= i < |s.successes| ensures t.successes[i] == s.successes[i] {
    }
    assert t.successes[|s.successes|] == Success(s.now, document);
  }

  lemma FailedOk(s: State, f: nat, fetched: Fetched)
    requires SuccessesOk(s) && AtFlight(s, f).Fetching? && !Refreshes(fetched)
    ensures var t := DoFinishRefresh(s, f, fetched);
            Grows(s, t) && SuccessesOk(t) && t.flights[f] == Answered(None)
  {
  }

  lemma FetchesStay(s: State, f: nat, fetched: Fetched)
    requires FetchesOk(s)
    ensures FetchesOk(DoFinishRefresh(s, f, fetched))
  {
  }

  lemma FinishRefreshKeeps(s: State, f: nat, fetched: Fetched)
    requires Inv(s)
    ensures Inv(DoFinishRefresh(s, f, fetched))
  {
    if AtFlight(s, f).Fetching? {
      FetchesStay(s, f, fetched);
      if Refreshes(fetched) {
        StoredOk(s, f, fetched.keys);
      } else {
        FailedOk(s, f, fetched);
      }
      FlightsFrame(s, DoFinishRefresh(s, f, fetched), f);
      LoadsFrame(s, DoFinishRefresh(s, f, fetched), |s.loads|);
    }
  }

  lemma JoinKeeps(s: State, l: nat)
    requires Inv(s)
    ensures Inv(DoJoin(s, l))
  {
    if AtLoad(s, l).Joining? {
      var t := DoJoin(s, l);
      LoadsFrame(s, t, l);
      forall f | 0 <= f < |t.flights| ensures FlightOk(t, f, t.flights[f]) {
        if f < |s.flights| {
          assert FlightOk(s, f, s.flights[f]);
        }
      }
    }
  }

  lemma AbandonKeeps(s: State, l: nat)
    requires Inv(s)
    ensures Inv(DoAbandon(s, l))
  {
  }

  lemma ReceiveKeeps(s: State, l: nat)
    requires Inv(s)
    ensures Inv(DoReceive(s, l))
  {
    if AtLoad(s, l).Waiting? && AtFlight(s, s.loads[l].flight).Answered? {
      assert LoadOk(s, s.loads[l]);
      assert FlightOk(s, s.loads[l].flight, s.flights[s.loads[l].flight]);
      LoginStep(s, DoReceive(s, l), l);
    }
  }

  lemma PeekKeeps(s: State, l: nat)
    requires Inv(s)
    ensures Inv(DoPeek(s, l))
  {
    if AtLoad(s, l).Entering? {
      if Current(s.cache, s.now) {
        CachedIsCurrent(s);
      }
      LoginStep(s, DoPeek(s, l), l);
    }
  }

  lemma TickKeeps(s: State, d: nat)
    requires Inv(s)
    ensures Inv(s.(now := s.now + d))
  {
  }

  lemma CallKeeps(s: State, force: bool)
    requires Inv(s)
    ensures Inv(s.(loads := s.loads + [Entering(force)]))
  {
  }

  lemma LandKeeps(s: State, f: nat)
    requires Inv(s)
    ensures Inv(DoLand(s, f))
  {
  }

  predicate OnLogin(step: Step) {
    step.CallLoad? || step.Peek? || step.Join? || step.Receive? || step.Abandon?
  }

  lemma LoginStepKeeps(s: State, step: Step)
    requires Inv(s) && OnLogin(step)
    ensures Inv(Next(s, step))
  {
    match step
    case CallLoad(force) => CallKeeps(s, force);
    case Peek(l) => PeekKeeps(s, l);
    case Join(l) => JoinKeeps(s, l);
    case Receive(l) => ReceiveKeeps(s, l);
    case Abandon(l) => AbandonKeeps(s, l);
  }

  lemma NextKeeps(s: State, step: Step)
    requires Inv(s)
    ensures Inv(Next(s, step))
  {
    if OnLogin(step) {
      LoginStepKeeps(s, step);
    } else {
      match step
      case Tick(d) => TickKeeps(s, d);
      case BeginRefresh(f) => BeginRefreshKeeps(s, f);
      case FinishRefresh(f, fetched) => FinishRefreshKeeps(s, f, fetched);
      case Land(f) => LandKeeps(s, f);
    }
  }

  lemma {:induction false} RunKeeps(s: State, steps: seq<Step>)
    requires Inv(s)
    ensures Inv(Run(s, steps))
    decreases |steps|
  {
    if steps != [] {
      NextKeeps(s, steps[0]);
      RunKeeps(Next(s, steps[0]), steps[1..]);
    }
  }

  ghost predicate Reachable(s: State) {
    exists now, steps :: s == Run(Init(now), steps)
  }

  lemma ReachableOk(s: State)
    requires Reachable(s)
    ensures Inv(s)
  {
    var now, steps :| s == Run(Init(now), steps);
    RunKeeps(Init(now), steps);
  }

  // ---- key safety ----------------------------------------------------------

  /** A load that succeeds returns at least one key, every one usable and all from one document the
      program fetched whole, stored less than a day before the cache was looked at. */
  lemma LoadIsSafe(s: State, l: nat)
    requires Reachable(s) && AtLoad(s, l).Returned?
    ensures var a := s.loads[l].answer;
            && a.keys != [] && (forall key :: key in a.keys ==> Usable(key))
            && a.source < |s.successes| && Acceptable(s.successes[a.source].document)
            && a.keys == UsableKeys(s.successes[a.source].document)
            && s.successes[a.source].time <= s.now && a.checkedAt <= s.now
            && a.checkedAt - s.successes[a.source].time < DAY
  {
    ReachableOk(s);
    assert LoadOk(s, s.loads[l]);
    var document := s.successes[s.loads[l].answer.source].document;
    var key :| key in document && Usable(key);
    assert key in UsableKeys(document);
  }

  lemma RunFirst(s: State, step: Step, rest: seq<Step>)
    ensures Run(s, [step] + rest) == Run(Next(s, step), rest)
  {
    assert ([step] + rest)[1..] == rest;
  }

  /** A login that comes to an empty cache, alone, fetches; and an acceptable document gives it every
      usable key, in order. */
  lemma FirstLoadReturns(now: int, force: bool, document: seq<RawKey>)
    requires Acceptable(document)
    ensures var begin := [CallLoad(force)] + ([Peek(0)] + ([Join(0)] + [BeginRefresh(0)]));
            var s := Run(Run(Init(now), begin), [FinishRefresh(0, Document(document))] + [Receive(0)]);
            && s.loads == [Returned(Answer(UsableKeys(document), now, 0))]
            && s.cache == KeyCache(UsableKeys(document), now, Some(now)) && s.fetches == [now]
  {
    var s4 := FetchBegins(now, force);
    var answer := Answer(UsableKeys(document), now, 0);
    var s5 := s4.(flights := [Answered(Some(answer))], successes := [Success(now, document)],
                  cache := KeyCache(UsableKeys(document), now, Some(now)));
    assert Next(s4, FinishRefresh(0, Document(document))) == s5;
    RunFirst(s4, FinishRefresh(0, Document(document)), [Receive(0)]);
    assert Run(s5, [Receive(0)]) == Run(Next(s5, Receive(0)), []);
  }

  lemma FetchBegins(now: int, force: bool) returns (s: State)
    ensures s == Run(Init(now), [CallLoad(force)] + ([Peek(0)] + ([Join(0)] + [BeginRefresh(0)])))
    ensures s == State(now, KeyCache([], 0, Some(now)), [Fetching(now)], Some(0), [Waiting(0)], [now], [])
  {
    var s1 := Init(now).(loads := [Entering(force)]);
    var s2 := s1.(loads := [Joining(force)]);
    var s3 := s2.(loads := [Waiting(0)], flights := [Opened(force)], running := Some(0));
    s := s3.(flights := [Fetching(now)], fetches := [now], cache := KeyCache([], 0, Some(now)));
    assert Next(Init(now), CallLoad(force)) == s1 && Next(s1, Peek(0)) == s2 && Next(s2, Join(0)) == s3;
    assert Next(s3, BeginRefresh(0)) == s;
    RunFirst(Init(now), CallLoad(force), [Peek(0)] + ([Join(0)] + [BeginRefresh(0)]));
    RunFirst(s1, Peek(0), [Join(0)] + [BeginRefresh(0)]);
    RunFirst(s2, Join(0), [BeginRefresh(0)]);
    assert Run(s3, [BeginRefresh(0)]) == Run(s, []);
  }

  /** At most one fetch runs at a time. */
  lemma OneFetchAtATime(s: State, f: nat, g: nat)
    requires Reachable(s) && AtFlight(s, f).Fetching? && AtFlight(s, g).Fetching?
    ensures f == g
  {
    ReachableOk(s);
    assert FlightOk(s, f, s.flights[f]) && FlightOk(s, g, s.flights[g]);
  }

  /** Only a whole acceptable document changes the cached keys; every failure leaves them. */
  lemma FailuresKeepKeys(s: State, step: Step)
    requires !(step.FinishRefresh? && Refreshes(step.fetched))
    ensures Next(s, step).cache.keys == s.cache.keys && Next(s, step).cache.lastSuccess == s.cache.lastSuccess
  {
  }

  // ---- the rate bound ------------------------------------------------------

  /** Fetches that start within the window. */
  function CountIn(fetches: seq<int>, lo: int, hi: int): nat {
    if fetches == [] then 0
    else CountIn(fetches[..|fetches| - 1], lo, hi) + if lo <= fetches[|fetches| - 1] <= hi then 1 else 0
  }

  lemma SpacedLast(fetches: seq<int>)
    requires Spaced(fetches) && fetches != []
    ensures var n := |fetches| - 1;
            Spaced(fetches[..n]) && forall i :: 0 <= i < n ==> fetches[..n][i] <= fetches[n] - MINUTE
  {
    var n := |fetches| - 1;
    forall i | 0 <= i < n ensures fetches[..n][i] <= fetches[n] - MINUTE {
      assert fetches[n] - fetches[i] >= (n - i) * MINUTE;
    }
  }

  /** Between the first and the last of them lies a minute per fetch. */
  lemma {:induction false} SpacedCount(fetches: seq<int>, lo: int, hi: int)
    requires Spaced(fetches) && lo <= hi
    ensures (CountIn(fetches, lo, hi) - 1) * MINUTE <= hi - lo
    decreases |fetches|
  {
    if fetches != [] {
      var n := |fetches| - 1;
      var rest, last := fetches[..n], fetches[n];
      SpacedLast(fetches);
      if !(lo <= last <= hi) {
        SpacedCount(rest, lo, hi);
      } else if last - MINUTE < lo {
        NoneBefore(rest, lo, hi, last - MINUTE);
      } else {
        NoneAfter(rest, lo, last - MINUTE, hi);
        SpacedCount(rest, lo, last - MINUTE);
      }
    }
  }

  lemma WholeMinutes(n: nat, span: int)
    requires (n - 1) * MINUTE <= span && span >= 0
    ensures n <= span / MINUTE + 1
  {
  }

  lemma {:induction false} NoneBefore(fetches: seq<int>, lo: int, hi: int, bound: int)
    requires forall i :: 0 <= i < |fetches| ==> fetches[i] <= bound
    requires bound < lo
    ensures CountIn(fetches, lo, hi) == 0
    decreases |fetches|
  {
    if fetches != [] {
      NoneBefore(fetches[..|fetches| - 1], lo, hi, bound);
    }
  }

  lemma {:induction false} NoneAfter(fetches: seq<int>, lo: int, bound: int, hi: int)
    requires forall i :: 0 <= i < |fetches| ==> fetches[i] <= bound
    requires bound <= hi
    ensures CountIn(fetches, lo, hi) == CountIn(fetches, lo, bound)
    decreases |fetches|
  {
    if fetches != [] {
      NoneAfter(fetches[..|fetches| - 1], lo, bound, hi);
    }
  }

  /** However many callers there are, forced or not, and however the fetches end: any two fetches
      start a minute apart, so no window of length T sees more than T / minute + 1 of them. */
  lemma RefreshRateBound(s: State, lo: int, hi: int)
    requires Reachable(s) && lo <= hi
    ensures forall i, j :: 0 <= i < j < |s.fetches| ==> s.fetches[j] - s.fetches[i] >= MINUTE
    ensures CountIn(s.fetches, lo, hi) <= (hi - lo) / MINUTE + 1
  {
    ReachableOk(s);
    forall i, j | 0 <= i < j < |s.fetches| ensures s.fetches[j] - s.fetches[i] >= MINUTE {
      assert (j - i) * MINUTE >= MINUTE;
    }
    SpacedCount(s.fetches, lo, hi);
    WholeMinutes(CountIn(s.fetches, lo, hi), hi - lo);
  }

  /** The step sends a login's flight off to fetch. */
  ghost predicate Starts(s: State, step: Step) {
    exists f :: AtFlight(Next(s, step), f).Fetching? && !AtFlight(s, f).Fetching?
  }

  /** The fetch starts of a run that fall within the window. */
  ghost function StartsIn(s: State, steps: seq<Step>, lo: int, hi: int): nat
    decreases |steps|
  {
    if steps == [] then 0
    else (if Starts(s, steps[0]) && lo <= s.now <= hi then 1 else 0) + StartsIn(Next(s, steps[0]), steps[1..], lo, hi)
  }

  /** `fetches` records every start of a fetch, at its time, and nothing else. */
  lemma FetchesAreRecorded(s: State, step: Step)
    ensures Next(s, step).fetches == if Starts(s, step) then s.fetches + [s.now] else s.fetches
  {
    var t := Next(s, step);
    if t.fetches != s.fetches {
      assert AtFlight(t, step.f).Fetching? && !AtFlight(s, step.f).Fetching?;
    }
  }

  lemma {:induction false} StartsAreCounted(s: State, steps: seq<Step>, lo: int, hi: int)
    ensures CountIn(Run(s, steps).fetches, lo, hi) == CountIn(s.fetches, lo, hi) + StartsIn(s, steps, lo, hi)
    decreases |steps|
  {
    if steps != [] {
      FetchesAreRecorded(s, steps[0]);
      assert (s.fetches + [s.now])[..|s.fetches|] == s.fetches;
      StartsAreCounted(Next(s, steps[0]), steps[1..], lo, hi);
    }
  }

  /** The bound on the run itself: of all its steps, at most T / minute + 1 within any window of
      length T start a fetch. */
  lemma FetchRateBound(now: int, steps: seq<Step>, lo: int, hi: int)
    requires lo <= hi
    ensures StartsIn(Init(now), steps, lo, hi) <= (hi - lo) / MINUTE + 1
  {
    StartsAreCounted(Init(now), steps, lo, hi);
    RefreshRateBound(Run(Init(now), steps), lo, hi);
  }

  /** A payload accepted by VerifySignature on lists of this cache was signed with a strong key of
      the token's own id, published for signing under a permitted issuer. */
  lemma AcceptedKeyIsStrong(s: State, l: nat, token: Token, kid: string, issuer: string, key: RawKey)
    requires Reachable(s) && AtLoad(s, l).Returned?
    requires key in s.loads[l].answer.keys && Verifies(token, kid, issuer, key)
    ensures key.rsa && key.bits >= 2048 && key.kid == kid && kid != ""
    ensures key.issuer == ISSUER_TEMPLATE || key.issuer == issuer
    ensures s.loads[l].answer.source < |s.successes| && key in s.successes[s.loads[l].answer.source].document
  {
    LoadIsSafe(s, l);
  }
}
