/**
 Any number of logins loading signing keys at once: the fast path, the single refresh they share,
 its fetch and its failures, interleaved with a clock that never goes back. `fetches` (when fetches
 started) and `successes` (what each stored, and when) are history.
 */
module KeyRefresh {
  import opened Values
  import opened SigningKeys

  datatype Success = Success(time: int, document: seq<RawKey>)

  /** A list handed to a login, with the moment the cache was looked at and the fetch it is from. */
  datatype Answer = Answer(keys: seq<RawKey>, checkedAt: int, source: nat)

  datatype Load =
    | Entering(force: bool)
    | Joining(force: bool)
    | Waiting(flight: nat)
    | Returned(answer: Answer)
    | Failed

  datatype Flight =
    | Opened(forced: bool)
    | Fetching(started: int)
    | Answered(answer: Option<Answer>)

  datatype State = State(
    now: int,
    cache: KeyCache,
    flights: seq<Flight>,
    running: Option<nat>,
    loads: seq<Load>,
    fetches: seq<int>,
    successes: seq<Success>)

  function Init(now: int): State {
    State(now, KeyCache([], 0, None), [], None, [], [], [])
  }

  datatype Step =
    | Tick(d: nat)
    | CallLoad(force: bool)
    | Peek(l: nat)
    | Join(l: nat)
    | BeginRefresh(f: nat)
    | FinishRefresh(f: nat, fetched: Fetched)
    | Land(f: nat)
    | Receive(l: nat)
    | Abandon(l: nat)

  function AtLoad(s: State, l: nat): Load {
    if l < |s.loads| then s.loads[l] else Failed
  }

  function AtFlight(s: State, f: nat): Flight {
    if f < |s.flights| then s.flights[f] else Answered(None)
  }

  /** What the cache answers at once; it holds the keys of the last success. */
  function Cached(s: State): Option<Answer> {
    if s.cache.keys != [] && s.successes != [] then Some(Answer(s.cache.keys, s.now, |s.successes| - 1)) else None
  }

  function DoPeek(s: State, l: nat): State {
    if AtLoad(s, l).Entering? then
      if Current(s.cache, s.now) && !s.loads[l].force && Cached(s).Some?
      then s.(loads := s.loads[l := Returned(Cached(s).value)])
      else s.(loads := s.loads[l := Joining(s.loads[l].force)])
    else s
  }

  function DoJoin(s: State, l: nat): State {
    if AtLoad(s, l).Joining? then
      if s.running.Some?
      then s.(loads := s.loads[l := Waiting(s.running.value)])
      else s.(loads := s.loads[l := Waiting(|s.flights|)],
              flights := s.flights + [Opened(s.loads[l].force)],
              running := Some(|s.flights|))
    else s
  }

  function DoBeginRefresh(s: State, f: nat): State {
    if AtFlight(s, f).Opened? then
      var d := Decide(s.cache, s.now, s.flights[f].forced);
      var t := s.(cache := Attempted(s.cache, s.now, d));
      match d
      case Serve => t.(flights := s.flights[f := Answered(Cached(s))])
      case Refuse => t.(flights := s.flights[f := Answered(None)])
      case Fetch => t.(flights := s.flights[f := Fetching(s.now)], fetches := s.fetches + [s.now])
    else s
  }

  function DoFinishRefresh(s: State, f: nat, fetched: Fetched): State {
    if AtFlight(s, f).Fetching? then
      var t := s.(cache := Refreshed(s.cache, s.now, fetched));
      if Refreshes(fetched)
      then t.(flights := s.flights[f := Answered(Some(Answer(t.cache.keys, s.now, |s.successes|)))],
              successes := s.successes + [Success(s.now, fetched.keys)])
      else t.(flights := s.flights[f := Answered(None)])
    else s
  }

  function DoLand(s: State, f: nat): State {
    if s.running == Some(f) && AtFlight(s, f).Answered? then s.(running := None) else s
  }

  function DoReceive(s: State, l: nat): State {
    if AtLoad(s, l).Waiting? && AtFlight(s, s.loads[l].flight).Answered? then
      match AtFlight(s, s.loads[l].flight).answer
      case None => s.(loads := s.loads[l := Failed])
      case Some(answer) => s.(loads := s.loads[l := Returned(answer)])
    else s
  }

  function DoAbandon(s: State, l: nat): State {
    if AtLoad(s, l).Waiting? then s.(loads := s.loads[l := Failed]) else s
  }

  function Next(s: State, step: Step): State {
    match step
    case Tick(d) => s.(now := s.now + d)
    case CallLoad(force) => s.(loads := s.loads + [Entering(force)])
    case Peek(l) => DoPeek(s, l)
    case Join(l) => DoJoin(s, l)
    case BeginRefresh(f) => DoBeginRefresh(s, f)
    case FinishRefresh(f, fetched) => DoFinishRefresh(s, f, fetched)
    case Land(f) => DoLand(s, f)
    case Receive(l) => DoReceive(s, l)
    case Abandon(l) => DoAbandon(s, l)
  }

  function Run(s: State, steps: seq<Step>): State
    decreases |steps|
  {
    if steps == [] then s else Run(Next(s, steps[0]), steps[1..])
  }

  // ---- the invariant -------------------------------------------------------

  ghost predicate SuccessesOk(s: State) {
    && (forall i :: 0 <= i < |s.successes| ==> Acceptable(s.successes[i].document) && s.successes[i].time <= s.now)
    && (s.successes == [] ==> s.cache.keys == [])
    && (s.successes != [] ==>
          var last := s.successes[|s.successes| - 1];
          s.cache.keys == UsableKeys(last.document) && s.cache.lastSuccess == last.time)
  }

  ghost predicate Spaced(fetches: seq<int>) {
    forall i, j :: 0 <= i < j < |fetches| ==> fetches[j] - fetches[i] >= (j - i) * MINUTE
  }

  ghost predicate FetchesOk(s: State) {
    && Spaced(s.fetches)
    && (forall i :: 0 <= i < |s.fetches| ==> s.fetches[i] <= s.now)
    && s.cache.lastAttempt == if s.fetches == [] then None else Some(s.fetches[|s.fetches| - 1])
  }

  /** A list of usable keys, from one accepted document stored less than a day before it was looked at. */
  ghost predicate AnswerOk(s: State, a: Answer) {
    && a.source < |s.successes|
    && a.keys == UsableKeys(s.successes[a.source].document)
    && a.checkedAt <= s.now
    && a.checkedAt - s.successes[a.source].time < DAY
  }

  ghost predicate LoadOk(s: State, load: Load) {
    && (load.Returned? ==> AnswerOk(s, load.answer))
    && (load.Waiting? ==> load.flight < |s.flights|)
  }

  ghost predicate FlightOk(s: State, f: nat, flight: Flight) {
    match flight
    case Answered(answer) => answer.Some? ==> AnswerOk(s, answer.value)
    case _ => s.running == Some(f)
  }

  ghost predicate LoadsOk(s: State) {
    forall l :: 0 <= l < |s.loads| ==> LoadOk(s, s.loads[l])
  }

  ghost predicate FlightsOk(s: State) {
    && (forall f :: 0 <= f < |s.flights| ==> FlightOk(s, f, s.flights[f]))
    && (s.running.Some? ==> s.running.value < |s.flights|)
  }

  ghost predicate Inv(s: State) {
    SuccessesOk(s) && FetchesOk(s) && LoadsOk(s) && FlightsOk(s)
  }
}
