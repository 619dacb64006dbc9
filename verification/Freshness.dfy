/**
 The revision-gated cache protocol as a state machine: any number of requests, caches and
 single-flight loads interleave with database commits and with a clock that never goes back.
 One step is one critical section or one database read of the program.

 Fields called `version`, `serial`, `floor`, `cleared`, `dropped`, `since`, `need`, `passes` and
 `recorded` are history: no step's choice depends on them. They only record what the theorems speak about.
 */
module Freshness {
  import opened Values
  import opened TtlCache
  import opened RevisionGate

  // ---- state ---------------------------------------------------------------

  /** One committed state of the registry, as the loaders see it: cache number and key to row. */
  datatype Commit = Commit(time: int, revision: int, rows: map<(nat, string), Any>)

  function Row(rows: map<(nat, string), Any>, cache: nat, key: string): Any {
    if (cache, key) in rows then rows[(cache, key)] else Nil
  }

  /** A loaded value, with the commit it was read at, and when and at which step its load started. */
  datatype Sample = Sample(value: Any, version: nat, started: int, serial: nat)

  /** A cache, with the commit its last gate purge stands for and the steps of its invalidations. */
  datatype Slot = Slot(cache: Cache<Sample>, floor: nat, cleared: nat, dropped: map<string, nat>)

  function LastDrop(slot: Slot, key: string): nat {
    if key in slot.dropped && slot.dropped[key] > slot.cleared then slot.dropped[key] else slot.cleared
  }

  datatype Loaded = Loaded(sample: Sample) | Failed

  datatype FlightPhase =
    | Opened
    | Missing
    | Loading(started: int, serial: nat)
    | Sampled(sample: Sample)
    | Finished(result: Loaded)

  datatype Flight = Flight(cache: nat, gen: nat, key: string, phase: FlightPhase)

  /** One call of Get: what it asks for, the generation it first saw, the last invalidation of
      its key when it began, and how many passes of its loop have started. */
  datatype Call = Call(cache: nat, key: string, gen0: nat, since: nat, passes: nat)

  datatype Phase =
    | Queued
    | Probing(started: int)
    | Probed(started: int, version: nat)
    | Purging(started: int, version: nat, next: nat)
    | Admitted(need: nat)
    | Seeking(need: nat, call: Call)
    | Missed(need: nat, call: Call, gen: nat)
    | Waiting(need: nat, call: Call, gen: nat, flight: nat)
    | Got(need: nat, call: Call, sample: Sample, hitAt: Option<int>)
    | Ended

  datatype Request = Request(called: int, phase: Phase)

  datatype Config = Config(interval: int, ttl: int, capacity: int, caches: nat)

  datatype State = State(
    cfg: Config,
    now: int,
    serial: nat,
    log: seq<Commit>,
    gate: Gate,
    recorded: nat,
    holder: Option<nat>,
    slots: seq<Slot>,
    flights: seq<Flight>,
    group: map<(nat, string), nat>,
    requests: seq<Request>)

  function Init(cfg: Config, first: Commit): State {
    State(cfg, first.time, 1, [first], Gate(0, None), 0, None,
          seq(cfg.caches, _ => Slot(Cache(map[], 0), 0, 0, map[])), [], map[], [])
  }

  // ---- steps ---------------------------------------------------------------

  datatype Step =
    | Tick(d: nat)
    | CommitRows(revision: int, rows: map<(nat, string), Any>)
    | CallCheck
    | EnterGate(r: nat)
    | ReadRevision(r: nat)
    | FailProbe(r: nat)
    | Reconcile(r: nat)
    | PurgeNext(r: nat)
    | Install(r: nat)
    | BeginGet(r: nat, cache: nat, key: string)
    | Look(r: nat)
    | Join(r: nat)
    | Receive(r: nat)
    | Abandon(r: nat)
    | InnerCheck(f: nat)
    | StartLoad(f: nat)
    | ReadRow(f: nat)
    | FailLoad(f: nat)
    | StoreLoad(f: nat, victim: string)
    | Land(f: nat)
    | Drop(cache: nat, key: string)
    | Clear(cache: nat)

  function At(s: State, r: nat): Phase {
    if r < |s.requests| then s.requests[r].phase else Ended
  }

  function Move(s: State, r: nat, phase: Phase): State
    requires r < |s.requests|
  {
    s.(requests := s.requests[r := s.requests[r].(phase := phase)])
  }

  function Fly(s: State, f: nat, phase: FlightPhase): State
    requires f < |s.flights|
  {
    s.(flights := s.flights[f := s.flights[f].(phase := phase)])
  }

  function DoTick(s: State, d: nat): State {
    s.(now := s.now + d)
  }

  function DoCommit(s: State, revision: int, rows: map<(nat, string), Any>): State {
    if |s.log| > 0 && revision > s.log[|s.log| - 1].revision
    then s.(log := s.log + [Commit(s.now, revision, rows)])
    else s
  }

  function DoCallCheck(s: State): State {
    s.(requests := s.requests + [Request(s.now, Queued)])
  }

  /** Check takes the gate's mutex; a recent successful probe admits at once. */
  function DoEnterGate(s: State, r: nat): State {
    if At(s, r).Queued? && s.holder.None? then
      if Recent(s.gate, s.cfg.interval, s.now)
      then Move(s, r, Admitted(s.recorded))
      else Move(s, r, Probing(s.now)).(holder := Some(r))
    else s
  }

  function DoReadRevision(s: State, r: nat): State {
    if At(s, r).Probing? && |s.log| > 0
    then Move(s, r, Probed(At(s, r).started, |s.log| - 1))
    else s
  }

  function DoFailProbe(s: State, r: nat): State {
    if At(s, r).Probing?
    then Move(s, r, Ended).(holder := None, gate := s.gate.(checked := None))
    else s
  }

  function Reopen(s: State, r: nat, started: int, version: nat): State
    requires r < |s.requests| && version < |s.log|
  {
    Move(s, r, Admitted(version)).(holder := None,
                                   gate := Gate(s.log[version].revision, Some(started)),
                                   recorded := version)
  }

  function DoReconcile(s: State, r: nat): State {
    var p := At(s, r);
    if p.Probed? && p.version < |s.log| then
      if MustPurge(s.gate, s.log[p.version].revision)
      then Move(s, r, Purging(p.started, p.version, 0))
      else Reopen(s, r, p.started, p.version)
    else s
  }

  function DoPurgeNext(s: State, r: nat): State {
    var p := At(s, r);
    if p.Purging? && p.next < |s.slots| then
      var slot := s.slots[p.next];
      Move(s, r, p.(next := p.next + 1)).(
        slots := s.slots[p.next := Slot(Purged(slot.cache), p.version, s.serial, slot.dropped)])
    else s
  }

  function DoInstall(s: State, r: nat): State {
    var p := At(s, r);
    if p.Purging? && p.next >= |s.slots| && p.version < |s.log|
    then Reopen(s, r, p.started, p.version)
    else s
  }

  function DoBeginGet(s: State, r: nat, cache: nat, key: string): State {
    var p := At(s, r);
    if (p.Admitted? || p.Got?) && cache < |s.slots| then
      Move(s, r, Seeking(p.need, Call(cache, key, s.slots[cache].cache.generation,
                                      LastDrop(s.slots[cache], key), 0)))
    else s
  }

  /** The top of Get's loop: read the generation and the entry under the read lock. */
  function DoLook(s: State, r: nat): State {
    var p := At(s, r);
    if p.Seeking? && p.call.cache < |s.slots| then
      var c := s.slots[p.call.cache].cache;
      var call := p.call.(passes := p.call.passes + 1);
      match Hit(c, call.key, s.now)
      case Some(sample) => Move(s, r, Got(p.need, call, sample, Some(s.now)))
      case None => Move(s, r, Missed(p.need, call, c.generation))
    else s
  }

  /** DoChan: join the flight of that name, or open it. */
  function DoJoin(s: State, r: nat): State {
    var p := At(s, r);
    if p.Missed? then
      var name := (p.call.cache, FlightKey(p.gen, p.call.key));
      if name in s.group
      then Move(s, r, Waiting(p.need, p.call, p.gen, s.group[name]))
      else Move(s, r, Waiting(p.need, p.call, p.gen, |s.flights|)).(
             flights := s.flights + [Flight(p.call.cache, p.gen, p.call.key, Opened)],
             group := s.group[name := |s.flights|])
    else s
  }

  /** The flight's result arrived: retry if the generation moved on, else return it. */
  function DoReceive(s: State, r: nat): State {
    var p := At(s, r);
    if p.Waiting? && p.flight < |s.flights| && s.flights[p.flight].phase.Finished? && p.call.cache < |s.slots| then
      if p.gen != s.slots[p.call.cache].cache.generation
      then Move(s, r, Seeking(p.need, p.call))
      else match s.flights[p.flight].phase.result
        case Failed => Move(s, r, Ended)
        case Loaded(sample) => Move(s, r, Got(p.need, p.call, sample, None))
    else s
  }

  /** The request's context ends; a gate holder leaves through FailProbe instead. */
  function DoAbandon(s: State, r: nat): State {
    var p := At(s, r);
    if p.Queued? || p.Admitted? || p.Seeking? || p.Missed? || p.Waiting? || p.Got?
    then Move(s, r, Ended)
    else s
  }

  function DoInnerCheck(s: State, f: nat): State {
    if f < |s.flights| && s.flights[f].phase.Opened? && s.flights[f].cache < |s.slots| then
      match Hit(s.slots[s.flights[f].cache].cache, s.flights[f].key, s.now)
      case Some(sample) => Fly(s, f, Finished(Loaded(sample)))
      case None => Fly(s, f, Missing)
    else s
  }

  function DoStartLoad(s: State, f: nat): State {
    if f < |s.flights| && s.flights[f].phase.Missing?
    then Fly(s, f, Loading(s.now, s.serial))
    else s
  }

  function DoReadRow(s: State, f: nat): State {
    if f < |s.flights| && s.flights[f].phase.Loading? && |s.log| > 0 then
      var fl := s.flights[f];
      var v := |s.log| - 1;
      Fly(s, f, Sampled(Sample(Row(s.log[v].rows, fl.cache, fl.key), v, fl.phase.started, fl.phase.serial)))
    else s
  }

  function DoFailLoad(s: State, f: nat): State {
    if f < |s.flights| && s.flights[f].phase.Loading?
    then Fly(s, f, Finished(Failed))
    else s
  }

  /** Store-or-discard under the write lock; the flight then returns its value either way. */
  function DoStoreLoad(s: State, f: nat, victim: string): State {
    if f < |s.flights| && s.flights[f].phase.Sampled? && s.flights[f].cache < |s.slots| then
      var fl := s.flights[f];
      var slot := s.slots[fl.cache];
      var sample := fl.phase.sample;
      if MustEvict(slot.cache, s.cfg.capacity) && victim !in slot.cache.entries then s
      else
        var c := Stored(slot.cache, s.cfg.capacity, fl.gen, fl.key, Entry(sample, sample.started + s.cfg.ttl), victim);
        Fly(s, f, Finished(Loaded(sample))).(slots := s.slots[fl.cache := slot.(cache := c)])
    else s
  }

  /** The flight leaves the group: a later miss of the same name starts a new one. */
  function DoLand(s: State, f: nat): State {
    if f < |s.flights| && s.flights[f].phase.Finished? then
      var name := (s.flights[f].cache, FlightKey(s.flights[f].gen, s.flights[f].key));
      if name in s.group && s.group[name] == f then s.(group := s.group - {name}) else s
    else s
  }

  function DoDrop(s: State, cache: nat, key: string): State {
    if cache < |s.slots| then
      var slot := s.slots[cache];
      s.(slots := s.slots[cache := slot.(cache := Invalidated(slot.cache, key),
                                         dropped := slot.dropped[key := s.serial])])
    else s
  }

  function DoClear(s: State, cache: nat): State {
    if cache < |s.slots| then
      var slot := s.slots[cache];
      s.(slots := s.slots[cache := slot.(cache := Purged(slot.cache), cleared := s.serial)])
    else s
  }

  function Do(s: State, step: Step): State {
    match step
    case Tick(d) => DoTick(s, d)
    case CommitRows(revision, rows) => DoCommit(s, revision, rows)
    case CallCheck => DoCallCheck(s)
    case EnterGate(r) => DoEnterGate(s, r)
    case ReadRevision(r) => DoReadRevision(s, r)
    case FailProbe(r) => DoFailProbe(s, r)
    case Reconcile(r) => DoReconcile(s, r)
    case PurgeNext(r) => DoPurgeNext(s, r)
    case Install(r) => DoInstall(s, r)
    case BeginGet(r, cache, key) => DoBeginGet(s, r, cache, key)
    case Look(r) => DoLook(s, r)
    case Join(r) => DoJoin(s, r)
    case Receive(r) => DoReceive(s, r)
    case Abandon(r) => DoAbandon(s, r)
    case InnerCheck(f) => DoInnerCheck(s, f)
    case StartLoad(f) => DoStartLoad(s, f)
    case ReadRow(f) => DoReadRow(s, f)
    case FailLoad(f) => DoFailLoad(s, f)
    case StoreLoad(f, victim) => DoStoreLoad(s, f, victim)
    case Land(f) => DoLand(s, f)
    case Drop(cache, key) => DoDrop(s, cache, key)
    case Clear(cache) => DoClear(s, cache)
  }

  /** A step that is not enabled leaves the protocol where it is. */
  function Next(s: State, step: Step): State {
    Stamp(Do(s, step))
  }

  function Stamp(s: State): State {
    s.(serial := s.serial + 1)
  }

  function Run(s: State, steps: seq<Step>): State
    decreases |steps|
  {
    if steps == [] then s else Run(Next(s, steps[0]), steps[1..])
  }

  // ---- the invariant -------------------------------------------------------

  ghost predicate LogOk(log: seq<Commit>, now: int) {
    && |log| > 0
    && (forall i, j :: 0 <= i < j < |log| ==> log[i].revision < log[j].revision)
    && (forall i :: 0 <= i < |log| ==> log[i].time <= now)
  }

  /** Commit `version` includes every commit made strictly before time `t`. */
  ghost predicate Covers(log: seq<Commit>, t: int, version: nat) {
    forall i :: 0 <= i < |log| && log[i].time < t ==> i <= version
  }

  /** What an admitted request is owed: commits at least one interval older than its call. */
  ghost predicate Promise(s: State, called: int, version: nat) {
    forall i :: 0 <= i < |s.log| && s.log[i].time <= called - s.cfg.interval ==> i <= version
  }

  ghost predicate SampleOk(log: seq<Commit>, cache: nat, key: string, sample: Sample) {
    sample.version < |log| && sample.value == Row(log[sample.version].rows, cache, key)
  }

  /** The heart of the invariant: the sample is no older than the last gate purge, and its load
      started after the last invalidation of its key. */
  ghost predicate Fresh(slot: Slot, key: string, sample: Sample) {
    slot.floor <= sample.version && LastDrop(slot, key) < sample.serial
  }

  ghost predicate EntryOk(s: State, cache: nat, slot: Slot, key: string, entry: Entry<Sample>) {
    && SampleOk(s.log, cache, key, entry.value)
    && Fresh(slot, key, entry.value)
    && entry.expiresAt == entry.value.started + s.cfg.ttl
  }

  ghost predicate SlotOk(s: State, cache: nat, slot: Slot) {
    && s.recorded <= slot.floor < |s.log|
    && slot.cleared < s.serial
    && (forall key :: key in slot.dropped ==> slot.dropped[key] < s.serial)
    && (forall key :: key in slot.cache.entries ==> EntryOk(s, cache, slot, key, slot.cache.entries[key]))
    && WithinCapacity(slot.cache, s.cfg.capacity)
  }

  ghost predicate GateOk(s: State) {
    && s.recorded < |s.log|
    && (s.gate.checked.Some? ==>
          && s.gate.checked.value <= s.now
          && Covers(s.log, s.gate.checked.value, s.recorded)
          && s.log[s.recorded].revision == s.gate.revision)
  }

  /** A flight of the current generation carries only fresh data; an older one may not. */
  ghost predicate FlightOk(s: State, fl: Flight) {
    && fl.cache < |s.slots|
    && fl.gen <= s.slots[fl.cache].cache.generation
    && var slot := s.slots[fl.cache];
       var current := fl.gen == slot.cache.generation;
       match fl.phase
       case Loading(started, serial) => current ==> LastDrop(slot, fl.key) < serial
       case Sampled(sample) => SampleOk(s.log, fl.cache, fl.key, sample) && (current ==> Fresh(slot, fl.key, sample))
       case Finished(Loaded(sample)) => SampleOk(s.log, fl.cache, fl.key, sample) && (current ==> Fresh(slot, fl.key, sample))
       case _ => true
  }

  function Name(fl: Flight): (nat, string) {
    (fl.cache, FlightKey(fl.gen, fl.key))
  }

  ghost predicate Registered(flights: seq<Flight>, group: map<(nat, string), nat>, name: (nat, string))
    requires name in group
  {
    group[name] < |flights| && Name(flights[group[name]]) == name
  }

  ghost predicate Findable(flights: seq<Flight>, group: map<(nat, string), nat>, f: nat)
    requires f < |flights|
  {
    !flights[f].phase.Finished? ==> Name(flights[f]) in group && group[Name(flights[f])] == f
  }

  /** The group finds every running flight by its name, and only flights of that name. */
  ghost predicate GroupOk(flights: seq<Flight>, group: map<(nat, string), nat>) {
    && (forall name {:trigger Registered(flights, group, name)} :: name in group ==> Registered(flights, group, name))
    && (forall f: nat {:trigger Findable(flights, group, f)} :: f < |flights| ==> Findable(flights, group, f))
  }

  /** Every pass but the running one ended in a retry, and each retry saw a new generation. */
  ghost predicate CallOk(s: State, call: Call, gen: nat, spare: nat) {
    && call.cache < |s.slots|
    && call.since <= LastDrop(s.slots[call.cache], call.key)
    && gen <= s.slots[call.cache].cache.generation
    && call.gen0 + call.passes <= gen + spare
  }

  ghost predicate Holds(s: State, r: nat, called: int, started: int, version: nat) {
    && s.holder == Some(r)
    && called <= started <= s.now
    && s.recorded <= version < |s.log|
    && Covers(s.log, started, version)
    && (forall c :: 0 <= c < |s.slots| ==> s.slots[c].floor <= version)
  }

  ghost predicate RequestOk(s: State, r: nat, req: Request) {
    && req.called <= s.now
    && match req.phase
       case Queued => true
       case Ended => true
       case Probing(started) => s.holder == Some(r) && req.called <= started <= s.now
       case Probed(started, version) => Holds(s, r, req.called, started, version)
       case Purging(started, version, next) =>
         && Holds(s, r, req.called, started, version)
         && next <= |s.slots|
         && (forall c :: 0 <= c < next ==> version <= s.slots[c].floor)
       case Admitted(need) => Promise(s, req.called, need) && need <= s.recorded
       case Seeking(need, call) =>
         && Promise(s, req.called, need) && need <= s.recorded
         && call.cache < |s.slots|
         && CallOk(s, call, s.slots[call.cache].cache.generation, 0)
       case Missed(need, call, gen) =>
         && Promise(s, req.called, need) && need <= s.recorded
         && CallOk(s, call, gen, 1)
       case Waiting(need, call, gen, flight) =>
         && Promise(s, req.called, need) && need <= s.recorded
         && CallOk(s, call, gen, 1)
         && flight < |s.flights|
         && s.flights[flight].cache == call.cache && s.flights[flight].gen == gen && s.flights[flight].key == call.key
       case Got(need, call, sample, hitAt) =>
         && Promise(s, req.called, need) && need <= s.recorded && need <= sample.version
         && call.cache < |s.slots|
         && CallOk(s, call, s.slots[call.cache].cache.generation, 1)
         && SampleOk(s.log, call.cache, call.key, sample)
         && call.since < sample.serial
         && (hitAt.Some? ==> hitAt.value < sample.started + s.cfg.ttl)
  }

  ghost predicate SlotsOk(s: State) {
    forall c :: 0 <= c < |s.slots| ==> SlotOk(s, c, s.slots[c])
  }

  ghost predicate FlightsOk(s: State) {
    forall f :: 0 <= f < |s.flights| ==> FlightOk(s, s.flights[f])
  }

  ghost predicate RequestsOk(s: State) {
    forall r :: 0 <= r < |s.requests| ==> RequestOk(s, r, s.requests[r])
  }

  ghost predicate Inv(s: State) {
    && s.cfg.interval > 0
    && s.serial > 0
    && LogOk(s.log, s.now)
    && GateOk(s)
    && GroupOk(s.flights, s.group)
    && SlotsOk(s)
    && FlightsOk(s)
    && RequestsOk(s)
  }
}
