/** A run that meets the propagation bound with nothing to spare, for any number of caches. */
module FreshnessWitness {
  import opened Values
  import opened TtlCache
  import opened RevisionGate
  import opened Freshness
  import opened FreshnessTheorems

  const KEY := "k"
  const NEW := Str("new")

  /** The gate's first probe has read the revision and purged the first `done` caches. */
  function AfterPurges(cfg: Config, done: nat): State {
    State(cfg, 0, 5 + done, [Commit(0, 0, map[])], Gate(0, None), 0, Some(0),
          seq(cfg.caches, i requires 0 <= i => if i < done then Slot(Cache(map[], 1), 0, 5 + i, map[]) else Slot(Cache(map[], 0), 0, 0, map[])),
          [], map[], [Request(0, Purging(0, 0, done))])
  }

  lemma ProbeReachable(cfg: Config)
    requires cfg.interval > 0
    ensures Reachable(cfg, Stamp(DoReadRevision(Stamp(DoEnterGate(Stamp(DoCallCheck(Init(cfg, Commit(0, 0, map[])))), 0)), 0)))
  {
    var s0 := Init(cfg, Commit(0, 0, map[]));
    assert Run(s0, []) == s0;
    ReachableThen(cfg, s0, CallCheck);
    var s1 := Stamp(DoCallCheck(s0));
    ReachableThen(cfg, s1, EnterGate(0));
    ReachableThen(cfg, Stamp(DoEnterGate(s1, 0)), ReadRevision(0));
  }

  lemma PurgingReachable(cfg: Config)
    requires cfg.interval > 0
    ensures Reachable(cfg, AfterPurges(cfg, 0))
  {
    ProbeReachable(cfg);
    var s0 := Init(cfg, Commit(0, 0, map[]));
    var s1 := Stamp(DoCallCheck(s0));
    assert s1.requests == [Request(0, Queued)];
    var s2 := Stamp(DoEnterGate(s1, 0));
    assert s2.requests == [Request(0, Probing(0))];
    var s3 := Stamp(DoReadRevision(s2, 0));
    assert s3.requests == [Request(0, Probed(0, 0))];
    ReachableThen(cfg, s3, Reconcile(0));
    var s4 := Stamp(DoReconcile(s3, 0));
    assert s4.requests == [Request(0, Purging(0, 0, 0))];
    assert s4 == AfterPurges(cfg, 0);
  }

  lemma {:induction false} PurgedReachable(cfg: Config, done: nat)
    requires cfg.interval > 0 && done <= cfg.caches
    ensures Reachable(cfg, AfterPurges(cfg, done))
  {
    if done == 0 {
      PurgingReachable(cfg);
    } else {
      PurgedReachable(cfg, done - 1);
      var s := AfterPurges(cfg, done - 1);
      ReachableThen(cfg, s, PurgeNext(0));
      var t := Stamp(DoPurgeNext(s, 0));
      assert t.requests == [Request(0, Purging(0, 0, done))];
      assert t.slots == AfterPurges(cfg, done).slots;
    }
  }

  /** The caches once all are purged, the first holding `entries`. */
  function Slots(cfg: Config, entries: map<string, Entry<Sample>>): seq<Slot>
    requires cfg.caches > 0
  {
    AfterPurges(cfg, cfg.caches).slots[0 := Slot(Cache(entries, 1), 0, 5, map[])]
  }

  /** The request has passed the gate. */
  function JustAdmitted(cfg: Config): State
    requires cfg.caches > 0
  {
    State(cfg, 0, 6 + cfg.caches, [Commit(0, 0, map[])], Gate(0, Some(0)), 0, None,
          Slots(cfg, map[]), [], map[], [Request(0, Admitted(0))])
  }

  lemma AdmittedReachable(cfg: Config)
    requires cfg.interval > 0 && cfg.caches > 0
    ensures Reachable(cfg, JustAdmitted(cfg))
  {
    PurgedReachable(cfg, cfg.caches);
    var s := AfterPurges(cfg, cfg.caches);
    ReachableThen(cfg, s, Install(0));
    var t := Stamp(DoInstall(s, 0));
    assert t.requests == [Request(0, Admitted(0))];
    assert t.slots == Slots(cfg, map[]);
  }

  function FirstSample(cfg: Config): Sample {
    Sample(Nil, 0, 0, 10 + cfg.caches)
  }

  function FirstCall(): Call {
    Call(0, KEY, 1, 5, 1)
  }

  /** It has missed its key in the first cache and opened a load. */
  function FlightAt(cfg: Config, serial: nat, phase: FlightPhase): State
    requires cfg.caches > 0
  {
    JustAdmitted(cfg).(serial := serial,
                       flights := [Flight(0, 1, KEY, phase)],
                       group := map[(0, FlightKey(1, KEY)) := 0],
                       requests := [Request(0, Waiting(0, FirstCall(), 1, 0))])
  }

  lemma FlightReachable(cfg: Config)
    requires cfg.interval > 0 && cfg.caches > 0
    ensures Reachable(cfg, FlightAt(cfg, 9 + cfg.caches, Opened))
  {
    AdmittedReachable(cfg);
    var s0 := JustAdmitted(cfg);
    ReachableThen(cfg, s0, BeginGet(0, 0, KEY));
    var s1 := Stamp(DoBeginGet(s0, 0, 0, KEY));
    assert s1.requests == [Request(0, Seeking(0, FirstCall().(passes := 0)))];
    ReachableThen(cfg, s1, Look(0));
    var s2 := Stamp(DoLook(s1, 0));
    assert s2.requests == [Request(0, Missed(0, FirstCall(), 1))];
    ReachableThen(cfg, s2, Join(0));
    var s3 := Stamp(DoJoin(s2, 0));
    assert s3.requests == [Request(0, Waiting(0, FirstCall(), 1, 0))];
    assert s3.flights == [Flight(0, 1, KEY, Opened)];
  }

  lemma LoadingReachable(cfg: Config)
    requires cfg.interval > 0 && cfg.caches > 0
    ensures Reachable(cfg, FlightAt(cfg, 11 + cfg.caches, Loading(0, 10 + cfg.caches)))
  {
    FlightReachable(cfg);
    var s3 := FlightAt(cfg, 9 + cfg.caches, Opened);
    ReachableThen(cfg, s3, InnerCheck(0));
    var s4 := Stamp(DoInnerCheck(s3, 0));
    assert s4 == FlightAt(cfg, 10 + cfg.caches, Missing);
    ReachableThen(cfg, s4, StartLoad(0));
    assert Stamp(DoStartLoad(s4, 0)) == FlightAt(cfg, 11 + cfg.caches, Loading(0, 10 + cfg.caches));
  }

  lemma SampledReachable(cfg: Config)
    requires cfg.interval > 0 && cfg.caches > 0
    ensures Reachable(cfg, FlightAt(cfg, 12 + cfg.caches, Sampled(FirstSample(cfg))))
  {
    LoadingReachable(cfg);
    var s5 := FlightAt(cfg, 11 + cfg.caches, Loading(0, 10 + cfg.caches));
    ReachableThen(cfg, s5, ReadRow(0));
    assert Stamp(DoReadRow(s5, 0)) == FlightAt(cfg, 12 + cfg.caches, Sampled(FirstSample(cfg)));
  }

  /** The row, which is absent, is loaded and cached. */
  function Warm(cfg: Config): State
    requires cfg.caches > 0
  {
    FlightAt(cfg, 13 + cfg.caches, Finished(Loaded(FirstSample(cfg)))).(
      slots := Slots(cfg, map[KEY := Entry(FirstSample(cfg), cfg.ttl)]))
  }

  lemma WarmReachable(cfg: Config)
    requires cfg.interval > 0 && cfg.caches > 0
    ensures Reachable(cfg, Warm(cfg))
  {
    SampledReachable(cfg);
    var s6 := FlightAt(cfg, 12 + cfg.caches, Sampled(FirstSample(cfg)));
    ReachableThen(cfg, s6, StoreLoad(0, KEY));
    var s7 := Stamp(DoStoreLoad(s6, 0, KEY));
    assert s7.flights == [Flight(0, 1, KEY, Finished(Loaded(FirstSample(cfg))))];
    assert s7.slots == Warm(cfg).slots;
  }

  /** After the load, a commit sets the row; then the clock runs to the last tick of the window. */
  function Later(cfg: Config): State
    requires cfg.caches > 0
  {
    Warm(cfg).(now := cfg.interval - 1, serial := 16 + cfg.caches,
               log := [Commit(0, 0, map[]), Commit(0, 1, map[(0, KEY) := NEW])],
               requests := Warm(cfg).requests + [Request(cfg.interval - 1, Queued)])
  }

  lemma LaterReachable(cfg: Config)
    requires cfg.interval > 0 && cfg.caches > 0
    ensures Reachable(cfg, Later(cfg))
  {
    WarmReachable(cfg);
    var s0 := Warm(cfg);
    ReachableThen(cfg, s0, CommitRows(1, map[(0, KEY) := NEW]));
    var s1 := Stamp(DoCommit(s0, 1, map[(0, KEY) := NEW]));
    ReachableThen(cfg, s1, Tick(cfg.interval - 1));
    var s2 := Stamp(DoTick(s1, cfg.interval - 1));
    ReachableThen(cfg, s2, CallCheck);
    assert Stamp(DoCallCheck(s2)) == Later(cfg);
  }

  /** The second request passes the gate on the first one's probe, and asks for the same key. */
  function Asking(cfg: Config): State
    requires cfg.caches > 0
  {
    Later(cfg).(serial := 18 + cfg.caches,
                requests := Warm(cfg).requests + [Request(cfg.interval - 1, Seeking(0, FirstCall().(passes := 0)))])
  }

  lemma AskingReachable(cfg: Config)
    requires cfg.interval > 0 && cfg.caches > 0
    ensures Reachable(cfg, Asking(cfg))
  {
    LaterReachable(cfg);
    var s3 := Later(cfg);
    ReachableThen(cfg, s3, EnterGate(1));
    var s4 := Stamp(DoEnterGate(s3, 1));
    assert s4.requests[1].phase == Admitted(0);
    ReachableThen(cfg, s4, BeginGet(1, 0, KEY));
    assert Stamp(DoBeginGet(s4, 1, 0, KEY)) == Asking(cfg);
  }

  /** For every interval no longer than the TTL, some run serves a value that a commit one tick short
      of an interval old has already replaced: no stronger bound holds. */
  lemma PropagationBoundIsExact(cfg: Config) returns (s: State)
    requires cfg.interval > 0 && cfg.caches > 0 && cfg.interval <= cfg.ttl
    ensures Reachable(cfg, s) && |s.requests| == 2 && s.requests[1].phase.Got?
    ensures |s.log| == 2 && s.log[1].time == s.requests[1].called - cfg.interval + 1
    ensures var got := s.requests[1].phase;
            got.sample.version < 1 && got.sample.value != Row(s.log[1].rows, got.call.cache, got.call.key)
  {
    AskingReachable(cfg);
    ReachableThen(cfg, Asking(cfg), Look(1));
    s := Stamp(DoLook(Asking(cfg), 1));
    assert s.requests[1].phase == Got(0, FirstCall(), FirstSample(cfg), Some(cfg.interval - 1));
  }
}
