/** Every step of the protocol keeps the invariant, and what the invariant gives in every run. */
module FreshnessProofs {
  import opened Values
  import opened TtlCache
  import opened RevisionGate
  import opened Freshness

  // ---- frames: what a step may change under everyone else's feet -------------

  ghost predicate LogGrows(s: State, t: State) {
    && |s.log| <= |t.log|
    && (forall i :: 0 <= i < |s.log| ==> t.log[i] == s.log[i])
    && (forall i :: |s.log| <= i < |t.log| ==> t.log[i].time >= s.now)
  }

  ghost predicate SlotGrows(a: Slot, b: Slot) {
    && a.cache.generation <= b.cache.generation
    && a.floor <= b.floor
    && (forall key :: LastDrop(a, key) <= LastDrop(b, key))
  }

  /** Within one generation, neither the floor nor any invalidation mark moves. */
  ghost predicate SameEra(a: Slot, b: Slot) {
    a.cache.generation < b.cache.generation ||
    (a.cache.generation == b.cache.generation && a.floor == b.floor && a.cleared == b.cleared && a.dropped == b.dropped)
  }

  ghost predicate Grows(s: State, t: State) {
    && t.cfg == s.cfg
    && s.now <= t.now
    && s.serial <= t.serial
    && LogGrows(s, t)
    && s.recorded <= t.recorded
    && |t.slots| == |s.slots|
    && (forall c :: 0 <= c < |s.slots| ==> SlotGrows(s.slots[c], t.slots[c]))
    && |s.flights| <= |t.flights|
    && (forall f :: 0 <= f < |s.flights| ==> t.flights[f].(phase := s.flights[f].phase) == s.flights[f])
  }

  predicate InGate(phase: Phase) {
    phase.Probing? || phase.Probed? || phase.Purging?
  }

  ghost predicate SameGate(s: State, t: State) {
    && t.holder == s.holder && t.gate == s.gate && t.recorded == s.recorded
    && |t.slots| == |s.slots|
    && (forall c :: 0 <= c < |s.slots| ==> t.slots[c].floor == s.slots[c].floor)
  }

  lemma RequestFrame(s: State, t: State, r: nat, req: Request)
    requires RequestOk(s, r, req) && Grows(s, t) && s.cfg.interval > 0
    requires InGate(req.phase) ==> SameGate(s, t)
    ensures RequestOk(t, r, req)
  {
  }

  /** The requests after a step of request `r`: only its holder may move the mutex or the gate. */
  lemma RequestsFrame(s: State, t: State, r: nat)
    requires Inv(s) && Grows(s, t)
    requires |t.requests| == |s.requests|
    requires forall q :: 0 <= q < |s.requests| && q != r ==> t.requests[q] == s.requests[q]
    requires r < |s.requests| ==> RequestOk(t, r, t.requests[r])
    requires SameGate(s, t) || s.holder.None? || s.holder == Some(r)
    ensures RequestsOk(t)
  {
    forall q | 0 <= q < |t.requests| && q != r ensures RequestOk(t, q, t.requests[q]) {
      assert RequestOk(s, q, s.requests[q]);
      RequestFrame(s, t, q, s.requests[q]);
    }
  }

  lemma SlotFrame(s: State, t: State, c: nat, slot: Slot)
    requires SlotOk(s, c, slot) && Grows(s, t) && t.recorded <= slot.floor
    ensures SlotOk(t, c, slot)
  {
  }

  /** The slots when no cache changed; the gate may have moved up to their floors. */
  lemma SlotsFrame(s: State, t: State)
    requires Inv(s) && Grows(s, t) && t.slots == s.slots
    requires forall c :: 0 <= c < |s.slots| ==> t.recorded <= s.slots[c].floor
    ensures SlotsOk(t)
  {
  }

  /** The slots when only cache `c` changed and the gate did not move. */
  lemma OtherSlotsFrame(s: State, t: State, c: nat)
    requires Inv(s) && Grows(s, t) && t.recorded == s.recorded
    requires forall d :: 0 <= d < |s.slots| && d != c ==> t.slots[d] == s.slots[d]
    requires c < |t.slots| ==> SlotOk(t, c, t.slots[c])
    ensures SlotsOk(t)
  {
  }

  lemma FlightFrame(s: State, t: State, fl: Flight)
    requires FlightOk(s, fl) && Grows(s, t)
    requires SameEra(s.slots[fl.cache], t.slots[fl.cache])
    ensures FlightOk(t, fl)
  {
  }

  /** The flights when only flight `f` changed. */
  lemma FlightsFrame(s: State, t: State, f: nat)
    requires Inv(s) && Grows(s, t)
    requires |t.flights| == |s.flights|
    requires forall g :: 0 <= g < |s.flights| && g != f ==> t.flights[g] == s.flights[g]
    requires forall c :: 0 <= c < |s.slots| ==> SameEra(s.slots[c], t.slots[c])
    requires f < |t.flights| ==> FlightOk(t, t.flights[f])
    ensures FlightsOk(t)
  {
    forall g | 0 <= g < |t.flights| && g != f ensures FlightOk(t, t.flights[g]) {
      assert FlightOk(s, s.flights[g]);
      FlightFrame(s, t, s.flights[g]);
    }
  }

  /** A step that touches nothing but request `r`, the mutex and the gate. */
  lemma RequestStep(s: State, t: State, r: nat)
    requires Inv(s)
    requires t == s.(serial := t.serial, holder := t.holder, gate := t.gate, recorded := t.recorded, requests := t.requests)
    requires s.serial <= t.serial && s.recorded <= t.recorded
    requires |t.requests| == |s.requests|
    requires forall q :: 0 <= q < |s.requests| && q != r ==> t.requests[q] == s.requests[q]
    requires (t.holder == s.holder && t.gate == s.gate && t.recorded == s.recorded) || s.holder.None? || s.holder == Some(r)
    requires r < |s.requests| ==> RequestOk(t, r, t.requests[r])
    requires GateOk(t)
    requires forall c :: 0 <= c < |s.slots| ==> t.recorded <= s.slots[c].floor
    ensures Inv(t)
  {
    RequestsFrame(s, t, r);
    SlotsFrame(s, t);
    FlightsFrame(s, t, |s.flights|);
  }

  /** A step that touches nothing but flight `f`. */
  lemma FlightStep(s: State, t: State, f: nat)
    requires Inv(s) && f < |s.flights|
    requires t == s.(serial := t.serial, flights := t.flights) && s.serial <= t.serial
    requires |t.flights| == |s.flights| && t.flights[f].(phase := s.flights[f].phase) == s.flights[f]
    requires forall g :: 0 <= g < |s.flights| && g != f ==> t.flights[g] == s.flights[g]
    requires FlightOk(t, t.flights[f])
    requires GroupOk(t.flights, t.group)
    ensures Inv(t)
  {
    RequestsFrame(s, t, |s.requests|);
    SlotsFrame(s, t);
    FlightsFrame(s, t, f);
  }

  /** A step that invalidates in cache `c`, opening a new generation. */
  lemma InvalidateStep(s: State, t: State, c: nat)
    requires Inv(s) && c < |s.slots|
    requires t == s.(serial := s.serial + 1, slots := t.slots, requests := t.requests)
    requires |t.slots| == |s.slots| && SlotGrows(s.slots[c], t.slots[c])
    requires s.slots[c].cache.generation < t.slots[c].cache.generation
    requires forall d :: 0 <= d < |s.slots| && d != c ==> t.slots[d] == s.slots[d]
    requires SlotOk(t, c, t.slots[c])
    requires RequestsOk(t)
    ensures Inv(t)
  {
    OtherSlotsFrame(s, t, c);
    FlightsFrame(s, t, |s.flights|);
  }

  // ---- each step keeps the invariant ----------------------------------------

  lemma IdleKeeps(s: State)
    requires Inv(s)
    ensures Inv(Stamp(s))
  {
    RequestStep(s, Stamp(s), |s.requests|);
  }

  /** A request moves on without touching the gate. */
  lemma MoveKeeps(s: State, r: nat, phase: Phase)
    requires Inv(s) && r < |s.requests|
    requires RequestOk(s, r, Request(s.requests[r].called, phase))
    ensures Inv(Stamp(Move(s, r, phase)))
  {
    var t := Stamp(Move(s, r, phase));
    RequestFrame(s, t, r, t.requests[r]);
    RequestStep(s, t, r);
  }

  /** The gate's holder moves on, with or without leaving the gate. */
  lemma HolderMoves(s: State, r: nat, phase: Phase, holder: Option<nat>, gate: Gate, recorded: nat)
    requires Inv(s) && r < |s.requests| && (s.holder.None? || s.holder == Some(r))
    requires s.recorded <= recorded
    requires forall c :: 0 <= c < |s.slots| ==> recorded <= s.slots[c].floor
    requires GateOk(s.(gate := gate, recorded := recorded))
    requires RequestOk(s.(holder := holder, gate := gate, recorded := recorded), r, Request(s.requests[r].called, phase))
    ensures Inv(Stamp(Move(s, r, phase).(holder := holder, gate := gate, recorded := recorded)))
  {
    var u := s.(holder := holder, gate := gate, recorded := recorded);
    var t := Stamp(Move(s, r, phase).(holder := holder, gate := gate, recorded := recorded));
    RequestFrame(u, t, r, t.requests[r]);
    RequestStep(s, t, r);
  }

  /** A flight moves on without touching its cache. */
  lemma FlyKeeps(s: State, f: nat, phase: FlightPhase)
    requires Inv(s) && f < |s.flights| && !s.flights[f].phase.Finished?
    requires FlightOk(s, s.flights[f].(phase := phase))
    ensures Inv(Stamp(Fly(s, f, phase)))
  {
    var t := Stamp(Fly(s, f, phase));
    assert Grows(s, t);
    FlightFrame(s, t, t.flights[f]);
    FlownGroupOk(s.flights, s.group, f, phase);
    FlightStep(s, t, f);
  }

  /** A step of the clock or the database: no request, cache or flight moves. */
  lemma ElsewhereKeeps(s: State, t: State)
    requires Inv(s) && Grows(s, t) && LogOk(t.log, t.now) && GateOk(t)
    requires t == s.(now := t.now, serial := t.serial, log := t.log)
    ensures Inv(t)
  {
    RequestsFrame(s, t, |s.requests|);
    SlotsFrame(s, t);
    FlightsFrame(s, t, |s.flights|);
  }

  lemma TickKeeps(s: State, d: nat)
    requires Inv(s)
    ensures Inv(Stamp(DoTick(s, d)))
  {
    ElsewhereKeeps(s, Stamp(DoTick(s, d)));
  }

  lemma CommitExtends(s: State, revision: int, rows: map<(nat, string), Any>)
    requires LogOk(s.log, s.now)
    ensures var t := DoCommit(s, revision, rows); LogOk(t.log, t.now) && LogGrows(s, t) && t == s.(log := t.log)
  {
  }

  lemma LogFrame(s: State, log: seq<Commit>)
    requires Inv(s) && LogGrows(s, s.(log := log))
    ensures Grows(s, Stamp(s.(log := log))) && GateOk(Stamp(s.(log := log)))
  {
  }

  lemma CommitKeeps(s: State, revision: int, rows: map<(nat, string), Any>)
    requires Inv(s)
    ensures Inv(Stamp(DoCommit(s, revision, rows)))
  {
    CommitExtends(s, revision, rows);
    var log := DoCommit(s, revision, rows).log;
    LogFrame(s, log);
    ElsewhereKeeps(s, Stamp(s.(log := log)));
  }

  lemma CallCheckKeeps(s: State)
    requires Inv(s)
    ensures Inv(Stamp(DoCallCheck(s)))
  {
    var t := Stamp(DoCallCheck(s));
    SlotsFrame(s, t);
    FlightsFrame(s, t, |s.flights|);
    forall q | 0 <= q < |s.requests| ensures RequestOk(t, q, t.requests[q]) {
      RequestFrame(s, t, q, s.requests[q]);
    }
  }

  /** Inside the freshness window the recorded revision already covers what the caller is owed. */
  lemma EnterGateKeeps(s: State, r: nat)
    requires Inv(s)
    ensures Inv(Stamp(DoEnterGate(s, r)))
  {
    if At(s, r).Queued? && s.holder.None? {
      assert RequestOk(s, r, s.requests[r]);
      FloorsWithin(s);
      if Recent(s.gate, s.cfg.interval, s.now) {
        MoveKeeps(s, r, Admitted(s.recorded));
      } else {
        HolderMoves(s, r, Probing(s.now), Some(r), s.gate, s.recorded);
      }
    } else {
      IdleKeeps(s);
    }
  }

  /** The newest commit covers whatever was committed before the probe began. */
  lemma ProbedOk(s: State, r: nat, called: int, started: int)
    requires LogOk(s.log, s.now) && RequestOk(s, r, Request(called, Probing(started)))
    requires s.recorded < |s.log| && forall c :: 0 <= c < |s.slots| ==> s.slots[c].floor < |s.log|
    ensures RequestOk(s, r, Request(called, Probed(started, |s.log| - 1)))
  {
  }

  lemma FloorsWithin(s: State)
    requires SlotsOk(s)
    ensures forall c :: 0 <= c < |s.slots| ==> s.recorded <= s.slots[c].floor < |s.log|
  {
    forall c | 0 <= c < |s.slots| ensures s.recorded <= s.slots[c].floor < |s.log| {
      assert SlotOk(s, c, s.slots[c]);
    }
  }

  lemma ReadRevisionKeeps(s: State, r: nat)
    requires Inv(s)
    ensures Inv(Stamp(DoReadRevision(s, r)))
  {
    if At(s, r).Probing? {
      var started := At(s, r).started;
      assert RequestOk(s, r, s.requests[r]);
      FloorsWithin(s);
      ProbedOk(s, r, s.requests[r].called, started);
      MoveKeeps(s, r, Probed(started, |s.log| - 1));
    } else {
      IdleKeeps(s);
    }
  }

  lemma FailProbeKeeps(s: State, r: nat)
    requires Inv(s)
    ensures Inv(Stamp(DoFailProbe(s, r)))
  {
    if At(s, r).Probing? {
      assert RequestOk(s, r, s.requests[r]);
      FloorsWithin(s);
      HolderMoves(s, r, Ended, None, s.gate.(checked := None), s.recorded);
    } else {
      IdleKeeps(s);
    }
  }

  /** Revisions name commits: the probe read the recorded revision only if nothing was committed. */
  lemma RevisionNamesCommit(log: seq<Commit>, now: int, v: nat, w: nat)
    requires LogOk(log, now) && v < |log| && w < |log| && log[v].revision == log[w].revision
    ensures v == w
  {
  }

  lemma ReopenKeeps(s: State, r: nat, started: int, version: nat)
    requires Inv(s) && r < |s.requests|
    requires Holds(s, r, s.requests[r].called, started, version)
    requires forall c :: 0 <= c < |s.slots| ==> version <= s.slots[c].floor
    ensures Inv(Stamp(Reopen(s, r, started, version)))
  {
    assert RequestOk(s, r, s.requests[r]);
    HolderMoves(s, r, Admitted(version), None, Gate(s.log[version].revision, Some(started)), version);
  }

  lemma ReconcileKeeps(s: State, r: nat)
    requires Inv(s)
    ensures Inv(Stamp(DoReconcile(s, r)))
  {
    var p := At(s, r);
    if p.Probed? {
      assert RequestOk(s, r, s.requests[r]);
      if MustPurge(s.gate, s.log[p.version].revision) {
        MoveKeeps(s, r, Purging(p.started, p.version, 0));
      } else {
        RevisionNamesCommit(s.log, s.now, p.version, s.recorded);
        FloorsWithin(s);
        ReopenKeeps(s, r, p.started, p.version);
      }
    } else {
      IdleKeeps(s);
    }
  }

  lemma PurgedSlotOk(s: State, c: nat, slot: Slot, version: nat)
    requires SlotOk(s, c, slot) && slot.floor <= version < |s.log|
    ensures var after := Slot(Purged(slot.cache), version, s.serial, slot.dropped);
            SlotGrows(slot, after) && SlotOk(Stamp(s), c, after)
  {
  }

  function AfterPurge(slot: Slot, version: nat, serial: nat): Slot {
    Slot(Purged(slot.cache), version, serial, slot.dropped)
  }

  /** The holder's own step: one more cache has reached the version it read. */
  lemma PurgingMoves(s: State, t: State, r: nat, p: Phase)
    requires r < |s.requests| && s.requests[r].phase == p && p.Purging? && p.next < |s.slots|
    requires RequestOk(s, r, s.requests[r]) && SlotOk(s, p.next, s.slots[p.next])
    requires t == Stamp(Move(s, r, p.(next := p.next + 1))).(
                    slots := s.slots[p.next := AfterPurge(s.slots[p.next], p.version, s.serial)])
    ensures Grows(s, t) && RequestOk(t, r, t.requests[r])
  {
  }

  lemma PurgeNextKeeps(s: State, r: nat)
    requires Inv(s)
    ensures Inv(Stamp(DoPurgeNext(s, r)))
  {
    var p := At(s, r);
    if p.Purging? && p.next < |s.slots| {
      var t := Stamp(DoPurgeNext(s, r));
      assert RequestOk(s, r, s.requests[r]);
      assert SlotOk(s, p.next, s.slots[p.next]);
      PurgingMoves(s, t, r, p);
      PurgedSlotOk(s, p.next, s.slots[p.next], p.version);
      RequestsFrame(s, t, r);
      SlotFrame(Stamp(s), t, p.next, t.slots[p.next]);
      InvalidateStep(s, t, p.next);
    } else {
      IdleKeeps(s);
    }
  }

  lemma InstallKeeps(s: State, r: nat)
    requires Inv(s)
    ensures Inv(Stamp(DoInstall(s, r)))
  {
    var p := At(s, r);
    if p.Purging? && p.next >= |s.slots| {
      assert RequestOk(s, r, s.requests[r]);
      ReopenKeeps(s, r, p.started, p.version);
    } else {
      IdleKeeps(s);
    }
  }

  lemma BeginGetKeeps(s: State, r: nat, cache: nat, key: string)
    requires Inv(s)
    ensures Inv(Stamp(DoBeginGet(s, r, cache, key)))
  {
    var p := At(s, r);
    if (p.Admitted? || p.Got?) && cache < |s.slots| {
      assert RequestOk(s, r, s.requests[r]);
      MoveKeeps(s, r, Seeking(p.need, Call(cache, key, s.slots[cache].cache.generation,
                                           LastDrop(s.slots[cache], key), 0)));
    } else {
      IdleKeeps(s);
    }
  }

  lemma LookOk(s: State, r: nat, p: Phase, called: int)
    requires p.Seeking? && RequestOk(s, r, Request(called, p))
    requires SlotOk(s, p.call.cache, s.slots[p.call.cache])
    ensures var slot := s.slots[p.call.cache];
            var call := p.call.(passes := p.call.passes + 1);
            match Hit(slot.cache, call.key, s.now)
            case Some(sample) => RequestOk(s, r, Request(called, Got(p.need, call, sample, Some(s.now))))
            case None => RequestOk(s, r, Request(called, Missed(p.need, call, slot.cache.generation)))
  {
  }

  lemma LookKeeps(s: State, r: nat)
    requires Inv(s)
    ensures Inv(Stamp(DoLook(s, r)))
  {
    var p := At(s, r);
    if p.Seeking? && p.call.cache < |s.slots| {
      assert RequestOk(s, r, s.requests[r]);
      assert SlotOk(s, p.call.cache, s.slots[p.call.cache]);
      LookOk(s, r, p, s.requests[r].called);
      MoveKeeps(s, r, DoLook(s, r).requests[r].phase);
    } else {
      IdleKeeps(s);
    }
  }

  /** The state once request `r` has opened a flight for its miss. */
  function AfterOpen(s: State, r: nat, p: Phase): State
    requires r < |s.requests| && p.Missed?
  {
    Stamp(Move(s, r, Waiting(p.need, p.call, p.gen, |s.flights|))).(
      flights := s.flights + [Flight(p.call.cache, p.gen, p.call.key, Opened)],
      group := s.group[(p.call.cache, FlightKey(p.gen, p.call.key)) := |s.flights|])
  }

  lemma OpenedGroupOk(flights: seq<Flight>, group: map<(nat, string), nat>, fl: Flight)
    requires GroupOk(flights, group) && Name(fl) !in group
    ensures GroupOk(flights + [fl], group[Name(fl) := |flights|])
  {
    var flights', group' := flights + [fl], group[Name(fl) := |flights|];
    forall name | name in group' ensures Registered(flights', group', name) {
      if name != Name(fl) {
        assert Registered(flights, group, name);
      }
    }
    forall f: nat | f < |flights'| ensures Findable(flights', group', f) {
      if f < |flights| {
        assert Findable(flights, group, f);
      }
    }
  }

  /** A flight that moves on, or finishes, is found as before. */
  lemma FlownGroupOk(flights: seq<Flight>, group: map<(nat, string), nat>, f: nat, phase: FlightPhase)
    requires GroupOk(flights, group) && f < |flights| && !flights[f].phase.Finished?
    ensures GroupOk(flights[f := flights[f].(phase := phase)], group)
  {
    var flights' := flights[f := flights[f].(phase := phase)];
    forall name | name in group ensures Registered(flights', group, name) {
      assert Registered(flights, group, name);
    }
    forall g: nat | g < |flights'| ensures Findable(flights', group, g) {
      assert Findable(flights, group, g);
    }
  }

  lemma OpenedRequestOk(s: State, r: nat, p: Phase)
    requires r < |s.requests| && s.requests[r].phase == p && p.Missed? && RequestOk(s, r, s.requests[r])
    requires s.cfg.interval > 0
    ensures Grows(s, AfterOpen(s, r, p))
    ensures RequestOk(AfterOpen(s, r, p), r, AfterOpen(s, r, p).requests[r])
  {
  }

  lemma OpenFlightKeeps(s: State, r: nat, p: Phase)
    requires Inv(s) && r < |s.requests| && s.requests[r].phase == p && p.Missed?
    requires (p.call.cache, FlightKey(p.gen, p.call.key)) !in s.group
    ensures Inv(AfterOpen(s, r, p))
  {
    var t := AfterOpen(s, r, p);
    assert RequestOk(s, r, s.requests[r]);
    OpenedRequestOk(s, r, p);
    RequestsFrame(s, t, r);
    SlotsFrame(s, t);
    OldFlightsOk(s, t);
    OpenedGroupOk(s.flights, s.group, Flight(p.call.cache, p.gen, p.call.key, Opened));
  }

  lemma OldFlightsOk(s: State, t: State)
    requires FlightsOk(s) && Grows(s, t) && t.slots == s.slots
    requires forall f :: 0 <= f < |s.flights| ==> t.flights[f] == s.flights[f]
    ensures forall f :: 0 <= f < |s.flights| ==> FlightOk(t, t.flights[f])
  {
  }

  /** Joining by name joins a flight of the same generation and key. */
  lemma JoinKeeps(s: State, r: nat)
    requires Inv(s)
    ensures Inv(Stamp(DoJoin(s, r)))
  {
    var p := At(s, r);
    if p.Missed? {
      var name := (p.call.cache, FlightKey(p.gen, p.call.key));
      if name in s.group {
        assert RequestOk(s, r, s.requests[r]);
        assert Registered(s.flights, s.group, name);
        var fl := s.flights[s.group[name]];
        FlightKeyInjective(fl.gen, fl.key, p.gen, p.call.key);
        MoveKeeps(s, r, Waiting(p.need, p.call, p.gen, s.group[name]));
      } else {
        OpenFlightKeeps(s, r, p);
        assert Stamp(DoJoin(s, r)) == AfterOpen(s, r, p);
      }
    } else {
      IdleKeeps(s);
    }
  }

  /** A joiner returns the flight's sample only while its generation is current, so it is fresh. */
  lemma ReceiveOk(s: State, r: nat, p: Phase, called: int)
    requires p.Waiting? && RequestOk(s, r, Request(called, p))
    requires FlightOk(s, s.flights[p.flight]) && s.flights[p.flight].phase.Finished?
    requires SlotOk(s, p.call.cache, s.slots[p.call.cache])
    ensures p.gen != s.slots[p.call.cache].cache.generation ==>
              RequestOk(s, r, Request(called, Seeking(p.need, p.call)))
    ensures p.gen == s.slots[p.call.cache].cache.generation && s.flights[p.flight].phase.result.Loaded? ==>
              RequestOk(s, r, Request(called, Got(p.need, p.call, s.flights[p.flight].phase.result.sample, None)))
  {
  }

  lemma ReceiveKeeps(s: State, r: nat)
    requires Inv(s)
    ensures Inv(Stamp(DoReceive(s, r)))
  {
    var p := At(s, r);
    if p.Waiting? && p.flight < |s.flights| && s.flights[p.flight].phase.Finished? && p.call.cache < |s.slots| {
      assert RequestOk(s, r, s.requests[r]);
      assert FlightOk(s, s.flights[p.flight]);
      assert SlotOk(s, p.call.cache, s.slots[p.call.cache]);
      ReceiveOk(s, r, p, s.requests[r].called);
      if p.gen != s.slots[p.call.cache].cache.generation {
        MoveKeeps(s, r, Seeking(p.need, p.call));
      } else {
        match s.flights[p.flight].phase.result
        case Failed => MoveKeeps(s, r, Ended);
        case Loaded(sample) => MoveKeeps(s, r, Got(p.need, p.call, sample, None));
      }
    } else {
      IdleKeeps(s);
    }
  }

  lemma AbandonKeeps(s: State, r: nat)
    requires Inv(s)
    ensures Inv(Stamp(DoAbandon(s, r)))
  {
    if DoAbandon(s, r) != s {
      assert RequestOk(s, r, s.requests[r]);
      MoveKeeps(s, r, Ended);
    } else {
      IdleKeeps(s);
    }
  }

  lemma InnerCheckKeeps(s: State, f: nat)
    requires Inv(s)
    ensures Inv(Stamp(DoInnerCheck(s, f)))
  {
    if f < |s.flights| && s.flights[f].phase.Opened? {
      var fl := s.flights[f];
      assert FlightOk(s, fl);
      var slot := s.slots[fl.cache];
      match Hit(slot.cache, fl.key, s.now)
      case Some(sample) =>
        assert SlotOk(s, fl.cache, slot);
        assert EntryOk(s, fl.cache, slot, fl.key, slot.cache.entries[fl.key]);
        FlyKeeps(s, f, Finished(Loaded(sample)));
      case None =>
        FlyKeeps(s, f, Missing);
    } else {
      IdleKeeps(s);
    }
  }

  lemma StartLoadKeeps(s: State, f: nat)
    requires Inv(s)
    ensures Inv(Stamp(DoStartLoad(s, f)))
  {
    if f < |s.flights| && s.flights[f].phase.Missing? {
      assert FlightOk(s, s.flights[f]);
      assert SlotOk(s, s.flights[f].cache, s.slots[s.flights[f].cache]);
      FlyKeeps(s, f, Loading(s.now, s.serial));
    } else {
      IdleKeeps(s);
    }
  }

  /** The row is read at the newest commit, which is at least as new as any purge so far. */
  lemma ReadRowOk(s: State, fl: Flight)
    requires FlightOk(s, fl) && fl.phase.Loading? && |s.log| > 0
    requires s.slots[fl.cache].floor < |s.log|
    ensures var v := |s.log| - 1;
            FlightOk(s, fl.(phase := Sampled(Sample(Row(s.log[v].rows, fl.cache, fl.key), v, fl.phase.started, fl.phase.serial))))
  {
  }

  lemma ReadRowKeeps(s: State, f: nat)
    requires Inv(s)
    ensures Inv(Stamp(DoReadRow(s, f)))
  {
    if f < |s.flights| && s.flights[f].phase.Loading? {
      var fl := s.flights[f];
      assert FlightOk(s, fl);
      assert SlotOk(s, fl.cache, s.slots[fl.cache]);
      ReadRowOk(s, fl);
      FlyKeeps(s, f, DoReadRow(s, f).flights[f].phase);
    } else {
      IdleKeeps(s);
    }
  }

  lemma FailLoadKeeps(s: State, f: nat)
    requires Inv(s)
    ensures Inv(Stamp(DoFailLoad(s, f)))
  {
    if f < |s.flights| && s.flights[f].phase.Loading? {
      assert FlightOk(s, s.flights[f]);
      FlyKeeps(s, f, Finished(Failed));
    } else {
      IdleKeeps(s);
    }
  }

  function AfterStore(cfg: Config, slot: Slot, fl: Flight, victim: string): Slot
    requires fl.phase.Sampled?
  {
    var sample := fl.phase.sample;
    slot.(cache := Stored(slot.cache, cfg.capacity, fl.gen, fl.key, Entry(sample, sample.started + cfg.ttl), victim))
  }

  /** Only a load of the current generation reaches the cache, so the cache stays fresh. */
  lemma StoredSlotOk(s: State, slot: Slot, fl: Flight, victim: string)
    requires SlotOk(s, fl.cache, slot) && fl.phase.Sampled?
    requires SampleOk(s.log, fl.cache, fl.key, fl.phase.sample)
    requires fl.gen == slot.cache.generation ==> Fresh(slot, fl.key, fl.phase.sample)
    requires MustEvict(slot.cache, s.cfg.capacity) ==> victim in slot.cache.entries
    ensures SlotOk(s, fl.cache, AfterStore(s.cfg, slot, fl, victim))
  {
    var sample := fl.phase.sample;
    StoredWithinCapacity(slot.cache, s.cfg.capacity, fl.gen, fl.key, Entry(sample, sample.started + s.cfg.ttl), victim);
    var after := AfterStore(s.cfg, slot, fl, victim);
    forall key | key in after.cache.entries ensures EntryOk(s, fl.cache, after, key, after.cache.entries[key]) {
      if key in slot.cache.entries {
        assert EntryOk(s, fl.cache, slot, key, slot.cache.entries[key]);
      }
    }
  }

  lemma StoreGrows(s: State, t: State, f: nat, c: nat, after: Slot)
    requires FlightsOk(s) && f < |s.flights| && c < |s.slots|
    requires s.flights[f].cache == c && s.flights[f].phase.Sampled?
    requires t == Stamp(Fly(s, f, Finished(Loaded(s.flights[f].phase.sample))).(slots := s.slots[c := after]))
    requires after.(cache := s.slots[c].cache) == s.slots[c]
    requires after.cache.generation == s.slots[c].cache.generation
    ensures Grows(s, t)
    ensures FlightOk(t, t.flights[f])
  {
  }

  lemma StoreStep(s: State, t: State, f: nat, c: nat, after: Slot)
    requires Inv(s) && f < |s.flights| && c < |s.slots|
    requires s.flights[f].cache == c && s.flights[f].phase.Sampled?
    requires t == Stamp(Fly(s, f, Finished(Loaded(s.flights[f].phase.sample))).(slots := s.slots[c := after]))
    requires after.(cache := s.slots[c].cache) == s.slots[c]
    requires after.cache.generation == s.slots[c].cache.generation
    requires SlotOk(s, c, after)
    ensures Inv(t)
  {
    StoreGrows(s, t, f, c, after);
    SlotFrame(s, t, c, after);
    OtherSlotsFrame(s, t, c);
    FlightsFrame(s, t, f);
    RequestsFrame(s, t, |s.requests|);
    FlownGroupOk(s.flights, s.group, f, Finished(Loaded(s.flights[f].phase.sample)));
  }

  predicate Storable(s: State, f: nat, victim: string) {
    && f < |s.flights| && s.flights[f].phase.Sampled? && s.flights[f].cache < |s.slots|
    && (MustEvict(s.slots[s.flights[f].cache].cache, s.cfg.capacity) ==>
          victim in s.slots[s.flights[f].cache].cache.entries)
  }

  lemma StoreLoadIs(s: State, f: nat, victim: string)
    ensures Storable(s, f, victim) ==>
              var fl := s.flights[f];
              DoStoreLoad(s, f, victim) ==
              Fly(s, f, Finished(Loaded(fl.phase.sample))).(
                slots := s.slots[fl.cache := AfterStore(s.cfg, s.slots[fl.cache], fl, victim)])
    ensures !Storable(s, f, victim) ==> DoStoreLoad(s, f, victim) == s
  {
  }

  lemma StoreLoadKeeps(s: State, f: nat, victim: string)
    requires Inv(s)
    ensures Inv(Stamp(DoStoreLoad(s, f, victim)))
  {
    StoreLoadIs(s, f, victim);
    if Storable(s, f, victim) {
      var fl := s.flights[f];
      assert FlightOk(s, fl);
      assert SlotOk(s, fl.cache, s.slots[fl.cache]);
      StoredSlotOk(s, s.slots[fl.cache], fl, victim);
      StoreStep(s, Stamp(DoStoreLoad(s, f, victim)), f, fl.cache, AfterStore(s.cfg, s.slots[fl.cache], fl, victim));
    } else {
      IdleKeeps(s);
    }
  }

  /** A finished flight may leave the group: nobody needs to find it any more. */
  lemma LandedGroupOk(flights: seq<Flight>, group: map<(nat, string), nat>, f: nat)
    requires GroupOk(flights, group) && f < |flights| && flights[f].phase.Finished?
    requires Name(flights[f]) in group && group[Name(flights[f])] == f
    ensures GroupOk(flights, group - {Name(flights[f])})
  {
    var group' := group - {Name(flights[f])};
    forall name | name in group' ensures Registered(flights, group', name) {
      assert Registered(flights, group, name);
    }
    forall g: nat | g < |flights| ensures Findable(flights, group', g) {
      assert Findable(flights, group, g);
    }
  }

  lemma LandKeeps(s: State, f: nat)
    requires Inv(s)
    ensures Inv(Stamp(DoLand(s, f)))
  {
    if DoLand(s, f) == s {
      IdleKeeps(s);
    } else {
      LandedGroupOk(s.flights, s.group, f);
      RegroupKeeps(s, s.group - {Name(s.flights[f])});
    }
  }

  lemma RegroupKeeps(s: State, group: map<(nat, string), nat>)
    requires Inv(s) && GroupOk(s.flights, group)
    ensures Inv(Stamp(s.(group := group)))
  {
    var t := Stamp(s.(group := group));
    SlotsFrame(s, t);
    FlightsFrame(s, t, |s.flights|);
    RequestsFrame(s, t, |s.requests|);
  }

  function AfterDrop(slot: Slot, key: string, serial: nat): Slot {
    slot.(cache := Invalidated(slot.cache, key), dropped := slot.dropped[key := serial])
  }

  lemma DropCapacity(c: Cache<Sample>, key: string, capacity: int)
    requires WithinCapacity(c, capacity)
    ensures WithinCapacity(Invalidated(c, key), capacity)
  {
  }

  /** An invalidation only raises the mark of its own key. */
  lemma DropMarks(slot: Slot, key: string, serial: nat, k: string)
    requires slot.cleared < serial && (key in slot.dropped ==> slot.dropped[key] < serial)
    ensures LastDrop(slot, k) <= LastDrop(AfterDrop(slot, key, serial), k)
    ensures k != key ==> LastDrop(AfterDrop(slot, key, serial), k) == LastDrop(slot, k)
  {
  }

  lemma DroppedSlotOk(s: State, c: nat, slot: Slot, key: string)
    requires SlotOk(s, c, slot)
    ensures SlotGrows(slot, AfterDrop(slot, key, s.serial)) && SlotOk(Stamp(s), c, AfterDrop(slot, key, s.serial))
  {
    var after := AfterDrop(slot, key, s.serial);
    forall k ensures LastDrop(slot, k) <= LastDrop(after, k) {
      DropMarks(slot, key, s.serial, k);
    }
    forall k | k in after.cache.entries ensures EntryOk(Stamp(s), c, after, k, after.cache.entries[k]) {
      assert EntryOk(s, c, slot, k, slot.cache.entries[k]);
      DropMarks(slot, key, s.serial, k);
    }
    DropCapacity(slot.cache, key, s.cfg.capacity);
  }

  lemma DropKeeps(s: State, cache: nat, key: string)
    requires Inv(s)
    ensures Inv(Stamp(DoDrop(s, cache, key)))
  {
    if cache < |s.slots| {
      var t := Stamp(DoDrop(s, cache, key));
      assert SlotOk(s, cache, s.slots[cache]);
      DroppedSlotOk(s, cache, s.slots[cache], key);
      DropStep(s, t, cache);
    } else {
      IdleKeeps(s);
    }
  }

  lemma DropStep(s: State, t: State, c: nat)
    requires Inv(s) && c < |s.slots|
    requires |t.slots| == |s.slots| && t == Stamp(s.(slots := s.slots[c := t.slots[c]]))
    requires SlotGrows(s.slots[c], t.slots[c]) && SlotOk(Stamp(s), c, t.slots[c])
    requires s.slots[c].cache.generation < t.slots[c].cache.generation
    requires t.slots[c].floor == s.slots[c].floor
    ensures Inv(t)
  {
    assert forall d :: 0 <= d < |s.slots| && d != c ==> t.slots[d] == s.slots[d];
    RequestsFrame(s, t, |s.requests|);
    SlotFrame(Stamp(s), t, c, t.slots[c]);
    InvalidateStep(s, t, c);
  }

  lemma ClearKeeps(s: State, cache: nat)
    requires Inv(s)
    ensures Inv(Stamp(DoClear(s, cache)))
  {
    if cache < |s.slots| {
      assert SlotOk(s, cache, s.slots[cache]);
      PurgedSlotOk(s, cache, s.slots[cache], s.slots[cache].floor);
      DropStep(s, Stamp(DoClear(s, cache)), cache);
    } else {
      IdleKeeps(s);
    }
  }

  predicate OnGate(step: Step) {
    step.EnterGate? || step.ReadRevision? || step.FailProbe? || step.Reconcile? || step.PurgeNext? || step.Install?
  }

  predicate OnCall(step: Step) {
    step.BeginGet? || step.Look? || step.Join? || step.Receive? || step.Abandon?
  }

  lemma GateStepKeeps(s: State, step: Step)
    requires Inv(s) && OnGate(step)
    ensures Inv(Next(s, step))
  {
    match step
    case EnterGate(r) => EnterGateKeeps(s, r);
    case ReadRevision(r) => ReadRevisionKeeps(s, r);
    case FailProbe(r) => FailProbeKeeps(s, r);
    case Reconcile(r) => ReconcileKeeps(s, r);
    case PurgeNext(r) => PurgeNextKeeps(s, r);
    case Install(r) => InstallKeeps(s, r);
  }

  lemma CallStepKeeps(s: State, step: Step)
    requires Inv(s) && OnCall(step)
    ensures Inv(Next(s, step))
  {
    match step
    case BeginGet(r, cache, key) => BeginGetKeeps(s, r, cache, key);
    case Look(r) => LookKeeps(s, r);
    case Join(r) => JoinKeeps(s, r);
    case Receive(r) => ReceiveKeeps(s, r);
    case Abandon(r) => AbandonKeeps(s, r);
  }

  lemma StartStepKeeps(s: State, step: Step)
    requires Inv(s) && (step.InnerCheck? || step.StartLoad?)
    ensures Inv(Next(s, step))
  {
    match step
    case InnerCheck(f) => InnerCheckKeeps(s, f);
    case StartLoad(f) => StartLoadKeeps(s, f);
  }

  lemma ReadStepKeeps(s: State, step: Step)
    requires Inv(s) && (step.ReadRow? || step.FailLoad?)
    ensures Inv(Next(s, step))
  {
    match step
    case ReadRow(f) => ReadRowKeeps(s, f);
    case FailLoad(f) => FailLoadKeeps(s, f);
  }

  lemma LandStepKeeps(s: State, step: Step)
    requires Inv(s) && (step.StoreLoad? || step.Land?)
    ensures Inv(Next(s, step))
  {
    match step
    case StoreLoad(f, victim) => StoreLoadKeeps(s, f, victim);
    case Land(f) => LandKeeps(s, f);
  }

  lemma NextKeeps(s: State, step: Step)
    requires Inv(s)
    ensures Inv(Next(s, step))
  {
    if OnGate(step) {
      GateStepKeeps(s, step);
    } else if OnCall(step) {
      CallStepKeeps(s, step);
    } else if step.InnerCheck? || step.StartLoad? {
      StartStepKeeps(s, step);
    } else if step.ReadRow? || step.FailLoad? {
      ReadStepKeeps(s, step);
    } else if step.StoreLoad? || step.Land? {
      LandStepKeeps(s, step);
    } else {
      match step
      case Tick(d) => TickKeeps(s, d);
      case CommitRows(revision, rows) => CommitKeeps(s, revision, rows);
      case CallCheck => CallCheckKeeps(s);
      case Drop(cache, key) => DropKeeps(s, cache, key);
      case Clear(cache) => ClearKeeps(s, cache);
    }
  }
}
