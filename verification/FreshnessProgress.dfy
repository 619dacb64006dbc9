/** The caches do serve: a request that has passed the gate and meets no one else gets its row. */
module FreshnessProgress {
  import opened Values
  import opened TtlCache
  import opened Freshness

  /** An entry that has not expired is returned as it is. */
  lemma HitReturns(s: State, r: nat, c: nat, key: string)
    requires (At(s, r).Admitted? || At(s, r).Got?) && c < |s.slots|
    requires key in s.slots[c].cache.entries && s.now < s.slots[c].cache.entries[key].expiresAt
    ensures var end := Stamp(DoLook(Stamp(DoBeginGet(s, r, c, key)), r));
            && At(end, r).Got? && At(end, r).sample == s.slots[c].cache.entries[key].value
            && At(end, r).call.cache == c && At(end, r).call.key == key && At(end, r).hitAt == Some(s.now)
  {
    var s1 := Stamp(DoBeginGet(s, r, c, key));
    assert At(s1, r).Seeking? && s1.slots == s.slots && s1.now == s.now;
  }

  /** The request has missed, and opened flight `f`, which found nothing either. */
  lemma MissOpens(s: State, r: nat, c: nat, key: string) returns (t: State, f: nat)
    requires (At(s, r).Admitted? || At(s, r).Got?) && c < |s.slots|
    requires !(key in s.slots[c].cache.entries && s.now < s.slots[c].cache.entries[key].expiresAt)
    requires (c, FlightKey(s.slots[c].cache.generation, key)) !in s.group
    ensures t == Stamp(DoInnerCheck(Stamp(DoJoin(Stamp(DoLook(Stamp(DoBeginGet(s, r, c, key)), r)), r)), f))
    ensures f < |t.flights| && t.flights[f] == Flight(c, s.slots[c].cache.generation, key, Missing)
    ensures t.slots == s.slots && t.now == s.now && t.log == s.log && t.cfg == s.cfg
    ensures At(t, r).Waiting? && At(t, r).flight == f && At(t, r).gen == s.slots[c].cache.generation
    ensures At(t, r).call.cache == c && At(t, r).call.key == key
  {
    f := |s.flights|;
    var s1 := Stamp(DoBeginGet(s, r, c, key));
    assert At(s1, r).Seeking? && s1.slots == s.slots && s1.now == s.now && s1.group == s.group;
    var s2 := Stamp(DoLook(s1, r));
    assert At(s2, r).Missed? && At(s2, r).gen == s.slots[c].cache.generation;
    var s3 := Stamp(DoJoin(s2, r));
    assert s3.flights[f] == Flight(c, s.slots[c].cache.generation, key, Opened);
    t := Stamp(DoInnerCheck(s3, f));
  }

  /** The flight loads the newest row and stores it. */
  lemma LoadStores(s: State, f: nat, victim: string) returns (t: State)
    requires |s.log| > 0 && f < |s.flights| && s.flights[f].phase.Missing? && s.flights[f].cache < |s.slots|
    requires s.flights[f].gen == s.slots[s.flights[f].cache].cache.generation
    requires MustEvict(s.slots[s.flights[f].cache].cache, s.cfg.capacity) ==> victim in s.slots[s.flights[f].cache].cache.entries
    ensures t == Stamp(DoStoreLoad(Stamp(DoReadRow(Stamp(DoStartLoad(s, f)), f)), f, victim))
    ensures var fl := s.flights[f];
            var sample := Sample(Row(s.log[|s.log| - 1].rows, fl.cache, fl.key), |s.log| - 1, s.now, s.serial);
            && |t.flights| == |s.flights| && t.flights[f] == fl.(phase := Finished(Loaded(sample)))
            && |t.slots| == |s.slots| && t.requests == s.requests
            && t.slots[fl.cache].cache.generation == fl.gen
            && fl.key in t.slots[fl.cache].cache.entries
            && t.slots[fl.cache].cache.entries[fl.key] == Entry(sample, s.now + s.cfg.ttl)
  {
    var fl := s.flights[f];
    var s1 := Stamp(DoStartLoad(s, f));
    assert s1.flights[f] == fl.(phase := Loading(s.now, s.serial));
    var s2 := Stamp(DoReadRow(s1, f));
    var sample := Sample(Row(s.log[|s.log| - 1].rows, fl.cache, fl.key), |s.log| - 1, s.now, s.serial);
    assert s2.flights[f] == fl.(phase := Sampled(sample)) && s2.slots == s.slots;
    t := Stamp(DoStoreLoad(s2, f, victim));
  }

  lemma ReceiveReturns(u: State, r: nat, sample: Sample)
    requires At(u, r).Waiting? && At(u, r).flight < |u.flights| && At(u, r).call.cache < |u.slots|
    requires u.flights[At(u, r).flight].phase == Finished(Loaded(sample))
    requires At(u, r).gen == u.slots[At(u, r).call.cache].cache.generation
    ensures var end := Stamp(DoReceive(u, r));
            end.slots == u.slots && At(end, r) == Got(At(u, r).need, At(u, r).call, sample, None)
  {
  }

  /** A miss that meets no other flight and no invalidation ends with the newest row, cached for one TTL.
      `t` is the protocol once its flight `f` has found nothing, `end` once it has returned. */
  lemma MissReturns(s: State, r: nat, c: nat, key: string, victim: string) returns (t: State, f: nat, end: State)
    requires |s.log| > 0 && (At(s, r).Admitted? || At(s, r).Got?) && c < |s.slots|
    requires !(key in s.slots[c].cache.entries && s.now < s.slots[c].cache.entries[key].expiresAt)
    requires (c, FlightKey(s.slots[c].cache.generation, key)) !in s.group
    requires MustEvict(s.slots[c].cache, s.cfg.capacity) ==> victim in s.slots[c].cache.entries
    ensures t == Stamp(DoInnerCheck(Stamp(DoJoin(Stamp(DoLook(Stamp(DoBeginGet(s, r, c, key)), r)), r)), f))
    ensures end == Stamp(DoReceive(Stamp(DoStoreLoad(Stamp(DoReadRow(Stamp(DoStartLoad(t, f)), f)), f, victim)), r))
    ensures At(end, r).Got? && At(end, r).sample.value == Row(s.log[|s.log| - 1].rows, c, key)
    ensures At(end, r).call.cache == c && At(end, r).call.key == key
    ensures |end.slots| == |s.slots| && key in end.slots[c].cache.entries
    ensures end.slots[c].cache.entries[key].value == At(end, r).sample && end.slots[c].cache.entries[key].expiresAt == s.now + s.cfg.ttl
  {
    t, f := MissOpens(s, r, c, key);
    end := LoadReturns(t, r, f, victim);
  }

  /** The rest of a miss: the flight loads and stores, and the waiting request takes its result. */
  lemma LoadReturns(t: State, r: nat, f: nat, victim: string) returns (end: State)
    requires |t.log| > 0 && f < |t.flights| && t.flights[f].phase.Missing? && t.flights[f].cache < |t.slots|
    requires t.flights[f].gen == t.slots[t.flights[f].cache].cache.generation
    requires MustEvict(t.slots[t.flights[f].cache].cache, t.cfg.capacity) ==> victim in t.slots[t.flights[f].cache].cache.entries
    requires At(t, r).Waiting? && At(t, r).flight == f && At(t, r).gen == t.flights[f].gen && At(t, r).call.cache == t.flights[f].cache
    ensures end == Stamp(DoReceive(Stamp(DoStoreLoad(Stamp(DoReadRow(Stamp(DoStartLoad(t, f)), f)), f, victim)), r))
    ensures var fl := t.flights[f];
            && At(end, r).Got? && At(end, r).call == At(t, r).call
            && At(end, r).sample.value == Row(t.log[|t.log| - 1].rows, fl.cache, fl.key)
            && |end.slots| == |t.slots| && fl.key in end.slots[fl.cache].cache.entries
            && end.slots[fl.cache].cache.entries[fl.key] == Entry(At(end, r).sample, t.now + t.cfg.ttl)
  {
    var u := LoadStores(t, f, victim);
    ReceiveReturns(u, r, u.flights[f].phase.result.sample);
    end := Stamp(DoReceive(u, r));
  }

  /** A probe that succeeds reopens the gate, stamped with the time before it; and a recent one is enough. */
  lemma GateOpens(s: State, r: nat)
    requires |s.log| > 0 && At(s, r).Queued? && s.holder.None?
    ensures s.gate.checked.Some? && s.now - s.gate.checked.value < s.cfg.interval ==>
              At(Stamp(DoEnterGate(s, r)), r).Admitted? && Stamp(DoEnterGate(s, r)).gate == s.gate
    ensures s.gate.checked.Some? && s.now - s.gate.checked.value >= s.cfg.interval && s.log[|s.log| - 1].revision == s.gate.revision ==>
              var end := Stamp(DoReconcile(Stamp(DoReadRevision(Stamp(DoEnterGate(s, r)), r)), r));
              && At(end, r).Admitted? && end.slots == s.slots && end.holder == None
              && end.gate.checked == Some(s.now) && end.gate.revision == s.gate.revision
  {
    var s1 := Stamp(DoEnterGate(s, r));
    if s.gate.checked.Some? && s.now - s.gate.checked.value >= s.cfg.interval {
      assert At(s1, r) == Probing(s.now);
      var s2 := Stamp(DoReadRevision(s1, r));
      assert At(s2, r) == Probed(s.now, |s.log| - 1);
    }
  }

  /** A failed probe refuses its request and leaves no window: the next check probes again, however soon. */
  lemma FailureForcesProbe(s: State, r: nat, q: nat)
    requires At(s, r).Probing? && At(s, q).Queued?
    ensures var t := Stamp(DoFailProbe(s, r));
            && At(t, r).Ended? && t.holder == None && t.slots == s.slots && t.gate.revision == s.gate.revision
            && At(Stamp(DoEnterGate(t, q)), q) == Probing(s.now)
  {
  }
}
