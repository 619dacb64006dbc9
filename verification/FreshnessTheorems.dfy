/** What the revision-gated caches promise, in every run from every initial database. */
module FreshnessTheorems {
  import opened Freshness
  import opened FreshnessProofs

  lemma InitOk(cfg: Config, first: Commit)
    requires cfg.interval > 0
    ensures Inv(Init(cfg, first))
  {
  }

  lemma {:induction false} RunKeeps(s: State, steps: seq<Step>)
    requires Inv(s)
    ensures Inv(Run(s, steps))
    decreases |steps|
  {
    if steps != [] {
      NextKeeps(s, steps[0]);
      RunKeeps(Next(s, steps[0]), steps[1..]);
    }
  }

  ghost predicate Reachable(cfg: Config, s: State) {
    exists first, steps :: s == Run(Init(cfg, first), steps)
  }

  lemma ReachableOk(cfg: Config, s: State)
    requires cfg.interval > 0 && Reachable(cfg, s)
    ensures Inv(s)
  {
    var first, steps :| s == Run(Init(cfg, first), steps);
    InitOk(cfg, first);
    RunKeeps(Init(cfg, first), steps);
  }

  /** A value returned after the gate admitted a request is the row of a committed state that
      includes every commit made at least one interval before the request called Check. */
  lemma PropagationBound(cfg: Config, s: State, r: nat)
    requires cfg.interval > 0 && Reachable(cfg, s)
    requires r < |s.requests| && s.requests[r].phase.Got?
    ensures var req := s.requests[r];
            var sample := req.phase.sample;
            && sample.version < |s.log|
            && sample.value == Row(s.log[sample.version].rows, req.phase.call.cache, req.phase.call.key)
            && (forall i :: 0 <= i < |s.log| && s.log[i].time <= req.called - s.cfg.interval ==> i <= sample.version)
  {
    ReachableOk(cfg, s);
    assert RequestOk(s, r, s.requests[r]);
  }

  // ---- no stale return -----------------------------------------------------

  predicate Marks(step: Step) {
    step.PurgeNext? || step.Drop? || step.Clear?
  }

  /** No other step moves an invalidation mark. */
  lemma MarksStay(s: State, step: Step, c: nat)
    requires c < |s.slots| && !Marks(step)
    ensures |Next(s, step).slots| == |s.slots|
    ensures Next(s, step).slots[c].cleared == s.slots[c].cleared && Next(s, step).slots[c].dropped == s.slots[c].dropped
  {
  }

  lemma PurgeMarks(s: State, r: nat, c: nat, key: string)
    requires c < |s.slots| && SlotOk(s, c, s.slots[c])
    ensures |DoPurgeNext(s, r).slots| == |s.slots| && LastDrop(s.slots[c], key) <= LastDrop(DoPurgeNext(s, r).slots[c], key)
  {
  }

  lemma ClearMarks(s: State, cache: nat, c: nat, key: string)
    requires c < |s.slots| && SlotOk(s, c, s.slots[c])
    ensures |DoClear(s, cache).slots| == |s.slots| && LastDrop(s.slots[c], key) <= LastDrop(DoClear(s, cache).slots[c], key)
  {
  }

  lemma DropMarksGrow(s: State, cache: nat, dropped: string, c: nat, key: string)
    requires c < |s.slots| && SlotOk(s, c, s.slots[c])
    ensures |DoDrop(s, cache, dropped).slots| == |s.slots|
    ensures LastDrop(s.slots[c], key) <= LastDrop(DoDrop(s, cache, dropped).slots[c], key)
  {
  }

  lemma MarksGrow(s: State, step: Step, c: nat, key: string)
    requires c < |s.slots| && SlotOk(s, c, s.slots[c]) && Marks(step)
    ensures |Next(s, step).slots| == |s.slots|
    ensures LastDrop(s.slots[c], key) <= LastDrop(Next(s, step).slots[c], key)
  {
    match step
    case PurgeNext(r) => PurgeMarks(s, r, c, key);
    case Drop(cache, dropped) => DropMarksGrow(s, cache, dropped, c, key);
    case Clear(cache) => ClearMarks(s, cache, c, key);
  }

  lemma LastDropGrows(s: State, step: Step, c: nat, key: string)
    requires c < |s.slots| && SlotOk(s, c, s.slots[c])
    ensures |Next(s, step).slots| == |s.slots|
    ensures LastDrop(s.slots[c], key) <= LastDrop(Next(s, step).slots[c], key)
  {
    if Marks(step) {
      MarksGrow(s, step, c, key);
    } else {
      MarksStay(s, step, c);
    }
  }

  lemma {:induction false} LastDropGrowsOverRuns(s: State, steps: seq<Step>, c: nat, key: string)
    requires Inv(s) && c < |s.slots|
    ensures |Run(s, steps).slots| == |s.slots|
    ensures LastDrop(s.slots[c], key) <= LastDrop(Run(s, steps).slots[c], key)
    decreases |steps|
  {
    if steps != [] {
      NextKeeps(s, steps[0]);
      assert SlotOk(s, c, s.slots[c]);
      LastDropGrows(s, steps[0], c, key);
      LastDropGrowsOverRuns(Next(s, steps[0]), steps[1..], c, key);
    }
  }

  predicate Calling(phase: Phase) {
    phase.Seeking? || phase.Missed? || phase.Waiting? || phase.Got?
  }

  /** A call, but for the number of its passes. */
  predicate SameCall(a: Phase, b: Phase) {
    Calling(b) ==> Calling(a) && b.call.(passes := 0) == a.call.(passes := 0)
  }

  lemma CallPersistsOnCall(s: State, step: Step, r: nat)
    requires r < |s.requests| && OnCall(step) && !step.BeginGet?
    ensures r < |Next(s, step).requests| && SameCall(At(s, r), At(Next(s, step), r))
  {
  }

  lemma CallPersistsOnGate(s: State, step: Step, r: nat)
    requires r < |s.requests| && OnGate(step)
    ensures r < |Next(s, step).requests| && SameCall(At(s, r), At(Next(s, step), r))
  {
  }

  /** Until request `r` begins another Get, its call keeps its cache, key and starting point. */
  lemma CallPersists(s: State, step: Step, r: nat)
    requires r < |s.requests| && !step.BeginGet?
    ensures r < |Next(s, step).requests| && SameCall(At(s, r), At(Next(s, step), r))
  {
    if OnCall(step) {
      CallPersistsOnCall(s, step, r);
    } else if OnGate(step) {
      CallPersistsOnGate(s, step, r);
    }
  }

  lemma OtherCallPersists(s: State, r: nat, q: nat, cache: nat, key: string)
    requires r < |s.requests| && q != r
    ensures At(Stamp(DoBeginGet(s, q, cache, key)), r) == At(s, r)
  {
  }

  predicate BeginsBy(step: Step, r: nat) {
    step.BeginGet? && step.r == r
  }

  lemma {:induction false} CallPersistsOverRuns(s: State, steps: seq<Step>, r: nat)
    requires r < |s.requests|
    requires forall i :: 0 <= i < |steps| ==> !BeginsBy(steps[i], r)
    requires Calling(At(Run(s, steps), r))
    ensures r < |Run(s, steps).requests|
    ensures Calling(At(s, r)) && At(Run(s, steps), r).call.(passes := 0) == At(s, r).call.(passes := 0)
    decreases |steps|
  {
    if steps != [] {
      var t := Next(s, steps[0]);
      assert !BeginsBy(steps[0], r);
      if steps[0].BeginGet? {
        OtherCallPersists(s, r, steps[0].r, steps[0].cache, steps[0].key);
      } else {
        CallPersists(s, steps[0], r);
      }
      CallPersistsOverRuns(t, steps[1..], r);
    }
  }

  /** `step` invalidates the key in cache `c`: alone, with a purge, or with the gate's purge. */
  predicate Invalidates(s: State, step: Step, c: nat, key: string) {
    || step == Drop(c, key)
    || step == Clear(c)
    || (step.PurgeNext? && At(s, step.r).Purging? && At(s, step.r).next == c)
  }

  /** Once Invalidate(key) or Purge has finished, a Get of that key that begins later returns only
      a value whose load started after it: no load from before is returned or stored for it. */
  lemma NoStaleReturn(cfg: Config, s: State, step: Step, mid: seq<Step>, called: State,
                      r: nat, c: nat, key: string, rest: seq<Step>, end: State)
    requires cfg.interval > 0 && Reachable(cfg, s) && c < |s.slots| && Invalidates(s, step, c, key)
    requires called == Run(Next(s, step), mid) && (At(called, r).Admitted? || At(called, r).Got?)
    requires end == Run(Next(called, BeginGet(r, c, key)), rest) && At(end, r).Got?
    requires forall i :: 0 <= i < |rest| ==> !BeginsBy(rest[i], r)
    ensures At(end, r).call.cache == c && At(end, r).call.key == key
    ensures At(end, r).sample.serial > s.serial
  {
    ReachableOk(cfg, s);
    NextKeeps(s, step);
    var after := Next(s, step);
    InvalidationMarks(s, step, c, key);
    LastDropGrowsOverRuns(after, mid, c, key);
    RunKeeps(after, mid);
    BeginGetRecords(called, r, c, key);
    NextKeeps(called, BeginGet(r, c, key));
    ReturnedAfterCall(Next(called, BeginGet(r, c, key)), rest, r);
  }

  lemma ReturnedAfterCall(begun: State, rest: seq<Step>, r: nat)
    requires Inv(begun) && At(begun, r).Seeking? && At(Run(begun, rest), r).Got?
    requires forall i :: 0 <= i < |rest| ==> !BeginsBy(rest[i], r)
    ensures var end := At(Run(begun, rest), r);
            && end.call.(passes := 0) == At(begun, r).call.(passes := 0)
            && end.sample.serial > end.call.since
  {
    CallPersistsOverRuns(begun, rest, r);
    RunKeeps(begun, rest);
    assert RequestOk(Run(begun, rest), r, Run(begun, rest).requests[r]);
  }

  lemma InvalidationMarks(s: State, step: Step, c: nat, key: string)
    requires Inv(s) && c < |s.slots| && Invalidates(s, step, c, key)
    ensures |Next(s, step).slots| == |s.slots| && LastDrop(Next(s, step).slots[c], key) >= s.serial
  {
  }

  lemma BeginGetRecords(s: State, r: nat, c: nat, key: string)
    requires c < |s.slots| && (At(s, r).Admitted? || At(s, r).Got?)
    ensures var p := At(Next(s, BeginGet(r, c, key)), r);
            p.Seeking? && p.call == Call(c, key, s.slots[c].cache.generation, LastDrop(s.slots[c], key), 0)
  {
  }

  // ---- bounds --------------------------------------------------------------

  /** The cache never outgrows a positive capacity; no hit is served at or beyond load start + TTL;
      and a Get makes at most one pass more than the invalidations of its cache since it began. */
  lemma CacheBounds(cfg: Config, s: State, c: nat, r: nat)
    requires cfg.interval > 0 && Reachable(cfg, s)
    ensures c < |s.slots| && s.cfg.capacity > 0 ==> |s.slots[c].cache.entries| <= s.cfg.capacity
    ensures At(s, r).Got? && At(s, r).hitAt.Some? ==>
              At(s, r).hitAt.value < At(s, r).sample.started + s.cfg.ttl
    ensures Calling(At(s, r)) ==>
              && At(s, r).call.cache < |s.slots|
              && At(s, r).call.passes <= 1 + s.slots[At(s, r).call.cache].cache.generation - At(s, r).call.gen0
  {
    ReachableOk(cfg, s);
    if c < |s.slots| {
      assert SlotOk(s, c, s.slots[c]);
    }
    if r < |s.requests| {
      assert RequestOk(s, r, s.requests[r]);
    }
  }

  /** At most one load runs for a cache, generation and key. */
  lemma SingleFlight(cfg: Config, s: State, f: nat, g: nat)
    requires cfg.interval > 0 && Reachable(cfg, s)
    requires f < |s.flights| && g < |s.flights|
    requires !s.flights[f].phase.Finished? && !s.flights[g].phase.Finished?
    requires s.flights[f].(phase := Opened) == s.flights[g].(phase := Opened)
    ensures f == g
  {
    ReachableOk(cfg, s);
    assert Findable(s.flights, s.group, f) && Findable(s.flights, s.group, g);
    assert Name(s.flights[f]) == Name(s.flights[g]);
  }

  // ---- extending runs --------------------------------------------------------

  lemma {:induction false} RunThen(s: State, steps: seq<Step>, step: Step)
    ensures Run(s, steps + [step]) == Next(Run(s, steps), step)
    decreases |steps|
  {
    if steps == [] {
      assert Run(s, [step]) == Run(Next(s, step), []);
    } else {
      assert (steps + [step])[1..] == steps[1..] + [step];
      RunThen(Next(s, steps[0]), steps[1..], step);
    }
  }

  lemma ReachableThen(cfg: Config, s: State, step: Step)
    requires Reachable(cfg, s)
    ensures Reachable(cfg, Next(s, step))
  {
    var first, steps :| s == Run(Init(cfg, first), steps);
    RunThen(Init(cfg, first), steps, step);
  }
}
