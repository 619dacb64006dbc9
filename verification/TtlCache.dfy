/**
 The generation-stamped TTL cache of internal/cache/ttl.go: the value of a cache and its
 atomic transitions as functions, and the class whose methods are its critical sections.
 */
module TtlCache {
  import opened Values
  import opened Decimals

  datatype Entry<V> = Entry(value: V, expiresAt: int)

  datatype Cache<V> = Cache(entries: map<string, Entry<V>>, generation: nat)

  // ---- transitions ---------------------------------------------------------

  function Hit<V>(c: Cache<V>, key: string, now: int): Option<V> {
    if key in c.entries && now < c.entries[key].expiresAt
    then Some(c.entries[key].value)
    else None
  }

  predicate MustEvict<V>(c: Cache<V>, capacity: int) {
    capacity > 0 && |c.entries| >= capacity
  }

  /** A finished load of generation `gen` stores its value, or discards it when the
      generation moved on. `victim` is the entry map iteration happens to yield first. */
  function Stored<V>(c: Cache<V>, capacity: int, gen: nat, key: string, entry: Entry<V>, victim: string): Cache<V> {
    if gen != c.generation then c
    else
      var room := if MustEvict(c, capacity) then c.entries - {victim} else c.entries;
      c.(entries := room[key := entry])
  }

  ghost predicate Evictable<V>(c: Cache<V>, capacity: int, victim: string) {
    MustEvict(c, capacity) ==> victim in c.entries
  }

  ghost predicate StoredSomehow<V>(c: Cache<V>, d: Cache<V>, capacity: int, gen: nat, key: string, entry: Entry<V>) {
    exists victim :: Evictable(c, capacity, victim) && d == Stored(c, capacity, gen, key, entry, victim)
  }

  function Invalidated<V>(c: Cache<V>, key: string): Cache<V> {
    Cache(c.entries - {key}, c.generation + 1)
  }

  function Purged<V>(c: Cache<V>): Cache<V> {
    Cache(map[], c.generation + 1)
  }

  ghost predicate WithinCapacity<V>(c: Cache<V>, capacity: int) {
    capacity > 0 ==> |c.entries| <= capacity
  }

  /** Storing never outgrows a positive capacity, whichever entry was evicted. */
  lemma StoredWithinCapacity<V>(c: Cache<V>, capacity: int, gen: nat, key: string, entry: Entry<V>, victim: string)
    requires WithinCapacity(c, capacity)
    requires MustEvict(c, capacity) ==> victim in c.entries
    ensures WithinCapacity(Stored(c, capacity, gen, key, entry, victim), capacity)
  {
  }

  // ---- single-flight keys --------------------------------------------------

  /** fmt.Sprintf("%d:%s", gen, key): the name under which concurrent misses share a load. */
  function FlightKey(gen: nat, key: string): string {
    Decimal(gen) + ":" + key
  }

  /** Two misses share a flight only if they agree on both the generation and the key,
      although keys may themselves contain colons. */
  lemma FlightKeyInjective(g: nat, k: string, h: nat, l: string)
    requires FlightKey(g, k) == FlightKey(h, l)
    ensures g == h && k == l
  {
    DecimalDigits(g);
    DecimalDigits(h);
    var a, b := Decimal(g), Decimal(h);
    var f, f' := FlightKey(g, k), FlightKey(h, l);
    assert f[|a|] == ':' && f'[|b|] == ':';
    assert |a| == |b|;
    assert a == f[..|a|] == f'[..|b|] == b;
    assert k == f[|a| + 1..] == f'[|b| + 1..] == l;
    DecimalInjective(g, h);
  }

  // ---- the cache object ------------------------------------------------------

  datatype Invalidation = One(key: string) | All

  /** What one pass of Get meets: when it looks, what the loader answers (None is an error),
      and the invalidations other goroutines complete before the load is stored and after. */
  datatype Pass<V> = Pass(now: int, started: int, loaded: Option<V>,
                          during: seq<Invalidation>, after: seq<Invalidation>)

  datatype GetError = LoadFailed | Cancelled

  function Applied<V>(c: Cache<V>, all: seq<Invalidation>): Cache<V> {
    if all == [] then c
    else
      var before := Applied(c, all[..|all| - 1]);
      match all[|all| - 1]
      case One(key) => Invalidated(before, key)
      case All => Purged(before)
  }

  /** What a pass without a hit leaves: the load is stored, if it succeeded, between the invalidations
      that complete before and after it. */
  ghost predicate Passed<V>(c: Cache<V>, pass: Pass<V>, key: string, ttl: int, capacity: int, end: Cache<V>) {
    match pass.loaded
    case None => end == Applied(Applied(c, pass.during), pass.after)
    case Some(value) =>
      var before := Applied(c, pass.during);
      exists victim :: Evictable(before, capacity, victim) &&
        end == Applied(Stored(before, capacity, c.generation, key, Entry(value, pass.started + ttl), victim), pass.after)
  }

  /** All a pass without a hit may do to the cache: retire generations, remove entries, and put in its
      own load if no invalidation came before. */
  ghost predicate Follows<V>(c: Cache<V>, pass: Pass<V>, key: string, ttl: int, end: Cache<V>) {
    && end.generation == c.generation + |pass.during| + |pass.after|
    && (forall k :: k in end.entries && k != key ==> k in c.entries && end.entries[k] == c.entries[k])
    && (key in end.entries ==>
          (key in c.entries && end.entries[key] == c.entries[key]) ||
          (pass.during == [] && pass.loaded.Some? && end.entries[key] == Entry(pass.loaded.value, pass.started + ttl)))
  }

  lemma {:induction false} AppliedOnlyRemoves<V>(c: Cache<V>, all: seq<Invalidation>)
    ensures Applied(c, all).generation == c.generation + |all|
    ensures forall k :: k in Applied(c, all).entries ==> k in c.entries && Applied(c, all).entries[k] == c.entries[k]
  {
    if all != [] {
      AppliedOnlyRemoves(c, all[..|all| - 1]);
    }
  }

  lemma PassedFollows<V>(c: Cache<V>, pass: Pass<V>, key: string, ttl: int, capacity: int, end: Cache<V>)
    requires Passed(c, pass, key, ttl, capacity, end)
    ensures Follows(c, pass, key, ttl, end)
  {
    AppliedOnlyRemoves(c, pass.during);
    var before := Applied(c, pass.during);
    match pass.loaded
    case None => AppliedOnlyRemoves(before, pass.after);
    case Some(value) =>
      var entry := Entry(value, pass.started + ttl);
      var victim :| Evictable(before, capacity, victim) &&
        end == Applied(Stored(before, capacity, c.generation, key, entry, victim), pass.after);
      AppliedOnlyRemoves(Stored(before, capacity, c.generation, key, entry, victim), pass.after);
  }

  /** Successive caches of one call: every pass but the last missed, was overlapped by an invalidation, and
      left what the next began with. */
  ghost predicate Trail<V>(states: seq<Cache<V>>, passes: seq<Pass<V>>, key: string, ttl: int) {
    && |states| <= |passes| + 1
    && forall i :: 0 <= i < |states| - 1 ==>
         && !(key in states[i].entries && passes[i].now < states[i].entries[key].expiresAt)
         && passes[i].during + passes[i].after != []
         && Follows(states[i], passes[i], key, ttl, states[i + 1])
  }

  lemma TrailThen<V>(states: seq<Cache<V>>, next: Cache<V>, passes: seq<Pass<V>>, key: string, ttl: int)
    requires Trail(states, passes, key, ttl) && 0 < |states| <= |passes|
    requires var c, pass := states[|states| - 1], passes[|states| - 1];
             && !(key in c.entries && pass.now < c.entries[key].expiresAt)
             && pass.during + pass.after != []
             && Follows(c, pass, key, ttl, next)
    ensures Trail(states + [next], passes, key, ttl)
  {
  }

  lemma TrailPrefix<V>(states: seq<Cache<V>>, passes: seq<Pass<V>>, key: string, ttl: int)
    requires Trail(states, passes, key, ttl) && states != []
    ensures Trail(states[..|states| - 1], passes, key, ttl)
    ensures forall i :: 0 <= i < |states| - 1 ==> passes[i].during + passes[i].after != []
    ensures |states| > 1 ==> !(key in states[0].entries && passes[0].now < states[0].entries[key].expiresAt)
  {
  }

  class TTLCache<V> {
    var entries: map<string, Entry<V>>
    var generation: nat
    const capacity: int
    const ttl: int

    ghost function Contents(): Cache<V>
      reads this
    {
      Cache(entries, generation)
    }

    ghost predicate Valid()
      reads this
    {
      WithinCapacity(Contents(), capacity)
    }

    constructor (capacity: int, ttl: int)
      ensures this.capacity == capacity && this.ttl == ttl
      ensures Valid() && Contents() == Cache(map[], 0)
    {
      this.capacity, this.ttl := capacity, ttl;
      entries, generation := map[], 0;
    }

    /** The read-locked section at the top of Get's loop. */
    method Lookup(key: string, now: int) returns (gen: nat, hit: Option<V>)
      ensures gen == generation && hit == Hit(Contents(), key, now)
      ensures hit == if key in entries && now < entries[key].expiresAt then Some(entries[key].value) else None
    {
      gen := generation;
      hit := None;
      if key in entries && now < entries[key].expiresAt {
        hit := Some(entries[key].value);
      }
    }

    /** The write-locked section that ends a load begun in generation `gen`. */
    method Store(gen: nat, key: string, value: V, started: int)
      requires Valid()
      modifies this
      ensures Valid()
      ensures generation == old(generation)
      ensures StoredSomehow(old(Contents()), Contents(), capacity, gen, key, Entry(value, started + ttl))
      ensures gen != old(generation) ==> entries == old(entries)
      ensures gen == old(generation) && (capacity <= 0 || |old(entries)| < capacity) ==>
                entries == old(entries)[key := Entry(value, started + ttl)]
      ensures gen == old(generation) && 0 < capacity <= |old(entries)| ==>
                exists victim :: victim in old(entries) && entries == (old(entries) - {victim})[key := Entry(value, started + ttl)]
    {
      ghost var before := Contents();
      var victim := key;
      if gen == generation {
        if capacity > 0 && |entries| >= capacity {
          victim :| victim in entries;
          entries := entries - {victim};
        }
        entries := entries[key := Entry(value, started + ttl)];
      } else if capacity > 0 && |entries| >= capacity {
        victim :| victim in entries;
      }
      StoredWithinCapacity(before, capacity, gen, key, Entry(value, started + ttl), victim);
      assert Evictable(before, capacity, victim);
      assert Contents() == Stored(before, capacity, gen, key, Entry(value, started + ttl), victim);
    }

    method Invalidate(key: string)
      requires Valid()
      modifies this
      ensures Valid() && Contents() == Invalidated(old(Contents()), key)
      ensures generation == old(generation) + 1 && entries == old(entries) - {key}
    {
      generation := generation + 1;
      entries := entries - {key};
      assert entries.Keys == old(entries).Keys - {key};
      assert |entries.Keys| <= |old(entries).Keys|;
    }

    method Purge()
      modifies this
      ensures Valid() && Contents() == Purged(old(Contents()))
      ensures generation == old(generation) + 1 && entries == map[]
    {
      generation := generation + 1;
      entries := map[];
    }

    method Len() returns (n: nat)
      requires Valid()
      ensures n == |entries| && (capacity > 0 ==> n <= capacity)
    {
      n := |entries|;
    }

    method ApplyAll(all: seq<Invalidation>)
      requires Valid()
      modifies this
      ensures Valid() && Contents() == Applied(old(Contents()), all)
      ensures all == [] ==> Contents() == old(Contents())
      ensures generation == old(generation) + |all|
    {
      for i := 0 to |all|
        invariant Valid() && Contents() == Applied(old(Contents()), all[..i])
        invariant generation == old(generation) + i
      {
        assert all[..i + 1][..i] == all[..i];
        match all[i] {
          case One(key) => Invalidate(key);
          case All => Purge();
        }
      }
      assert all[..|all|] == all;
    }

    /** One pass of Get's loop; None is another pass. */
    method OnePass(key: string, pass: Pass<V>) returns (end: Option<Result<V, GetError>>)
      requires Valid()
      modifies this
      ensures Valid()
      ensures if key in old(entries) && pass.now < old(entries)[key].expiresAt
              then end == Some(Ok(old(entries)[key].value)) && Contents() == old(Contents())
              else
                && Passed(old(Contents()), pass, key, ttl, capacity, Contents())
                && generation == old(generation) + |pass.during| + |pass.after|
                && end == if pass.during + pass.after != [] then None
                          else if pass.loaded.Some? then Some(Ok(pass.loaded.value))
                          else Some(Err(LoadFailed))
      ensures end.Some? && end.value.Ok? ==> key in entries && entries[key].value == end.value.value
      ensures !(key in old(entries) && pass.now < old(entries)[key].expiresAt) ==> Follows(old(Contents()), pass, key, ttl, Contents())
    {
      ghost var c := Contents();
      var gen, hit := Lookup(key, pass.now);
      if hit.Some? {
        return Some(Ok(hit.value));
      }
      ApplyAll(pass.during);
      if pass.loaded.Some? {
        Store(gen, key, pass.loaded.value, pass.started);
      }
      ghost var stored := Contents();
      ApplyAll(pass.after);
      assert Passed(c, pass, key, ttl, capacity, Contents());
      PassedFollows(c, pass, key, ttl, capacity, Contents());
      if gen != generation {
        return None;
      }
      assert Contents() == stored;
      return Some(if pass.loaded.Some? then Ok(pass.loaded.value) else Err(LoadFailed));
    }

    /** Get's retry loop, run by one caller whose context ends when `passes` runs out. `seen` is the
        cache at the start of each pass. A pass with an unexpired entry returns it; a pass without one
        that no invalidation overlaps returns what it loaded, or the loader's error; every other
        pass is followed by another. */
    method Get(key: string, passes: seq<Pass<V>>) returns (r: Result<V, GetError>, used: nat, ghost seen: seq<Cache<V>>)
      requires Valid()
      modifies this
      ensures Valid() && used <= |passes| && |seen| == used
      ensures passes == [] ==> r == Err(Cancelled) && Contents() == old(Contents())
      ensures passes != [] ==> used > 0 && seen[0] == old(Contents())
      ensures Trail(seen, passes, key, ttl)
      ensures used > 0 ==>
                var c, pass := seen[used - 1], passes[used - 1];
                if key in c.entries && pass.now < c.entries[key].expiresAt
                then r == Ok(c.entries[key].value) && Contents() == c
                else
                  && Follows(c, pass, key, ttl, Contents())
                  && r == if pass.during + pass.after != [] then Err(Cancelled)
                          else if pass.loaded.Some? then Ok(pass.loaded.value)
                          else Err(LoadFailed)
      ensures r == Err(Cancelled) ==> used == |passes| && forall i :: 0 <= i < |passes| ==> passes[i].during + passes[i].after != []
      ensures passes != [] && key in old(entries) && passes[0].now < old(entries)[key].expiresAt ==>
                r == Ok(old(entries)[key].value) && used == 1
      ensures generation >= old(generation) && used <= 1 + generation - old(generation)
      ensures r.Ok? ==> key in entries && entries[key].value == r.value
    {
      used, seen := 0, [];
      ghost var states := [Contents()];
      while used < |passes|
        invariant 0 <= used <= |passes| && Valid()
        invariant |states| == used + 1 && states[0] == old(Contents()) && states[used] == Contents()
        invariant Trail(states, passes, key, ttl)
        invariant generation >= old(generation) + used
        invariant seen == states[..used]
      {
        TrailPrefix(states, passes, key, ttl);
        var end := OnePass(key, passes[used]);
        seen := states;
        used := used + 1;
        if end.Some? {
          return end.value, used, seen;
        }
        TrailThen(states, Contents(), passes, key, ttl);
        states := states + [Contents()];
        assert states[..used] == seen;
      }
      TrailPrefix(states, passes, key, ttl);
      return Err(Cancelled), used, seen;
    }
  }
}
