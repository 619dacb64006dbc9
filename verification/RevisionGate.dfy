/**
 The gate of internal/cache/revision.go, wired to the resolver's three caches as
 internal/resolver/resolver.go does: one probe of the database revision per freshness window.
 The object methods give one uninterrupted Check; module Freshness interleaves its steps.
 */
module RevisionGate {
  import opened Values
  import opened TtlCache

  datatype Gate = Gate(revision: int, checked: Option<int>)

  predicate Recent(g: Gate, interval: int, now: int) {
    g.checked.Some? && now - g.checked.value < interval
  }

  predicate MustPurge(g: Gate, revision: int) {
    g.checked.None? || revision != g.revision
  }

  class RevisionGate<U, D, C> {
    var revision: int
    var checked: Option<int>
    const interval: int
    const users: TTLCache<U>
    const domains: TTLCache<D>
    const configs: TTLCache<C>

    /** New gives each kind of row a cache of its own. */
    ghost predicate Valid() {
      users as object != domains && users as object != configs && domains as object != configs
    }

    ghost function Contents(): Gate
      reads this
    {
      Gate(revision, checked)
    }

    constructor (interval: int, users: TTLCache<U>, domains: TTLCache<D>, configs: TTLCache<C>)
      requires users as object != domains && users as object != configs && domains as object != configs
      ensures Valid()
      ensures this.interval == interval && this.users == users && this.domains == domains && this.configs == configs
      ensures Contents() == Gate(0, None)
    {
      this.interval := interval;
      this.users, this.domains, this.configs := users, domains, configs;
      revision, checked := 0, None;
    }

    /** `now` is the clock on entry, `started` the clock when the probe starts, `loaded` what the
        probe reads (None when it fails or times out). A failure forgets the last success but
        keeps the recorded revision; the window is counted from before the probe. */
    method Check(now: int, started: int, loaded: Option<int>) returns (ok: bool)
      requires Valid() && now <= started
      modifies this, users, domains, configs
      ensures ok <==> (old(checked).Some? && now - old(checked).value < interval) || loaded.Some?
      ensures old(checked).Some? && now - old(checked).value < interval ==>
                Contents() == old(Contents()) && unchanged(users) && unchanged(domains) && unchanged(configs)
      ensures !(old(checked).Some? && now - old(checked).value < interval) && loaded.None? ==>
                Contents() == Gate(old(revision), None) && unchanged(users) && unchanged(domains) && unchanged(configs)
      ensures !(old(checked).Some? && now - old(checked).value < interval) && loaded.Some? ==>
                Contents() == Gate(loaded.value, Some(started))
      ensures !(old(checked).Some? && now - old(checked).value < interval) && loaded.Some? ==>
                if old(checked).None? || loaded.value != old(revision) then
                  && users.Contents() == Purged(old(users.Contents()))
                  && domains.Contents() == Purged(old(domains.Contents()))
                  && configs.Contents() == Purged(old(configs.Contents()))
                else unchanged(users) && unchanged(domains) && unchanged(configs)
      ensures (old(checked).Some? && now - old(checked).value < interval) == Recent(old(Contents()), interval, now)
      ensures loaded.Some? ==> ((old(checked).None? || loaded.value != old(revision)) <==> MustPurge(old(Contents()), loaded.value))
    {
      if checked.Some? && now - checked.value < interval {
        return true;
      }
      if loaded.None? {
        checked := None;
        return false;
      }
      if checked.None? || loaded.value != revision {
        users.Purge();
        domains.Purge();
        configs.Purge();
      }
      revision := loaded.value;
      checked := Some(started);
      return true;
    }
  }
}
