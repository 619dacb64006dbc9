/**
 What the propagation bound means for a sign-in: a change that revokes access, committed at least one
 freshness interval before the check and not taken back since, takes effect in that check.
 */
module Revocation {
  import opened Values
  import opened ConfigKeys
  import opened Admission
  import opened Resolver
  import Freshness
  import FreshnessTheorems

  /** The resolver's caches, in the order it purges them. */
  const USERS := 0
  const CONFIGS := 2

  /** In this run, request `r` has been handed `value` for `key` by that cache, after its check. */
  ghost predicate Handed(gate: Freshness.Config, s: Freshness.State, r: nat, cache: nat, key: string, value: Any) {
    && gate.interval > 0 && FreshnessTheorems.Reachable(gate, s)
    && r < |s.requests| && s.requests[r].phase.Got?
    && s.requests[r].phase.call.cache == cache && s.requests[r].phase.call.key == key
    && s.requests[r].phase.sample.value == value
  }

  /** Commit `k` is at least one interval older than the request's check, and the row has the
      property there and in every commit since. */
  ghost predicate LongHeld(s: Freshness.State, r: nat, k: nat, cache: nat, key: string, property: Any -> bool) {
    && r < |s.requests| && k < |s.log|
    && s.log[k].time <= s.requests[r].called - s.cfg.interval
    && forall i :: k <= i < |s.log| ==> property(Freshness.Row(s.log[i].rows, cache, key))
  }

  lemma LongHeldIsSeen(gate: Freshness.Config, s: Freshness.State, r: nat, k: nat, cache: nat, key: string,
                       value: Any, property: Any -> bool)
    requires Handed(gate, s, r, cache, key, value) && LongHeld(s, r, k, cache, key, property)
    ensures property(value)
  {
    FreshnessTheorems.PropagationBound(gate, s, r);
  }

  /** How a cached user row is read; None is no such user. */
  type ReadUser = Any -> Option<UserRecord>

  /** A user disabled that long ago gets no identity, whatever the tenant and the enrollment policy. */
  lemma DisabledUserIsRefused(gate: Freshness.Config, s: Freshness.State, r: nat, k: nat, value: Any, read: ReadUser,
                              env: Env, email: string, requested: string, provider: string, claims: Claims, out: Outcome)
    requires Handed(gate, s, r, USERS, email, value) && env.user == Some(read(value))
    requires LongHeld(s, r, k, USERS, email, v => read(v).Some? && !read(v).value.enabled)
    requires RightOutcome(env, email, requested, provider, claims, out)
    ensures !out.Identity?
  {
    LongHeldIsSeen(gate, s, r, k, USERS, email, value, v => read(v).Some? && !read(v).value.enabled);
  }

  /** A membership gone, or its tenant disabled, that long ago is not among the identity's tenants,
      unless the sign-in enrolls the user anew. */
  lemma RemovedMemberIsRefused(gate: Freshness.Config, s: Freshness.State, r: nat, k: nat, value: Any, read: ReadUser, slug: string,
                               env: Env, email: string, requested: string, provider: string, claims: Claims, out: Outcome)
    requires Handed(gate, s, r, USERS, email, value) && env.user == Some(read(value))
    requires NeedsAutoAdd(env.user.value, requested) ==> env.autoAdd == env.user
    requires LongHeld(s, r, k, USERS, email, v => read(v).Some? && slug !in read(v).value.slugs)
    requires RightOutcome(env, email, requested, provider, claims, out)
    ensures out.Identity? ==> slug !in Slugs(out.tenants)
  {
    LongHeldIsSeen(gate, s, r, k, USERS, email, value, v => read(v).Some? && slug !in read(v).value.slugs);
    if out.Identity? && slug in Slugs(out.tenants) {
      var user := Resolved(env, requested).value;
      SlugsHold(out.tenants, slug);
      var i :| 0 <= i < |out.tenants| && out.tenants[i].slug == slug;
      PermittedAreCandidates(user, provider, claims, env.cfg, i);
    }
  }

  lemma KeptPass(user: UserRecord, provider: string, claims: Claims, cfg: Configs, slug: string)
    requires provider != "" && slug in Slugs(Permitted(user, provider, claims, cfg))
    ensures Passes(slug, provider, claims, user.checks, cfg)
  {
    var permitted := Permitted(user, provider, claims, cfg);
    SlugsHold(permitted, slug);
    var i :| 0 <= i < |permitted| && permitted[i].slug == slug;
    KeptAre(Candidates(user), provider, claims, user.checks, cfg, permitted[i]);
  }

  /** A provider taken off a tenant's list that long ago no longer reaches the tenant. */
  lemma RemovedProviderIsRefused(gate: Freshness.Config, s: Freshness.State, r: nat, k: nat, value: Any, slug: string,
                                 env: Env, email: string, requested: string, provider: string, claims: Claims, out: Outcome)
    requires provider != "" && Handed(gate, s, r, CONFIGS, CacheKey(slug, PROVIDERS), value) && env.cfg(slug, PROVIDERS) == Found(value)
    requires LongHeld(s, r, k, CONFIGS, CacheKey(slug, PROVIDERS), v => !ListAllows(provider, v))
    requires RightOutcome(env, email, requested, provider, claims, out)
    ensures out.Identity? ==> slug !in Slugs(out.tenants)
  {
    LongHeldIsSeen(gate, s, r, k, CONFIGS, CacheKey(slug, PROVIDERS), value, v => !ListAllows(provider, v));
    if out.Identity? && slug in Slugs(out.tenants) {
      KeptPass(Resolved(env, requested).value, provider, claims, env.cfg, slug);
    }
  }

  /** Rules that long ago tightened against these claims shut out a member without overrides. */
  lemma TightenedRulesRefuse(gate: Freshness.Config, s: Freshness.State, r: nat, k: nat, value: Any, slug: string,
                             env: Env, email: string, requested: string, provider: string, claims: Claims, out: Outcome)
    requires provider != "" && Handed(gate, s, r, CONFIGS, CacheKey(slug, ChecksKey(provider)), value)
    requires env.cfg(slug, ChecksKey(provider)) == Found(value)
    requires LongHeld(s, r, k, CONFIGS, CacheKey(slug, ChecksKey(provider)), v => !TenantChecksHold(provider, Rules(v), claims, true))
    requires RightOutcome(env, email, requested, provider, claims, out)
    ensures out.Identity? && OverridesFor(Resolved(env, requested).value.checks, slug, provider).None? ==> slug !in Slugs(out.tenants)
  {
    LongHeldIsSeen(gate, s, r, k, CONFIGS, CacheKey(slug, ChecksKey(provider)), value,
                   v => !TenantChecksHold(provider, Rules(v), claims, true));
    if out.Identity? && slug in Slugs(out.tenants) {
      KeptPass(Resolved(env, requested).value, provider, claims, env.cfg, slug);
    }
  }
}
