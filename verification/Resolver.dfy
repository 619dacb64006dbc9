/** Resolve of internal/resolver/resolver.go after the gate: from a user row to an identity or a refusal. */
module Resolver {
  import opened Values
  import opened Text
  import opened ConfigKeys
  import opened Admission

  /** What the config cache answers: a value (Nil when the key is absent), or an error. */
  datatype Lookup = Found(value: Any) | LookupError

  type Configs = (string, string) -> Lookup

  type MemberChecks = map<string, map<string, Claims>>

  /** A user row joined with its enabled memberships, as getUserWithTenants returns it. */
  datatype UserRecord = UserRecord(name: string, enabled: bool, defaultTenant: string, slugs: seq<string>,
                                   names: seq<string>, logos: seq<string>, workspaces: seq<string>, checks: MemberChecks)

  datatype TenantInfo = TenantInfo(slug: string, name: string, logo: string, workspace: string)

  // ---- cache keys ------------------------------------------------------------

  function CacheKey(slug: string, key: string): string {
    slug + ":" + key
  }

  /** The config loader splits its cache key at the first colon. */
  function SplitKey(cacheKey: string): Option<(string, string)> {
    if cacheKey == "" then None
    else if cacheKey[0] == ':' then Some(("", cacheKey[1..]))
    else match SplitKey(cacheKey[1..])
      case None => None
      case Some(parts) => Some(([cacheKey[0]] + parts.0, parts.1))
  }

  /** The loader reads the slug and key that were asked for exactly when the slug has no colon. */
  lemma {:induction false} SplitKeyInverts(slug: string, key: string)
    ensures SplitKey(CacheKey(slug, key)) == Some((slug, key)) <==> ':' !in slug
    ensures SplitKey(CacheKey(slug, key)).Some? && ':' !in SplitKey(CacheKey(slug, key)).value.0
  {
    if slug != "" {
      assert CacheKey(slug, key)[1..] == CacheKey(slug[1..], key);
      assert slug == [slug[0]] + slug[1..];
      SplitKeyInverts(slug[1..], key);
    } else {
      assert CacheKey(slug, key)[1..] == key;
    }
  }

  // ---- policy filter ---------------------------------------------------------

  function Rules(raw: Any): Claims {
    if raw.Map? then raw.entries else map[]
  }

  function OverridesFor(checks: MemberChecks, slug: string, provider: string): Option<Claims> {
    if slug in checks && provider in checks[slug] then Some(checks[slug][provider]) else None
  }

  /** The tenant's provider list and rules, with this member's overrides, admit the claims. */
  predicate Passes(slug: string, provider: string, claims: Claims, checks: MemberChecks, cfg: Configs) {
    && cfg(slug, PROVIDERS).Found?
    && ListAllows(provider, cfg(slug, PROVIDERS).value)
    && cfg(slug, ChecksKey(provider)).Found?
    && var rules := Rules(cfg(slug, ChecksKey(provider)).value);
       match OverridesFor(checks, slug, provider)
       case None => TenantChecksHold(provider, rules, claims, true)
       case Some(overrides) => overrides != map[] && TenantChecksHold(provider, rules + overrides, claims, true)
  }

  function Kept(tenants: seq<TenantInfo>, provider: string, claims: Claims, checks: MemberChecks, cfg: Configs): seq<TenantInfo> {
    if tenants == [] then []
    else
      var n := |tenants| - 1;
      Kept(tenants[..n], provider, claims, checks, cfg) +
      if Passes(tenants[n].slug, provider, claims, checks, cfg) then [tenants[n]] else []
  }

  function Slugs(tenants: seq<TenantInfo>): (r: seq<string>)
    ensures |r| == |tenants| && forall i :: 0 <= i < |r| ==> r[i] == tenants[i].slug
  {
    seq(|tenants|, i requires 0 <= i < |tenants| => tenants[i].slug)
  }

  method ProviderAllowed(slug: string, provider: string, cfg: Configs) returns (allowed: bool, lookupOk: bool)
    ensures lookupOk <==> cfg(slug, PROVIDERS).Found?
    ensures lookupOk ==> (allowed <==> ListAllows(provider, cfg(slug, PROVIDERS).value))
    ensures cfg(slug, "auth:providers").Found? ==>
              var raw := cfg(slug, "auth:providers").value;
              (allowed <==> !raw.List? || raw.items == [] || Str(provider) in raw.items)
  {
    match cfg(slug, PROVIDERS) {
      case LookupError => return false, false;
      case Found(raw) =>
        if !raw.List? || |raw.items| == 0 {
          return true, true;
        }
        var found := ContainsString(raw.items, provider);
        return found, true;
    }
  }

  /** What keeps a tenant: both settings can be read, its provider list, if it has names, has this one, and
      its rules hold of the claims for a member; overrides replace rules, and empty ones refuse. */
  lemma PassesMeans(slug: string, provider: string, claims: Claims, checks: MemberChecks, cfg: Configs)
    ensures Passes(slug, provider, claims, checks, cfg) ==>
              cfg(slug, "auth:providers").Found? && cfg(slug, "auth:checks:" + provider).Found?
    ensures cfg(slug, "auth:providers").Found? && cfg(slug, "auth:checks:" + provider).Found? ==>
              var list, raw := cfg(slug, "auth:providers").value, cfg(slug, "auth:checks:" + provider).value;
              var rules := if raw.Map? then raw.entries else map[];
              (Passes(slug, provider, claims, checks, cfg) <==>
               && (!list.List? || list.items == [] || Str(provider) in list.items)
               && if slug in checks && provider in checks[slug]
                  then checks[slug][provider] != map[] && TenantChecksHold(provider, rules + checks[slug][provider], claims, true)
                  else TenantChecksHold(provider, rules, claims, true))
  {
  }

  method TenantPasses(slug: string, provider: string, claims: Claims, checks: MemberChecks, cfg: Configs) returns (ok: bool)
    ensures ok <==> Passes(slug, provider, claims, checks, cfg)
  {
    var allowed, lookupOk := ProviderAllowed(slug, provider, cfg);
    if !lookupOk || !allowed {
      return false;
    }
    match cfg(slug, ChecksKey(provider)) {
      case LookupError => return false;
      case Found(raw) =>
        var rules := if raw.Map? then raw.entries else map[];
        if slug in checks && provider in checks[slug] {
          var overrides := checks[slug][provider];
          if |overrides| == 0 {
            return false;
          }
          rules := MergeOverrides(rules, overrides);
        }
        if |rules| == 0 {
          return true;
        }
        ok := EvaluateTenantChecks(provider, rules, claims, true);
    }
  }

  /** applyAuthChecks: without a provider everything passes unchanged, the default unexamined. */
  method ApplyAuthChecks(tenants: seq<TenantInfo>, defaultTenant: string, provider: string, claims: Claims,
                         checks: MemberChecks, cfg: Configs)
    returns (kept: seq<TenantInfo>, newDefault: string, dropped: seq<string>)
    ensures provider == "" ==> kept == tenants && newDefault == defaultTenant && dropped == []
    ensures provider != "" ==> kept == Kept(tenants, provider, claims, checks, cfg)
    ensures provider != "" ==> newDefault == if defaultTenant in Slugs(kept) then defaultTenant else ""
    ensures |kept| + |dropped| == |tenants|
    ensures forall i :: 0 <= i < |dropped| ==> !Passes(dropped[i], provider, claims, checks, cfg)
  {
    if provider == "" {
      return tenants, defaultTenant, [];
    }
    kept, dropped := [], [];
    for i := 0 to |tenants|
      invariant kept == Kept(tenants[..i], provider, claims, checks, cfg)
      invariant |kept| + |dropped| == i
      invariant forall j :: 0 <= j < |dropped| ==> !Passes(dropped[j], provider, claims, checks, cfg)
    {
      assert tenants[..i + 1][..i] == tenants[..i];
      var ok := TenantPasses(tenants[i].slug, provider, claims, checks, cfg);
      if ok {
        kept := kept + [tenants[i]];
      } else {
        dropped := dropped + [tenants[i].slug];
      }
    }
    assert tenants[..|tenants|] == tenants;
    newDefault := defaultTenant;
    if defaultTenant != "" {
      var stillThere := false;
      for i := 0 to |kept|
        invariant !stillThere && defaultTenant !in Slugs(kept)[..i]
      {
        if kept[i].slug == defaultTenant {
          stillThere := true;
          assert Slugs(kept)[i] == defaultTenant;
          break;
        }
      }
      if !stillThere {
        assert Slugs(kept)[..|kept|] == Slugs(kept);
        newDefault := "";
      }
    }
  }

  // ---- what the filter keeps -------------------------------------------------

  ghost predicate Subsequence<T>(s: seq<T>, of: seq<T>)
    decreases |of|
  {
    s == [] ||
    (of != [] && ((s[|s| - 1] == of[|of| - 1] && Subsequence(s[..|s| - 1], of[..|of| - 1])) ||
                  Subsequence(s, of[..|of| - 1])))
  }

  lemma SubsequenceThen<T>(s: seq<T>, of: seq<T>, t: T)
    requires Subsequence(s, of)
    ensures Subsequence(s, of + [t]) && Subsequence(s + [t], of + [t])
  {
  }

  lemma SubsequenceLast<T>(s: seq<T>, of: seq<T>)
    requires of != [] && Subsequence(s, of[..|of| - 1])
    ensures Subsequence(s, of) && Subsequence(s + [of[|of| - 1]], of)
  {
    assert (s + [of[|of| - 1]])[..|s|] == s;
  }

  lemma KeptThen(tenants: seq<TenantInfo>, provider: string, claims: Claims, checks: MemberChecks, cfg: Configs)
    requires tenants != []
    ensures var front := Kept(tenants[..|tenants| - 1], provider, claims, checks, cfg);
            var last := tenants[|tenants| - 1];
            Kept(tenants, provider, claims, checks, cfg) ==
            if Passes(last.slug, provider, claims, checks, cfg) then front + [last] else front
  {
  }

  lemma {:induction false} KeptInOrder(tenants: seq<TenantInfo>, provider: string, claims: Claims, checks: MemberChecks, cfg: Configs)
    ensures Subsequence(Kept(tenants, provider, claims, checks, cfg), tenants)
    decreases |tenants|
  {
    if tenants != [] {
      var n := |tenants| - 1;
      KeptInOrder(tenants[..n], provider, claims, checks, cfg);
      KeptThen(tenants, provider, claims, checks, cfg);
      SubsequenceLast(Kept(tenants[..n], provider, claims, checks, cfg), tenants);
    }
  }

  lemma {:induction false} KeptAre(tenants: seq<TenantInfo>, provider: string, claims: Claims, checks: MemberChecks, cfg: Configs, t: TenantInfo)
    ensures t in Kept(tenants, provider, claims, checks, cfg) <==>
            t in tenants && Passes(t.slug, provider, claims, checks, cfg)
    decreases |tenants|
  {
    if tenants != [] {
      var n := |tenants| - 1;
      KeptAre(tenants[..n], provider, claims, checks, cfg, t);
      assert tenants == tenants[..n] + [tenants[n]];
    }
  }

  /** Exactly the passing tenants, in their order. */
  lemma KeptExactly(tenants: seq<TenantInfo>, provider: string, claims: Claims, checks: MemberChecks, cfg: Configs)
    ensures Subsequence(Kept(tenants, provider, claims, checks, cfg), tenants)
    ensures forall t :: t in Kept(tenants, provider, claims, checks, cfg) <==>
                        t in tenants && Passes(t.slug, provider, claims, checks, cfg)
  {
    KeptInOrder(tenants, provider, claims, checks, cfg);
    forall t {
      KeptAre(tenants, provider, claims, checks, cfg, t);
    }
  }

  /** `failing` answers as `cfg` does, except that some lookups fail. */
  ghost predicate FailsMore(failing: Configs, cfg: Configs) {
    forall slug, key :: failing(slug, key) == cfg(slug, key) || failing(slug, key) == LookupError
  }

  lemma ErrorsRefuse(slug: string, provider: string, claims: Claims, checks: MemberChecks, failing: Configs, cfg: Configs)
    requires FailsMore(failing, cfg) && Passes(slug, provider, claims, checks, failing)
    ensures Passes(slug, provider, claims, checks, cfg)
  {
  }

  /** A failed lookup can only lose tenants. */
  lemma {:induction false} ErrorsOnlyShrink(tenants: seq<TenantInfo>, provider: string, claims: Claims, checks: MemberChecks,
                                            failing: Configs, cfg: Configs)
    requires FailsMore(failing, cfg)
    ensures Subsequence(Kept(tenants, provider, claims, checks, failing), Kept(tenants, provider, claims, checks, cfg))
    decreases |tenants|
  {
    if tenants != [] {
      var n := |tenants| - 1;
      ErrorsOnlyShrink(tenants[..n], provider, claims, checks, failing, cfg);
      KeptThen(tenants, provider, claims, checks, failing);
      KeptThen(tenants, provider, claims, checks, cfg);
      SubsequenceThen(Kept(tenants[..n], provider, claims, checks, failing),
                      Kept(tenants[..n], provider, claims, checks, cfg), tenants[n]);
      if Passes(tenants[n].slug, provider, claims, checks, failing) {
        ErrorsRefuse(tenants[n].slug, provider, claims, checks, failing, cfg);
      }
    }
  }

  // ---- from a user row to an identity ----------------------------------------

  datatype Outcome =
    | Machine(userID: string)
    | Identity(userID: string, displayName: string, defaultTenant: string, tenants: seq<TenantInfo>)
    | Reject(status: int, code: string)
    | Failure(stage: string)

  method ArraysToTenants(slugs: seq<string>, names: seq<string>, logos: seq<string>, workspaces: seq<string>)
    returns (tenants: seq<TenantInfo>)
    ensures Slugs(tenants) == slugs
    ensures forall i :: 0 <= i < |slugs| ==> tenants[i] == TenantAt(slugs, names, logos, workspaces, i)
    ensures |tenants| == |slugs|
    ensures forall i :: 0 <= i < |slugs| ==>
              && tenants[i].slug == slugs[i]
              && tenants[i].name == (if i < |names| then names[i] else "")
              && tenants[i].logo == (if i < |logos| then logos[i] else "")
              && tenants[i].workspace == (if i < |workspaces| then workspaces[i] else "")
  {
    tenants := [];
    for i := 0 to |slugs|
      invariant |tenants| == i
      invariant forall j :: 0 <= j < i ==> tenants[j] == TenantAt(slugs, names, logos, workspaces, j)
    {
      var t := TenantInfo(slugs[i], "", "", "");
      if i < |names| {
        t := t.(name := names[i]);
      }
      if i < |logos| {
        t := t.(logo := logos[i]);
      }
      if i < |workspaces| {
        t := t.(workspace := workspaces[i]);
      }
      tenants := tenants + [t];
    }
  }

  function Field(values: seq<string>, i: nat): string {
    if i < |values| then values[i] else ""
  }

  function TenantAt(slugs: seq<string>, names: seq<string>, logos: seq<string>, workspaces: seq<string>, i: nat): TenantInfo
    requires i < |slugs|
  {
    TenantInfo(slugs[i], Field(names, i), Field(logos, i), Field(workspaces, i))
  }

  function Candidates(user: UserRecord): seq<TenantInfo> {
    seq(|user.slugs|, i requires 0 <= i < |user.slugs| => TenantAt(user.slugs, user.names, user.logos, user.workspaces, i))
  }

  /** The tenants a sign-in may use. */
  function Permitted(user: UserRecord, provider: string, claims: Claims, cfg: Configs): seq<TenantInfo> {
    if provider == "" then Candidates(user) else Kept(Candidates(user), provider, claims, user.checks, cfg)
  }

  /** EqualFold over the permitted slugs. */
  predicate NamesSlug(tenants: seq<TenantInfo>, slug: string) {
    exists i :: 0 <= i < |tenants| && Lower(tenants[i].slug) == Lower(slug)
  }

  /** The default the identity carries: the requested tenant, else the stored default if it is still
      permitted (or unexamined, without a provider), else the first permitted tenant. */
  predicate RightDefault(user: UserRecord, requested: string, provider: string, permitted: seq<TenantInfo>, chosen: string)
    requires permitted != []
  {
    if requested != "" then chosen == requested
    else if user.defaultTenant != "" && (provider == "" || user.defaultTenant in Slugs(permitted)) then chosen == user.defaultTenant
    else chosen == permitted[0].slug
  }

  /** No two of the user's tenants differ only in letter case, as the unique index on slugs has it. */
  predicate SlugsApart(user: UserRecord) {
    forall i, j :: 0 <= i < |user.slugs| && 0 <= j < |user.slugs| && Lower(user.slugs[i]) == Lower(user.slugs[j]) ==>
                     user.slugs[i] == user.slugs[j]
  }

  /** What the user's row and the request say of the default before anything is evaluated. */
  predicate DefaultIsOwn(user: UserRecord, requested: string, provider: string) {
    if requested != "" then requested in user.slugs
    else provider != "" || user.defaultTenant == "" || user.defaultTenant in user.slugs
  }

  lemma PermittedAreCandidates(user: UserRecord, provider: string, claims: Claims, cfg: Configs, i: nat)
    requires i < |Permitted(user, provider, claims, cfg)|
    ensures Permitted(user, provider, claims, cfg)[i].slug in user.slugs
  {
    var t := Permitted(user, provider, claims, cfg)[i];
    if provider != "" {
      KeptAre(Candidates(user), provider, claims, user.checks, cfg, t);
    }
    var j :| 0 <= j < |Candidates(user)| && Candidates(user)[j] == t;
    assert user.slugs[j] == t.slug;
  }

  lemma SlugsHold(tenants: seq<TenantInfo>, slug: string)
    ensures slug in Slugs(tenants) <==> exists i :: 0 <= i < |tenants| && tenants[i].slug == slug
  {
    if slug in Slugs(tenants) {
      var i :| 0 <= i < |tenants| && Slugs(tenants)[i] == slug;
      assert tenants[i].slug == slug;
    }
    if i :| 0 <= i < |tenants| && tenants[i].slug == slug {
      assert Slugs(tenants)[i] == slug;
    }
  }

  lemma RequestedIsPermitted(user: UserRecord, requested: string, provider: string, claims: Claims, cfg: Configs)
    requires SlugsApart(user) && NamesSlug(Permitted(user, provider, claims, cfg), requested)
    ensures requested in Slugs(Permitted(user, provider, claims, cfg)) <==> requested in user.slugs
  {
    var permitted := Permitted(user, provider, claims, cfg);
    SlugsHold(permitted, requested);
    var i :| 0 <= i < |permitted| && Lower(permitted[i].slug) == Lower(requested);
    PermittedAreCandidates(user, provider, claims, cfg, i);
    if requested in Slugs(permitted) {
      var j :| 0 <= j < |permitted| && permitted[j].slug == requested;
      PermittedAreCandidates(user, provider, claims, cfg, j);
    }
  }

  /** Exactly when the default an identity carries is one of its tenants. */
  lemma DefaultIsPermitted(user: UserRecord, requested: string, provider: string, claims: Claims, cfg: Configs, chosen: string)
    requires SlugsApart(user) && Permitted(user, provider, claims, cfg) != []
    requires requested != "" ==> NamesSlug(Permitted(user, provider, claims, cfg), requested)
    requires RightDefault(user, requested, provider, Permitted(user, provider, claims, cfg), chosen)
    ensures chosen in Slugs(Permitted(user, provider, claims, cfg)) <==> DefaultIsOwn(user, requested, provider)
  {
    var permitted := Permitted(user, provider, claims, cfg);
    SlugsHold(permitted, permitted[0].slug);
    if requested != "" {
      RequestedIsPermitted(user, requested, provider, claims, cfg);
    } else if provider == "" {
      assert Slugs(Candidates(user)) == user.slugs;
    }
  }

  function MemberOf(slug: string, defaultTenant: string): UserRecord {
    UserRecord("", true, defaultTenant, [slug], [], [], [], map[])
  }

  /** A stored slug "A" and a request for "a": the identity's default is none of its tenants. */
  lemma CaseMismatchEscapes(cfg: Configs)
    ensures var user, permitted := MemberOf("A", ""), Permitted(MemberOf("A", ""), "", map[], cfg);
            && SlugsApart(user) && permitted != [] && RequestedTenant("a") == "a" && NamesSlug(permitted, "a")
            && RightDefault(user, "a", "", permitted, "a")
            && "a" !in Slugs(permitted)
  {
    TrimmedStays("a", WHITESPACE);
    assert Lower("a") == "a" && Lower("A") == "a";
    var permitted := Permitted(MemberOf("A", ""), "", map[], cfg);
    assert permitted[0].slug == "A";
    assert Slugs(permitted) == ["A"];
  }

  /** Without a provider nothing examines a stored default the user has no enabled membership for. */
  lemma UnexaminedDefaultEscapes(cfg: Configs)
    ensures var user, permitted := MemberOf("a", "b"), Permitted(MemberOf("a", "b"), "", map[], cfg);
            && SlugsApart(user) && permitted != []
            && RightDefault(user, "", "", permitted, "b")
            && "b" !in Slugs(permitted)
  {
    var permitted := Permitted(MemberOf("a", "b"), "", map[], cfg);
    assert permitted[0].slug == "a";
    assert Slugs(permitted) == ["a"];
  }

  /** With slugs stored in lower case, and a provider, the default is always a permitted tenant. */
  lemma NormalizedDefaultIsPermitted(user: UserRecord, parameter: string, provider: string, claims: Claims, cfg: Configs, chosen: string)
    requires Permitted(user, provider, claims, cfg) != [] && provider != ""
    requires RightDefault(user, RequestedTenant(parameter), provider, Permitted(user, provider, claims, cfg), chosen)
    requires RequestedTenant(parameter) != "" ==> NamesSlug(Permitted(user, provider, claims, cfg), RequestedTenant(parameter))
    requires forall i :: 0 <= i < |user.slugs| ==> Lower(user.slugs[i]) == user.slugs[i]
    ensures chosen in Slugs(Permitted(user, provider, claims, cfg))
  {
    var requested := RequestedTenant(parameter);
    DefaultIsPermitted(user, requested, provider, claims, cfg, chosen);
    if requested != "" {
      LowerStays(Trim(parameter, WHITESPACE));
      var permitted := Permitted(user, provider, claims, cfg);
      var i :| 0 <= i < |permitted| && Lower(permitted[i].slug) == Lower(requested);
      PermittedAreCandidates(user, provider, claims, cfg, i);
    }
  }

  /** Padding and letter case of the tenant parameter do not matter. */
  lemma RequestedIgnoresPadding(left: string, slug: string, right: string)
    requires AllIn(left, WHITESPACE) && AllIn(right, WHITESPACE) && slug != "" && Trimmed(slug, WHITESPACE)
    ensures RequestedTenant(left + slug + right) == Lower(slug)
  {
    TrimPadded(left, slug, right, WHITESPACE);
  }

  /** A slug is among the permitted ones exactly when it is one of the user's and, given a provider,
      passes. */
  lemma PermittedSlugs(user: UserRecord, provider: string, claims: Claims, cfg: Configs, slug: string)
    ensures slug in Slugs(Permitted(user, provider, claims, cfg)) <==>
            slug in user.slugs && (provider == "" || Passes(slug, provider, claims, user.checks, cfg))
  {
    var permitted := Permitted(user, provider, claims, cfg);
    SlugsHold(permitted, slug);
    if slug in Slugs(permitted) {
      var i :| 0 <= i < |permitted| && permitted[i].slug == slug;
      PermittedAreCandidates(user, provider, claims, cfg, i);
      if provider != "" {
        KeptAre(Candidates(user), provider, claims, user.checks, cfg, permitted[i]);
      }
    }
    if slug in user.slugs && (provider == "" || Passes(slug, provider, claims, user.checks, cfg)) {
      var i :| 0 <= i < |user.slugs| && user.slugs[i] == slug;
      var candidate := Candidates(user)[i];
      assert candidate in Candidates(user) && candidate.slug == slug;
      if provider != "" {
        KeptAre(Candidates(user), provider, claims, user.checks, cfg, candidate);
      }
      var j :| 0 <= j < |permitted| && permitted[j] == candidate;
      assert permitted[j].slug == slug;
    }
  }

  /** How Resolve ends once the user's row is known. */
  predicate Finished(user: UserRecord, email: string, requested: string, provider: string, claims: Claims, cfg: Configs, out: Outcome) {
    var permitted := Permitted(user, provider, claims, cfg);
    if permitted == [] then out == Reject(401, "auth_checks_failed")
    else if requested != "" && !NamesSlug(permitted, requested) then out == Reject(403, "tenant_not_permitted")
    else
      && out.Identity? && out.userID == email && out.tenants == permitted
      && out.displayName == (if user.name != "" then user.name else StringClaim(claims, "name"))
      && RightDefault(user, requested, provider, permitted, out.defaultTenant)
  }

  /** An identity names exactly the user's passing tenants, the requested one among them, and a default:
      the requested tenant, else the stored one if it is still there or no provider examines it, else
      the first. */
  lemma FinishedIdentity(user: UserRecord, email: string, requested: string, provider: string, claims: Claims, cfg: Configs, out: Outcome)
    requires Finished(user, email, requested, provider, claims, cfg, out) && out.Identity?
    ensures out.userID == email && out.tenants != []
    ensures user.name != "" ==> out.displayName == user.name
    ensures user.name == "" && "name" in claims && claims["name"].Str? ==> out.displayName == claims["name"].text
    ensures forall slug :: slug in Slugs(out.tenants) <==>
                           slug in user.slugs && (provider == "" || Passes(slug, provider, claims, user.checks, cfg))
    ensures requested != "" ==> exists i :: 0 <= i < |out.tenants| && Lower(out.tenants[i].slug) == Lower(requested)
    ensures if requested != "" then out.defaultTenant == requested
            else if user.defaultTenant != "" && (provider == "" || user.defaultTenant in Slugs(out.tenants)) then
              out.defaultTenant == user.defaultTenant
            else out.defaultTenant == out.tenants[0].slug
  {
    forall slug {
      PermittedSlugs(user, provider, claims, cfg, slug);
    }
  }

  /** There is none exactly when no tenant of the user passes, or none of those is the requested one. */
  lemma FinishedRefusal(user: UserRecord, email: string, requested: string, provider: string, claims: Claims, cfg: Configs, out: Outcome)
    requires Finished(user, email, requested, provider, claims, cfg, out)
    ensures out == Reject(401, "auth_checks_failed") <==>
            forall slug :: slug in user.slugs ==> provider != "" && !Passes(slug, provider, claims, user.checks, cfg)
    ensures out == Reject(403, "tenant_not_permitted") <==>
            && requested != "" && out != Reject(401, "auth_checks_failed")
            && forall slug :: slug in user.slugs && (provider == "" || Passes(slug, provider, claims, user.checks, cfg)) ==>
                                Lower(slug) != Lower(requested)
    ensures out.Identity? || out == Reject(401, "auth_checks_failed") || out == Reject(403, "tenant_not_permitted")
  {
    var permitted := Permitted(user, provider, claims, cfg);
    forall slug ensures slug in Slugs(permitted) <==> slug in user.slugs && (provider == "" || Passes(slug, provider, claims, user.checks, cfg)) {
      PermittedSlugs(user, provider, claims, cfg, slug);
    }
    if permitted != [] {
      assert Slugs(permitted)[0] in Slugs(permitted);
    }
    NamesAmong(permitted, requested);
  }

  lemma NamesAmong(tenants: seq<TenantInfo>, slug: string)
    ensures NamesSlug(tenants, slug) <==> exists s :: s in Slugs(tenants) && Lower(s) == Lower(slug)
  {
    if NamesSlug(tenants, slug) {
      var i :| 0 <= i < |tenants| && Lower(tenants[i].slug) == Lower(slug);
      assert Slugs(tenants)[i] in Slugs(tenants);
    }
  }

  method FinishResolve(user: UserRecord, email: string, requested: string, provider: string, claims: Claims, cfg: Configs)
    returns (out: Outcome)
    ensures Finished(user, email, requested, provider, claims, cfg, out)
  {
    var tenants := ArraysToTenants(user.slugs, user.names, user.logos, user.workspaces);
    assert tenants == Candidates(user);
    var kept, defaultTenant, _ := ApplyAuthChecks(tenants, user.defaultTenant, provider, claims, user.checks, cfg);
    if |kept| == 0 {
      return Reject(401, "auth_checks_failed");
    }
    if requested != "" {
      var found := false;
      for i := 0 to |kept|
        invariant !found && forall j :: 0 <= j < i ==> Lower(kept[j].slug) != Lower(requested)
      {
        if Lower(kept[i].slug) == Lower(requested) {
          found := true;
          break;
        }
      }
      if !found {
        return Reject(403, "tenant_not_permitted");
      }
      defaultTenant := requested;
    }
    if defaultTenant == "" {
      defaultTenant := kept[0].slug;
    }
    var displayName := StringClaim(claims, "name");
    if user.name != "" {
      displayName := user.name;
    }
    return Identity(email, displayName, defaultTenant, kept);
  }

  // ---- Resolve ---------------------------------------------------------------

  predicate Names(claims: Claims, key: string, text: string) {
    key in claims && claims[key] == Str(text) && text != ""
  }

  /** The first of email, upn and preferred_username that is a nonempty text, else the fallback. */
  function EmailFromClaims(claims: Claims, fallback: string): (email: string)
    ensures Names(claims, "email", email) ||
            ((forall text :: !Names(claims, "email", text)) &&
             (Names(claims, "upn", email) ||
              ((forall text :: !Names(claims, "upn", text)) &&
               (Names(claims, "preferred_username", email) ||
                ((forall text :: !Names(claims, "preferred_username", text)) && email == fallback)))))
  {
    if StringClaim(claims, "email") != "" then StringClaim(claims, "email")
    else if StringClaim(claims, "upn") != "" then StringClaim(claims, "upn")
    else if StringClaim(claims, "preferred_username") != "" then StringClaim(claims, "preferred_username")
    else fallback
  }

  predicate IsUserMethod(authMethod: string) {
    authMethod == "oauth" || authMethod == "azure_entra" || authMethod == "session"
  }

  /** tenant_id of the gate's request, normalized as slugs are stored. */
  function RequestedTenant(parameter: string): string {
    Lower(Trim(parameter, WHITESPACE))
  }

  /** What the surroundings answer one Resolve: the gate, the cached user row, and what autoAdd
      returns when it is consulted. None stands for an error, Some(None) for no such user. */
  datatype Env = Env(gateOpen: bool, user: Option<Option<UserRecord>>, autoAdd: Option<Option<UserRecord>>, cfg: Configs)

  predicate NeedsAutoAdd(user: Option<UserRecord>, requested: string) {
    user.None? || requested == "" || requested !in user.value.slugs
  }

  /** The row the rest of Resolve works on. */
  function Resolved(env: Env, requested: string): Option<UserRecord>
    requires env.user.Some? && (NeedsAutoAdd(env.user.value, requested) ==> env.autoAdd.Some?)
  {
    if NeedsAutoAdd(env.user.value, requested) then env.autoAdd.value else env.user.value
  }

  /** What a user sign-in must end in, stage by stage. */
  predicate RightOutcome(env: Env, email: string, requested: string, provider: string, claims: Claims, out: Outcome) {
    if !env.gateOpen then out == Failure("auth revision unavailable")
    else if '@' !in email then out == Reject(401, "missing_email")
    else if env.user.None? then out == Failure("mt user lookup")
    else if env.user.value.Some? && !env.user.value.value.enabled then out == Reject(403, "user_disabled")
    else if NeedsAutoAdd(env.user.value, requested) && env.autoAdd.None? then out == Failure("tenant auto-add")
    else if Resolved(env, requested).None? then out == Reject(401, "membership_required")
    else Finished(Resolved(env, requested).value, email, requested, provider, claims, env.cfg, out)
  }

  /** A user sign-in fails closed with the gate, is refused for want of an address, an enabled user or
      a membership, and otherwise ends as FinishResolve has it for the row it found or enrolled. */
  method Resolve(authMethod: string, identity: string, claims: Claims, parameter: string, env: Env) returns (out: Outcome)
    ensures out == Machine(identity) <==> authMethod !in {"oauth", "azure_entra", "session"}
    ensures authMethod in {"oauth", "azure_entra", "session"} ==>
              RightOutcome(env, Lower(EmailFromClaims(claims, identity)), RequestedTenant(parameter),
                           StringClaim(claims, "provider"), claims, out)
    ensures authMethod in {"oauth", "azure_entra", "session"} ==>
              var email, requested := Lower(EmailFromClaims(claims, identity)), RequestedTenant(parameter);
              var provider := if "provider" in claims && claims["provider"].Str? then claims["provider"].text else "";
              if !env.gateOpen then out == Failure("auth revision unavailable")
              else if '@' !in email then out == Reject(401, "missing_email")
              else if env.user.None? then out == Failure("mt user lookup")
              else if env.user.value.Some? && !env.user.value.value.enabled then out == Reject(403, "user_disabled")
              else
                var asks := env.user.value.None? || requested == "" || requested !in env.user.value.value.slugs;
                var user := if asks && env.autoAdd.Some? then env.autoAdd.value else env.user.value;
                if asks && env.autoAdd.None? then out == Failure("tenant auto-add")
                else if user.None? then out == Reject(401, "membership_required")
                else Finished(user.value, email, requested, provider, claims, env.cfg, out)
    ensures var requested := RequestedTenant(parameter);
            out.Identity? && SlugsApart(Resolved(env, requested).value) ==>
              (out.defaultTenant in Slugs(out.tenants) <==>
               DefaultIsOwn(Resolved(env, requested).value, requested, StringClaim(claims, "provider")))
  {
    if !IsUserMethod(authMethod) {
      return Machine(identity);
    }
    if !env.gateOpen {
      return Failure("auth revision unavailable");
    }
    var email := Lower(EmailFromClaims(claims, identity));
    if email == "" || '@' !in email {
      return Reject(401, "missing_email");
    }
    var provider := StringClaim(claims, "provider");
    if env.user.None? {
      return Failure("mt user lookup");
    }
    var user := env.user.value;
    if user.Some? && !user.value.enabled {
      return Reject(403, "user_disabled");
    }
    var requested := RequestedTenant(parameter);
    if user.None? || requested == "" || requested !in user.value.slugs {
      if env.autoAdd.None? {
        return Failure("tenant auto-add");
      }
      user := env.autoAdd.value;
    }
    if user.None? {
      return Reject(401, "membership_required");
    }
    out := FinishResolve(user.value, email, requested, provider, claims, env.cfg);
    if out.Identity? && SlugsApart(user.value) {
      DefaultIsPermitted(user.value, requested, provider, claims, env.cfg, out.defaultTenant);
    }
  }
}
