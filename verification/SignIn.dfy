/**
 Automatic enrollment as a sign-in drives it: autoAdd of internal/resolver/enrollment.go, and why
 the sign-in that enrolled a user is then admitted to the tenant by the rest of Resolve.
 */
module SignIn {
  import opened Values
  import opened ConfigKeys
  import opened Registry
  import opened Enrollment
  import opened TransactionTheorems
  import opened Admission
  import opened Resolver
  import opened TtlCache
  import opened Text
  import opened Validation

  // ---- autoAdd ---------------------------------------------------------------

  datatype DomainRow = DomainRow(slug: string, enabled: bool)

  /** How the enrollment transaction ended. */
  datatype TxResult = TxUser(user: Option<UserRecord>) | TxDenied | TxFailed

  /** The part after the last '@', in lower case. */
  function EmailDomain(email: string): string {
    if email == "" then ""
    else if '@' in email[1..] then EmailDomain(email[1..])
    else if email[0] == '@' then Lower(email[1..])
    else ""
  }

  lemma {:induction false} EmailDomainIs(local: string, domain: string)
    requires '@' !in domain
    ensures EmailDomain(local + "@" + domain) == Lower(domain)
    ensures EmailDomain(domain) == ""
  {
    var email := local + "@" + domain;
    if local == "" {
      assert email[1..] == domain;
    } else {
      assert email[1..] == local[1..] + "@" + domain;
      assert email[1..][|local| - 1] == '@';
      EmailDomainIs(local[1..], domain);
    }
    NoDomain(domain);
  }

  lemma NoDomain(s: string)
    requires '@' !in s
    ensures EmailDomain(s) == ""
  {
  }

  function WithoutControls(s: string): string {
    if s == "" then "" else (if Control(s[0]) then "" else [s[0]]) + WithoutControls(s[1..])
  }

  /** The name a new user is given: the claimed one cleaned, or the address, cut to 200. */
  function DisplayName(claimed: string, email: string): string {
    var name := Trim(WithoutControls(claimed), WHITESPACE);
    var chosen := if name == "" then email else name;
    if |chosen| > 200 then chosen[..200] else chosen
  }

  lemma {:induction false} WithoutControlsIsClean(s: string)
    ensures forall i :: 0 <= i < |WithoutControls(s)| ==> !Control(WithoutControls(s)[i])
  {
    if s != "" {
      WithoutControlsIsClean(s[1..]);
    }
  }

  lemma {:induction false} TrimLeftKeepsClean(s: string)
    requires forall i :: 0 <= i < |s| ==> !Control(s[i])
    ensures forall i :: 0 <= i < |TrimLeft(s, WHITESPACE)| ==> !Control(TrimLeft(s, WHITESPACE)[i])
  {
    if s != "" && s[0] in WHITESPACE {
      TrimLeftKeepsClean(s[1..]);
    }
  }

  /** The name given is one the operator's own validation accepts. */
  lemma DisplayNameIsValid(claimed: string, email: string)
    requires email != "" && email[0] !in WHITESPACE && forall i :: 0 <= i < |email| ==> !Control(email[i])
    ensures TextValue(DisplayName(claimed, email), 200)
  {
    WithoutControlsIsClean(claimed);
    TrimLeftKeepsClean(WithoutControls(claimed));
    TrimRightEnds(TrimLeft(WithoutControls(claimed), WHITESPACE), WHITESPACE);
    TrimIsTrimmed(WithoutControls(claimed), WHITESPACE);
    assert DisplayName(claimed, email)[0] !in WHITESPACE;
  }

  /** A clean claimed name is taken as it is; one with nothing in it gives way to the address. */
  lemma DisplayNameKeeps(claimed: string, email: string)
    requires |email| <= 200
    ensures claimed != "" && |claimed| <= 200 && Trimmed(claimed, WHITESPACE) && (forall i :: 0 <= i < |claimed| ==> !Control(claimed[i])) ==>
              DisplayName(claimed, email) == claimed
    ensures Trim(WithoutControls(claimed), WHITESPACE) == "" ==> DisplayName(claimed, email) == email
  {
    if forall i :: 0 <= i < |claimed| ==> !Control(claimed[i]) {
      CleanStays(claimed);
      if Trimmed(claimed, WHITESPACE) {
        TrimmedStays(claimed, WHITESPACE);
      }
    }
  }

  lemma {:induction false} CleanStays(s: string)
    requires forall i :: 0 <= i < |s| ==> !Control(s[i])
    ensures WithoutControls(s) == s
  {
    if s != "" {
      CleanStays(s[1..]);
    }
  }

  /** `domains` answers the cached domain lookup (None for an error), `parses` is whether the mail parser
      reads the address back as it is, and `tx` what the transaction answers to `request` if it is run.
      It is run when the domain's tenant is enabled, is the requested one if any, does not have the user
      yet, has the flag set and a policy that allows the claims; what stops it short of a failed
      lookup leaves the user as found. The user's cache entry is dropped after every attempt, and
      only then. */
  method AutoAdd(user: Option<UserRecord>, email: string, provider: string, requested: string, claims: Claims,
                 parses: bool, domains: string -> Option<Option<DomainRow>>, cfg: Configs, organization: Organization,
                 tx: TxResult, userCache: TTLCache<Option<UserRecord>>)
    returns (request: Option<Enroll>, answer: Option<Option<UserRecord>>)
    requires userCache.Valid()
    modifies userCache
    ensures userCache.Valid()
    ensures request.Some? <==>
            && provider != "" && (provider == "google" ==> "hd" in claims && claims["hd"].Str? && claims["hd"].text != "")
            && parses && |email| <= 254
            && domains(EmailDomain(email)).Some? && domains(EmailDomain(email)).value.Some?
            && var row := domains(EmailDomain(email)).value.value;
               && row.enabled && (requested == "" || requested == row.slug) && (user.Some? ==> row.slug !in user.value.slugs)
               && cfg(row.slug, "auth:auto_add") == Found(Bool(true))
               && cfg(row.slug, "auth:providers").Found? && cfg(row.slug, "auth:checks:" + provider).Found?
               && EnrollmentAllowed(provider, cfg(row.slug, "auth:providers").value,
                                    cfg(row.slug, "auth:checks:" + provider).value, claims, organization)
    ensures request.Some? ==>
              var e := request.value;
              && e.email == email && e.name == DisplayName(StringClaim(claims, "name"), email)
              && e.domain == EmailDomain(email) && e.slug == domains(e.domain).value.value.slug && e.provider == provider
              && AuthorizesBy(e, claims, organization)
    ensures request.Some? ==> userCache.Contents() == Invalidated(old(userCache.Contents()), email)
    ensures request.Some? ==> answer == match tx { case TxUser(u) => Some(u) case TxDenied => Some(user) case TxFailed => None }
    ensures request.None? ==> unchanged(userCache) && (answer.None? || answer == Some(user))
    ensures request.None? ==>
              (answer.None? <==>
               && provider != "" && (provider == "google" ==> "hd" in claims && claims["hd"].Str? && claims["hd"].text != "")
               && parses && |email| <= 254
               && (domains(EmailDomain(email)).None? ||
                   (&& domains(EmailDomain(email)).value.Some?
                    && var row := domains(EmailDomain(email)).value.value;
                       && row.enabled && (requested == "" || requested == row.slug) && (user.Some? ==> row.slug !in user.value.slugs)
                       && (cfg(row.slug, "auth:auto_add").LookupError? ||
                           (cfg(row.slug, "auth:auto_add") == Found(Bool(true)) &&
                            (cfg(row.slug, "auth:providers").LookupError? || cfg(row.slug, "auth:checks:" + provider).LookupError?))))))
  {
    if provider == "" || (provider == GOOGLE && StringClaim(claims, HD) == "") {
      return None, Some(user);
    }
    if !parses || |email| > 254 {
      return None, Some(user);
    }
    var domain := EmailDomain(email);
    var tenant := domains(domain);
    if tenant.None? {
      return None, None;
    }
    if tenant.value.None? || !tenant.value.value.enabled {
      return None, Some(user);
    }
    var slug := tenant.value.value.slug;
    if (requested != "" && requested != slug) || (user.Some? && slug in user.value.slugs) {
      return None, Some(user);
    }
    var flag := cfg(slug, AUTO_ADD);
    if flag.LookupError? {
      return None, None;
    }
    if flag.value != Bool(true) {
      return None, Some(user);
    }
    var providers := cfg(slug, PROVIDERS);
    if providers.LookupError? {
      return None, None;
    }
    var checks := cfg(slug, ChecksKey(provider));
    if checks.LookupError? {
      return None, None;
    }
    var allowed := AutoAddAllowed(provider, providers.value, checks.value, claims, organization);
    if !allowed {
      return None, Some(user);
    }
    var authorize := (newProviders, newChecks) => EnrollmentAllowed(provider, newProviders, newChecks, claims, organization);
    request := Some(Enroll(email, DisplayName(StringClaim(claims, "name"), email), domain, slug, provider, authorize));
    userCache.Invalidate(email);
    match tx {
      case TxUser(u) => answer := Some(u);
      case TxDenied => answer := Some(user);
      case TxFailed => answer := None;
    }
  }

  // ---- enrolled means admitted -----------------------------------------------

  /** `row` is what getUserWithTenants reads of user `u`: one entry per enabled membership, in some
      order, with that membership's overrides. */
  ghost predicate ReadsUser(d: Registry, u: Id, row: UserRecord) {
    && u in d.users && row.enabled == d.users[u].enabled
    && row.defaultTenant == (match d.users[u].defaultTenant case None => "" case Some(slug) => slug)
    && (forall slug :: slug in row.slugs <==> EnabledMember(d, u, slug))
    && (forall slug :: slug in row.checks <==> EnabledMember(d, u, slug))
    && (forall t :: (u, t) in d.members && t in d.tenants && d.tenants[t].slug in row.checks ==>
          row.checks[d.tenants[t].slug] == d.members[(u, t)])
  }

  /** The config cache answers from this registry. */
  ghost predicate ReadsConfig(d: Registry, cfg: Configs) {
    forall slug, key :: cfg(slug, key) == Found(ConfigValue(d, slug, key))
  }

  /** The authorize callback autoAdd passes to the transaction. */
  ghost predicate AuthorizesBy(e: Enroll, claims: Claims, organization: Organization) {
    forall providers, checks :: e.authorize(providers, checks) == EnrollmentAllowed(e.provider, providers, checks, claims, organization)
  }

  /** An attempt that the transaction allowed: it enrolled the user, or found the user enrolled, as a
      sign-in that lost the race does, and left everything as it was. */
  ghost predicate Allowed(db: Db, e: Enroll, user: Id, end: Db) {
    || AtomicEnroll(db, e, user) == Some(end)
    || (end == db && Eligible(db.data, e) && Enrolled(db.data, e) && FindUser(db.data, e.email) == Some(user))
  }

  /** What the attempt leaves: the membership in force under the policy that allowed it, and without
      overrides if it is new. */
  lemma AllowedLeaves(db: Db, e: Enroll, user: Id, end: Db, t: Id)
    requires SchemaOk(db.data) && Allowed(db, e, user, end) && DomainTenant(db.data, e.domain) == Some(t)
    ensures (user, t) in end.data.members && t in end.data.tenants && end.data.tenants[t].slug == e.slug
    ensures EnabledMember(end.data, user, e.slug) && end.data.config == db.data.config
    ensures AtomicEnroll(db, e, user) == Some(end) ==> end.data.members[(user, t)] == map[]
    ensures e.authorize(ConfigValue(end.data, e.slug, PROVIDERS), ConfigValue(end.data, e.slug, ChecksKey(e.provider)))
  {
    if AtomicEnroll(db, e, user) == Some(end) {
      EnrollmentFrame(db, e, user);
    } else {
      var s :| (user, s) in db.data.members && s in db.data.tenants && db.data.tenants[s].slug == e.slug;
      SlugNamesTenant(db.data, e.slug, s);
      SlugNamesTenant(db.data, e.slug, t);
    }
  }

  /** The member's own overrides for the provider, if any, hold of the claims along with the rest of
      the tenant's rules. */
  predicate OverridesAdmit(overrides: Overrides, provider: string, rules: Claims, claims: Claims) {
    provider in overrides ==>
      overrides[provider] != map[] && TenantChecksHold(provider, rules + overrides[provider], claims, true)
  }

  /** The tenant admits its member by the rules that allowed the attempt, unless the member's own
      overrides, which a new membership has none of, refuse. */
  lemma EnrolledTenantPasses(db: Db, e: Enroll, user: Id, end: Db, t: Id, claims: Claims, organization: Organization,
                             row: UserRecord, cfg: Configs)
    requires SchemaOk(db.data) && AuthorizesBy(e, claims, organization)
    requires Allowed(db, e, user, end) && DomainTenant(db.data, e.domain) == Some(t)
    requires ReadsUser(end.data, user, row) && ReadsConfig(end.data, cfg)
    ensures e.provider != "" && e.slug in row.slugs && (user, t) in end.data.members
    ensures Passes(e.slug, e.provider, claims, row.checks, cfg) <==>
            OverridesAdmit(end.data.members[(user, t)], e.provider, Rules(ConfigValue(end.data, e.slug, ChecksKey(e.provider))), claims)
    ensures AtomicEnroll(db, e, user) == Some(end) ==> end.data.members[(user, t)] == map[]
  {
    AllowedLeaves(db, e, user, end, t);
    var providers, checks := ConfigValue(end.data, e.slug, PROVIDERS), ConfigValue(end.data, e.slug, ChecksKey(e.provider));
    assert cfg(e.slug, PROVIDERS) == Found(providers);
    assert cfg(e.slug, ChecksKey(e.provider)) == Found(checks);
    assert EnrollmentAllowed(e.provider, providers, checks, claims, organization);
    EnrollmentImpliesMembership(e.provider, providers, checks, claims, organization);
    assert row.checks[e.slug] == end.data.members[(user, t)];
  }

  /** A candidate that passes is permitted. */
  lemma PassingIsPermitted(row: UserRecord, slug: string, provider: string, claims: Claims, cfg: Configs)
    requires provider != "" && slug in row.slugs && Passes(slug, provider, claims, row.checks, cfg)
    ensures var permitted := Permitted(row, provider, claims, cfg);
            permitted != [] && slug in Slugs(permitted) && NamesSlug(permitted, slug)
  {
    var i :| 0 <= i < |row.slugs| && row.slugs[i] == slug;
    var candidate := Candidates(row)[i];
    KeptAre(Candidates(row), provider, claims, row.checks, cfg, candidate);
    var permitted := Permitted(row, provider, claims, cfg);
    var j :| 0 <= j < |permitted| && permitted[j] == candidate;
    assert Slugs(permitted)[j] == slug;
  }

  lemma NotPassingIsNotPermitted(row: UserRecord, slug: string, provider: string, claims: Claims, cfg: Configs)
    requires provider != "" && !Passes(slug, provider, claims, row.checks, cfg)
    ensures slug !in Slugs(Permitted(row, provider, claims, cfg))
  {
    var permitted := Permitted(row, provider, claims, cfg);
    SlugsHold(permitted, slug);
    forall i | 0 <= i < |permitted| ensures permitted[i].slug != slug {
      KeptAre(Candidates(row), provider, claims, row.checks, cfg, permitted[i]);
    }
  }

  /** The sign-in around the attempt: it got as far as consulting autoAdd, which answered with the
      user's row as the transaction left it, and its configuration reads find that policy. */
  ghost predicate AskedFor(env: Env, email: string, requested: string, slug: string, end: Registry, user: Id, row: UserRecord) {
    && env.gateOpen && '@' in email
    && env.user.Some? && (env.user.value.Some? ==> env.user.value.value.enabled)
    && NeedsAutoAdd(env.user.value, requested) && (requested == "" || requested == slug)
    && env.autoAdd == Some(Some(row))
    && ReadsUser(end, user, row) && ReadsConfig(end, env.cfg)
  }

  /** What Resolve makes of an allowed attempt, with the policy unchanged since: the tenant is among the
      identity's exactly when the member's own overrides admit the claims. A new member has none, so
      the sign-in that enrolls ends in an identity for that tenant; and so does one that lost the race
      to it. The tenant is the default when it was requested, or when the user is new. */
  lemma EnrollmentImpliesAdmission(db: Db, e: Enroll, user: Id, end: Db, t: Id, claims: Claims, organization: Organization,
                                   row: UserRecord, env: Env, email: string, requested: string, out: Outcome)
    requires SchemaOk(db.data) && AuthorizesBy(e, claims, organization)
    requires Allowed(db, e, user, end) && DomainTenant(db.data, e.domain) == Some(t)
    requires AskedFor(env, email, requested, e.slug, end.data, user, row)
    requires RightOutcome(env, email, requested, e.provider, claims, out)
    ensures (user, t) in end.data.members
    ensures var admit := OverridesAdmit(end.data.members[(user, t)], e.provider,
                                        Rules(ConfigValue(end.data, e.slug, ChecksKey(e.provider))), claims);
            && (admit ==> out.Identity?)
            && (out.Identity? ==> (e.slug in Slugs(out.tenants) <==> admit))
    ensures AtomicEnroll(db, e, user) == Some(end) || e.provider !in end.data.members[(user, t)] ==>
              && out.Identity? && e.slug in Slugs(out.tenants)
              && (requested != "" ==> out.defaultTenant == e.slug)
              && (AtomicEnroll(db, e, user) == Some(end) && FindUser(db.data, e.email).None? && e.slug != "" ==>
                    out.defaultTenant == e.slug)
  {
    EnrolledTenantPasses(db, e, user, end, t, claims, organization, row, env.cfg);
    if Passes(e.slug, e.provider, claims, row.checks, env.cfg) {
      PassingIsPermitted(row, e.slug, e.provider, claims, env.cfg);
    } else {
      NotPassingIsNotPermitted(row, e.slug, e.provider, claims, env.cfg);
    }
    if AtomicEnroll(db, e, user) == Some(end) && FindUser(db.data, e.email).None? {
      EnrollmentFrame(db, e, user);
      assert row.defaultTenant == e.slug;
    }
  }

  /** A registered Google member without a hosted domain is admitted to a tenant whose hd rule has the
      blank option and whose other rules hold. */
  lemma UnhostedMemberIsAdmitted(user: UserRecord, slug: string, rules: Claims, env: Env, email: string, requested: string,
                                 claims: Claims, out: Outcome)
    requires env.gateOpen && '@' in email && env.user == Some(Some(user)) && user.enabled
    requires slug in user.slugs && (requested == "" || requested == slug)
    requires NeedsAutoAdd(Some(user), requested) ==> env.autoAdd == env.user
    requires env.cfg(slug, "auth:providers").Found?
    requires var list := env.cfg(slug, "auth:providers").value; !list.List? || list.items == [] || Str("google") in list.items
    requires env.cfg(slug, "auth:checks:google") == Found(Map(rules)) && !(slug in user.checks && "google" in user.checks[slug])
    requires "hd" !in claims || claims["hd"] == Str("")
    requires "hd" in rules && (rules["hd"] == Str("") || (rules["hd"].List? && Str("") in rules["hd"].items))
    requires forall key :: key in rules && key != "hd" ==> RuleHolds(rules, claims, key)
    requires RightOutcome(env, email, requested, "google", claims, out)
    ensures out.Identity? && slug in Slugs(out.tenants)
  {
    assert ChecksKey("google") == "auth:checks:google";
    assert Passes(slug, "google", claims, user.checks, env.cfg);
    PassingIsPermitted(user, slug, "google", claims, env.cfg);
  }
}
