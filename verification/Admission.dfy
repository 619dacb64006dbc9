/**
 The claim-check language of internal/resolver: what each rule demands, and the loops that
 evaluate it, over claims and configured values of any type and in any map order.
 */
module Admission {
  import opened Values

  // ---- the rules, declaratively ---------------------------------------------

  /** A list demands one of its strings, a string demands itself, anything else is unsatisfiable. */
  predicate Matches(want: Any, got: Any) {
    match want
    case List(options) => got.Str? && got.text != "" && got in options
    case Str(_) => got == want
    case _ => false
  }

  predicate RuleHolds(checks: Claims, claims: Claims, key: string)
    requires key in checks
  {
    key in claims && Matches(checks[key], claims[key])
  }

  predicate ChecksHold(checks: Claims, claims: Claims) {
    forall key :: key in checks ==> RuleHolds(checks, claims, key)
  }

  const HD := "hd"
  const TID := "tid"
  const GOOGLE := "google"

  /** The account names no hosted domain: the claim is missing or the empty string. */
  predicate Unhosted(claims: Claims) {
    HD !in claims || claims[HD] == Str("")
  }

  predicate AllowsBlank(want: Any) {
    want == Str("") || (want.List? && Str("") in want.items)
  }

  /** One rule of a tenant: the blank `hd` option admits unhosted Google accounts that are
      registered members, and nobody else; every other rule is an ordinary one. */
  predicate TenantRuleHolds(provider: string, checks: Claims, claims: Claims, member: bool, key: string)
    requires key in checks
  {
    if provider == GOOGLE && key == HD && Unhosted(claims)
    then member && AllowsBlank(checks[key])
    else RuleHolds(checks, claims, key)
  }

  predicate TenantChecksHold(provider: string, checks: Claims, claims: Claims, member: bool) {
    forall key :: key in checks ==> TenantRuleHolds(provider, checks, claims, member, key)
  }

  predicate ListAllows(provider: string, raw: Any) {
    !raw.List? || raw.items == [] || Str(provider) in raw.items
  }

  function StringClaim(claims: Claims, key: string): string {
    if key in claims && claims[key].Str? then claims[key].text else ""
  }

  // ---- the evaluator -------------------------------------------------------

  method EvaluateChecks(checks: Claims, claims: Claims) returns (ok: bool)
    ensures ok <==> ChecksHold(checks, claims)
    ensures ok <==> forall key :: key in checks ==>
              key in claims &&
              if checks[key].List? then claims[key].Str? && claims[key].text != "" && claims[key] in checks[key].items
              else checks[key].Str? && claims[key] == checks[key]
  {
    var remaining := checks.Keys;
    while remaining != {}
      invariant remaining <= checks.Keys
      invariant forall key :: key in checks && key !in remaining ==> RuleHolds(checks, claims, key)
      decreases |remaining|
    {
      var key :| key in remaining;
      if key !in claims {
        assert !RuleHolds(checks, claims, key);
        return false;
      }
      match checks[key] {
        case List(options) =>
          var text := if claims[key].Str? then claims[key].text else "";
          if text == "" {
            assert !RuleHolds(checks, claims, key);
            return false;
          }
          var found := ContainsString(options, text);
          if !found {
            assert !RuleHolds(checks, claims, key);
            return false;
          }
        case Str(text) =>
          if claims[key] != Str(text) {
            assert !RuleHolds(checks, claims, key);
            return false;
          }
        case _ =>
          assert !RuleHolds(checks, claims, key);
          return false;
      }
      remaining := remaining - {key};
    }
    return true;
  }

  method ContainsString(options: seq<Any>, text: string) returns (found: bool)
    ensures found <==> Str(text) in options
  {
    found := false;
    for i := 0 to |options|
      invariant !found && Str(text) !in options[..i]
    {
      if options[i].Str? && options[i].text == text {
        return true;
      }
    }
  }

  method EvaluateTenantChecks(provider: string, checks: Claims, claims: Claims, member: bool) returns (ok: bool)
    ensures ok <==> TenantChecksHold(provider, checks, claims, member)
    ensures ok <==>
            if provider == "google" && "hd" in checks && ("hd" !in claims || claims["hd"] == Str("")) then
              && member && (checks["hd"] == Str("") || (checks["hd"].List? && Str("") in checks["hd"].items))
              && forall key :: key in checks && key != "hd" ==> RuleHolds(checks, claims, key)
            else forall key :: key in checks ==> RuleHolds(checks, claims, key)
  {
    if provider == GOOGLE && HD in checks {
      if HD !in claims || (claims[HD].Str? && claims[HD].text == "") {
        var want := checks[HD];
        var allowBlank := want == Str("");
        if want.List? {
          var listed := ContainsString(want.items, "");
          allowBlank := listed;
        }
        if !member || !allowBlank {
          assert !TenantRuleHolds(provider, checks, claims, member, HD);
          return false;
        }
        var remaining := checks - {HD};
        ok := EvaluateChecks(remaining, claims);
        UnhostedChecks(provider, checks, claims, member);
        return;
      }
    }
    ok := EvaluateChecks(checks, claims);
    OrdinaryChecks(provider, checks, claims, member);
  }

  /** For an admissible unhosted member, exactly the rules other than `hd` remain. */
  lemma UnhostedChecks(provider: string, checks: Claims, claims: Claims, member: bool)
    requires provider == GOOGLE && HD in checks && Unhosted(claims) && member && AllowsBlank(checks[HD])
    ensures ChecksHold(checks - {HD}, claims) <==> TenantChecksHold(provider, checks, claims, member)
  {
    if ChecksHold(checks - {HD}, claims) {
      forall key | key in checks ensures TenantRuleHolds(provider, checks, claims, member, key) {
        if key != HD {
          assert RuleHolds(checks - {HD}, claims, key);
        }
      }
    }
    if TenantChecksHold(provider, checks, claims, member) {
      forall key | key in checks - {HD} ensures RuleHolds(checks - {HD}, claims, key) {
        assert TenantRuleHolds(provider, checks, claims, member, key);
      }
    }
  }

  lemma OrdinaryChecks(provider: string, checks: Claims, claims: Claims, member: bool)
    requires !(provider == GOOGLE && HD in checks && Unhosted(claims))
    ensures ChecksHold(checks, claims) <==> TenantChecksHold(provider, checks, claims, member)
  {
  }

  /** What the blank option changes: it relaxes `hd` alone, for unhosted registered Google members. */
  lemma BlankOptionRelaxesHdOnly(provider: string, checks: Claims, claims: Claims, member: bool)
    requires TenantChecksHold(provider, checks, claims, member)
    ensures forall key :: key in checks && key != HD ==> RuleHolds(checks, claims, key)
    ensures HD in checks && !RuleHolds(checks, claims, HD) ==>
              provider == GOOGLE && member && Unhosted(claims) && AllowsBlank(checks[HD])
  {
  }

  /** Registration only ever widens what is admitted. */
  lemma MemberAdmitsMore(provider: string, checks: Claims, claims: Claims)
    requires TenantChecksHold(provider, checks, claims, false)
    ensures TenantChecksHold(provider, checks, claims, true)
  {
  }

  // ---- membership overrides --------------------------------------------------

  method CopyInto(base: Claims, source: Claims) returns (result: Claims)
    ensures result == base + source
  {
    result := base;
    var remaining := source.Keys;
    while remaining != {}
      invariant remaining <= source.Keys
      invariant result.Keys == base.Keys + (source.Keys - remaining)
      invariant forall key :: key in result ==>
                  result[key] == if key in source && key !in remaining then source[key] else base[key]
      decreases |remaining|
    {
      var key :| key in remaining;
      result := result[key := source[key]];
      remaining := remaining - {key};
    }
  }

  /** The rules of one member: the copy starts from the tenant's and takes each override. */
  method MergeOverrides(checks: Claims, overrides: Claims) returns (merged: Claims)
    ensures merged == checks + overrides
  {
    merged := CopyInto(map[], checks);
    assert map[] + checks == checks;
    merged := CopyInto(merged, overrides);
  }

  /** An override replaces the rule of its own claim and no other: the member must satisfy every
      override, and every tenant rule that is not overridden. */
  lemma OverridesReplaceOnlyTheirClaims(provider: string, checks: Claims, overrides: Claims, claims: Claims, member: bool)
    ensures (checks + overrides).Keys == checks.Keys + overrides.Keys
    ensures TenantChecksHold(provider, checks + overrides, claims, member) <==>
            TenantChecksHold(provider, overrides, claims, member) &&
            TenantChecksHold(provider, checks - overrides.Keys, claims, member)
  {
    var merged, rest := checks + overrides, checks - overrides.Keys;
    if TenantChecksHold(provider, merged, claims, member) {
      forall key | key in overrides ensures TenantRuleHolds(provider, overrides, claims, member, key) {
        assert TenantRuleHolds(provider, merged, claims, member, key);
      }
      forall key | key in rest ensures TenantRuleHolds(provider, rest, claims, member, key) {
        assert TenantRuleHolds(provider, merged, claims, member, key);
      }
    }
    if TenantChecksHold(provider, overrides, claims, member) && TenantChecksHold(provider, rest, claims, member) {
      forall key | key in merged ensures TenantRuleHolds(provider, merged, claims, member, key) {
        if key in overrides {
          assert TenantRuleHolds(provider, overrides, claims, member, key);
        } else {
          assert TenantRuleHolds(provider, rest, claims, member, key);
        }
      }
    }
  }

  // ---- automatic enrollment ------------------------------------------------

  /** Parsing and excluding tenant ids is the caller's: does this text name an organization? */
  type Organization = string -> bool

  predicate ProvidersWellFormed(provider: string, providers: Any) {
    providers == Nil ||
    (providers.List? && (forall i :: 0 <= i < |providers.items| ==> providers.items[i].Str? && providers.items[i].text != "") &&
     (providers.items == [] || Str(provider) in providers.items))
  }

  /** The claim that carries organization authority for a provider, if the provider has one. */
  function AuthorityClaim(provider: string): Option<string> {
    if provider == GOOGLE then Some(HD)
    else if provider == "azure" || provider == "entra" || provider == "microsoft" then Some(TID)
    else None
  }

  predicate HasAuthority(provider: string, claims: Claims, organization: Organization) {
    if provider == GOOGLE
    then "email_verified" in claims && claims["email_verified"] == Bool(true)
    else organization(StringClaim(claims, TID))
  }

  predicate EnrollmentAllowed(provider: string, providers: Any, raw: Any, claims: Claims, organization: Organization) {
    && ProvidersWellFormed(provider, providers)
    && raw.Map?
    && AuthorityClaim(provider).Some?
    && HasAuthority(provider, claims, organization)
    && StringClaim(claims, AuthorityClaim(provider).value) != ""
    && AuthorityClaim(provider).value in raw.entries
    && TenantChecksHold(provider, raw.entries, claims, false)
  }

  method AutoAddAllowed(provider: string, providers: Any, raw: Any, claims: Claims, organization: Organization) returns (ok: bool)
    ensures ok <==> EnrollmentAllowed(provider, providers, raw, claims, organization)
    ensures ok <==>
            && (providers == Nil ||
                (&& providers.List?
                 && (forall i :: 0 <= i < |providers.items| ==> providers.items[i].Str? && providers.items[i].text != "")
                 && (providers.items == [] || Str(provider) in providers.items)))
            && (if provider == "google" then "email_verified" in claims && claims["email_verified"] == Bool(true)
                else provider in {"azure", "entra", "microsoft"} &&
                     "tid" in claims && claims["tid"].Str? && organization(claims["tid"].text))
            && var key := if provider == "google" then "hd" else "tid";
               && key in claims && claims[key].Str? && claims[key].text != ""
               && raw.Map? && key in raw.entries && TenantChecksHold(provider, raw.entries, claims, false)
  {
    if providers != Nil {
      if !providers.List? {
        return false;
      }
      var list := providers.items;
      var found := |list| == 0;
      for i := 0 to |list|
        invariant forall j :: 0 <= j < i ==> list[j].Str? && list[j].text != ""
        invariant found <==> |list| == 0 || Str(provider) in list[..i]
      {
        if !list[i].Str? || list[i].text == "" {
          return false;
        }
        found := found || list[i].text == provider;
      }
      assert list[..|list|] == list;
      if !found {
        return false;
      }
    }
    if !raw.Map? {
      return false;
    }
    var key;
    if provider == GOOGLE {
      if "email_verified" !in claims || claims["email_verified"] != Bool(true) {
        return false;
      }
      key := HD;
    } else if provider == "azure" || provider == "entra" || provider == "microsoft" {
      if !organization(StringClaim(claims, TID)) {
        return false;
      }
      key := TID;
    } else {
      return false;
    }
    if StringClaim(claims, key) == "" || key !in raw.entries {
      return false;
    }
    ok := EvaluateTenantChecks(provider, raw.entries, claims, false);
  }

  /** What enrollment rests on: the claim that carries authority is a nonempty string, and an
      explicitly configured rule names it. A blank `hd` option never does. */
  lemma EnrollmentNamesTheOrganization(provider: string, providers: Any, raw: Any, claims: Claims, organization: Organization)
    requires EnrollmentAllowed(provider, providers, raw, claims, organization)
    ensures var key := AuthorityClaim(provider).value;
            && key in claims && claims[key].Str? && claims[key].text != ""
            && (raw.entries[key] == claims[key] || (raw.entries[key].List? && claims[key] in raw.entries[key].items))
    ensures ChecksHold(raw.entries, claims)
  {
  }

  /** Whoever may enroll is then admitted as a member by the same provider list and rules. */
  lemma EnrollmentImpliesMembership(provider: string, providers: Any, raw: Any, claims: Claims, organization: Organization)
    requires EnrollmentAllowed(provider, providers, raw, claims, organization)
    ensures ListAllows(provider, providers) && TenantChecksHold(provider, raw.entries, claims, true)
  {
  }
}
