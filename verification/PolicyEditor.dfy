/**
 The dashboard's structured policy editor (web/src/policy.ts and the form in web/src/TenantEditor.tsx):
 the Entra tenant ids and Google hosted domains of a policy become text fields, and are laid back over
 its checks on save. A provider the editor clears (null) is one with no rules.
 */
module PolicyEditor {
  import opened Values
  import opened Text
  import opened Splitting
  import opened Lines
  import opened ConfigKeys
  import opened Admission
  import opened Resolver
  import opened PolicyStore
  import opened Validation

  type Checks = map<string, Claims>

  const AZURE := "azure"

  // ---- reading the fields --------------------------------------------------

  /** string | string[] */
  predicate Typed(value: Any) {
    value.Str? || (value.List? && AllStrings(value.items))
  }

  function Options(value: Any): seq<string>
    requires Typed(value)
  {
    if value.Str? then [value.text] else Texts(value.items)
  }

  datatype HostedDomains = HostedDomains(restricted: bool, domains: string, allowUnhosted: bool)

  /** None is the error for a value that is neither a string nor a list of strings. */
  function ReadHostedDomains(value: Option<Any>): Option<HostedDomains> {
    match value
    case None => Some(HostedDomains(false, "", false))
    case Some(v) =>
      if Typed(v) then Some(HostedDomains(true, Join(NonBlank(Options(v)), NEWLINE), "" in Options(v))) else None
  }

  /** An unset rule and null both show an empty field. */
  function ReadTenantIds(value: Option<Any>): string
    requires value.Some? ==> Typed(value.value) || value.value == Nil
  {
    if value.None? || value.value == Nil then "" else Join(Options(value.value), NEWLINE)
  }

  // ---- laying them back over the checks --------------------------------------

  function RulesOf(checks: Checks, provider: string): Claims {
    if provider in checks then checks[provider] else map[]
  }

  function RuleOf(checks: Checks, provider: string, key: string): Option<Any> {
    if key in RulesOf(checks, provider) then Some(RulesOf(checks, provider)[key]) else None
  }

  function Field(options: seq<string>): Any {
    List(Strings(options))
  }

  function TenantIdRule(field: string): Option<Any> {
    if Parse(field) == [] then None else Some(Field(Parse(field)))
  }

  function HostedDomainRule(google: HostedDomains): Option<Any> {
    if !google.restricted then None
    else Some(Field(HostedOptions(Dedup(Parse(google.domains)), google.allowUnhosted)))
  }

  function WithRule(rules: Claims, key: string, value: Option<Any>): Claims {
    if value.Some? then rules[key := value.value] else rules - {key}
  }

  function Overlay(checks: Checks, azure: string, google: HostedDomains): Checks {
    var first := checks[AZURE := WithRule(RulesOf(checks, AZURE), TID, TenantIdRule(azure))];
    first[GOOGLE := WithRule(RulesOf(first, GOOGLE), HD, HostedDomainRule(google))]
  }

  method Update(result: Checks, provider: string, key: string, value: Option<Any>) returns (updated: Checks)
    ensures updated == result[provider := WithRule(RulesOf(result, provider), key, value)]
  {
    var entry: Claims := map[];
    if provider in result {
      entry := result[provider];
    }
    if value.None? {
      entry := entry - {key};
    } else {
      entry := entry[key := value.value];
    }
    updated := result[provider := entry];
  }

  method OverlayClaims(checks: Checks, azure: string, google: HostedDomains) returns (result: Checks)
    ensures result == Overlay(checks, azure, google)
  {
    result := checks;
    var tids := Parse(azure);
    result := Update(result, AZURE, TID, if |tids| > 0 then Some(Field(tids)) else None);
    var domains := Dedup(Parse(google.domains));
    assert domains + [] == domains;
    if google.allowUnhosted {
      domains := domains + [""];
    }
    result := Update(result, GOOGLE, HD, if google.restricted then Some(Field(domains)) else None);
  }

  /** What an overlay touches. */
  lemma OverlayFrame(checks: Checks, azure: string, google: HostedDomains)
    ensures var end := Overlay(checks, azure, google);
            && RulesOf(end, AZURE) == WithRule(RulesOf(checks, AZURE), TID, TenantIdRule(azure))
            && RulesOf(end, GOOGLE) == WithRule(RulesOf(checks, GOOGLE), HD, HostedDomainRule(google))
            && (forall p :: p != AZURE && p != GOOGLE ==> RulesOf(end, p) == RulesOf(checks, p))
            && end.Keys == checks.Keys + {AZURE, GOOGLE}
  {
  }

  /** What typed fields become: the ids listed, or no rule when there is none; and the distinct domains
      listed with the blank option, or no rule when hosted domains are not restricted. */
  lemma OverlaySets(checks: Checks, ids: seq<string>, restricted: bool, domains: seq<string>, allowUnhosted: bool)
    requires AllPlain(ids) && AllPlain(domains)
    ensures var end := Overlay(checks, Join(ids, NEWLINE), HostedDomains(restricted, Join(domains, NEWLINE), allowUnhosted));
            && (if ids == [] then RuleOf(end, "azure", "tid") == None
                else RuleOf(end, "azure", "tid").Some? && RuleOf(end, "azure", "tid").value.List?
                     && RuleOf(end, "azure", "tid").value.items == Strings(ids))
            && (if !restricted then RuleOf(end, "google", "hd") == None
                else
                  && RuleOf(end, "google", "hd").Some? && RuleOf(end, "google", "hd").value.List?
                  && (forall option :: option in RuleOf(end, "google", "hd").value.items <==>
                        option.Str? && (option.text in domains || (allowUnhosted && option.text == ""))))
  {
    var google := HostedDomains(restricted, Join(domains, NEWLINE), allowUnhosted);
    OverlayFrame(checks, Join(ids, NEWLINE), google);
    ParseJoin(ids);
    ParseJoin(domains);
    if restricted {
      FieldMembers(HostedOptions(Dedup(domains), allowUnhosted));
    }
  }

  lemma FieldMembers(options: seq<string>)
    ensures forall option :: option in Strings(options) <==> option.Str? && option.text in options
  {
    forall option ensures option in Strings(options) <==> option.Str? && option.text in options {
      if option.Str? && option.text in options {
        var i :| 0 <= i < |options| && options[i] == option.text;
        assert Strings(options)[i] == option;
      }
    }
  }

  // ---- the editor is a fixpoint of itself ------------------------------------

  lemma TenantIdsReread(field: string)
    ensures TenantIdRule(field).Some? ==> Typed(TenantIdRule(field).value)
    ensures TenantIdRule(ReadTenantIds(TenantIdRule(field))) == TenantIdRule(field)
  {
    ParseIsPlain(field);
    ParseJoin(Parse(field));
    if TenantIdRule(field).Some? {
      FieldOptions(Parse(field));
    } else {
      ParseJoin([]);
    }
  }

  lemma FieldOptions(options: seq<string>)
    ensures Typed(Field(options)) && Options(Field(options)) == options
  {
  }

  function HostedOptions(domains: seq<string>, allowUnhosted: bool): seq<string> {
    domains + if allowUnhosted then [""] else []
  }

  lemma NamedDomains(domains: seq<string>, allowUnhosted: bool)
    requires "" !in domains
    ensures NonBlank(HostedOptions(domains, allowUnhosted)) == domains
    ensures "" in HostedOptions(domains, allowUnhosted) <==> allowUnhosted
  {
    NonBlankStays(domains);
    assert (domains + [""])[..|domains|] == domains;
    assert domains + [] == domains;
  }

  /** Distinct plain domains, and the blank option, survive the fields. */
  lemma DomainsReread(domains: seq<string>, allowUnhosted: bool)
    requires AllPlain(domains) && Distinct(domains) && "" !in domains
    ensures var value := Field(HostedOptions(domains, allowUnhosted));
            Typed(value) && ReadHostedDomains(Some(value)) == Some(HostedDomains(true, Join(domains, NEWLINE), allowUnhosted))
    ensures HostedDomainRule(HostedDomains(true, Join(domains, NEWLINE), allowUnhosted)) ==
            Some(Field(HostedOptions(domains, allowUnhosted)))
  {
    FieldOptions(HostedOptions(domains, allowUnhosted));
    NamedDomains(domains, allowUnhosted);
    ParseJoin(domains);
    DedupOnce(domains);
  }

  lemma HostedDomainsReread(google: HostedDomains)
    ensures HostedDomainRule(google).Some? ==> Typed(HostedDomainRule(google).value)
    ensures ReadHostedDomains(HostedDomainRule(google)).Some?
    ensures HostedDomainRule(ReadHostedDomains(HostedDomainRule(google)).value) == HostedDomainRule(google)
  {
    if google.restricted {
      ParseIsPlain(google.domains);
      DedupIsPlain(Parse(google.domains));
      DomainsReread(Dedup(Parse(google.domains)), google.allowUnhosted);
    }
  }

  lemma DedupIsPlain(list: seq<string>)
    requires AllPlain(list)
    ensures AllPlain(Dedup(list)) && "" !in Dedup(list)
  {
  }

  lemma OverlayFixed(checks: Checks, azure: string, google: HostedDomains)
    requires AZURE in checks && GOOGLE in checks
    requires RuleOf(checks, AZURE, TID) == TenantIdRule(azure)
    requires RuleOf(checks, GOOGLE, HD) == HostedDomainRule(google)
    ensures Overlay(checks, azure, google) == checks
  {
    assert WithRule(checks[AZURE], TID, TenantIdRule(azure)) == checks[AZURE];
    assert WithRule(checks[GOOGLE], HD, HostedDomainRule(google)) == checks[GOOGLE];
    assert checks[AZURE := checks[AZURE]] == checks;
  }

  /** Whatever was typed: opening the saved policy again and saving it untouched changes nothing. */
  lemma OverlayIsStable(checks: Checks, azure: string, google: HostedDomains)
    ensures var end := Overlay(checks, azure, google);
            var hd := ReadHostedDomains(RuleOf(end, GOOGLE, HD));
            && (RuleOf(end, AZURE, TID).Some? ==> Typed(RuleOf(end, AZURE, TID).value))
            && hd.Some?
            && Overlay(end, ReadTenantIds(RuleOf(end, AZURE, TID)), hd.value) == end
  {
    var end := Overlay(checks, azure, google);
    OverlayFrame(checks, azure, google);
    assert RuleOf(end, AZURE, TID) == TenantIdRule(azure);
    assert RuleOf(end, GOOGLE, HD) == HostedDomainRule(google);
    TenantIdsReread(azure);
    HostedDomainsReread(google);
    OverlayFixed(end, ReadTenantIds(TenantIdRule(azure)), ReadHostedDomains(HostedDomainRule(google)).value);
  }

  // ---- an untouched editor and the verdict -----------------------------------

  /** The values of a rule the fields can carry: the blank option, and plain ones. */
  predicate Carried(value: Option<Any>) {
    value.Some? ==> Typed(value.value) && forall s :: s in Options(value.value) ==> Plain(s)
  }

  /** Rules that hold of the same claims. */
  ghost predicate SameVerdict(provider: string, a: Claims, b: Claims) {
    forall claims, member :: TenantChecksHold(provider, a, claims, member) <==> TenantChecksHold(provider, b, claims, member)
  }

  /** Typed rules differ only in their options, and a blank option never matches an ordinary claim. */
  lemma MatchesOption(value: Any, got: Any)
    requires Typed(value)
    ensures got != Str("") ==> (Matches(value, got) <==> got.Str? && got.text in Options(value))
    ensures AllowsBlank(value) <==> "" in Options(value)
  {
  }

  /** One rule of a provider, apart from the others. */
  predicate RuleAdmits(provider: string, key: string, value: Any, claims: Claims, member: bool) {
    TenantRuleHolds(provider, map[key := value], claims, member, key)
  }

  /** The edited rule, possibly gone, admits what the stored one does. */
  ghost predicate SameRule(provider: string, key: string, value: Any, next: Option<Any>) {
    forall claims, member ::
      RuleAdmits(provider, key, value, claims, member) <==>
      (next.Some? ==> RuleAdmits(provider, key, next.value, claims, member))
  }

  lemma ChecksSplit(provider: string, rules: Claims, key: string, claims: Claims, member: bool)
    requires key in rules
    ensures TenantChecksHold(provider, rules, claims, member) <==>
            RuleAdmits(provider, key, rules[key], claims, member) && TenantChecksHold(provider, rules - {key}, claims, member)
  {
    var rest := rules - {key};
    if TenantChecksHold(provider, rules, claims, member) {
      assert TenantRuleHolds(provider, rules, claims, member, key);
      forall k | k in rest ensures TenantRuleHolds(provider, rest, claims, member, k) {
        assert TenantRuleHolds(provider, rules, claims, member, k);
      }
    }
    if RuleAdmits(provider, key, rules[key], claims, member) && TenantChecksHold(provider, rest, claims, member) {
      forall k | k in rules ensures TenantRuleHolds(provider, rules, claims, member, k) {
        if k != key {
          assert TenantRuleHolds(provider, rest, claims, member, k);
        }
      }
    }
  }

  lemma EditSplit(provider: string, rules: Claims, key: string, next: Option<Any>, claims: Claims, member: bool)
    requires key in rules
    ensures TenantChecksHold(provider, WithRule(rules, key, next), claims, member) <==>
            (next.Some? ==> RuleAdmits(provider, key, next.value, claims, member)) &&
            TenantChecksHold(provider, rules - {key}, claims, member)
  {
    if next.Some? {
      var edited := rules[key := next.value];
      ChecksSplit(provider, edited, key, claims, member);
      assert edited - {key} == rules - {key};
    }
  }

  /** Some claim value satisfies the rule. */
  predicate SatisfiableRule(value: Any) {
    value.Str? || (value.List? && exists option :: option in value.items && option.Str? && option.text != "")
  }

  predicate Satisfiable(rules: Claims) {
    forall key :: key in rules ==> SatisfiableRule(rules[key])
  }

  lemma MatchesSome(value: Any) returns (got: Any)
    requires SatisfiableRule(value)
    ensures Matches(value, got)
  {
    if value.Str? {
      got := value;
    } else {
      got :| got in value.items && got.Str? && got.text != "";
    }
  }

  /** Ordinary satisfiable rules are satisfied together. */
  lemma SatisfiedTogether(provider: string, rules: Claims) returns (claims: Claims)
    requires Satisfiable(rules) && (provider == GOOGLE ==> HD !in rules)
    ensures claims.Keys == rules.Keys && forall key :: key in rules ==> RuleHolds(rules, claims, key)
  {
    claims := map[];
    var remaining := rules.Keys;
    while remaining != {}
      invariant remaining <= rules.Keys
      invariant claims.Keys == rules.Keys - remaining
      invariant forall key :: key in claims ==> Matches(rules[key], claims[key])
      decreases |remaining|
    {
      var key :| key in remaining;
      var got := MatchesSome(rules[key]);
      claims := claims[key := got];
      remaining := remaining - {key};
    }
  }

  lemma Unsatisfied(provider: string, rules: Claims, claims: Claims, member: bool)
    requires !Satisfiable(rules) && (provider == GOOGLE ==> HD !in rules)
    ensures !TenantChecksHold(provider, rules, claims, member)
  {
    var key :| key in rules && !SatisfiableRule(rules[key]);
    assert !TenantRuleHolds(provider, rules, claims, member, key);
  }

  /** A claims map on which the rules but for `key` hold, and which is `claims` at `key`. */
  lemma ApartFrom(provider: string, rules: Claims, key: string, claims: Claims, member: bool) returns (full: Claims)
    requires key in rules && Satisfiable(rules - {key}) && (provider == GOOGLE ==> key == HD || HD !in rules)
    ensures TenantChecksHold(provider, rules - {key}, full, member)
    ensures (key in full <==> key in claims) && (key in claims ==> full[key] == claims[key])
  {
    var rest := rules - {key};
    var others := SatisfiedTogether(provider, rest);
    full := if key in claims then others[key := claims[key]] else others;
    forall k | k in rest ensures TenantRuleHolds(provider, rest, full, member, k) {
      assert RuleHolds(rest, others, k);
    }
  }

  /** Editing one rule keeps the verdict for every claims map exactly when the rule admits what it
      did, or the other rules can never hold. */
  lemma EditedRule(provider: string, rules: Claims, key: string, next: Option<Any>)
    requires key in rules && (provider == GOOGLE ==> key == HD || HD !in rules)
    ensures SameVerdict(provider, rules, WithRule(rules, key, next)) <==>
            SameRule(provider, key, rules[key], next) || !Satisfiable(rules - {key})
  {
    var rest, edited := rules - {key}, WithRule(rules, key, next);
    forall claims, member
      ensures SameRule(provider, key, rules[key], next) || !Satisfiable(rest) ==>
                (TenantChecksHold(provider, rules, claims, member) <==> TenantChecksHold(provider, edited, claims, member))
    {
      ChecksSplit(provider, rules, key, claims, member);
      EditSplit(provider, rules, key, next, claims, member);
      if !Satisfiable(rest) {
        Unsatisfied(provider, rest, claims, member);
      }
    }
    if Satisfiable(rest) && !SameRule(provider, key, rules[key], next) {
      var claims, member :|
        RuleAdmits(provider, key, rules[key], claims, member) !=
        (next.Some? ==> RuleAdmits(provider, key, next.value, claims, member));
      var full := ApartFrom(provider, rules, key, claims, member);
      ChecksSplit(provider, rules, key, full, member);
      EditSplit(provider, rules, key, next, full, member);
    }
  }

  // ---- the hosted domains ----------------------------------------------------

  lemma HostedDomainsKept(value: Any, next: Any)
    requires Typed(value) && Typed(next) && forall s :: s in Options(next) <==> s in Options(value)
    ensures SameRule(GOOGLE, HD, value, Some(next))
  {
    forall claims, member ensures RuleAdmits(GOOGLE, HD, value, claims, member) <==> RuleAdmits(GOOGLE, HD, next, claims, member) {
      var got := if HD in claims then claims[HD] else Nil;
      MatchesOption(value, got);
      MatchesOption(next, got);
    }
  }

  lemma HostedDomainsLost(value: Any, next: Any, s: string)
    requires Typed(value) && Typed(next) && s != "" && s in Options(value) && s !in Options(next)
    ensures !SameRule(GOOGLE, HD, value, Some(next))
  {
    MatchesOption(value, Str(s));
    MatchesOption(next, Str(s));
    assert RuleAdmits(GOOGLE, HD, value, map[HD := Str(s)], true);
    assert !RuleAdmits(GOOGLE, HD, next, map[HD := Str(s)], true);
  }

  /** A reread hd rule holds of the same claims exactly when the field can carry its options. */
  lemma SameHostedDomains(value: Any)
    requires Typed(value)
    ensures SameRule(GOOGLE, HD, value, HostedDomainRule(ReadHostedDomains(Some(value)).value)) <==> Carried(Some(value))
  {
    var next := HostedDomainRule(ReadHostedDomains(Some(value)).value).value;
    PlainOptions(value);
    if Carried(Some(value)) {
      SameOptions(value);
      HostedDomainsKept(value, next);
    } else {
      var s :| s in Options(value) && !Plain(s);
      HostedDomainsLost(value, next, s);
    }
  }

  lemma HostedOptionsPlain(domains: seq<string>, allowUnhosted: bool)
    requires AllPlain(domains)
    ensures forall s :: s in HostedOptions(domains, allowUnhosted) ==> Plain(s)
  {
  }

  lemma PlainOptions(value: Any)
    requires Typed(value)
    ensures var next := HostedDomainRule(ReadHostedDomains(Some(value)).value).value;
            Typed(next) && forall s :: s in Options(next) ==> Plain(s)
  {
    var domains := Dedup(Parse(Join(NonBlank(Options(value)), NEWLINE)));
    ParseIsPlain(Join(NonBlank(Options(value)), NEWLINE));
    DedupIsPlain(Parse(Join(NonBlank(Options(value)), NEWLINE)));
    HostedOptionsPlain(domains, "" in Options(value));
    FieldOptions(HostedOptions(domains, "" in Options(value)));
  }

  lemma SameOptions(value: Any)
    requires Carried(Some(value))
    ensures var next := HostedDomainRule(ReadHostedDomains(Some(value)).value).value;
            Typed(next) && forall s :: s in Options(next) <==> s in Options(value)
  {
    var named := NonBlank(Options(value));
    assert AllPlain(named) by {
      forall i | 0 <= i < |named| ensures named[i] != "" && Plain(named[i]) {
        assert named[i] in Options(value);
      }
    }
    ParseJoin(named);
    FieldOptions(HostedOptions(Dedup(named), "" in Options(value)));
  }

  function RuleIn(rules: Claims, key: string): Option<Any> {
    if key in rules then Some(rules[key]) else None
  }

  /** The form can read the rule: it is unset, a string, a list of strings or, for tid, null. */
  predicate Readable(rules: Claims, key: string) {
    RuleIn(rules, key).Some? ==> Typed(RuleIn(rules, key).value) || (key == TID && RuleIn(rules, key).value == Nil)
  }

  function EditedHostedDomains(rules: Claims): Claims
    requires Readable(rules, HD)
  {
    WithRule(rules, HD, HostedDomainRule(ReadHostedDomains(RuleIn(rules, HD)).value))
  }

  /** What an untouched hd field does not spoil. */
  predicate HostedDomainsSurvive(rules: Claims) {
    HD !in rules || Carried(Some(rules[HD])) || !Satisfiable(rules - {HD})
  }

  /** Exactly when an untouched hd field keeps the verdict for every claims map; unset, [] and [""]
      always do, and stay apart. */
  lemma UntouchedHostedDomains(rules: Claims)
    requires Readable(rules, HD)
    ensures SameVerdict(GOOGLE, rules, EditedHostedDomains(rules)) <==> HostedDomainsSurvive(rules)
  {
    if HD in rules {
      SameHostedDomains(rules[HD]);
      EditedRule(GOOGLE, rules, HD, HostedDomainRule(ReadHostedDomains(Some(rules[HD])).value));
    } else {
      assert rules - {HD} == rules;
    }
  }

  // ---- the tenant ids ----------------------------------------------------------

  /** Ids are carried through the field, save for blank ones, which match no ordinary claim. */
  lemma {:induction false} EntriesOfIds(list: seq<string>)
    requires forall s :: s in list ==> Plain(s)
    ensures forall s :: s in Entries(list) <==> s in list && s != ""
  {
    if list != [] {
      assert list[0] in list;
      TrimmedStays(list[0], WHITESPACE);
      EntriesOfIds(list[1..]);
      assert list == [list[0]] + list[1..];
    }
  }

  lemma ParsedIds(list: seq<string>)
    requires forall s :: s in list ==> Plain(s)
    ensures forall s :: s in Parse(Join(list, NEWLINE)) <==> s in list && s != ""
  {
    if list == [] {
      ParseJoin([]);
    } else {
      forall i | 0 <= i < |list| ensures NEWLINE !in list[i] {
        assert list[i] in list;
      }
      SplitJoin(list, NEWLINE);
      EntriesOfIds(list);
    }
  }

  predicate NamesTenant(value: Any) {
    Typed(value) && exists s :: s in Options(value) && s != ""
  }

  lemma SomeMember(list: seq<string>)
    requires list != []
    ensures exists s :: s in list
  {
    assert list[0] in list;
  }

  /** A reread tid rule holds of the same claims exactly when the field can carry its ids and there
      is one; with none left it is deleted. */
  lemma SameTenantIds(value: Any)
    requires Typed(value) || value == Nil
    ensures SameRule(AZURE, TID, value, TenantIdRule(ReadTenantIds(Some(value)))) <==> Carried(Some(value)) && NamesTenant(value)
  {
    assert !RuleAdmits(AZURE, TID, value, map[], true);
    if value == Nil {
      ParseJoin([]);
    } else {
      var tids := Parse(Join(Options(value), NEWLINE));
      if tids != [] {
        FieldOptions(tids);
        if Carried(Some(value)) {
          TenantIdsKept(value, tids);
        } else {
          TenantIdsLost(value, tids);
        }
      } else if Carried(Some(value)) {
        ParsedIds(Options(value));
      }
    }
  }

  lemma TenantIdsKept(value: Any, tids: seq<string>)
    requires Carried(Some(value)) && tids == Parse(Join(Options(value), NEWLINE)) && tids != []
    ensures NamesTenant(value) && SameRule(AZURE, TID, value, Some(Field(tids)))
  {
    ParsedIds(Options(value));
    SomeMember(tids);
    FieldOptions(tids);
    assert AZURE[0] != GOOGLE[0];
    forall claims, member
      ensures RuleAdmits(AZURE, TID, value, claims, member) <==> RuleAdmits(AZURE, TID, Field(tids), claims, member)
    {
      var got := if TID in claims then claims[TID] else Nil;
      MatchesOption(value, got);
      MatchesOption(Field(tids), got);
    }
  }

  lemma TenantIdsLost(value: Any, tids: seq<string>)
    requires Typed(value) && !Carried(Some(value)) && tids == Parse(Join(Options(value), NEWLINE))
    ensures !SameRule(AZURE, TID, value, Some(Field(tids)))
  {
    var s :| s in Options(value) && !Plain(s);
    ParseIsPlain(Join(Options(value), NEWLINE));
    FieldOptions(tids);
    MatchesOption(value, Str(s));
    MatchesOption(Field(tids), Str(s));
    assert AZURE[0] != GOOGLE[0];
    assert RuleAdmits(AZURE, TID, value, map[TID := Str(s)], true);
    assert !RuleAdmits(AZURE, TID, Field(tids), map[TID := Str(s)], true);
  }

  function EditedTenantIds(rules: Claims): Claims
    requires Readable(rules, TID)
  {
    WithRule(rules, TID, TenantIdRule(ReadTenantIds(RuleIn(rules, TID))))
  }

  /** What an untouched tid field does not spoil. */
  predicate TenantIdsSurvive(rules: Claims) {
    TID !in rules || (Carried(Some(rules[TID])) && NamesTenant(rules[TID])) || !Satisfiable(rules - {TID})
  }

  /** Exactly when an untouched tid field keeps the verdict for every claims map. */
  lemma UntouchedTenantIds(rules: Claims)
    requires Readable(rules, TID)
    ensures SameVerdict(AZURE, rules, EditedTenantIds(rules)) <==> TenantIdsSurvive(rules)
  {
    assert AZURE[0] != GOOGLE[0];
    if TID in rules {
      SameTenantIds(rules[TID]);
      EditedRule(AZURE, rules, TID, TenantIdRule(ReadTenantIds(Some(rules[TID]))));
    } else {
      ParseJoin([]);
      assert rules - {TID} == rules;
    }
  }

  /** One policy that fails: `tid: []` admits nobody; saved untouched, it admits everybody. */
  lemma EmptyTidListOpensTenant(claims: Claims, member: bool)
    ensures var rules: Claims := map[TID := List([])];
            && !TenantChecksHold(AZURE, rules, claims, member)
            && Readable(rules, TID)
            && TenantChecksHold(AZURE, EditedTenantIds(rules), claims, member)
  {
    var rules: Claims := map[TID := List([])];
    assert !TenantRuleHolds(AZURE, rules, claims, member, TID);
    assert AZURE[0] != GOOGLE[0];
    ParseJoin([]);
    assert Options(List([])) == [];
    assert EditedTenantIds(rules) == map[];
  }

  /** A stored `tid: null`, which only another program writes, is the same. */
  lemma NullTidOpensTenant(claims: Claims, member: bool)
    ensures var rules: Claims := map[TID := Nil];
            && !TenantChecksHold(AZURE, rules, claims, member)
            && Readable(rules, TID)
            && TenantChecksHold(AZURE, EditedTenantIds(rules), claims, member)
  {
    var rules: Claims := map[TID := Nil];
    assert !TenantRuleHolds(AZURE, rules, claims, member, TID);
    ParseJoin([]);
    assert EditedTenantIds(rules) == map[];
  }

  /** Such a policy can be stored: validation accepts an empty list, though not an empty string. */
  lemma EmptyTidListIsAccepted(domains: Domains)
    ensures AcceptsRule(AZURE, TID, List([]), domains) && !AcceptsRule(AZURE, TID, Str(""), domains)
  {
  }

  /** Another: an accepted id with a blank at its end is saved without it, and the claims it admitted
      are refused. */
  lemma PaddedTidIsTrimmed(domains: Domains)
    ensures var rules: Claims := map[TID := Str("x ")];
            && AcceptsRule(AZURE, TID, rules[TID], domains)
            && Readable(rules, TID)
            && TenantChecksHold(AZURE, rules, rules, true)
            && !TenantChecksHold(AZURE, EditedTenantIds(rules), rules, true)
            && !TenantIdsSurvive(rules)
  {
    var rules: Claims := map[TID := Str("x ")];
    var tids := Parse(Join(Options(Str("x ")), NEWLINE));
    assert AZURE[0] != GOOGLE[0];
    assert !Plain("x ");
    assert "x " in Options(Str("x "));
    ParseIsPlain(Join(Options(Str("x ")), NEWLINE));
    SplitLast("x ", NEWLINE);
    assert Trim("x ", WHITESPACE) != "" by {
      assert TrimLeft("x ", WHITESPACE) == "x ";
      assert "x "[..1] == "x";
    }
    assert tids != [];
    FieldOptions(tids);
    MatchesOption(Field(tids), Str("x "));
    assert !TenantRuleHolds(AZURE, EditedTenantIds(rules), rules, true, TID);
  }

  // ---- opening and saving through the store ----------------------------------

  function StoredRules(config: Config, slug: string, provider: string): Claims {
    match ValueAt(config, slug, ChecksKey(provider))
    case None => map[]
    case Some(value) => Rules(value)
  }

  predicate Editable(policy: Policy) {
    && Sendable(policy.checks)
    && Readable(RulesOf(AsInput(policy).checks, AZURE), TID)
    && Readable(RulesOf(AsInput(policy).checks, GOOGLE), HD)
  }

  /** What the form sends when it was opened on `policy` and nothing was touched. */
  function UntouchedInput(policy: Policy): PolicyInput
    requires Editable(policy)
  {
    var checks := AsInput(policy).checks;
    AsInput(policy).(checks := Overlay(checks, ReadTenantIds(RuleOf(checks, AZURE, TID)),
                                       ReadHostedDomains(RuleOf(checks, GOOGLE, HD)).value))
  }

  lemma StoredRulesAre(config: Config, slug: string, provider: string)
    requires PolicyOf(config, slug).Some? && Sendable(PolicyOf(config, slug).value.checks)
    ensures StoredRules(config, slug, provider) == RulesOf(AsInput(PolicyOf(config, slug).value).checks, provider)
  {
  }

  lemma RulesAfterSave(config: Config, slug: string, input: PolicyInput, end: Config, provider: string)
    requires SavedAs(config, slug, input, end)
    ensures StoredRules(end, slug, provider) ==
            if provider in input.checks then input.checks[provider] else StoredRules(config, slug, provider)
  {
    ValueAfterSave(config, slug, input, end, provider);
  }

  /** Opening a policy and saving it untouched: the flag and the provider list stay, and a provider's
      stored rules hold of the same claims as before exactly when the field it has, if any, can carry
      its rule, or its other rules can never hold. */
  lemma UntouchedSaveKeepsVerdicts(config: Config, slug: string, end: Config, provider: string)
    requires PolicyOf(config, slug).Some? && Editable(PolicyOf(config, slug).value)
    requires SavedAs(config, slug, UntouchedInput(PolicyOf(config, slug).value), end)
    ensures PolicyOf(end, slug).Some?
    ensures PolicyOf(end, slug).value.autoAdd == PolicyOf(config, slug).value.autoAdd
    ensures PolicyOf(end, slug).value.providers == PolicyOf(config, slug).value.providers
    ensures var rules := StoredRules(config, slug, provider);
            SameVerdict(provider, rules, StoredRules(end, slug, provider)) <==>
            if provider == AZURE then TenantIdsSurvive(rules)
            else if provider == GOOGLE then HostedDomainsSurvive(rules)
            else true
  {
    var policy := PolicyOf(config, slug).value;
    var input := UntouchedInput(policy);
    var checks := AsInput(policy).checks;
    ReadAfterSave(config, slug, input, end);
    RulesAfterSave(config, slug, input, end, provider);
    StoredRulesAre(config, slug, provider);
    OverlayFrame(checks, ReadTenantIds(RuleOf(checks, AZURE, TID)), ReadHostedDomains(RuleOf(checks, GOOGLE, HD)).value);
    assert AZURE[0] != GOOGLE[0];
    if provider == AZURE {
      UntouchedTenantIds(RulesOf(checks, AZURE));
    } else if provider == GOOGLE {
      UntouchedHostedDomains(RulesOf(checks, GOOGLE));
    }
  }
}
