/**
 What internal/admin/validation.go accepts before anything is stored: slugs and policy edits, with the
 normalization it applies to them in place. Texts are ASCII; normalizing a domain name is the caller's.
 */
module Validation {
  import opened Values
  import opened Text
  import opened Admission
  import opened Resolver
  import opened Registry
  import opened PolicyStore

  // ---- texts ---------------------------------------------------------------

  predicate LowerLetter(c: char) { 'a' <= c <= 'z' }
  predicate Letter(c: char) { LowerLetter(c) || 'A' <= c <= 'Z' }
  predicate Digit(c: char) { '0' <= c <= '9' }
  predicate Control(c: char) { c < ' ' || '\U{007F}' <= c <= '\U{009F}' }

  predicate Blank(s: string) {
    forall i :: 0 <= i < |s| ==> s[i] in WHITESPACE
  }

  predicate TextValue(s: string, max: nat) {
    !Blank(s) && |s| <= max && forall i :: 0 <= i < |s| ==> !Control(s[i])
  }

  /** One DNS label in lower case. */
  predicate Label(s: string) {
    && 0 < |s| <= 63
    && (forall i :: 0 <= i < |s| ==> LowerLetter(s[i]) || Digit(s[i]) || s[i] == '-')
    && s[0] != '-' && s[|s| - 1] != '-'
  }

  predicate ProviderName(s: string) {
    && 0 < |s| <= 64 && LowerLetter(s[0])
    && forall i :: 0 <= i < |s| ==> LowerLetter(s[i]) || Digit(s[i]) || s[i] == '_' || s[i] == '-'
  }

  predicate ClaimName(s: string) {
    && 0 < |s| <= 128 && Letter(s[0])
    && forall i :: 0 <= i < |s| ==> Letter(s[i]) || Digit(s[i]) || s[i] in "_.:/-"
  }

  predicate LowerLetters(s: string) {
    forall i :: 0 <= i < |s| ==> 'a' <= s[i] <= 'z'
  }

  /** Plain lower-case words are names of every kind, up to each kind's length. */
  lemma WordsAreNames(s: string, max: nat)
    requires LowerLetters(s)
    ensures ProviderName(s) <==> 1 <= |s| <= 64
    ensures ClaimName(s) <==> 1 <= |s| <= 128
    ensures Label(s) <==> 1 <= |s| <= 63
    ensures TextValue(s, max) <==> 1 <= |s| <= max
  {
    assert s != "" ==> s[0] !in WHITESPACE;
  }

  /** What sets the kinds apart: where digits, capitals, hyphens, dots, colons and blanks may stand. */
  lemma LastCharacter(s: string, c: char)
    requires LowerLetters(s) && 0 < |s| <= 40
    ensures ProviderName(s + [c]) <==> 'a' <= c <= 'z' || '0' <= c <= '9' || c == '_' || c == '-'
    ensures ClaimName(s + [c]) <==> 'a' <= c <= 'z' || 'A' <= c <= 'Z' || '0' <= c <= '9' || c in "_.:/-"
    ensures Label(s + [c]) <==> 'a' <= c <= 'z' || '0' <= c <= '9'
    ensures TextValue(s + [c], 50) <==> !(c < ' ' || '\U{007F}' <= c <= '\U{009F}')
  {
    var t := s + [c];
    assert t[|s|] == c && t[0] == s[0];
    assert t[0] !in WHITESPACE;
  }

  lemma FirstCharacter(s: string, c: char)
    requires LowerLetters(s) && 0 < |s| <= 40
    ensures ProviderName([c] + s) <==> 'a' <= c <= 'z'
    ensures ClaimName([c] + s) <==> 'a' <= c <= 'z' || 'A' <= c <= 'Z'
    ensures Label([c] + s) <==> 'a' <= c <= 'z' || '0' <= c <= '9'
  {
    var t := [c] + s;
    assert t[0] == c && t[|s|] == s[|s| - 1];
  }

  lemma MiddleCharacter(s: string, c: char)
    requires LowerLetters(s) && 0 < |s| <= 30
    ensures Label(s + [c] + s) <==> 'a' <= c <= 'z' || '0' <= c <= '9' || c == '-'
    ensures TextValue([c], 50) ==> c !in {' ', '\t', '\n', '\r'}
  {
    var t := s + [c] + s;
    assert t[0] == s[0] && t[|s|] == c && t[|t| - 1] == s[|s| - 1];
    assert [c][0] == c;
  }

  // ---- slugs ---------------------------------------------------------------

  function ValidSlug(s: string): Option<string> {
    var t := Lower(Trim(s, WHITESPACE));
    if Label(t) then Some(t) else None
  }

  lemma {:induction false} LowerIsIdentity(s: string)
    requires forall i :: 0 <= i < |s| ==> LowerChar(s[i]) == s[i]
    ensures Lower(s) == s
  {
  }

  /** An accepted slug is already in the form every later comparison brings slugs to: the unique
      index, the sign-in's tenant parameter and validation itself leave it as it is. It holds no
      colon, so the config cache's keys split back into the slug and the key they were made of. */
  lemma ValidSlugIsCanonical(s: string, key: string)
    requires ValidSlug(s).Some?
    ensures var slug := ValidSlug(s).value;
            && ValidSlug(slug) == Some(slug)
            && SlugKey(slug) == slug
            && RequestedTenant(slug) == slug
            && SplitKey(CacheKey(slug, key)) == Some((slug, key))
  {
    var slug := ValidSlug(s).value;
    LowerIsIdentity(slug);
    TrimmedStays(slug, WHITESPACE);
    TrimmedStays(slug, SPACE);
    SplitKeyInverts(slug, key);
  }

  // ---- policy edits --------------------------------------------------------

  type Domains = string -> Option<string>

  /** A hosted domain, or the blank option. */
  function HostedDomain(s: string, domains: Domains): Option<string> {
    if s == "" then Some("") else domains(s)
  }

  predicate HostedOption(option: Any, domains: Domains) {
    option.Str? && HostedDomain(option.text, domains).Some?
  }

  predicate AcceptsHosted(value: Any, domains: Domains) {
    match value
    case Str(_) => HostedOption(value, domains)
    case List(options) => |options| <= 128 && forall i :: 0 <= i < |options| ==> HostedOption(options[i], domains)
    case _ => false
  }

  predicate AcceptsOption(option: Any) {
    option.Str? && TextValue(option.text, 2048)
  }

  predicate AcceptsClaim(value: Any) {
    match value
    case Str(_) => AcceptsOption(value)
    case List(options) => |options| <= 128 && forall i :: 0 <= i < |options| ==> AcceptsOption(options[i])
    case _ => false
  }

  predicate IsHosted(provider: string, key: string) {
    provider == GOOGLE && key == HD
  }

  predicate AcceptsRule(provider: string, key: string, value: Any, domains: Domains) {
    ClaimName(key) && if IsHosted(provider, key) then AcceptsHosted(value, domains) else AcceptsClaim(value)
  }

  function NormalOption(option: Any, domains: Domains): Any
    requires HostedOption(option, domains)
  {
    Str(HostedDomain(option.text, domains).value)
  }

  function NormalHosted(value: Any, domains: Domains): Any
    requires AcceptsHosted(value, domains)
  {
    if value.Str? then NormalOption(value, domains)
    else List(seq(|value.items|, i requires 0 <= i < |value.items| => NormalOption(value.items[i], domains)))
  }

  function NormalRule(provider: string, key: string, value: Any, domains: Domains): Any
    requires AcceptsRule(provider, key, value, domains)
  {
    if IsHosted(provider, key) then NormalHosted(value, domains) else value
  }

  predicate AcceptsRules(provider: string, rules: Claims, domains: Domains) {
    && ProviderName(provider) && |rules| <= 64
    && forall key :: key in rules ==> AcceptsRule(provider, key, rules[key], domains)
  }

  function NormalRules(provider: string, rules: Claims, domains: Domains): Claims
    requires AcceptsRules(provider, rules, domains)
  {
    map key | key in rules :: NormalRule(provider, key, rules[key], domains)
  }

  predicate AcceptsProviders(providers: seq<string>) {
    && |providers| <= 64
    && (forall i :: 0 <= i < |providers| ==> ProviderName(providers[i]))
    && (forall i, j :: 0 <= i < j < |providers| ==> providers[i] != providers[j])
  }

  predicate Accepts(input: PolicyInput, domains: Domains) {
    && (input.providers.Some? ==> AcceptsProviders(input.providers.value))
    && |input.checks| <= 64
    && forall provider :: provider in input.checks ==> AcceptsRules(provider, input.checks[provider], domains)
  }

  function Normal(input: PolicyInput, domains: Domains): PolicyInput
    requires Accepts(input, domains)
  {
    input.(checks := map provider | provider in input.checks :: NormalRules(provider, input.checks[provider], domains))
  }

  method CheckProviders(providers: seq<string>) returns (ok: bool)
    ensures ok <==> AcceptsProviders(providers)
    ensures ok <==> |providers| <= 64 && forall i :: 0 <= i < |providers| ==> ProviderName(providers[i]) && providers[i] !in providers[..i]
  {
    if |providers| > 64 {
      return false;
    }
    var seen: set<string> := {};
    for i := 0 to |providers|
      invariant AcceptsProviders(providers[..i])
      invariant forall v :: v in seen <==> v in providers[..i]
    {
      if !ProviderName(providers[i]) || providers[i] in seen {
        return false;
      }
      seen := seen + {providers[i]};
    }
    assert providers[..|providers|] == providers;
    return true;
  }

  method CheckHosted(value: Any, domains: Domains) returns (normal: Option<Any>)
    ensures normal.Some? <==> AcceptsHosted(value, domains)
    ensures normal.Some? ==> normal.value == NormalHosted(value, domains)
    ensures normal.Some? <==>
            (value.Str? && (value.text == "" || domains(value.text).Some?)) ||
            (value.List? && |value.items| <= 128 &&
             forall i :: 0 <= i < |value.items| ==>
               value.items[i].Str? && (value.items[i].text == "" || domains(value.items[i].text).Some?))
    ensures normal.Some? && value.Str? ==> normal.value == if value.text == "" then Str("") else Str(domains(value.text).value)
    ensures normal.Some? && value.List? ==>
              && normal.value.List? && |normal.value.items| == |value.items|
              && forall i :: 0 <= i < |value.items| ==>
                   normal.value.items[i] == if value.items[i].text == "" then Str("") else Str(domains(value.items[i].text).value)
  {
    match value {
      case Str(text) =>
        var s := HostedDomain(text, domains);
        return if s.Some? then Some(Str(s.value)) else None;
      case List(options) =>
        if |options| > 128 {
          return None;
        }
        var list := options;
        for i := 0 to |options|
          invariant |list| == |options|
          invariant forall j :: 0 <= j < i ==> HostedOption(options[j], domains) && list[j] == NormalOption(options[j], domains)
          invariant forall j :: i <= j < |options| ==> list[j] == options[j]
        {
          if !options[i].Str? {
            return None;
          }
          var s := HostedDomain(options[i].text, domains);
          if s.None? {
            return None;
          }
          list := list[i := Str(s.value)];
        }
        return Some(List(list));
      case _ => return None;
    }
  }

  method CheckClaim(value: Any) returns (ok: bool)
    ensures ok <==> AcceptsClaim(value)
    ensures ok <==>
            (value.Str? && TextValue(value.text, 2048)) ||
            (value.List? && |value.items| <= 128 &&
             forall i :: 0 <= i < |value.items| ==> value.items[i].Str? && TextValue(value.items[i].text, 2048))
  {
    match value {
      case Str(text) => return TextValue(text, 2048);
      case List(options) =>
        if |options| > 128 {
          return false;
        }
        for i := 0 to |options|
          invariant forall j :: 0 <= j < i ==> AcceptsOption(options[j])
        {
          if !options[i].Str? || !TextValue(options[i].text, 2048) {
            return false;
          }
        }
        return true;
      case _ => return false;
    }
  }

  method CheckRule(provider: string, key: string, value: Any, domains: Domains) returns (normal: Option<Any>)
    ensures normal.Some? <==> AcceptsRule(provider, key, value, domains)
    ensures normal.Some? ==> normal.value == NormalRule(provider, key, value, domains)
    ensures normal.Some? <==> ClaimName(key) && if provider == "google" && key == "hd" then AcceptsHosted(value, domains) else AcceptsClaim(value)
    ensures normal.Some? && !(provider == "google" && key == "hd") ==> normal.value == value
  {
    if !ClaimName(key) {
      return None;
    }
    if provider == GOOGLE && key == HD {
      normal := CheckHosted(value, domains);
      return;
    }
    var ok := CheckClaim(value);
    return if ok then Some(value) else None;
  }

  /** The rules already checked are acceptable, and normalized in `result`. */
  ghost predicate Checked(provider: string, rules: Claims, result: Claims, remaining: set<string>, domains: Domains) {
    result.Keys == rules.Keys &&
    forall key :: key in rules && key !in remaining ==>
      AcceptsRule(provider, key, rules[key], domains) && result[key] == NormalRule(provider, key, rules[key], domains)
  }

  lemma AllChecked(provider: string, rules: Claims, result: Claims, domains: Domains)
    requires ProviderName(provider) && |rules| <= 64 && Checked(provider, rules, result, {}, domains)
    ensures AcceptsRules(provider, rules, domains) && result == NormalRules(provider, rules, domains)
  {
  }

  method CheckRules(provider: string, rules: Claims, domains: Domains) returns (normal: Option<Claims>)
    ensures normal.Some? <==> AcceptsRules(provider, rules, domains)
    ensures normal.Some? ==> normal.value == NormalRules(provider, rules, domains)
    ensures normal.Some? <==> ProviderName(provider) && |rules| <= 64 && forall key :: key in rules ==> AcceptsRule(provider, key, rules[key], domains)
    ensures normal.Some? ==>
              && normal.value.Keys == rules.Keys
              && forall key :: key in rules && !(provider == "google" && key == "hd") ==> normal.value[key] == rules[key]
  {
    if !ProviderName(provider) || |rules| > 64 {
      return None;
    }
    var result := rules;
    var remaining := rules.Keys;
    while remaining != {}
      invariant remaining <= rules.Keys && Checked(provider, rules, result, remaining, domains)
      decreases |remaining|
    {
      var key :| key in remaining;
      var value := CheckRule(provider, key, rules[key], domains);
      if value.None? {
        return None;
      }
      result := result[key := value.value];
      remaining := remaining - {key};
    }
    AllChecked(provider, rules, result, domains);
    return Some(result);
  }

  method Validate(input: PolicyInput, domains: Domains) returns (normal: Option<PolicyInput>)
    ensures normal.Some? <==> Accepts(input, domains)
    ensures normal.Some? ==> normal.value == Normal(input, domains)
    ensures normal.Some? <==>
            && (input.providers.Some? ==> AcceptsProviders(input.providers.value)) && |input.checks| <= 64
            && forall provider :: provider in input.checks ==> AcceptsRules(provider, input.checks[provider], domains)
    ensures normal.Some? ==>
              && normal.value.autoAdd == input.autoAdd && normal.value.providers == input.providers
              && normal.value.checks.Keys == input.checks.Keys
              && forall provider :: provider in input.checks && provider != "google" ==> normal.value.checks[provider] == input.checks[provider]
  {
    if input.providers.Some? {
      var ok := CheckProviders(input.providers.value);
      if !ok {
        return None;
      }
    }
    if |input.checks| > 64 {
      return None;
    }
    var checks := input.checks;
    var remaining := input.checks.Keys;
    while remaining != {}
      invariant remaining <= input.checks.Keys && ProvidersChecked(input.checks, checks, remaining, domains)
      decreases |remaining|
    {
      var provider :| provider in remaining;
      var rules := CheckRules(provider, input.checks[provider], domains);
      if rules.None? {
        return None;
      }
      checks := checks[provider := rules.value];
      remaining := remaining - {provider};
    }
    AllProvidersChecked(input, checks, domains);
    return Some(input.(checks := checks));
  }

  /** The providers already checked are acceptable, and normalized in `result`. */
  ghost predicate ProvidersChecked(checks: map<string, Claims>, result: map<string, Claims>, remaining: set<string>, domains: Domains) {
    result.Keys == checks.Keys &&
    forall p :: p in checks && p !in remaining ==>
      AcceptsRules(p, checks[p], domains) && result[p] == NormalRules(p, checks[p], domains)
  }

  lemma AllProvidersChecked(input: PolicyInput, checks: map<string, Claims>, domains: Domains)
    requires (input.providers.Some? ==> AcceptsProviders(input.providers.value)) && |input.checks| <= 64
    requires ProvidersChecked(input.checks, checks, {}, domains)
    ensures Accepts(input, domains) && input.(checks := checks) == Normal(input, domains)
    ensures checks.Keys == input.checks.Keys
    ensures forall p :: p in input.checks && p != "google" ==> checks[p] == input.checks[p]
  {
    forall p | p in input.checks && p != "google" ensures checks[p] == input.checks[p] {
      OrdinaryRulesStay(p, input.checks[p], domains);
    }
  }

  lemma OrdinaryRulesStay(provider: string, rules: Claims, domains: Domains)
    requires AcceptsRules(provider, rules, domains) && provider != "google"
    ensures NormalRules(provider, rules, domains) == rules
  {
  }

  // ---- what acceptance buys ------------------------------------------------

  /** Normalizing is stable: a normalized domain name is one, in the same form. */
  ghost predicate Stable(domains: Domains) {
    forall s :: domains(s).Some? ==> domains(s).value != "" && domains(domains(s).value) == domains(s)
  }

  lemma RuleNormalizedOnce(provider: string, key: string, value: Any, domains: Domains)
    requires Stable(domains) && AcceptsRule(provider, key, value, domains)
    ensures var normal := NormalRule(provider, key, value, domains);
            AcceptsRule(provider, key, normal, domains) && NormalRule(provider, key, normal, domains) == normal
  {
  }

  /** What was accepted and normalized is accepted again, unchanged: saving a policy as read back
      from the store never fails validation. */
  lemma NormalizedOnce(input: PolicyInput, domains: Domains)
    requires Stable(domains) && Accepts(input, domains)
    ensures Accepts(Normal(input, domains), domains)
    ensures Normal(Normal(input, domains), domains) == Normal(input, domains)
  {
    var normal := Normal(input, domains);
    forall p | p in normal.checks
      ensures AcceptsRules(p, normal.checks[p], domains) && NormalRules(p, normal.checks[p], domains) == normal.checks[p]
    {
      var rules := input.checks[p];
      assert AcceptsRules(p, rules, domains);
      assert NormalRules(p, rules, domains).Keys == rules.Keys;
      assert |NormalRules(p, rules, domains)| == |rules| by {
        assert |NormalRules(p, rules, domains).Keys| == |rules.Keys|;
      }
      forall key | key in rules
        ensures var rule := NormalRule(p, key, rules[key], domains);
                AcceptsRule(p, key, rule, domains) && NormalRule(p, key, rule, domains) == rule
      {
        RuleNormalizedOnce(p, key, rules[key], domains);
      }
    }
    assert normal.checks.Keys == input.checks.Keys;
    assert |normal.checks.Keys| == |input.checks.Keys|;
  }

  /** Under accepted rules nobody passes with an absent, empty or non-text claim, but for the one
      exception validation allows: the blank hd option, for registered Google members. */
  lemma AcceptedRulesNeedClaims(provider: string, rules: Claims, domains: Domains, claims: Claims, member: bool, key: string)
    requires Stable(domains) && AcceptsRules(provider, rules, domains)
    requires key in rules && TenantChecksHold(provider, NormalRules(provider, rules, domains), claims, member)
    ensures (key in claims && claims[key].Str? && claims[key].text != "") ||
            (IsHosted(provider, key) && member && Unhosted(claims) && AllowsBlank(NormalRules(provider, rules, domains)[key]))
  {
    assert TenantRuleHolds(provider, NormalRules(provider, rules, domains), claims, member, key);
    assert AcceptsRule(provider, key, rules[key], domains);
  }
}
