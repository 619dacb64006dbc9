/**
 The sign-in policy of a tenant in its tenant_config rows: what internal/admin/store.go writes for a
 policy edit, what it reads back, and the laws that tie the two together.
 */
module PolicyStore {
  import opened Values
  import opened ConfigKeys
  import opened Registry
  import opened Operators
  import opened Enrollment
  import opened Admission
  import opened Resolver

  type Config = map<(string, string), Cell>

  /** An edit: an omitted part (None, or an unnamed provider) is left alone; empty rules clear. */
  datatype PolicyInput = PolicyInput(autoAdd: Option<bool>, providers: Option<seq<string>>, checks: map<string, Claims>)

  datatype Policy = Policy(autoAdd: bool, providers: seq<string>, checks: map<string, Any>)

  // ---- keys ----------------------------------------------------------------

  predicate IsChecksKey(key: string) {
    CHECKS <= key
  }

  function ProviderOf(key: string): (provider: string)
    requires IsChecksKey(key)
    ensures ChecksKey(provider) == key
  {
    key[|CHECKS|..]
  }

  lemma KeysAreApart()
    ensures !IsChecksKey(AUTO_ADD) && !IsChecksKey(PROVIDERS) && AUTO_ADD != PROVIDERS
  {
    assert AUTO_ADD[5] != CHECKS[5] && PROVIDERS[5] != CHECKS[5];
    assert AUTO_ADD[5] != PROVIDERS[5];
  }

  predicate IsPolicyKey(key: string) {
    key == AUTO_ADD || key == PROVIDERS || IsChecksKey(key)
  }

  // ---- saving --------------------------------------------------------------

  function Strings(list: seq<string>): (items: seq<Any>)
    ensures |items| == |list| && forall i :: 0 <= i < |list| ==> items[i] == Str(list[i])
  {
    seq(|list|, i requires 0 <= i < |list| => Str(list[i]))
  }

  /** What an edit says about one key: nothing, clear it (Some(None)), or set it. */
  function Edited(input: PolicyInput, key: string): Option<Option<Any>> {
    if key == AUTO_ADD then
      if input.autoAdd.Some? then Some(Some(Bool(input.autoAdd.value))) else None
    else if key == PROVIDERS then
      if input.providers.Some? then Some(Some(List(Strings(input.providers.value)))) else None
    else if IsChecksKey(key) && ProviderOf(key) in input.checks then
      var rules := input.checks[ProviderOf(key)];
      Some(if rules == map[] then None else Some(Map(rules)))
    else None
  }

  function Effect(w: PolicyWrite): Option<Any> {
    if w.Put? then Some(w.value) else None
  }

  /** The statements carry out the edit: each says what the edit says of its key, and none is missing.
      Their order, which follows a map's iteration order, is left open. */
  ghost predicate CarriesOut(input: PolicyInput, writes: seq<PolicyWrite>) {
    && (forall i :: 0 <= i < |writes| ==> Edited(input, writes[i].key) == Some(Effect(writes[i])))
    && (forall key :: Edited(input, key).Some? ==> Writing(writes, key))
  }

  predicate Writing(writes: seq<PolicyWrite>, key: string) {
    exists i :: 0 <= i < |writes| && writes[i].key == key
  }

  lemma ChecksEdited(input: PolicyInput, provider: string)
    requires provider in input.checks
    ensures var rules := input.checks[provider];
            Edited(input, ChecksKey(provider)) == Some(if rules == map[] then None else Some(Map(rules)))
  {
    KeysAreApart();
  }

  /** Every statement says of its key what the edit says. */
  predicate Faithful(input: PolicyInput, writes: seq<PolicyWrite>) {
    forall i :: 0 <= i < |writes| ==> Edited(input, writes[i].key) == Some(Effect(writes[i]))
  }

  method ChecksWrites(input: PolicyInput) returns (writes: seq<PolicyWrite>)
    ensures Faithful(input, writes)
    ensures forall provider :: provider in input.checks ==> Writing(writes, ChecksKey(provider))
  {
    writes := [];
    var remaining := input.checks.Keys;
    while remaining != {}
      invariant remaining <= input.checks.Keys
      invariant Faithful(input, writes)
      invariant forall provider :: provider in input.checks && provider !in remaining ==> Writing(writes, ChecksKey(provider))
      decreases |remaining|
    {
      var provider :| provider in remaining;
      var rules := input.checks[provider];
      var write := if |rules| == 0 then Delete(ChecksKey(provider)) else Put(ChecksKey(provider), Map(rules));
      ChecksEdited(input, provider);
      WritingThen(writes, write);
      writes := writes + [write];
      remaining := remaining - {provider};
    }
  }

  method PolicyWrites(input: PolicyInput) returns (writes: seq<PolicyWrite>)
    ensures CarriesOut(input, writes)
  {
    KeysAreApart();
    var head := [];
    if input.autoAdd.Some? {
      head := [Put(AUTO_ADD, Bool(input.autoAdd.value))];
      assert head[0].key == AUTO_ADD;
    }
    if input.providers.Some? {
      WritingThen(head, Put(PROVIDERS, List(Strings(input.providers.value))));
      head := head + [Put(PROVIDERS, List(Strings(input.providers.value)))];
    }
    var tail := ChecksWrites(input);
    writes := head + tail;
    WritingEither(head, tail);
  }

  lemma WritingEither(head: seq<PolicyWrite>, tail: seq<PolicyWrite>)
    ensures forall key :: Writing(head, key) || Writing(tail, key) ==> Writing(head + tail, key)
  {
    forall key | Writing(head, key) ensures Writing(head + tail, key) {
      var i :| 0 <= i < |head| && head[i].key == key;
      assert (head + tail)[i].key == key;
    }
    forall key | Writing(tail, key) ensures Writing(head + tail, key) {
      var i :| 0 <= i < |tail| && tail[i].key == key;
      assert (head + tail)[|head| + i].key == key;
    }
  }

  lemma WritingThen(writes: seq<PolicyWrite>, w: PolicyWrite)
    ensures Writing(writes + [w], w.key)
    ensures forall key :: Writing(writes, key) ==> Writing(writes + [w], key)
  {
    assert (writes + [w])[|writes|] == w;
    forall key | Writing(writes, key) ensures Writing(writes + [w], key) {
      var i :| 0 <= i < |writes| && writes[i].key == key;
      assert (writes + [w])[i].key == key;
    }
  }

  function Write1(config: Config, slug: string, w: PolicyWrite): Config {
    match w
    case Put(key, value) => config[(slug, key) := Packed(value)]
    case Delete(key) => config - {(slug, key)}
  }

  function Written(config: Config, slug: string, writes: seq<PolicyWrite>): Config
    decreases |writes|
  {
    if writes == [] then config else Written(Write1(config, slug, writes[0]), slug, writes[1..])
  }

  function CellAt(config: Config, slug: string, key: string): Option<Cell> {
    if (slug, key) in config then Some(config[(slug, key)]) else None
  }

  /** The configuration after an edit, cell by cell. */
  function CellAfter(config: Config, slug: string, input: PolicyInput, s: string, key: string): Option<Cell> {
    if s == slug && Edited(input, key).Some? then
      match Edited(input, key).value
      case None => None
      case Some(value) => Some(Packed(value))
    else CellAt(config, s, key)
  }

  ghost predicate SavedAs(config: Config, slug: string, input: PolicyInput, end: Config) {
    forall s, key :: CellAt(end, s, key) == CellAfter(config, slug, input, s, key)
  }

  /** What an edit leaves in the cells it names: a packed flag, a packed list of the names, packed rules,
      and no cell where the rules are empty. */
  lemma SavedCells(config: Config, slug: string, input: PolicyInput, end: Config)
    requires SavedAs(config, slug, input, end)
    ensures input.autoAdd.Some? ==> CellAt(end, slug, "auth:auto_add") == Some(Packed(Bool(input.autoAdd.value)))
    ensures input.providers.Some? ==>
              exists items :: CellAt(end, slug, "auth:providers") == Some(Packed(List(items))) &&
                |items| == |input.providers.value| && forall i :: 0 <= i < |items| ==> items[i] == Str(input.providers.value[i])
    ensures forall p :: p in input.checks ==>
              CellAt(end, slug, "auth:checks:" + p) == if input.checks[p] == map[] then None else Some(Packed(Map(input.checks[p])))
  {
    KeysAreApart();
    assert CellAt(end, slug, AUTO_ADD) == CellAfter(config, slug, input, slug, AUTO_ADD);
    assert CellAt(end, slug, PROVIDERS) == CellAfter(config, slug, input, slug, PROVIDERS);
    forall p | p in input.checks
      ensures CellAt(end, slug, "auth:checks:" + p) == if input.checks[p] == map[] then None else Some(Packed(Map(input.checks[p])))
    {
      assert CellAt(end, slug, ChecksKey(p)) == CellAfter(config, slug, input, slug, ChecksKey(p));
      ChecksEdited(input, p);
    }
  }

  lemma CellsDetermine(a: Config, b: Config)
    requires forall s, key :: CellAt(a, s, key) == CellAt(b, s, key)
    ensures a == b
  {
    forall k ensures (k in a <==> k in b) && (k in a ==> a[k] == b[k]) {
      assert CellAt(a, k.0, k.1) == CellAt(b, k.0, k.1);
    }
  }

  lemma WritingFirst(writes: seq<PolicyWrite>, key: string)
    requires writes != []
    ensures Writing(writes, key) <==> writes[0].key == key || Writing(writes[1..], key)
  {
  }

  lemma {:induction false} WrittenCell(config: Config, slug: string, writes: seq<PolicyWrite>, s: string, key: string, value: Option<Any>)
    requires forall i :: 0 <= i < |writes| && writes[i].key == key ==> Effect(writes[i]) == value
    ensures CellAt(Written(config, slug, writes), s, key) ==
            if s == slug && Writing(writes, key)
            then match value { case None => None case Some(v) => Some(Packed(v)) }
            else CellAt(config, s, key)
    decreases |writes|
  {
    if writes != [] {
      WrittenCell(Write1(config, slug, writes[0]), slug, writes[1..], s, key, value);
      WritingFirst(writes, key);
    }
  }

  /** Whatever order the statements run in, the outcome is the same. */
  lemma CarriedOutIsSaved(config: Config, slug: string, input: PolicyInput, writes: seq<PolicyWrite>)
    requires CarriesOut(input, writes)
    ensures SavedAs(config, slug, input, Written(config, slug, writes))
  {
    forall s, key ensures CellAt(Written(config, slug, writes), s, key) == CellAfter(config, slug, input, s, key) {
      match Edited(input, key)
      case Some(value) => WrittenCell(config, slug, writes, s, key, value);
      case None =>
        assert !Writing(writes, key);
        WrittenCell(config, slug, writes, s, key, None);
    }
  }

  lemma StatementWrites(d: Registry, slug: string, w: PolicyWrite)
    requires HasSlug(d.tenants, slug)
    ensures Exec(d, PolicyStmt(slug, w)) == Ok(d.(config := Write1(d.config, slug, w)))
  {
  }

  lemma {:induction false} StatementsWrite(d: Registry, slug: string, writes: seq<PolicyWrite>)
    requires HasSlug(d.tenants, slug)
    ensures ExecAll(d, PolicyStmts(slug, writes)) == Ok(d.(config := Written(d.config, slug, writes)))
    decreases |writes|
  {
    var stmts := PolicyStmts(slug, writes);
    if writes != [] {
      assert stmts[1..] == PolicyStmts(slug, writes[1..]);
      StatementWrites(d, slug, writes[0]);
      ExecFirst(d, stmts);
      StatementsWrite(d.(config := Write1(d.config, slug, writes[0])), slug, writes[1..]);
    }
  }

  /** A policy edit through the transaction machinery: it needs its tenant, and then changes exactly
      the named cells of that tenant and nothing else in the registry. */
  lemma EditPolicySaves(d: Registry, slug: string, input: PolicyInput, writes: seq<PolicyWrite>, end: Config)
    requires CarriesOut(input, writes) && SavedAs(d.config, slug, input, end)
    ensures ExecAll(d, Plan(EditPolicy(slug, writes))) ==
            if HasSlug(d.tenants, slug) then Ok(d.(config := end)) else Err(NotFound)
  {
    ExecCheck(d, RequireTenant(slug), PolicyStmts(slug, writes));
    if HasSlug(d.tenants, slug) {
      StatementsWrite(d, slug, writes);
      CarriedOutIsSaved(d.config, slug, input, writes);
      CellsDetermine(end, Written(d.config, slug, writes));
    }
  }

  // ---- reading -------------------------------------------------------------

  /** The rows the policy query selects. */
  function Rows(config: Config, slug: string): (rows: map<string, Cell>)
    ensures forall key :: key in rows <==> IsPolicyKey(key) && (slug, key) in config
    ensures forall key :: key in rows ==> rows[key] == config[(slug, key)]
  {
    map p | p in config && p.0 == slug && IsPolicyKey(p.1) :: p.1 := config[p]
  }

  predicate AllStrings(items: seq<Any>) {
    forall i :: 0 <= i < |items| ==> items[i].Str?
  }

  function Texts(items: seq<Any>): (list: seq<string>)
    requires AllStrings(items)
    ensures |list| == |items| && forall i :: 0 <= i < |items| ==> items[i] == Str(list[i])
  {
    seq(|items|, i requires 0 <= i < |items| => items[i].text)
  }

  function FlagOf(cell: Option<Cell>): bool {
    cell == Some(Packed(Bool(true)))
  }

  /** None is the "invalid provider list" error. */
  function ProvidersOf(cell: Option<Cell>): Option<seq<string>> {
    match cell
    case Some(Packed(List(items))) => if AllStrings(items) then Some(Texts(items)) else None
    case Some(Packed(Nil)) => Some([])
    case Some(Packed(_)) => None
    case _ => Some([])
  }

  function CheckedProviders(config: Config, slug: string): (providers: set<string>)
    ensures forall p :: p in providers <==> (slug, ChecksKey(p)) in config && config[(slug, ChecksKey(p))].Packed?
  {
    set k | k in config && k.0 == slug && IsChecksKey(k.1) && config[k].Packed? :: ProviderOf(k.1)
  }

  function ChecksOf(config: Config, slug: string): (checks: map<string, Any>)
    ensures forall p :: p in checks <==> ValueAt(config, slug, ChecksKey(p)).Some?
    ensures forall p :: p in checks ==> checks[p] == ValueAt(config, slug, ChecksKey(p)).value
  {
    map p | p in CheckedProviders(config, slug) :: config[(slug, ChecksKey(p))].value
  }

  function ValueAt(config: Config, slug: string, key: string): Option<Any> {
    match CellAt(config, slug, key)
    case Some(Packed(value)) => Some(value)
    case _ => None
  }

  function PolicyOf(config: Config, slug: string): Option<Policy> {
    match ProvidersOf(CellAt(config, slug, PROVIDERS))
    case None => None
    case Some(providers) => Some(Policy(FlagOf(CellAt(config, slug, AUTO_ADD)), providers, ChecksOf(config, slug)))
  }

  method ReadProviders(value: Any) returns (list: Option<seq<string>>)
    ensures list == ProvidersOf(Some(Packed(value)))
    ensures list.Some? <==> value == Nil || (value.List? && forall i :: 0 <= i < |value.items| ==> value.items[i].Str?)
    ensures list.Some? && value.List? ==> |list.value| == |value.items| && forall i :: 0 <= i < |value.items| ==> value.items[i] == Str(list.value[i])
  {
    if value.List? {
      var providers := [];
      for i := 0 to |value.items|
        invariant AllStrings(value.items[..i]) && providers == Texts(value.items[..i])
      {
        if !value.items[i].Str? {
          return None;
        }
        providers := providers + [value.items[i].text];
      }
      assert value.items[..|value.items|] == value.items;
      return Some(providers);
    }
    return if value == Nil then Some([]) else None;
  }

  /** The rules of the rows already read. */
  ghost predicate ChecksRead(config: Config, slug: string, checks: map<string, Any>, remaining: set<string>) {
    && (forall p :: p in checks <==> ChecksKey(p) !in remaining && ValueAt(config, slug, ChecksKey(p)).Some?)
    && (forall p :: p in checks ==> checks[p] == ValueAt(config, slug, ChecksKey(p)).value)
  }

  lemma CheckRead(config: Config, slug: string, checks: map<string, Any>, remaining: set<string>, key: string)
    requires ChecksRead(config, slug, checks, remaining)
    ensures ChecksRead(config, slug,
                       if IsChecksKey(key) && ValueAt(config, slug, key).Some?
                       then checks[ProviderOf(key) := ValueAt(config, slug, key).value] else checks,
                       remaining - {key})
  {
  }

  /** A row the query selects, and where it counts. */
  lemma RowRead(config: Config, slug: string, key: string)
    requires key in Rows(config, slug)
    ensures CellAt(config, slug, key) == Some(Rows(config, slug)[key])
    ensures Rows(config, slug)[key].Packed? ==> ValueAt(config, slug, key) == Some(Rows(config, slug)[key].value)
    ensures Rows(config, slug)[key].Null? ==>
              ValueAt(config, slug, key) == None && !FlagOf(CellAt(config, slug, key)) &&
              ProvidersOf(CellAt(config, slug, key)) == Some([])
    ensures IsChecksKey(key) <==> key != AUTO_ADD && key != PROVIDERS
  {
    KeysAreApart();
  }

  method ReadPolicy(config: Config, slug: string) returns (policy: Option<Policy>)
    ensures policy == PolicyOf(config, slug)
    ensures policy.None? <==>
            && (slug, "auth:providers") in config && config[(slug, "auth:providers")].Packed?
            && var value := config[(slug, "auth:providers")].value;
               value != Nil && !(value.List? && forall i :: 0 <= i < |value.items| ==> value.items[i].Str?)
    ensures policy.Some? ==>
              && (policy.value.autoAdd <==> (slug, "auth:auto_add") in config && config[(slug, "auth:auto_add")] == Packed(Bool(true)))
              && (forall p :: p in policy.value.checks <==>
                              (slug, "auth:checks:" + p) in config && config[(slug, "auth:checks:" + p)].Packed?)
              && (forall p :: p in policy.value.checks ==> config[(slug, "auth:checks:" + p)] == Packed(policy.value.checks[p]))
  {
    KeysAreApart();
    var rows := Rows(config, slug);
    ghost var flag := FlagOf(CellAt(config, slug, AUTO_ADD));
    ghost var list := ProvidersOf(CellAt(config, slug, PROVIDERS));
    var autoAdd, providers, checks := false, [], map[];
    var remaining := rows.Keys;
    while remaining != {}
      invariant remaining <= rows.Keys
      invariant autoAdd == (AUTO_ADD !in remaining && flag)
      invariant Some(providers) == if PROVIDERS in remaining then Some([]) else list
      invariant ChecksRead(config, slug, checks, remaining)
      decreases |remaining|
    {
      var key :| key in remaining;
      CheckRead(config, slug, checks, remaining, key);
      RowRead(config, slug, key);
      remaining := remaining - {key};
      if rows[key].Null? {
        continue;
      }
      var value := rows[key].value;
      if key == AUTO_ADD {
        autoAdd := value == Bool(true);
      } else if key == PROVIDERS {
        var read := ReadProviders(value);
        if read.None? {
          return None;
        }
        providers := read.value;
      } else {
        checks := checks[ProviderOf(key) := value];
      }
    }
    assert checks == ChecksOf(config, slug);
    return Some(Policy(autoAdd, providers, checks));
  }

  // ---- laws ----------------------------------------------------------------

  /** Stored rules with the edited ones in their place; empty ones are gone. */
  function MergedChecks(stored: map<string, Any>, edits: map<string, Claims>): (checks: map<string, Any>)
    ensures forall p :: p in checks <==> if p in edits then edits[p] != map[] else p in stored
    ensures forall p :: p in checks ==> checks[p] == if p in edits then Map(edits[p]) else stored[p]
  {
    (stored - edits.Keys) + (map p | p in edits && edits[p] != map[] :: Map(edits[p]))
  }

  function Overlaid(stored: Policy, input: PolicyInput): Policy {
    Policy(if input.autoAdd.Some? then input.autoAdd.value else stored.autoAdd,
           if input.providers.Some? then input.providers.value else stored.providers,
           MergedChecks(stored.checks, input.checks))
  }

  lemma ValueAfterSave(config: Config, slug: string, input: PolicyInput, end: Config, p: string)
    requires SavedAs(config, slug, input, end)
    ensures ValueAt(end, slug, ChecksKey(p)) ==
            if p in input.checks then (if input.checks[p] == map[] then None else Some(Map(input.checks[p])))
            else ValueAt(config, slug, ChecksKey(p))
  {
    assert CellAt(end, slug, ChecksKey(p)) == CellAfter(config, slug, input, slug, ChecksKey(p));
    KeysAreApart();
    if p in input.checks {
      ChecksEdited(input, p);
    }
  }

  ghost predicate SameAt(a: map<string, Any>, b: map<string, Any>, p: string) {
    (p in a <==> p in b) && (p in a ==> a[p] == b[p])
  }

  lemma SameEverywhere(a: map<string, Any>, b: map<string, Any>)
    requires forall p :: SameAt(a, b, p)
    ensures a == b
  {
    forall p ensures (p in a <==> p in b) && (p in a ==> a[p] == b[p]) {
      assert SameAt(a, b, p);
    }
  }

  lemma CheckAfterSave(config: Config, slug: string, input: PolicyInput, end: Config, p: string)
    requires SavedAs(config, slug, input, end)
    ensures SameAt(ChecksOf(end, slug), MergedChecks(ChecksOf(config, slug), input.checks), p)
  {
    ValueAfterSave(config, slug, input, end, p);
  }

  lemma ChecksAfterSave(config: Config, slug: string, input: PolicyInput, end: Config)
    requires SavedAs(config, slug, input, end)
    ensures ChecksOf(end, slug) == MergedChecks(ChecksOf(config, slug), input.checks)
  {
    forall p {
      CheckAfterSave(config, slug, input, end, p);
    }
    SameEverywhere(ChecksOf(end, slug), MergedChecks(ChecksOf(config, slug), input.checks));
  }

  lemma PartsAfterSave(config: Config, slug: string, input: PolicyInput, end: Config)
    requires SavedAs(config, slug, input, end)
    ensures FlagOf(CellAt(end, slug, AUTO_ADD)) ==
            if input.autoAdd.Some? then input.autoAdd.value else FlagOf(CellAt(config, slug, AUTO_ADD))
    ensures ProvidersOf(CellAt(end, slug, PROVIDERS)) ==
            if input.providers.Some? then input.providers else ProvidersOf(CellAt(config, slug, PROVIDERS))
  {
    KeysAreApart();
    assert CellAt(end, slug, AUTO_ADD) == CellAfter(config, slug, input, slug, AUTO_ADD);
    assert CellAt(end, slug, PROVIDERS) == CellAfter(config, slug, input, slug, PROVIDERS);
    if input.providers.Some? {
      assert Texts(Strings(input.providers.value)) == input.providers.value;
    }
  }

  /** Read after save: the old policy overlaid with the edit; omitted parts unchanged, empty rules
      removed, an empty provider list kept. A stored provider list that cannot be read stays an error
      exactly when the edit omits the list. */
  lemma ReadAfterSave(config: Config, slug: string, input: PolicyInput, end: Config)
    requires SavedAs(config, slug, input, end)
    ensures PolicyOf(end, slug).None? <==> PolicyOf(config, slug).None? && input.providers.None?
    ensures PolicyOf(config, slug).Some? ==> PolicyOf(end, slug) == Some(Overlaid(PolicyOf(config, slug).value, input))
    ensures PolicyOf(config, slug).None? && input.providers.Some? ==>
              PolicyOf(end, slug) ==
              Some(Overlaid(Policy(FlagOf(CellAt(config, slug, AUTO_ADD)), [], ChecksOf(config, slug)), input))
  {
    PartsAfterSave(config, slug, input, end);
    ChecksAfterSave(config, slug, input, end);
  }

  /** Two edits in a row are the one edit whose parts are the later's where it has them. */
  function Then(first: PolicyInput, second: PolicyInput): PolicyInput {
    PolicyInput(if second.autoAdd.Some? then second.autoAdd else first.autoAdd,
                if second.providers.Some? then second.providers else first.providers,
                first.checks + second.checks)
  }

  lemma EditsCompose(first: PolicyInput, second: PolicyInput, key: string)
    ensures Edited(Then(first, second), key) ==
            if Edited(second, key).Some? then Edited(second, key) else Edited(first, key)
  {
  }

  lemma SavesCompose(config: Config, slug: string, first: PolicyInput, mid: Config, second: PolicyInput, end: Config)
    requires SavedAs(config, slug, first, mid) && SavedAs(mid, slug, second, end)
    ensures SavedAs(config, slug, Then(first, second), end)
  {
    forall s, key ensures CellAt(end, s, key) == CellAfter(config, slug, Then(first, second), s, key) {
      assert CellAt(mid, s, key) == CellAfter(config, slug, first, s, key);
      assert CellAt(end, s, key) == CellAfter(mid, slug, second, s, key);
      EditsCompose(first, second, key);
    }
  }

  /** Saving twice equals saving once. */
  lemma SaveIsIdempotent(config: Config, slug: string, input: PolicyInput, mid: Config, end: Config)
    requires SavedAs(config, slug, input, mid) && SavedAs(mid, slug, input, end)
    ensures end == mid
  {
    SavesCompose(config, slug, input, mid, input, end);
    assert Then(input, input) == input;
    forall s, key ensures CellAt(end, s, key) == CellAt(mid, s, key) {
      assert CellAt(mid, s, key) == CellAfter(config, slug, input, s, key);
    }
    CellsDetermine(end, mid);
  }

  /** The checks the API takes back: an object of rules for each provider, or null. */
  predicate Sendable(checks: map<string, Any>) {
    forall p :: p in checks ==> checks[p].Map? || checks[p] == Nil
  }

  /** The edit that names every part of a policy, as the dashboard sends it; null decodes to no rules. */
  function AsInput(policy: Policy): PolicyInput
    requires Sendable(policy.checks)
  {
    PolicyInput(Some(policy.autoAdd), Some(policy.providers), map p | p in policy.checks :: Rules(policy.checks[p]))
  }

  /** The provider's stored value holds no rules: an empty map, or nil. */
  predicate Ruleless(value: Any) {
    value == Map(map[]) || value == Nil
  }

  lemma OverlaidWithItself(policy: Policy)
    requires Sendable(policy.checks)
    ensures Overlaid(policy, AsInput(policy)) == policy <==>
            forall p :: p in policy.checks ==> !Ruleless(policy.checks[p])
  {
    var checks := Overlaid(policy, AsInput(policy)).checks;
    if forall p :: p in policy.checks ==> !Ruleless(policy.checks[p]) {
      assert checks == policy.checks;
    } else {
      var p :| p in policy.checks && Ruleless(policy.checks[p]);
      assert p !in checks;
    }
  }

  /** Saving what was read changes nothing that is read, unless some stored provider has no rules:
      those, and only those, disappear. */
  lemma SaveAfterRead(config: Config, slug: string, end: Config)
    requires PolicyOf(config, slug).Some? && Sendable(PolicyOf(config, slug).value.checks)
    requires SavedAs(config, slug, AsInput(PolicyOf(config, slug).value), end)
    ensures PolicyOf(end, slug) == PolicyOf(config, slug) <==>
            forall p :: p in PolicyOf(config, slug).value.checks ==> !Ruleless(PolicyOf(config, slug).value.checks[p])
  {
    var policy := PolicyOf(config, slug).value;
    ReadAfterSave(config, slug, AsInput(policy), end);
    OverlaidWithItself(policy);
  }

  /** Of the providers read, exactly those without rules are lost, and the others keep theirs. */
  lemma EmptyRulesAreLost(config: Config, slug: string, end: Config, p: string)
    requires PolicyOf(config, slug).Some? && Sendable(PolicyOf(config, slug).value.checks)
    requires SavedAs(config, slug, AsInput(PolicyOf(config, slug).value), end)
    ensures var checks := PolicyOf(config, slug).value.checks;
            && PolicyOf(end, slug).Some?
            && (p in PolicyOf(end, slug).value.checks <==> p in checks && !Ruleless(checks[p]))
            && (p in PolicyOf(end, slug).value.checks ==> PolicyOf(end, slug).value.checks[p] == checks[p])
  {
    ReadAfterSave(config, slug, AsInput(PolicyOf(config, slug).value), end);
  }

  /** Such rows, which only another program writes, read as a provider's value all the same. */
  lemma RulelessRowsAreRead(slug: string, p: string, value: Any)
    requires Ruleless(value)
    ensures PolicyOf(map[(slug, ChecksKey(p)) := Packed(value)], slug) == Some(Policy(false, [], map[p := value]))
  {
    var config: Config := map[(slug, ChecksKey(p)) := Packed(value)];
    KeysAreApart();
    forall q ensures SameAt(ChecksOf(config, slug), map[p := value], q) {
    }
    SameEverywhere(ChecksOf(config, slug), map[p := value]);
  }

  /** Other tenants, other keys and providers the edit does not name keep their cells. */
  lemma SaveFrame(config: Config, slug: string, input: PolicyInput, end: Config, s: string, key: string)
    requires SavedAs(config, slug, input, end)
    requires s != slug || !IsPolicyKey(key) || Edited(input, key).None?
    ensures CellAt(end, s, key) == CellAt(config, s, key)
    ensures s != slug ==> PolicyOf(end, s) == PolicyOf(config, s)
  {
    assert CellAt(end, s, key) == CellAfter(config, slug, input, s, key);
    if s != slug {
      forall k ensures CellAt(end, s, k) == CellAt(config, s, k) {
        assert CellAt(end, s, k) == CellAfter(config, slug, input, s, k);
      }
      assert forall p :: CellAt(end, s, ChecksKey(p)) == CellAt(config, s, ChecksKey(p));
      assert ChecksOf(end, s) == ChecksOf(config, s);
    }
  }

  // ---- what the dashboard shows is what sign-in enforces -----------------------

  /** A policy that can be read says exactly what the enrollment transaction and the resolver decide
      from the same rows: the flag, the admitted providers, and each provider's rules. */
  lemma ShownIsEnforced(d: Registry, slug: string, provider: string)
    requires PolicyOf(d.config, slug).Some?
    ensures var policy := PolicyOf(d.config, slug).value;
            && (policy.autoAdd <==> ConfigValue(d, slug, AUTO_ADD) == Bool(true))
            && (ListAllows(provider, ConfigValue(d, slug, PROVIDERS)) <==>
                policy.providers == [] || provider in policy.providers)
            && Rules(ConfigValue(d, slug, ChecksKey(provider))) ==
               if provider in policy.checks then Rules(policy.checks[provider]) else map[]
  {
  }
}
