/** The operator's write operations of internal/admin, each the list of statements it runs. */
module Operators {
  import opened Values
  import opened Registry

  datatype PolicyWrite = Put(key: string, value: Any) | Delete(key: string)

  datatype Operation =
    | CreateTenant(tenant: Id, row: Tenant)
    | EditTenant(slug: string, name: string, enabled: bool, metadata: map<string, Any>)
    | CreateUser(user: Id, email: string, name: string, enabled: bool, default: Option<string>)
    | EditUser(user: Id, email: string, name: string, enabled: bool, default: Option<string>)
    | AddMembership(user: Id, slug: string)
    | RemoveMembership(user: Id, slug: string)
    | EditOverrides(user: Id, slug: string, overrides: Overrides)
    | AddDomain(slug: string, domain: string)
    | RemoveDomain(slug: string, domain: string)
    | EditPolicy(slug: string, writes: seq<PolicyWrite>)

  function PolicyStmt(slug: string, w: PolicyWrite): Stmt {
    match w
    case Put(key, value) => PutConfig(slug, key, value)
    case Delete(key) => DeleteConfig(slug, key)
  }

  function PolicyStmts(slug: string, writes: seq<PolicyWrite>): seq<Stmt> {
    if writes == [] then [] else [PolicyStmt(slug, writes[0])] + PolicyStmts(slug, writes[1..])
  }

  /** A disabled tenant can be nobody's default. */
  function Disabling(slug: string, enabled: bool): seq<Stmt> {
    if enabled then [] else [ClearDefaults(slug)]
  }

  function Plan(op: Operation): seq<Stmt> {
    match op
    case CreateTenant(tenant, row) => [InsertTenant(tenant, row)] + Disabling(row.slug, row.enabled)
    case EditTenant(slug, name, enabled, metadata) =>
      [RequireTenant(slug), UpdateTenant(slug, name, enabled, metadata)] + Disabling(slug, enabled)
    case CreateUser(user, email, name, enabled, default) =>
      if default.Some? && default.value != "" then [Refuse(Invalid)]
      else [InsertUser(user, User(email, name, enabled, None))]
    case EditUser(user, email, name, enabled, default) =>
      [RequireUser(user)] +
      (if default.Some? then [RequireDefault(user, default.value)] else []) +
      [UpdateUser(user, email, name, enabled, default)]
    case AddMembership(user, slug) => [RequireUser(user), RequireTenant(slug), InsertMemberOf(user, slug)]
    case RemoveMembership(user, slug) =>
      [RequireUser(user), RequireTenant(slug), DeleteMember(user, slug), ClearDefault(user, slug)]
    case EditOverrides(user, slug, overrides) => [SetOverrides(user, slug, overrides)]
    case AddDomain(slug, domain) => [RequireTenant(slug), InsertDomain(domain, slug)]
    case RemoveDomain(slug, domain) => [DeleteDomain(domain, slug)]
    case EditPolicy(slug, writes) => [RequireTenant(slug)] + PolicyStmts(slug, writes)
  }

  // ---- running a plan ------------------------------------------------------

  lemma ExecFirst(d: Registry, stmts: seq<Stmt>)
    requires stmts != []
    ensures ExecAll(d, stmts) == match Exec(d, stmts[0]) case Err(e) => Err(e) case Ok(next) => ExecAll(next, stmts[1..])
  {
  }

  lemma Exec1(d: Registry, a: Stmt)
    ensures ExecAll(d, [a]) == Exec(d, a)
  {
  }

  lemma Exec2(d: Registry, a: Stmt, b: Stmt)
    ensures ExecAll(d, [a, b]) == match Exec(d, a) case Err(e) => Err(e) case Ok(next) => Exec(next, b)
  {
    assert [a, b][1..] == [b];
    if Exec(d, a).Ok? {
      Exec1(Exec(d, a).value, b);
    }
  }

  /** A failed check stops the plan; a passed one leaves the registry as it was. */
  lemma ExecCheck(d: Registry, a: Stmt, rest: seq<Stmt>)
    requires !Writes(a)
    ensures ExecAll(d, [a] + rest) == if Exec(d, a).Err? then Exec(d, a) else ExecAll(d, rest)
    ensures Exec(d, a).Ok? ==> Exec(d, a).value == d
  {
  }

  // ---- defaults ------------------------------------------------------------

  /** What DefaultsOk reads. */
  lemma DefaultsFrame(d: Registry, e: Registry)
    requires DefaultsOk(d) && e.users == d.users
    requires forall m :: m in d.members ==> m in e.members
    requires forall t :: t in d.tenants ==> t in e.tenants && e.tenants[t] == d.tenants[t]
    ensures DefaultsOk(e)
  {
  }

  lemma {:induction false} PolicyStmtsTouchConfigOnly(d: Registry, slug: string, writes: seq<PolicyWrite>)
    requires ExecAll(d, PolicyStmts(slug, writes)).Ok?
    ensures ExecAll(d, PolicyStmts(slug, writes)).value.(config := d.config) == d
    decreases |writes|
  {
    var stmts := PolicyStmts(slug, writes);
    if writes != [] {
      assert stmts[1..] == PolicyStmts(slug, writes[1..]);
      PolicyStmtsTouchConfigOnly(Exec(d, stmts[0]).value, slug, writes[1..]);
    }
  }

  lemma TenantSaved(d: Registry, mid: Registry, slug: string, enabled: bool)
    requires DefaultsOk(d) && mid.users == d.users && mid.members == d.members
    requires SlugsUnique(mid.tenants)
    requires forall t :: t in d.tenants ==> t in mid.tenants && mid.tenants[t].slug == d.tenants[t].slug
    requires forall t :: t in d.tenants && d.tenants[t].slug != slug ==> mid.tenants[t].enabled == d.tenants[t].enabled
    requires forall t :: t in mid.tenants && mid.tenants[t].slug == slug ==> mid.tenants[t].enabled == enabled
    ensures ExecAll(mid, Disabling(slug, enabled)).Ok?
    ensures DefaultsOk(ExecAll(mid, Disabling(slug, enabled)).value)
  {
    if !enabled {
      Exec1(mid, ClearDefaults(slug));
    }
    var e := ExecAll(mid, Disabling(slug, enabled)).value;
    forall u | u in e.users && e.users[u].defaultTenant.Some?
      ensures EnabledMember(e, u, e.users[u].defaultTenant.value)
    {
      var s := d.users[u].defaultTenant.value;
      assert e.users[u] == d.users[u];
      assert EnabledMember(d, u, s);
      var t :| (u, t) in d.members && t in d.tenants && d.tenants[t].slug == s && d.tenants[t].enabled;
      assert mid.tenants[t].slug == s && mid.tenants[t].enabled;
    }
  }

  lemma CreateTenantKeepsDefaults(d: Registry, tenant: Id, row: Tenant)
    requires SchemaOk(d) && DefaultsOk(d) && ExecAll(d, Plan(CreateTenant(tenant, row))).Ok?
    ensures DefaultsOk(ExecAll(d, Plan(CreateTenant(tenant, row))).value)
  {
    var plan := Plan(CreateTenant(tenant, row));
    assert plan[1..] == Disabling(row.slug, row.enabled);
    InsertTenantKeepsSchema(d, tenant, row);
    TenantSaved(d, Exec(d, plan[0]).value, row.slug, row.enabled);
  }

  lemma EditTenantKeepsDefaults(d: Registry, slug: string, name: string, enabled: bool, metadata: map<string, Any>)
    requires SchemaOk(d) && DefaultsOk(d) && ExecAll(d, Plan(EditTenant(slug, name, enabled, metadata))).Ok?
    ensures DefaultsOk(ExecAll(d, Plan(EditTenant(slug, name, enabled, metadata))).value)
  {
    var update := UpdateTenant(slug, name, enabled, metadata);
    var rest := [update] + Disabling(slug, enabled);
    assert Plan(EditTenant(slug, name, enabled, metadata)) == [RequireTenant(slug)] + rest;
    ExecCheck(d, RequireTenant(slug), rest);
    assert rest[1..] == Disabling(slug, enabled);
    UpdateTenantKeepsSchema(d, slug, name, enabled, metadata);
    TenantSaved(d, Exec(d, update).value, slug, enabled);
  }

  lemma CreateUserKeepsDefaults(d: Registry, user: Id, email: string, name: string, enabled: bool, default: Option<string>)
    requires DefaultsOk(d) && ExecAll(d, Plan(CreateUser(user, email, name, enabled, default))).Ok?
    ensures DefaultsOk(ExecAll(d, Plan(CreateUser(user, email, name, enabled, default))).value)
  {
  }

  lemma EditUserKeepsDefaults(d: Registry, user: Id, email: string, name: string, enabled: bool, default: Option<string>)
    requires DefaultsOk(d) && ExecAll(d, Plan(EditUser(user, email, name, enabled, default))).Ok?
    ensures DefaultsOk(ExecAll(d, Plan(EditUser(user, email, name, enabled, default))).value)
  {
    var update := UpdateUser(user, email, name, enabled, default);
    var checks := if default.Some? then [RequireDefault(user, default.value)] else [];
    assert Plan(EditUser(user, email, name, enabled, default)) == [RequireUser(user)] + (checks + [update]);
    ExecCheck(d, RequireUser(user), checks + [update]);
    if default.Some? {
      ExecCheck(d, checks[0], [update]);
    } else {
      assert checks + [update] == [update];
    }
    Exec1(d, update);
    var e := Exec(d, update).value;
    forall u | u in e.users && e.users[u].defaultTenant.Some?
      ensures EnabledMember(e, u, e.users[u].defaultTenant.value)
    {
      if u == user && default.Some? {
        assert EnabledMember(d, u, default.value);
      } else {
        assert EnabledMember(d, u, d.users[u].defaultTenant.value);
      }
    }
  }

  lemma AddMembershipKeepsDefaults(d: Registry, user: Id, slug: string)
    requires DefaultsOk(d) && ExecAll(d, Plan(AddMembership(user, slug))).Ok?
    ensures DefaultsOk(ExecAll(d, Plan(AddMembership(user, slug))).value)
  {
    var insert := InsertMemberOf(user, slug);
    assert Plan(AddMembership(user, slug)) == [RequireUser(user)] + ([RequireTenant(slug)] + [insert]);
    ExecCheck(d, RequireUser(user), [RequireTenant(slug)] + [insert]);
    ExecCheck(d, RequireTenant(slug), [insert]);
    Exec1(d, insert);
    DefaultsFrame(d, Exec(d, insert).value);
  }

  /** Deleting a membership and then clearing the default it backed leaves no default dangling. */
  lemma MembershipRemoved(d: Registry, mid: Registry, e: Registry, user: Id, slug: string)
    requires DefaultsOk(d) && DoDeleteMember(d, user, slug) == Ok(mid) && DoClearDefault(mid, user, slug) == Ok(e)
    ensures DefaultsOk(e)
  {
  }

  lemma RemoveMembershipKeepsDefaults(d: Registry, user: Id, slug: string)
    requires DefaultsOk(d) && ExecAll(d, Plan(RemoveMembership(user, slug))).Ok?
    ensures DefaultsOk(ExecAll(d, Plan(RemoveMembership(user, slug))).value)
  {
    var delete, clear := DeleteMember(user, slug), ClearDefault(user, slug);
    assert Plan(RemoveMembership(user, slug)) == [RequireUser(user)] + ([RequireTenant(slug)] + [delete, clear]);
    ExecCheck(d, RequireUser(user), [RequireTenant(slug)] + [delete, clear]);
    ExecCheck(d, RequireTenant(slug), [delete, clear]);
    Exec2(d, delete, clear);
    var mid := Exec(d, delete).value;
    MembershipRemoved(d, mid, Exec(mid, clear).value, user, slug);
  }

  lemma EditOverridesKeepsDefaults(d: Registry, user: Id, slug: string, overrides: Overrides)
    requires DefaultsOk(d) && ExecAll(d, Plan(EditOverrides(user, slug, overrides))).Ok?
    ensures DefaultsOk(ExecAll(d, Plan(EditOverrides(user, slug, overrides))).value)
  {
  }

  lemma AddDomainKeepsDefaults(d: Registry, slug: string, domain: string)
    requires DefaultsOk(d) && ExecAll(d, Plan(AddDomain(slug, domain))).Ok?
    ensures DefaultsOk(ExecAll(d, Plan(AddDomain(slug, domain))).value)
  {
    assert Plan(AddDomain(slug, domain)) == [RequireTenant(slug)] + [InsertDomain(domain, slug)];
    ExecCheck(d, RequireTenant(slug), [InsertDomain(domain, slug)]);
    Exec1(d, InsertDomain(domain, slug));
    DefaultsFrame(d, Exec(d, InsertDomain(domain, slug)).value);
  }

  lemma RemoveDomainKeepsDefaults(d: Registry, slug: string, domain: string)
    requires DefaultsOk(d) && ExecAll(d, Plan(RemoveDomain(slug, domain))).Ok?
    ensures DefaultsOk(ExecAll(d, Plan(RemoveDomain(slug, domain))).value)
  {
  }

  lemma EditPolicyKeepsDefaults(d: Registry, slug: string, writes: seq<PolicyWrite>)
    requires DefaultsOk(d) && ExecAll(d, Plan(EditPolicy(slug, writes))).Ok?
    ensures DefaultsOk(ExecAll(d, Plan(EditPolicy(slug, writes))).value)
  {
    ExecCheck(d, RequireTenant(slug), PolicyStmts(slug, writes));
    PolicyStmtsTouchConfigOnly(d, slug, writes);
    DefaultsFrame(d, ExecAll(d, PolicyStmts(slug, writes)).value);
  }

  /** Whatever the operator does, every stored default stays an enabled membership. */
  lemma OperationKeepsDefaults(d: Registry, op: Operation)
    requires SchemaOk(d) && DefaultsOk(d) && ExecAll(d, Plan(op)).Ok?
    ensures DefaultsOk(ExecAll(d, Plan(op)).value)
  {
    match op
    case CreateTenant(tenant, row) => CreateTenantKeepsDefaults(d, tenant, row);
    case EditTenant(slug, name, enabled, metadata) => EditTenantKeepsDefaults(d, slug, name, enabled, metadata);
    case CreateUser(user, email, name, enabled, default) => CreateUserKeepsDefaults(d, user, email, name, enabled, default);
    case EditUser(user, email, name, enabled, default) => EditUserKeepsDefaults(d, user, email, name, enabled, default);
    case AddMembership(user, slug) => AddMembershipKeepsDefaults(d, user, slug);
    case RemoveMembership(user, slug) => RemoveMembershipKeepsDefaults(d, user, slug);
    case EditOverrides(user, slug, overrides) => EditOverridesKeepsDefaults(d, user, slug, overrides);
    case AddDomain(slug, domain) => AddDomainKeepsDefaults(d, slug, domain);
    case RemoveDomain(slug, domain) => RemoveDomainKeepsDefaults(d, slug, domain);
    case EditPolicy(slug, writes) => EditPolicyKeepsDefaults(d, slug, writes);
  }

  lemma {:induction false} PlanKeepsSchema(d: Registry, stmts: seq<Stmt>)
    requires SchemaOk(d) && ExecAll(d, stmts).Ok?
    ensures SchemaOk(ExecAll(d, stmts).value)
    decreases |stmts|
  {
    if stmts != [] {
      ExecKeepsSchema(d, stmts[0]);
      PlanKeepsSchema(Exec(d, stmts[0]).value, stmts[1..]);
    }
  }
}
