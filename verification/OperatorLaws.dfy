/** What the operator's writes do to each other and to what they leave alone. */
module OperatorLaws {
  import opened Values
  import opened Registry
  import opened Operators

  // ---- outcomes of whole plans -----------------------------------------------

  lemma AddMembershipIs(d: Registry, user: Id, slug: string)
    ensures ExecAll(d, Plan(AddMembership(user, slug))) ==
            if user !in d.users || !HasSlug(d.tenants, slug) then Err(NotFound) else DoInsertMemberOf(d, user, slug)
  {
    var insert := InsertMemberOf(user, slug);
    assert Plan(AddMembership(user, slug)) == [RequireUser(user)] + ([RequireTenant(slug)] + [insert]);
    ExecCheck(d, RequireUser(user), [RequireTenant(slug)] + [insert]);
    ExecCheck(d, RequireTenant(slug), [insert]);
    Exec1(d, insert);
  }

  lemma RemoveMembershipIs(d: Registry, user: Id, slug: string)
    ensures ExecAll(d, Plan(RemoveMembership(user, slug))) ==
            if user !in d.users || !HasSlug(d.tenants, slug) then Err(NotFound)
            else match DoDeleteMember(d, user, slug)
              case Err(e) => Err(e)
              case Ok(mid) => DoClearDefault(mid, user, slug)
  {
    var delete, clear := DeleteMember(user, slug), ClearDefault(user, slug);
    assert Plan(RemoveMembership(user, slug)) == [RequireUser(user)] + ([RequireTenant(slug)] + [delete, clear]);
    ExecCheck(d, RequireUser(user), [RequireTenant(slug)] + [delete, clear]);
    ExecCheck(d, RequireTenant(slug), [delete, clear]);
    Exec2(d, delete, clear);
  }

  lemma DefaultIsMembership(d: Registry, user: Id, slug: string)
    requires SchemaOk(d) && DefaultsOk(d) && user in d.users && d.users[user].defaultTenant == Some(slug)
    ensures HasSlug(d.tenants, slug) && (user, SlugId(d.tenants, slug)) in d.members
  {
    assert EnabledMember(d, user, slug);
  }

  lemma InsertedThenDeleted(d: Registry, user: Id, slug: string)
    requires user in d.users && d.users[user].defaultTenant != Some(slug)
    requires HasSlug(d.tenants, slug) && DoInsertMemberOf(d, user, slug).Ok?
    ensures var added := DoInsertMemberOf(d, user, slug).value;
            DoDeleteMember(added, user, slug) == Ok(d) && DoClearDefault(d, user, slug) == Ok(d)
  {
    var key := (user, SlugId(d.tenants, slug));
    assert d.members[key := map[]] - {key} == d.members;
  }

  /** Adding a membership and removing it again restores the registry, the user's default included:
      it cannot have named a tenant the user was no member of. */
  lemma AddThenRemoveMembership(d: Registry, user: Id, slug: string)
    requires SchemaOk(d) && DefaultsOk(d) && ExecAll(d, Plan(AddMembership(user, slug))).Ok?
    ensures ExecAll(ExecAll(d, Plan(AddMembership(user, slug))).value, Plan(RemoveMembership(user, slug))) == Ok(d)
  {
    AddMembershipIs(d, user, slug);
    RemoveMembershipIs(DoInsertMemberOf(d, user, slug).value, user, slug);
    if d.users[user].defaultTenant == Some(slug) {
      DefaultIsMembership(d, user, slug);
    } else {
      InsertedThenDeleted(d, user, slug);
    }
  }

  lemma AddDomainIs(d: Registry, slug: string, domain: string)
    ensures ExecAll(d, Plan(AddDomain(slug, domain))) ==
            if !HasSlug(d.tenants, slug) then Err(NotFound) else DoInsertDomain(d, domain, slug)
  {
    var insert := InsertDomain(domain, slug);
    assert Plan(AddDomain(slug, domain)) == [RequireTenant(slug)] + [insert];
    ExecCheck(d, RequireTenant(slug), [insert]);
    Exec1(d, insert);
  }

  /** Adding a domain and removing it again restores the registry. */
  lemma AddThenRemoveDomain(d: Registry, slug: string, domain: string)
    requires ExecAll(d, Plan(AddDomain(slug, domain))).Ok?
    ensures ExecAll(ExecAll(d, Plan(AddDomain(slug, domain))).value, Plan(RemoveDomain(slug, domain))) == Ok(d)
  {
    AddDomainIs(d, slug, domain);
    Exec1(d.(domains := d.domains[domain := slug]), DeleteDomain(domain, slug));
    assert d.domains[domain := slug] - {domain} == d.domains;
  }

  // ---- editing a tenant --------------------------------------------------------

  lemma EditTenantIs(d: Registry, slug: string, name: string, enabled: bool, metadata: map<string, Any>)
    ensures ExecAll(d, Plan(EditTenant(slug, name, enabled, metadata))) ==
            if !HasSlug(d.tenants, slug) then Err(NotFound)
            else
              var next := DoUpdateTenant(d, slug, name, enabled, metadata).value;
              Ok(if enabled then next else next.(users := WithoutDefault(next.users, slug)))
  {
    var update := UpdateTenant(slug, name, enabled, metadata);
    var rest := [update] + Disabling(slug, enabled);
    assert Plan(EditTenant(slug, name, enabled, metadata)) == [RequireTenant(slug)] + rest;
    ExecCheck(d, RequireTenant(slug), rest);
    if enabled {
      assert rest == [update];
      Exec1(d, update);
    } else {
      assert rest == [update, ClearDefaults(slug)];
      Exec2(d, update, ClearDefaults(slug));
    }
  }

  /** Metadata an edit names is set, or removed by null; what it does not name survives. */
  ghost predicate MetadataMerged(before: map<string, Any>, input: map<string, Any>, after: map<string, Any>) {
    && (forall k :: k in after <==> if k in input then input[k] != Nil else k in before)
    && (forall k :: k in after ==> after[k] == if k in input then input[k] else before[k])
  }

  /** A tenant edit changes the named fields of that tenant, keeps its id and slug, and touches no
      other tenant, membership, domain or setting; of users it clears the default it disabled. */
  lemma EditTenantEffect(d: Registry, slug: string, name: string, enabled: bool, metadata: map<string, Any>)
    requires SchemaOk(d) && ExecAll(d, Plan(EditTenant(slug, name, enabled, metadata))).Ok?
    ensures var e := ExecAll(d, Plan(EditTenant(slug, name, enabled, metadata))).value;
            var t := SlugId(d.tenants, slug);
            && HasSlug(d.tenants, slug) && e.tenants.Keys == d.tenants.Keys
            && (forall s :: s in d.tenants && s != t ==> e.tenants[s] == d.tenants[s])
            && e.tenants[t].slug == slug && e.tenants[t].name == name && e.tenants[t].enabled == enabled
            && MetadataMerged(d.tenants[t].metadata, metadata, e.tenants[t].metadata)
            && e == d.(tenants := e.tenants, users := e.users) && e.users.Keys == d.users.Keys
            && forall u :: u in d.users ==>
                 e.users[u] == if !enabled && d.users[u].defaultTenant == Some(slug)
                               then d.users[u].(defaultTenant := None) else d.users[u]
  {
    EditTenantIs(d, slug, name, enabled, metadata);
  }

  // ---- editing a user ----------------------------------------------------------

  lemma EditUserChecks(d: Registry, user: Id, checks: seq<Stmt>, update: Stmt)
    requires |checks| <= 1 && (checks != [] ==> checks[0].RequireDefault?)
    ensures ExecAll(d, [RequireUser(user)] + (checks + [update])) ==
            if user !in d.users then Err(NotFound)
            else if checks != [] && Exec(d, checks[0]).Err? then Exec(d, checks[0])
            else Exec(d, update)
  {
    ExecCheck(d, RequireUser(user), checks + [update]);
    if checks != [] {
      assert checks + [update] == [checks[0]] + [update];
      ExecCheck(d, checks[0], [update]);
    } else {
      assert checks + [update] == [update];
    }
    Exec1(d, update);
  }

  lemma EditUserPlan(user: Id, email: string, name: string, enabled: bool, default: Option<string>)
    ensures Plan(EditUser(user, email, name, enabled, default)) ==
            [RequireUser(user)] +
            ((if default.Some? then [RequireDefault(user, default.value)] else []) + [UpdateUser(user, email, name, enabled, default)])
  {
  }

  lemma EditUserIs(d: Registry, user: Id, email: string, name: string, enabled: bool, default: Option<string>)
    ensures ExecAll(d, Plan(EditUser(user, email, name, enabled, default))) ==
            if user !in d.users then Err(NotFound)
            else if default.Some? && default.value != "" && !EnabledMember(d, user, default.value) then Err(Invalid)
            else DoUpdateUser(d, user, email, name, enabled, default)
  {
    EditUserPlan(user, email, name, enabled, default);
    EditUserChecks(d, user, if default.Some? then [RequireDefault(user, default.value)] else [],
                   UpdateUser(user, email, name, enabled, default));
  }

  /** A user edit changes that user and nothing else; an omitted default stays, an empty one clears. */
  lemma EditUserEffect(d: Registry, user: Id, email: string, name: string, enabled: bool, default: Option<string>)
    requires ExecAll(d, Plan(EditUser(user, email, name, enabled, default))).Ok?
    ensures var e := ExecAll(d, Plan(EditUser(user, email, name, enabled, default))).value;
            && e == d.(users := e.users) && e.users.Keys == d.users.Keys && user in d.users
            && (forall u :: u in d.users && u != user ==> e.users[u] == d.users[u])
            && e.users[user].email == email && e.users[user].name == name && e.users[user].enabled == enabled
            && (default.None? ==> e.users[user].defaultTenant == d.users[user].defaultTenant)
            && (default == Some("") ==> e.users[user].defaultTenant.None?)
            && (default.Some? && default.value != "" ==>
                  e.users[user].defaultTenant == default && EnabledMember(e, user, default.value))
  {
    EditUserIs(d, user, email, name, enabled, default);
  }

  lemma UpdatedAgain(e: Registry, user: Id, email: string, name: string, enabled: bool, default: Option<string>)
    requires SchemaOk(e) && user in e.users && e.users[user] == User(email, name, enabled, e.users[user].defaultTenant)
    requires NewDefault(e.users[user].defaultTenant, default) == e.users[user].defaultTenant
    ensures DoUpdateUser(e, user, email, name, enabled, default) == Ok(e)
  {
    assert !EmailTaken(e.users, email, {user});
    assert e.users[user := e.users[user]] == e.users;
  }

  /** A repeated user edit succeeds and changes nothing. */
  lemma EditUserTwice(d: Registry, user: Id, email: string, name: string, enabled: bool, default: Option<string>)
    requires SchemaOk(d) && ExecAll(d, Plan(EditUser(user, email, name, enabled, default))).Ok?
    ensures var e := ExecAll(d, Plan(EditUser(user, email, name, enabled, default))).value;
            ExecAll(e, Plan(EditUser(user, email, name, enabled, default))) == Ok(e)
  {
    EditUserIs(d, user, email, name, enabled, default);
    var e := DoUpdateUser(d, user, email, name, enabled, default).value;
    UpdateUserKeepsSchema(d, user, email, name, enabled, default);
    UpdatedAgain(e, user, email, name, enabled, default);
    EditUserIs(e, user, email, name, enabled, default);
    if default.Some? && default.value != "" {
      assert EnabledMember(d, user, default.value) && e.tenants == d.tenants && e.members == d.members;
      assert EnabledMember(e, user, default.value);
    }
  }

  /** Exactly when a user edit succeeds: the user exists, a named default is an enabled membership, and no
      other user has the email. */
  lemma EditUserSucceeds(d: Registry, user: Id, email: string, name: string, enabled: bool, default: Option<string>)
    requires SchemaOk(d)
    ensures ExecAll(d, Plan(EditUser(user, email, name, enabled, default))).Ok? <==>
            && user in d.users
            && (default.Some? && default.value != "" ==>
                  exists t :: (user, t) in d.members && t in d.tenants && d.tenants[t].slug == default.value && d.tenants[t].enabled)
            && forall u :: u in d.users && u != user ==> EmailKey(d.users[u].email) != EmailKey(email)
  {
    EditUserIs(d, user, email, name, enabled, default);
  }

  // ---- the other operations, each in terms of the rows -----------------------------

  /** A new tenant gets the row given, without the metadata given as null, if its id and slug are new;
      and nothing else changes. */
  lemma CreateTenantEffect(d: Registry, tenant: Id, row: Tenant)
    requires SchemaOk(d)
    ensures ExecAll(d, Plan(CreateTenant(tenant, row))) ==
            if tenant in d.tenants || exists t :: t in d.tenants && SlugKey(d.tenants[t].slug) == SlugKey(row.slug)
            then Err(Duplicate)
            else Ok(d.(tenants := d.tenants[tenant := Tenant(row.slug, row.name, row.enabled,
                                                             map k | k in row.metadata && row.metadata[k] != Nil :: row.metadata[k])]))
  {
    var insert, plan := InsertTenant(tenant, row), Plan(CreateTenant(tenant, row));
    if row.enabled {
      assert plan == [insert];
      Exec1(d, insert);
    } else {
      assert plan == [insert, ClearDefaults(row.slug)];
      Exec2(d, insert, ClearDefaults(row.slug));
      if Exec(d, insert).Ok? {
        NobodysDefault(d, row.slug);
      }
    }
  }

  lemma NobodysDefault(d: Registry, slug: string)
    requires SchemaOk(d) && !SlugTaken(d.tenants, slug)
    ensures WithoutDefault(d.users, slug) == d.users
  {
  }

  /** A new user gets the email, name and flag given, and no default, if id and email are new. */
  lemma CreateUserEffect(d: Registry, user: Id, email: string, name: string, enabled: bool, default: Option<string>)
    ensures ExecAll(d, Plan(CreateUser(user, email, name, enabled, default))) ==
            if default.Some? && default.value != "" then Err(Invalid)
            else if user in d.users || exists u :: u in d.users && EmailKey(d.users[u].email) == EmailKey(email) then Err(Duplicate)
            else Ok(d.(users := d.users[user := User(email, name, enabled, None)]))
  {
    Exec1(d, Plan(CreateUser(user, email, name, enabled, default))[0]);
  }

  /** A membership is added, without overrides, between a user and a tenant that exist. */
  lemma AddMembershipEffect(d: Registry, user: Id, slug: string, t: Id)
    requires SchemaOk(d)
    ensures user !in d.users || (forall s :: s in d.tenants ==> d.tenants[s].slug != slug) ==>
              ExecAll(d, Plan(AddMembership(user, slug))) == Err(NotFound)
    ensures user in d.users && t in d.tenants && d.tenants[t].slug == slug ==>
              ExecAll(d, Plan(AddMembership(user, slug))) ==
              if (user, t) in d.members then Err(Duplicate) else Ok(d.(members := d.members[(user, t) := map[]]))
  {
    AddMembershipIs(d, user, slug);
    if t in d.tenants && d.tenants[t].slug == slug {
      SlugNamesTenant(d, slug, t);
    }
  }

  /** A removed membership takes the user's default with it if that named the tenant, and nothing else. */
  lemma RemoveMembershipEffect(d: Registry, user: Id, slug: string, t: Id)
    requires SchemaOk(d)
    ensures user !in d.users || (forall s :: s in d.tenants && d.tenants[s].slug == slug ==> (user, s) !in d.members) ==>
              ExecAll(d, Plan(RemoveMembership(user, slug))) == Err(NotFound)
    ensures user in d.users && t in d.tenants && d.tenants[t].slug == slug && (user, t) in d.members ==>
              ExecAll(d, Plan(RemoveMembership(user, slug))) ==
              Ok(d.(members := d.members - {(user, t)},
                    users := if d.users[user].defaultTenant == Some(slug)
                             then d.users[user := d.users[user].(defaultTenant := None)] else d.users))
  {
    RemoveMembershipIs(d, user, slug);
    if t in d.tenants && d.tenants[t].slug == slug {
      SlugNamesTenant(d, slug, t);
    }
  }

  /** The overrides of one membership become those given. */
  lemma EditOverridesEffect(d: Registry, user: Id, slug: string, overrides: Overrides, t: Id)
    requires SchemaOk(d)
    ensures (forall s :: s in d.tenants && d.tenants[s].slug == slug ==> (user, s) !in d.members) ==>
              ExecAll(d, Plan(EditOverrides(user, slug, overrides))) == Err(NotFound)
    ensures t in d.tenants && d.tenants[t].slug == slug && (user, t) in d.members ==>
              ExecAll(d, Plan(EditOverrides(user, slug, overrides))) == Ok(d.(members := d.members[(user, t) := overrides]))
  {
    Exec1(d, SetOverrides(user, slug, overrides));
    if t in d.tenants && d.tenants[t].slug == slug {
      SlugNamesTenant(d, slug, t);
    }
  }

  /** A domain goes to an existing tenant if no tenant has it, and leaves only the tenant that has it. */
  lemma DomainEffects(d: Registry, slug: string, domain: string)
    ensures ExecAll(d, Plan(AddDomain(slug, domain))) ==
            if forall t :: t in d.tenants ==> d.tenants[t].slug != slug then Err(NotFound)
            else if domain in d.domains then Err(Duplicate)
            else Ok(d.(domains := d.domains[domain := slug]))
    ensures ExecAll(d, Plan(RemoveDomain(slug, domain))) ==
            if domain in d.domains && d.domains[domain] == slug then Ok(d.(domains := d.domains - {domain})) else Err(NotFound)
  {
    AddDomainIs(d, slug, domain);
    Exec1(d, DeleteDomain(domain, slug));
  }
}
