/**
 The writers of internal/admin/store.go and internal/mtdb/enrollment.go as they run: one transaction
 at a time, statement by statement over its own copy of the registry, with early exits. Each is the
 atomic transition that module Transactions shows concurrent transactions amount to.
 */
module Store {
  import opened Values
  import opened ConfigKeys
  import opened Registry
  import opened Operators
  import opened Enrollment
  import opened TransactionProofs

  // ---- progress through a plan -----------------------------------------------

  /** One statement: its effect and one revision, or its error and nothing. */
  ghost predicate Ran(db: Db, stmt: Stmt, end: Db, error: Option<SqlError>) {
    match Exec(db.data, stmt)
    case Err(e) => error == Some(e) && end == db
    case Ok(d) => error.None? && end == if Writes(stmt) then Db(db.revision + 1, d, db.audit) else db
  }

  ghost predicate Progress(db: Db, done: seq<Stmt>, view: Db) {
    && ExecAll(db.data, done) == Ok(view.data)
    && view.revision == db.revision + Bumps(done)
    && view.audit == db.audit
  }

  /** A plan ran to its end, or stopped at the error its statements give. */
  ghost predicate Did(db: Db, plan: seq<Stmt>, end: Db, error: Option<SqlError>) {
    match ExecAll(db.data, plan)
    case Err(e) => error == Some(e)
    case Ok(_) => error.None? && Progress(db, plan, end)
  }

  lemma {:induction false} FailsEarly(d: Registry, done: seq<Stmt>, rest: seq<Stmt>)
    requires ExecAll(d, done).Err?
    ensures ExecAll(d, done + rest) == ExecAll(d, done)
    decreases |done|
  {
    assert (done + rest)[1..] == done[1..] + rest;
    if Exec(d, done[0]).Ok? {
      FailsEarly(Exec(d, done[0]).value, done[1..], rest);
    }
  }

  lemma ReadsChangeNothing(d: Registry, stmt: Stmt)
    requires !Writes(stmt) && Exec(d, stmt).Ok?
    ensures Exec(d, stmt).value == d
  {
  }

  lemma Advance(db: Db, plan: seq<Stmt>, k: nat, view: Db, end: Db, error: Option<SqlError>)
    requires k < |plan| && Progress(db, plan[..k], view) && Ran(view, plan[k], end, error)
    ensures error.None? ==> Progress(db, plan[..k + 1], end)
    ensures error.Some? ==> Did(db, plan, end, error)
  {
    var done := plan[..k + 1];
    assert done == plan[..k] + [plan[k]];
    assert done[..k] == plan[..k];
    ExecAllThen(db.data, plan[..k], plan[k]);
    if error.Some? {
      FailsEarly(db.data, done, plan[k + 1..]);
      assert plan == done + plan[k + 1..];
    } else if !Writes(plan[k]) {
      ReadsChangeNothing(view.data, plan[k]);
    }
  }

  lemma Begin(db: Db, plan: seq<Stmt>)
    ensures Progress(db, plan[..0], db)
  {
  }

  lemma End(db: Db, plan: seq<Stmt>, view: Db)
    requires Progress(db, plan[..|plan|], view)
    ensures Did(db, plan, view, None)
  {
    assert plan[..|plan|] == plan;
  }

  // ---- a transaction's statements ----------------------------------------------

  class Transaction {
    var revision: int
    var data: Registry
    var audit: seq<AuditRow>

    ghost function View(): Db
      reads this
    {
      Db(revision, data, audit)
    }

    ghost predicate Valid()
      reads this
    {
      SchemaOk(data)
    }

    constructor (revision: int, data: Registry, audit: seq<AuditRow>)
      requires SchemaOk(data)
      ensures Valid() && View() == Db(revision, data, audit)
    {
      this.revision, this.data, this.audit := revision, data, audit;
    }

    method FindSlug(slug: string) returns (tenant: Option<Id>)
      requires Valid()
      ensures tenant == if HasSlug(data.tenants, slug) then Some(SlugId(data.tenants, slug)) else None
    {
      if exists t :: t in data.tenants && data.tenants[t].slug == slug {
        var t :| t in data.tenants && data.tenants[t].slug == slug;
        SlugNamesTenant(data, slug, t);
        return Some(t);
      }
      return None;
    }

    /** Every statement that changes a row goes through here: the trigger bumps the revision first. */
    method Update(changed: Registry)
      requires SchemaOk(changed)
      modifies this
      ensures Valid() && View() == Db(old(revision) + 1, changed, old(audit))
    {
      revision := revision + 1;
      data := changed;
    }

    method RequireTenant(slug: string) returns (error: Option<SqlError>)
      requires Valid()
      ensures Ran(View(), Stmt.RequireTenant(slug), View(), error)
    {
      return if HasSlug(data.tenants, slug) then None else Some(NotFound);
    }

    method RequireUser(user: Id) returns (error: Option<SqlError>)
      ensures Ran(View(), Stmt.RequireUser(user), View(), error)
    {
      return if user in data.users then None else Some(NotFound);
    }

    method ValidDefault(user: Id, slug: string) returns (error: Option<SqlError>)
      ensures Ran(View(), RequireDefault(user, slug), View(), error)
    {
      if slug == "" {
        return None;
      }
      return if EnabledMember(data, user, slug) then None else Some(Invalid);
    }

    /** A statement's outcome takes effect, or its error ends the transaction. */
    method Settle(ghost stmt: Stmt, outcome: Result<Registry, SqlError>) returns (error: Option<SqlError>)
      requires Valid() && Writes(stmt) && outcome == Exec(data, stmt)
      modifies this
      ensures Valid() && Ran(old(View()), stmt, View(), error)
    {
      if outcome.Err? {
        return Some(outcome.error);
      }
      ExecKeepsSchema(data, stmt);
      Update(outcome.value);
      return None;
    }

    method InsertTenant(tenant: Id, row: Tenant) returns (error: Option<SqlError>)
      requires Valid()
      modifies this
      ensures Valid() && Ran(old(View()), Stmt.InsertTenant(tenant, row), View(), error)
    {
      error := Settle(Stmt.InsertTenant(tenant, row), DoInsertTenant(data, tenant, row));
    }

    method UpdateTenant(slug: string, name: string, enabled: bool, metadata: map<string, Any>) returns (error: Option<SqlError>)
      requires Valid()
      modifies this
      ensures Valid() && Ran(old(View()), Stmt.UpdateTenant(slug, name, enabled, metadata), View(), error)
    {
      var t := FindSlug(slug);
      var changed := data;
      if t.Some? {
        var stored := data.tenants[t.value];
        var merged := (stored.metadata + metadata) - (metadata.Keys - NonNull(metadata).Keys);
        changed := data.(tenants := data.tenants[t.value := Tenant(stored.slug, name, enabled, merged)]);
      }
      error := Settle(Stmt.UpdateTenant(slug, name, enabled, metadata), Ok(changed));
    }

    method ClearDefaults(slug: string) returns (error: Option<SqlError>)
      requires Valid()
      modifies this
      ensures Valid() && Ran(old(View()), Stmt.ClearDefaults(slug), View(), error)
    {
      error := Settle(Stmt.ClearDefaults(slug), DoClearDefaults(data, slug));
    }

    method InsertUser(user: Id, account: User) returns (error: Option<SqlError>)
      requires Valid()
      modifies this
      ensures Valid() && Ran(old(View()), Stmt.InsertUser(user, account), View(), error)
    {
      error := Settle(Stmt.InsertUser(user, account), DoInsertUser(data, user, account));
    }

    method UpdateUser(user: Id, email: string, name: string, enabled: bool, default: Option<string>) returns (error: Option<SqlError>)
      requires Valid()
      modifies this
      ensures Valid() && Ran(old(View()), Stmt.UpdateUser(user, email, name, enabled, default), View(), error)
    {
      error := Settle(Stmt.UpdateUser(user, email, name, enabled, default), DoUpdateUser(data, user, email, name, enabled, default));
    }

    method InsertMember(user: Id, tenant: Id) returns (error: Option<SqlError>)
      requires Valid()
      modifies this
      ensures Valid() && Ran(old(View()), Stmt.InsertMember(user, tenant), View(), error)
    {
      error := Settle(Stmt.InsertMember(user, tenant), DoInsertMember(data, user, tenant));
    }

    method InsertMemberOf(user: Id, slug: string) returns (error: Option<SqlError>)
      requires Valid()
      modifies this
      ensures Valid() && Ran(old(View()), Stmt.InsertMemberOf(user, slug), View(), error)
    {
      var t := FindSlug(slug);
      error := Settle(Stmt.InsertMemberOf(user, slug), if t.None? then Ok(data) else DoInsertMember(data, user, t.value));
    }

    method DeleteMember(user: Id, slug: string) returns (error: Option<SqlError>)
      requires Valid()
      modifies this
      ensures Valid() && Ran(old(View()), Stmt.DeleteMember(user, slug), View(), error)
    {
      var t := FindSlug(slug);
      if t.None? || (user, t.value) !in data.members {
        return Some(NotFound);
      }
      error := Settle(Stmt.DeleteMember(user, slug), Ok(data.(members := data.members - {(user, t.value)})));
    }

    method ClearDefault(user: Id, slug: string) returns (error: Option<SqlError>)
      requires Valid()
      modifies this
      ensures Valid() && Ran(old(View()), Stmt.ClearDefault(user, slug), View(), error)
    {
      error := Settle(Stmt.ClearDefault(user, slug), DoClearDefault(data, user, slug));
    }

    method SetOverrides(user: Id, slug: string, overrides: Overrides) returns (error: Option<SqlError>)
      requires Valid()
      modifies this
      ensures Valid() && Ran(old(View()), Stmt.SetOverrides(user, slug, overrides), View(), error)
    {
      var t := FindSlug(slug);
      if t.None? || (user, t.value) !in data.members {
        return Some(NotFound);
      }
      error := Settle(Stmt.SetOverrides(user, slug, overrides), Ok(data.(members := data.members[(user, t.value) := overrides])));
    }

    method InsertDomain(domain: string, slug: string) returns (error: Option<SqlError>)
      requires Valid()
      modifies this
      ensures Valid() && Ran(old(View()), Stmt.InsertDomain(domain, slug), View(), error)
    {
      error := Settle(Stmt.InsertDomain(domain, slug), DoInsertDomain(data, domain, slug));
    }

    method DeleteDomain(domain: string, slug: string) returns (error: Option<SqlError>)
      requires Valid()
      modifies this
      ensures Valid() && Ran(old(View()), Stmt.DeleteDomain(domain, slug), View(), error)
    {
      error := Settle(Stmt.DeleteDomain(domain, slug), DoDeleteDomain(data, domain, slug));
    }

    method WritePolicy(slug: string, w: PolicyWrite) returns (error: Option<SqlError>)
      requires Valid()
      modifies this
      ensures Valid() && Ran(old(View()), PolicyStmt(slug, w), View(), error)
    {
      match w {
        case Put(key, value) => error := Settle(PutConfig(slug, key, value), DoPutConfig(data, slug, key, value));
        case Delete(key) => error := Settle(DeleteConfig(slug, key), DoDeleteConfig(data, slug, key));
      }
    }

    // ---- the operations ----------------------------------------------------

    method SaveTenant(tenant: Id, slug: string, input: Tenant, create: bool) returns (error: Option<SqlError>)
      requires Valid()
      modifies this
      ensures Valid() && Did(old(View()), Plan(if create then CreateTenant(tenant, input)
                                               else EditTenant(slug, input.name, input.enabled, input.metadata)), View(), error)
    {
      ghost var start := View();
      ghost var plan := Plan(if create then CreateTenant(tenant, input) else EditTenant(slug, input.name, input.enabled, input.metadata));
      Begin(start, plan);
      ghost var k := 0;
      ghost var before := View();
      var target := if create then input.slug else slug;
      if create {
        error := InsertTenant(tenant, input);
      } else {
        error := RequireTenant(slug);
        Advance(start, plan, 0, before, View(), error);
        if error.Some? {
          return;
        }
        k := 1;
        error := UpdateTenant(slug, input.name, input.enabled, input.metadata);
      }
      Advance(start, plan, k, before, View(), error);
      if error.Some? {
        return;
      }
      error := Disable(target, input.enabled, start, plan, k + 1);
    }

    /** A disabled tenant can be nobody's default. */
    method Disable(slug: string, enabled: bool, ghost start: Db, ghost plan: seq<Stmt>, ghost k: nat) returns (error: Option<SqlError>)
      requires Valid() && k <= |plan| && Progress(start, plan[..k], View())
      requires if enabled then |plan| == k else |plan| == k + 1 && plan[k] == Stmt.ClearDefaults(slug)
      modifies this
      ensures Valid() && Did(start, plan, View(), error)
    {
      error := None;
      if !enabled {
        error := ClearDefaults(slug);
        Advance(start, plan, k, old(View()), View(), error);
      }
      if error.None? {
        End(start, plan, View());
      }
    }

    method SaveUser(user: Id, email: string, name: string, enabled: bool, default: Option<string>, create: bool)
      returns (error: Option<SqlError>)
      requires Valid()
      modifies this
      ensures Valid() && Did(old(View()), Plan(if create then CreateUser(user, email, name, enabled, default)
                                               else EditUser(user, email, name, enabled, default)), View(), error)
    {
      ghost var start := View();
      ghost var plan := Plan(if create then CreateUser(user, email, name, enabled, default)
                             else EditUser(user, email, name, enabled, default));
      Begin(start, plan);
      if create {
        if default.Some? && default.value != "" {
          Advance(start, plan, 0, start, start, Some(Invalid));
          return Some(Invalid);
        }
        error := InsertUser(user, User(email, name, enabled, None));
        Advance(start, plan, 0, start, View(), error);
        if error.None? {
          End(start, plan, View());
        }
        return;
      }
      error := RequireUser(user);
      Advance(start, plan, 0, start, View(), error);
      if error.None? {
        error := EditExisting(user, email, name, enabled, default, start, plan);
      }
    }

    /** The rest of an edit, once the user is known to exist. */
    method EditExisting(user: Id, email: string, name: string, enabled: bool, default: Option<string>,
                        ghost start: Db, ghost plan: seq<Stmt>)
      returns (error: Option<SqlError>)
      requires Valid() && |plan| == (if default.Some? then 3 else 2) && Progress(start, plan[..1], View())
      requires default.Some? ==> plan[1] == RequireDefault(user, default.value)
      requires plan[|plan| - 1] == Stmt.UpdateUser(user, email, name, enabled, default)
      modifies this
      ensures Valid() && Did(start, plan, View(), error)
    {
      if default.Some? {
        error := ValidDefault(user, default.value);
        Advance(start, plan, 1, View(), View(), error);
        if error.Some? {
          return;
        }
      }
      error := UpdateUser(user, email, name, enabled, default);
      Advance(start, plan, |plan| - 1, old(View()), View(), error);
      if error.None? {
        End(start, plan, View());
      }
    }

    method ChangeMembership(user: Id, slug: string, remove: bool) returns (error: Option<SqlError>)
      requires Valid()
      modifies this
      ensures Valid() && Did(old(View()), Plan(if remove then RemoveMembership(user, slug) else AddMembership(user, slug)), View(), error)
    {
      ghost var start := View();
      ghost var plan := Plan(if remove then RemoveMembership(user, slug) else AddMembership(user, slug));
      Begin(start, plan);
      error := RequireUser(user);
      Advance(start, plan, 0, start, View(), error);
      if error.Some? {
        return;
      }
      error := RequireTenant(slug);
      Advance(start, plan, 1, start, View(), error);
      if error.Some? {
        return;
      }
      if remove {
        error := DeleteMembership(user, slug, start, plan);
        return;
      }
      error := InsertMemberOf(user, slug);
      Advance(start, plan, 2, start, View(), error);
      if error.None? {
        End(start, plan, View());
      }
    }

    /** The rest of a removal, once user and tenant are known to exist. */
    method DeleteMembership(user: Id, slug: string, ghost start: Db, ghost plan: seq<Stmt>) returns (error: Option<SqlError>)
      requires Valid() && |plan| == 4 && Progress(start, plan[..2], View())
      requires plan[2] == Stmt.DeleteMember(user, slug) && plan[3] == Stmt.ClearDefault(user, slug)
      modifies this
      ensures Valid() && Did(start, plan, View(), error)
    {
      error := DeleteMember(user, slug);
      Advance(start, plan, 2, old(View()), View(), error);
      if error.Some? {
        return;
      }
      ghost var before := View();
      error := ClearDefault(user, slug);
      Advance(start, plan, 3, before, View(), error);
      End(start, plan, View());
    }

    method SaveMembershipAuth(user: Id, slug: string, overrides: Overrides) returns (error: Option<SqlError>)
      requires Valid()
      modifies this
      ensures Valid() && Did(old(View()), Plan(EditOverrides(user, slug, overrides)), View(), error)
    {
      ghost var start, plan := View(), Plan(EditOverrides(user, slug, overrides));
      Begin(start, plan);
      error := SetOverrides(user, slug, overrides);
      Advance(start, plan, 0, start, View(), error);
      if error.None? {
        End(start, plan, View());
      }
    }

    method ChangeDomain(slug: string, domain: string, remove: bool) returns (error: Option<SqlError>)
      requires Valid()
      modifies this
      ensures Valid() && Did(old(View()), Plan(if remove then RemoveDomain(slug, domain) else AddDomain(slug, domain)), View(), error)
    {
      ghost var start, plan := View(), Plan(if remove then RemoveDomain(slug, domain) else AddDomain(slug, domain));
      Begin(start, plan);
      if remove {
        error := DeleteDomain(domain, slug);
        Advance(start, plan, 0, start, View(), error);
      } else {
        error := RequireTenant(slug);
        Advance(start, plan, 0, start, View(), error);
        if error.Some? {
          return;
        }
        error := InsertDomain(domain, slug);
        Advance(start, plan, 1, start, View(), error);
      }
      if error.None? {
        End(start, plan, View());
      }
    }

    method SavePolicy(slug: string, writes: seq<PolicyWrite>) returns (error: Option<SqlError>)
      requires Valid()
      modifies this
      ensures Valid() && Did(old(View()), Plan(EditPolicy(slug, writes)), View(), error)
    {
      ghost var start, plan := View(), Plan(EditPolicy(slug, writes));
      Begin(start, plan);
      error := RequireTenant(slug);
      Advance(start, plan, 0, start, View(), error);
      if error.Some? {
        return;
      }
      PolicyStmtsLength(slug, writes);
      for i := 0 to |writes|
        invariant Valid() && error.None? && Progress(start, plan[..i + 1], View())
      {
        PolicyStmtAt(slug, writes, i);
        ghost var before := View();
        error := WritePolicy(slug, writes[i]);
        Advance(start, plan, i + 1, before, View(), error);
        if error.Some? {
          return;
        }
      }
      End(start, plan, View());
    }
  }

  lemma {:induction false} PolicyStmtsLength(slug: string, writes: seq<PolicyWrite>)
    ensures |PolicyStmts(slug, writes)| == |writes|
  {
    if writes != [] {
      PolicyStmtsLength(slug, writes[1..]);
    }
  }

  lemma {:induction false} PolicyStmtAt(slug: string, writes: seq<PolicyWrite>, i: nat)
    requires i < |writes|
    ensures |PolicyStmts(slug, writes)| == |writes| && PolicyStmts(slug, writes)[i] == PolicyStmt(slug, writes[i])
  {
    PolicyStmtsLength(slug, writes);
    if i > 0 {
      PolicyStmtAt(slug, writes[1..], i - 1);
    }
  }

  // ---- the database ----------------------------------------------------------

  lemma UserInserted(db: Db, e: Enroll, user: Id, mid: Db)
    requires FindUser(db.data, e.email).None? && Ran(db, InsertUser(user, NewUser(e)), mid, None)
    ensures UserStep(db, e, user) == Ok(mid)
  {
  }

  /** A new id and an email in its normal form, held by nobody, can be inserted. */
  lemma UserInserts(db: Db, e: Enroll, user: Id)
    requires SchemaOk(db.data) && Eligible(db.data, e) && FindUser(db.data, e.email).None?
    requires user !in db.data.users && EmailKey(e.email) == e.email
    ensures Exec(db.data, InsertUser(user, NewUser(e))).Ok?
  {
    assert !EmailTaken(db.data.users, e.email, {});
  }

  /** Who is eligible and not enrolled has no membership in the tenant yet. */
  lemma NotYetMember(db: Db, e: Enroll, user: Id, tenant: Id)
    requires SchemaOk(db.data) && Eligible(db.data, e) && !Enrolled(db.data, e)
    requires DomainTenant(db.data, e.domain) == Some(tenant)
    requires FindUser(db.data, e.email) == Some(user) || user !in db.data.users
    ensures tenant in db.data.tenants && (user, tenant) !in db.data.members
  {
    if (user, tenant) in db.data.members {
      assert user in db.data.users;
      assert EnabledMember(db.data, user, e.slug);
    }
  }

  lemma MemberInserts(db: Db, e: Enroll, user: Id, tenant: Id, mid: Db)
    requires SchemaOk(db.data) && Eligible(db.data, e) && !Enrolled(db.data, e)
    requires DomainTenant(db.data, e.domain) == Some(tenant) && UserStep(db, e, user) == Ok(mid)
    ensures Exec(mid.data, InsertMember(user, tenant)).Ok?
  {
    NotYetMember(db, e, user, tenant);
    assert mid.data.members == db.data.members && mid.data.tenants == db.data.tenants && user in mid.data.users;
  }

  lemma MemberInserted(db: Db, e: Enroll, user: Id, tenant: Id, mid: Db, end: Db)
    requires DomainTenant(db.data, e.domain) == Some(tenant) && UserStep(db, e, user) == Ok(mid)
    requires mid.audit == db.audit && Ran(mid, InsertMember(user, tenant), end, None)
    ensures MemberStep(db, e, user) == Ok(end) && end.audit == db.audit
  {
  }

  /** How an enrollment ended. */
  datatype EnrollEnd = Denied | Already(user: Id) | Added(user: Id) | Broken(error: SqlError)

  class Database {
    var revision: int
    var data: Registry
    var audit: seq<AuditRow>

    ghost function Contents(): Db
      reads this
    {
      Db(revision, data, audit)
    }

    ghost predicate Valid()
      reads this
    {
      SchemaOk(data)
    }

    method Commit(tx: Transaction)
      requires tx.Valid()
      modifies this
      ensures Valid() && Contents() == tx.View()
    {
      revision, data, audit := tx.revision, tx.data, tx.audit;
    }

    method Run(tx: Transaction, op: Operation) returns (error: Option<SqlError>)
      requires tx.Valid()
      modifies tx
      ensures tx.Valid() && Did(old(tx.View()), Plan(op), tx.View(), error)
    {
      match op {
        case CreateTenant(tenant, row) => error := tx.SaveTenant(tenant, row.slug, row, true);
        case EditTenant(slug, name, enabled, metadata) => error := tx.SaveTenant("", slug, Tenant(slug, name, enabled, metadata), false);
        case CreateUser(user, email, name, enabled, default) => error := tx.SaveUser(user, email, name, enabled, default, true);
        case EditUser(user, email, name, enabled, default) => error := tx.SaveUser(user, email, name, enabled, default, false);
        case AddMembership(user, slug) => error := tx.ChangeMembership(user, slug, false);
        case RemoveMembership(user, slug) => error := tx.ChangeMembership(user, slug, true);
        case EditOverrides(user, slug, overrides) => error := tx.SaveMembershipAuth(user, slug, overrides);
        case AddDomain(slug, domain) => error := tx.ChangeDomain(slug, domain, false);
        case RemoveDomain(slug, domain) => error := tx.ChangeDomain(slug, domain, true);
        case EditPolicy(slug, writes) => error := tx.SavePolicy(slug, writes);
      }
    }

    /** Store.write: nothing is written against another revision, and a failure leaves everything. */
    method Write(w: Enrollment.Write) returns (saved: Result<int, WriteError>)
      requires Valid()
      modifies this
      ensures Valid()
      ensures match AtomicWrite(old(Contents()), w)
              case Err(e) => saved == Err(e) && Contents() == old(Contents())
              case Ok(end) => saved == Ok(end.revision) && Contents() == end
      ensures old(revision) != w.expected ==> saved == Err(RevisionConflict)
      ensures saved.Err? ==> Contents() == old(Contents())
      ensures saved.Ok? ==>
                && ExecAll(old(data), Plan(w.op)) == Ok(data) && saved.value == revision
                && audit == old(audit) + [AuditRow(w.actor, w.action, Path(w.path), w.fields, revision)]
    {
      if revision != w.expected {
        return Err(RevisionConflict);
      }
      var tx := new Transaction(revision, data, audit);
      var error := Run(tx, w.op);
      if error.Some? {
        return Err(Rejected(error.value));
      }
      var next := tx.revision;
      tx.audit := tx.audit + [WriteRow(w, next)];
      Commit(tx);
      return Ok(next);
    }

    method TenantByDomain(domain: string) returns (tenant: Option<Id>)
      requires Valid()
      ensures tenant == DomainTenant(data, domain)
    {
      if domain !in data.domains {
        return None;
      }
      var tx := new Transaction(revision, data, audit);
      tenant := tx.FindSlug(data.domains[domain]);
    }

    method UserByEmail(email: string) returns (user: Option<Id>)
      requires Valid()
      ensures user == FindUser(data, email)
    {
      if exists u :: u in data.users && EmailKey(data.users[u].email) == email {
        var u :| u in data.users && EmailKey(data.users[u].email) == email;
        EmailNamesUser(data, email, u);
        return Some(u);
      }
      return None;
    }

    method Config(slug: string, key: string) returns (value: Any)
      ensures value == ConfigValue(data, slug, key)
    {
      if (slug, key) !in data.config || data.config[(slug, key)].Null? {
        return Nil;
      }
      return data.config[(slug, key)].value;
    }

    /** AutoAddUser: every admission input is read again here, and whatever is refused, already done
        or broken leaves everything as it was. `newId` is the id the database would generate. */
    method AutoAddUser(e: Enroll, newId: Id) returns (end: EnrollEnd)
      requires Valid()
      modifies this
      ensures Valid()
      ensures end.Denied? <==> !Eligible(old(data), e)
      ensures end.Already? <==> Eligible(old(data), e) && Enrolled(old(data), e)
      ensures !end.Denied? <==>
              && e.domain in old(data).domains && old(data).domains[e.domain] == e.slug
              && (exists t :: t in old(data).tenants && old(data).tenants[t].slug == e.slug && old(data).tenants[t].enabled)
              && (forall u :: u in old(data).users && EmailKey(old(data).users[u].email) == e.email ==> old(data).users[u].enabled)
              && (e.slug, "auth:auto_add") in old(data).config && old(data).config[(e.slug, "auth:auto_add")] == Packed(Bool(true))
              && e.authorize(if (e.slug, "auth:providers") in old(data).config && old(data).config[(e.slug, "auth:providers")].Packed?
                             then old(data).config[(e.slug, "auth:providers")].value else Nil,
                             if (e.slug, "auth:checks:" + e.provider) in old(data).config && old(data).config[(e.slug, "auth:checks:" + e.provider)].Packed?
                             then old(data).config[(e.slug, "auth:checks:" + e.provider)].value else Nil)
      ensures end.Already? <==>
              !end.Denied? &&
              exists u, t :: u in old(data).users && EmailKey(old(data).users[u].email) == e.email && (u, t) in old(data).members &&
                             t in old(data).tenants && old(data).tenants[t].slug == e.slug && old(data).tenants[t].enabled
      ensures !end.Added? ==> Contents() == old(Contents())
      ensures newId !in old(data).users && EmailKey(e.email) == e.email ==> !end.Broken?
      ensures end.Added? ==> AtomicEnroll(old(Contents()), e, end.user) == Some(Contents())
      ensures end.Added? ==> end.user == match FindUser(old(data), e.email) case Some(u) => u case None => newId
    {
      EligibleMeans(data, e);
      EnrolledMeans(data, e);
      var tenant := TenantByDomain(e.domain);
      if tenant.None? || !data.tenants[tenant.value].enabled || data.tenants[tenant.value].slug != e.slug {
        return Denied;
      }
      var user := UserByEmail(e.email);
      if user.Some? && !data.users[user.value].enabled {
        return Denied;
      }
      var flag := Config(e.slug, AUTO_ADD);
      if flag != Bool(true) {
        return Denied;
      }
      var providers := Config(e.slug, PROVIDERS);
      var checks := Config(e.slug, ChecksKey(e.provider));
      if !e.authorize(providers, checks) {
        return Denied;
      }
      if user.Some? && EnabledMember(data, user.value, e.slug) {
        return Already(user.value);
      }
      end := AddMember(e, tenant.value, user, newId);
    }

    method AddMember(e: Enroll, tenant: Id, user: Option<Id>, newId: Id) returns (end: EnrollEnd)
      requires Valid() && Eligible(data, e) && !Enrolled(data, e)
      requires DomainTenant(data, e.domain) == Some(tenant) && user == FindUser(data, e.email)
      modifies this
      ensures Valid() && (end.Added? || end.Broken?)
      ensures end.Broken? ==> Contents() == old(Contents())
      ensures newId !in old(data).users && EmailKey(e.email) == e.email ==> !end.Broken?
      ensures end.Added? ==> AtomicEnroll(old(Contents()), e, end.user) == Some(Contents())
      ensures end.Added? ==> end.user == if user.Some? then user.value else newId
    {
      var tx := new Transaction(revision, data, audit);
      ghost var start := Contents();
      var id, fields, error := FindOrInsertUser(e, tx, user, newId);
      if error.Some? {
        return Broken(error.value);
      }
      ghost var mid := tx.View();
      MemberInserts(start, e, id, tenant, mid);
      error := tx.InsertMember(id, tenant);
      match error {
        case Some(failure) => return Broken(failure);
        case None =>
      }
      MemberInserted(start, e, id, tenant, mid, tx.View());
      tx.audit := tx.audit + [EnrollRow(e, id, fields, tx.revision)];
      Commit(tx);
      return Added(id);
    }

    method FindOrInsertUser(e: Enroll, tx: Transaction, user: Option<Id>, newId: Id)
      returns (id: Id, fields: seq<string>, error: Option<SqlError>)
      requires tx.Valid() && Eligible(tx.data, e) && user == FindUser(tx.data, e.email)
      modifies tx
      ensures tx.Valid()
      ensures error.None? ==>
                && UserStep(old(tx.View()), e, id) == Ok(tx.View()) && tx.audit == old(tx.audit)
                && fields == Fields(old(tx.data), e)
                && id == if user.Some? then user.value else newId
      ensures newId !in old(tx.data).users && EmailKey(e.email) == e.email ==> error.None?
    {
      fields := ["membership"];
      if user.Some? {
        return user.value, fields, None;
      }
      ghost var start := tx.View();
      if newId !in tx.data.users && EmailKey(e.email) == e.email {
        UserInserts(start, e, newId);
      }
      error := tx.InsertUser(newId, NewUser(e));
      fields := fields + ["user"];
      if error.None? {
        UserInserted(start, e, newId, tx.View());
      }
      return newId, fields, error;
    }
  }
}
