/**
 The whole registry (tables, revision, audit trail) and the two transactions on it as single
 transitions: an operator write of internal/admin/store.go, and AutoAddUser of
 internal/mtdb/enrollment.go. Module Transactions proves that the interleaved statements of
 concurrent transactions amount to these.
 */
module Enrollment {
  import opened Values
  import opened ConfigKeys
  import opened Registry
  import opened Operators

  /** What an audit row names: a membership, or the path of an operator request. */
  datatype Resource = Membership(user: Id, slug: string) | Path(path: string)

  datatype AuditRow = AuditRow(operator: string, action: string, resource: Resource, fields: seq<string>, revision: int)

  datatype Db = Db(revision: int, data: Registry, audit: seq<AuditRow>)

  // ---- reads of internal/mtdb ----------------------------------------------

  ghost function ConfigValue(d: Registry, slug: string, key: string): Any {
    if (slug, key) in d.config && d.config[(slug, key)].Packed? then d.config[(slug, key)].value else Nil
  }

  ghost function DomainTenant(d: Registry, domain: string): Option<Id> {
    if domain in d.domains && HasSlug(d.tenants, d.domains[domain])
    then Some(SlugId(d.tenants, d.domains[domain]))
    else None
  }

  ghost function FindUser(d: Registry, email: string): Option<Id> {
    if HasEmail(d.users, email) then Some(EmailId(d.users, email)) else None
  }

  /** An email names at most one user. */
  lemma EmailNamesUser(d: Registry, email: string, u: Id)
    requires SchemaOk(d) && u in d.users && EmailKey(d.users[u].email) == email
    ensures FindUser(d, email) == Some(u)
  {
  }

  // ---- an operator write ---------------------------------------------------

  datatype Write = Write(expected: int, actor: string, action: string, path: string, fields: seq<string>, op: Operation)

  function Bumps(stmts: seq<Stmt>): nat {
    if stmts == [] then 0
    else Bumps(stmts[..|stmts| - 1]) + if Writes(stmts[|stmts| - 1]) then 1 else 0
  }

  function WriteRow(w: Write, revision: int): AuditRow {
    AuditRow(w.actor, w.action, Path(w.path), w.fields, revision)
  }

  datatype WriteError = RevisionConflict | Rejected(error: SqlError)

  ghost function AtomicWrite(db: Db, w: Write): Result<Db, WriteError> {
    if db.revision != w.expected then Err(RevisionConflict)
    else match ExecAll(db.data, Plan(w.op))
      case Err(e) => Err(Rejected(e))
      case Ok(d) =>
        var revision := db.revision + Bumps(Plan(w.op));
        Ok(Db(revision, d, db.audit + [WriteRow(w, revision)]))
  }

  // ---- automatic enrollment ------------------------------------------------

  const SYSTEM := "system:auto-add"
  const ADDED := "auto_add"

  datatype Enroll = Enroll(email: string, name: string, domain: string, slug: string, provider: string,
                           authorize: (Any, Any) -> bool)

  /** The domain belongs to this enabled tenant. */
  ghost predicate TenantAllows(d: Registry, e: Enroll, t: Id) {
    DomainTenant(d, e.domain) == Some(t) && t in d.tenants && d.tenants[t].enabled && d.tenants[t].slug == e.slug
  }

  ghost predicate UserAllows(d: Registry, e: Enroll) {
    FindUser(d, e.email).Some? ==> d.users[FindUser(d, e.email).value].enabled
  }

  ghost predicate Eligible(d: Registry, e: Enroll) {
    && DomainTenant(d, e.domain).Some?
    && TenantAllows(d, e, DomainTenant(d, e.domain).value)
    && UserAllows(d, e)
    && ConfigValue(d, e.slug, AUTO_ADD) == Bool(true)
    && e.authorize(ConfigValue(d, e.slug, PROVIDERS), ConfigValue(d, e.slug, ChecksKey(e.provider)))
  }

  /** Eligibility in terms of the rows: the domain maps to that enabled tenant, the flag row holds a
      packed true, every user with the email is enabled, and the policy rows authorize, an absent or
      null one standing for nil. */
  lemma EligibleMeans(d: Registry, e: Enroll)
    requires SchemaOk(d)
    ensures Eligible(d, e) <==>
            && e.domain in d.domains && d.domains[e.domain] == e.slug
            && (exists t :: t in d.tenants && d.tenants[t].slug == e.slug && d.tenants[t].enabled)
            && (forall u :: u in d.users && EmailKey(d.users[u].email) == e.email ==> d.users[u].enabled)
            && (e.slug, "auth:auto_add") in d.config && d.config[(e.slug, "auth:auto_add")] == Packed(Bool(true))
            && e.authorize(if (e.slug, "auth:providers") in d.config && d.config[(e.slug, "auth:providers")].Packed?
                           then d.config[(e.slug, "auth:providers")].value else Nil,
                           if (e.slug, "auth:checks:" + e.provider) in d.config && d.config[(e.slug, "auth:checks:" + e.provider)].Packed?
                           then d.config[(e.slug, "auth:checks:" + e.provider)].value else Nil)
  {
    if t :| t in d.tenants && d.tenants[t].slug == e.slug && d.tenants[t].enabled {
      SlugNamesTenant(d, e.slug, t);
    }
    if HasEmail(d.users, e.email) {
      EmailNamesUser(d, e.email, EmailId(d.users, e.email));
    }
  }

  /** Being enrolled, in terms of the rows. */
  lemma EnrolledMeans(d: Registry, e: Enroll)
    requires SchemaOk(d)
    ensures Enrolled(d, e) <==>
            exists u, t :: u in d.users && EmailKey(d.users[u].email) == e.email && (u, t) in d.members &&
                           t in d.tenants && d.tenants[t].slug == e.slug && d.tenants[t].enabled
  {
    if u, t :| u in d.users && EmailKey(d.users[u].email) == e.email && (u, t) in d.members &&
               t in d.tenants && d.tenants[t].slug == e.slug && d.tenants[t].enabled {
      EmailNamesUser(d, e.email, u);
    }
  }

  ghost predicate Enrolled(d: Registry, e: Enroll) {
    FindUser(d, e.email).Some? && EnabledMember(d, FindUser(d, e.email).value, e.slug)
  }

  function NewUser(e: Enroll): User {
    User(e.email, e.name, true, Some(e.slug))
  }

  ghost function Fields(d: Registry, e: Enroll): seq<string> {
    if FindUser(d, e.email).Some? then ["membership"] else ["membership", "user"]
  }

  function EnrollRow(e: Enroll, user: Id, fields: seq<string>, revision: int): AuditRow {
    AuditRow(SYSTEM, ADDED, Membership(user, e.slug), fields, revision)
  }

  /** The member's user row: found, or inserted under the id the database generated. */
  ghost function UserStep(db: Db, e: Enroll, user: Id): Result<Db, SqlError> {
    match FindUser(db.data, e.email)
    case Some(found) => if user == found then Ok(db) else Err(Invalid)
    case None =>
      match DoInsertUser(db.data, user, NewUser(e))
      case Err(error) => Err(error)
      case Ok(d) => Ok(Db(db.revision + 1, d, db.audit))
  }

  ghost function MemberStep(db: Db, e: Enroll, user: Id): Result<Db, SqlError>
    requires DomainTenant(db.data, e.domain).Some?
  {
    match UserStep(db, e, user)
    case Err(error) => Err(error)
    case Ok(mid) =>
      match DoInsertMember(mid.data, user, DomainTenant(db.data, e.domain).value)
      case Err(error) => Err(error)
      case Ok(d) => Ok(Db(mid.revision + 1, d, db.audit))
  }

  /** AutoAddUser as one transition: None leaves the registry as it was. `user` is the id of the
      enrolled user, which the database chooses when it inserts the row. */
  ghost function AtomicEnroll(db: Db, e: Enroll, user: Id): Option<Db> {
    if !Eligible(db.data, e) || Enrolled(db.data, e) then None
    else match MemberStep(db, e, user)
      case Err(_) => None
      case Ok(end) =>
        Some(end.(audit := db.audit + [EnrollRow(e, user, Fields(db.data, e), end.revision)]))
  }
}
