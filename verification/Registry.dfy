/**
 The five registry tables, the SQL statements of internal/admin and internal/mtdb as functions on
 them, and the operator's write operations as lists of statements. Tables are maps from their keys;
 a statement that breaks a constraint of migrations/001_auth.sql is an error.
 */
module Registry {
  import opened Values
  import opened Text

  type Id = string

  datatype Tenant = Tenant(slug: string, name: string, enabled: bool, metadata: map<string, Any>)

  datatype User = User(email: string, name: string, enabled: bool, defaultTenant: Option<string>)

  /** auth_checks of one membership: provider to claim rules. */
  type Overrides = map<string, Claims>

  /** A tenant_config value: SQL NULL (or no bytes), or an encoded value. */
  datatype Cell = Null | Packed(value: Any)

  datatype Registry = Registry(
    tenants: map<Id, Tenant>,
    users: map<Id, User>,
    members: map<(Id, Id), Overrides>,
    domains: map<string, string>,
    config: map<(string, string), Cell>)

  // ---- lookups and constraints ---------------------------------------------

  function SlugKey(slug: string): string {
    Lower(Trim(slug, SPACE))
  }

  function EmailKey(email: string): string {
    Lower(Trim(email, SPACE))
  }

  predicate HasSlug(tenants: map<Id, Tenant>, slug: string) {
    exists t :: t in tenants && tenants[t].slug == slug
  }

  ghost function SlugId(tenants: map<Id, Tenant>, slug: string): (t: Id)
    requires HasSlug(tenants, slug)
    ensures t in tenants && tenants[t].slug == slug
  {
    var t :| t in tenants && tenants[t].slug == slug;
    t
  }

  predicate HasEmail(users: map<Id, User>, email: string) {
    exists u :: u in users && EmailKey(users[u].email) == email
  }

  ghost function EmailId(users: map<Id, User>, email: string): (u: Id)
    requires HasEmail(users, email)
    ensures u in users && EmailKey(users[u].email) == email
  {
    var u :| u in users && EmailKey(users[u].email) == email;
    u
  }

  /** Padding and letter case do not tell emails or slugs apart. */
  lemma KeysIgnorePadding(left: string, s: string, right: string)
    requires AllIn(left, {' '}) && AllIn(right, {' '}) && s != "" && Trimmed(s, {' '})
    ensures EmailKey(left + s + right) == Lower(s) && SlugKey(left + s + right) == Lower(s)
  {
    TrimPadded(left, s, right, SPACE);
  }

  /** Normalizing an email once is enough. */
  lemma EmailKeyStays(email: string)
    ensures EmailKey(EmailKey(email)) == EmailKey(email)
  {
    var s := Trim(email, SPACE);
    TrimIsTrimmed(email, SPACE);
    assert Trimmed(Lower(s), SPACE);
    TrimmedStays(Lower(s), SPACE);
    LowerStays(s);
  }

  /** A slug names at most one tenant. */
  lemma SlugNamesTenant(d: Registry, slug: string, t: Id)
    requires SchemaOk(d) && t in d.tenants && d.tenants[t].slug == slug
    ensures HasSlug(d.tenants, slug) && SlugId(d.tenants, slug) == t
  {
  }

  ghost predicate SlugsUnique(tenants: map<Id, Tenant>) {
    forall t, t' :: t in tenants && t' in tenants && SlugKey(tenants[t].slug) == SlugKey(tenants[t'].slug) ==> t == t'
  }

  ghost predicate EmailsUnique(users: map<Id, User>) {
    forall u, u' :: u in users && u' in users && EmailKey(users[u].email) == EmailKey(users[u'].email) ==> u == u'
  }

  ghost predicate ReferencesOk(d: Registry) {
    && (forall u :: u in d.users && d.users[u].defaultTenant.Some? ==> HasSlug(d.tenants, d.users[u].defaultTenant.value))
    && (forall m :: m in d.members ==> m.0 in d.users && m.1 in d.tenants)
    && (forall dom :: dom in d.domains ==> HasSlug(d.tenants, d.domains[dom]))
    && (forall k :: k in d.config ==> HasSlug(d.tenants, k.0))
  }

  /** Unique indexes and foreign keys. Domains are keyed by their normalized form. */
  ghost predicate SchemaOk(d: Registry) {
    SlugsUnique(d.tenants) && EmailsUnique(d.users) && ReferencesOk(d)
  }

  /** User `u` has a membership in an enabled tenant of that slug. */
  predicate EnabledMember(d: Registry, u: Id, slug: string) {
    exists t :: (u, t) in d.members && t in d.tenants && d.tenants[t].slug == slug && d.tenants[t].enabled
  }

  /** Every stored default names an enabled tenant its user is a member of. */
  ghost predicate DefaultsOk(d: Registry) {
    forall u :: u in d.users && d.users[u].defaultTenant.Some? ==> EnabledMember(d, u, d.users[u].defaultTenant.value)
  }

  // ---- statements ----------------------------------------------------------

  datatype SqlError = NotFound | Duplicate | ForeignKey | Invalid

  datatype Stmt =
    | Refuse(error: SqlError)
    | RequireTenant(slug: string)
    | RequireUser(user: Id)
    | RequireDefault(user: Id, slug: string)
    | InsertTenant(tenant: Id, row: Tenant)
    | UpdateTenant(slug: string, name: string, enabled: bool, metadata: map<string, Any>)
    | ClearDefaults(slug: string)
    | InsertUser(user: Id, account: User)
    | UpdateUser(user: Id, email: string, name: string, enabled: bool, default: Option<string>)
    | InsertMember(user: Id, tenant: Id)
    | InsertMemberOf(user: Id, slug: string)
    | DeleteMember(user: Id, slug: string)
    | ClearDefault(user: Id, slug: string)
    | SetOverrides(user: Id, slug: string, overrides: Overrides)
    | InsertDomain(domain: string, slug: string)
    | DeleteDomain(domain: string, slug: string)
    | PutConfig(slug: string, key: string, value: Any)
    | DeleteConfig(slug: string, key: string)
    | Replace(registry: Registry)

  /** Statements on the five tables fire the revision trigger; reads do not. */
  predicate Writes(stmt: Stmt) {
    !(stmt.Refuse? || stmt.RequireTenant? || stmt.RequireUser? || stmt.RequireDefault?)
  }

  function NonNull(metadata: map<string, Any>): map<string, Any> {
    map k | k in metadata && metadata[k] != Nil :: metadata[k]
  }

  /** The stored default after an update: unchanged, cleared by "", or replaced. */
  function NewDefault(stored: Option<string>, input: Option<string>): Option<string> {
    match input
    case None => stored
    case Some(slug) => if slug == "" then None else Some(slug)
  }

  function WithoutDefault(users: map<Id, User>, slug: string): map<Id, User> {
    map u | u in users :: if users[u].defaultTenant == Some(slug) then users[u].(defaultTenant := None) else users[u]
  }

  predicate EmailTaken(users: map<Id, User>, email: string, except: set<Id>) {
    exists u :: u in users && u !in except && EmailKey(users[u].email) == EmailKey(email)
  }

  predicate SlugTaken(tenants: map<Id, Tenant>, slug: string) {
    exists t :: t in tenants && SlugKey(tenants[t].slug) == SlugKey(slug)
  }

  function DoInsertTenant(d: Registry, tenant: Id, row: Tenant): Result<Registry, SqlError> {
    if tenant in d.tenants || SlugTaken(d.tenants, row.slug) then Err(Duplicate)
    else Ok(d.(tenants := d.tenants[tenant := row.(metadata := NonNull(row.metadata))]))
  }

  ghost function DoUpdateTenant(d: Registry, slug: string, name: string, enabled: bool, metadata: map<string, Any>): Result<Registry, SqlError> {
    if !HasSlug(d.tenants, slug) then Ok(d)
    else
      var t := SlugId(d.tenants, slug);
      var merged := (d.tenants[t].metadata + metadata) - (metadata.Keys - NonNull(metadata).Keys);
      Ok(d.(tenants := d.tenants[t := Tenant(d.tenants[t].slug, name, enabled, merged)]))
  }

  function DoClearDefaults(d: Registry, slug: string): Result<Registry, SqlError> {
    Ok(d.(users := WithoutDefault(d.users, slug)))
  }

  function DoInsertUser(d: Registry, user: Id, account: User): Result<Registry, SqlError> {
    if user in d.users || EmailTaken(d.users, account.email, {}) then Err(Duplicate)
    else if account.defaultTenant.Some? && !HasSlug(d.tenants, account.defaultTenant.value) then Err(ForeignKey)
    else Ok(d.(users := d.users[user := account]))
  }

  function DoUpdateUser(d: Registry, user: Id, email: string, name: string, enabled: bool, default: Option<string>): Result<Registry, SqlError> {
    if user !in d.users then Ok(d)
    else
      var next := NewDefault(d.users[user].defaultTenant, default);
      if EmailTaken(d.users, email, {user}) then Err(Duplicate)
      else if next.Some? && !HasSlug(d.tenants, next.value) then Err(ForeignKey)
      else Ok(d.(users := d.users[user := User(email, name, enabled, next)]))
  }

  function DoInsertMember(d: Registry, user: Id, tenant: Id): Result<Registry, SqlError> {
    if user !in d.users || tenant !in d.tenants then Err(ForeignKey)
    else if (user, tenant) in d.members then Err(Duplicate)
    else Ok(d.(members := d.members[(user, tenant) := map[]]))
  }

  ghost function DoInsertMemberOf(d: Registry, user: Id, slug: string): Result<Registry, SqlError> {
    if !HasSlug(d.tenants, slug) then Ok(d)
    else if user !in d.users then Err(ForeignKey)
    else if (user, SlugId(d.tenants, slug)) in d.members then Err(Duplicate)
    else Ok(d.(members := d.members[(user, SlugId(d.tenants, slug)) := map[]]))
  }

  ghost function DoDeleteMember(d: Registry, user: Id, slug: string): Result<Registry, SqlError> {
    if HasSlug(d.tenants, slug) && (user, SlugId(d.tenants, slug)) in d.members
    then Ok(d.(members := d.members - {(user, SlugId(d.tenants, slug))}))
    else Err(NotFound)
  }

  function DoClearDefault(d: Registry, user: Id, slug: string): Result<Registry, SqlError> {
    if user in d.users && d.users[user].defaultTenant == Some(slug)
    then Ok(d.(users := d.users[user := d.users[user].(defaultTenant := None)]))
    else Ok(d)
  }

  ghost function DoSetOverrides(d: Registry, user: Id, slug: string, overrides: Overrides): Result<Registry, SqlError> {
    if HasSlug(d.tenants, slug) && (user, SlugId(d.tenants, slug)) in d.members
    then Ok(d.(members := d.members[(user, SlugId(d.tenants, slug)) := overrides]))
    else Err(NotFound)
  }

  function DoInsertDomain(d: Registry, domain: string, slug: string): Result<Registry, SqlError> {
    if domain in d.domains then Err(Duplicate)
    else if !HasSlug(d.tenants, slug) then Err(ForeignKey)
    else Ok(d.(domains := d.domains[domain := slug]))
  }

  function DoDeleteDomain(d: Registry, domain: string, slug: string): Result<Registry, SqlError> {
    if domain in d.domains && d.domains[domain] == slug
    then Ok(d.(domains := d.domains - {domain}))
    else Err(NotFound)
  }

  function DoPutConfig(d: Registry, slug: string, key: string, value: Any): Result<Registry, SqlError> {
    if HasSlug(d.tenants, slug) then Ok(d.(config := d.config[(slug, key) := Packed(value)])) else Err(ForeignKey)
  }

  function DoDeleteConfig(d: Registry, slug: string, key: string): Result<Registry, SqlError> {
    Ok(d.(config := d.config - {(slug, key)}))
  }

  ghost function Exec(d: Registry, stmt: Stmt): Result<Registry, SqlError> {
    match stmt
    case Refuse(error) => Err(error)
    case RequireTenant(slug) => if HasSlug(d.tenants, slug) then Ok(d) else Err(NotFound)
    case RequireUser(user) => if user in d.users then Ok(d) else Err(NotFound)
    case RequireDefault(user, slug) => if slug == "" || EnabledMember(d, user, slug) then Ok(d) else Err(Invalid)
    case InsertTenant(tenant, row) => DoInsertTenant(d, tenant, row)
    case UpdateTenant(slug, name, enabled, metadata) => DoUpdateTenant(d, slug, name, enabled, metadata)
    case ClearDefaults(slug) => DoClearDefaults(d, slug)
    case InsertUser(user, account) => DoInsertUser(d, user, account)
    case UpdateUser(user, email, name, enabled, default) => DoUpdateUser(d, user, email, name, enabled, default)
    case InsertMember(user, tenant) => DoInsertMember(d, user, tenant)
    case InsertMemberOf(user, slug) => DoInsertMemberOf(d, user, slug)
    case DeleteMember(user, slug) => DoDeleteMember(d, user, slug)
    case ClearDefault(user, slug) => DoClearDefault(d, user, slug)
    case SetOverrides(user, slug, overrides) => DoSetOverrides(d, user, slug, overrides)
    case InsertDomain(domain, slug) => DoInsertDomain(d, domain, slug)
    case DeleteDomain(domain, slug) => DoDeleteDomain(d, domain, slug)
    case PutConfig(slug, key, value) => DoPutConfig(d, slug, key, value)
    case DeleteConfig(slug, key) => DoDeleteConfig(d, slug, key)
    case Replace(registry) => if SchemaOk(registry) then Ok(registry) else Err(ForeignKey)
  }

  ghost function ExecAll(d: Registry, stmts: seq<Stmt>): Result<Registry, SqlError>
    decreases |stmts|
  {
    if stmts == [] then Ok(d)
    else match Exec(d, stmts[0])
      case Err(e) => Err(e)
      case Ok(next) => ExecAll(next, stmts[1..])
  }

  /** Tenants are never removed by a statement, nor their slugs changed. */
  lemma SlugsStay(tenants: map<Id, Tenant>, more: map<Id, Tenant>)
    requires forall t :: t in tenants ==> t in more && more[t].slug == tenants[t].slug
    ensures forall slug :: HasSlug(tenants, slug) ==> HasSlug(more, slug)
  {
  }

  lemma InsertTenantKeepsSchema(d: Registry, tenant: Id, row: Tenant)
    requires SchemaOk(d) && DoInsertTenant(d, tenant, row).Ok?
    ensures SchemaOk(DoInsertTenant(d, tenant, row).value)
  {
    SlugsStay(d.tenants, DoInsertTenant(d, tenant, row).value.tenants);
  }

  /** Constraints of the other tables survive a change of tenants that keeps their ids and slugs. */
  lemma TenantsEdited(d: Registry, tenants: map<Id, Tenant>)
    requires SchemaOk(d) && tenants.Keys == d.tenants.Keys
    requires forall t :: t in tenants ==> tenants[t].slug == d.tenants[t].slug
    ensures SchemaOk(d.(tenants := tenants))
  {
  }

  /** An update finds at most the one row, and keeps its id and slug. */
  lemma UpdateTenantKeepsSlugs(d: Registry, slug: string, name: string, enabled: bool, metadata: map<string, Any>)
    ensures DoUpdateTenant(d, slug, name, enabled, metadata).Ok?
    ensures var e := DoUpdateTenant(d, slug, name, enabled, metadata).value;
            && e == d.(tenants := e.tenants) && e.tenants.Keys == d.tenants.Keys
            && forall t :: t in e.tenants ==> e.tenants[t].slug == d.tenants[t].slug
  {
  }

  lemma UpdateTenantKeepsSchema(d: Registry, slug: string, name: string, enabled: bool, metadata: map<string, Any>)
    requires SchemaOk(d)
    ensures SchemaOk(DoUpdateTenant(d, slug, name, enabled, metadata).value)
  {
    UpdateTenantKeepsSlugs(d, slug, name, enabled, metadata);
    TenantsEdited(d, DoUpdateTenant(d, slug, name, enabled, metadata).value.tenants);
  }

  lemma ClearDefaultsKeepsSchema(d: Registry, slug: string)
    requires SchemaOk(d) && DoClearDefaults(d, slug).Ok?
    ensures SchemaOk(DoClearDefaults(d, slug).value)
  {
  }

  lemma InsertUserKeepsSchema(d: Registry, user: Id, account: User)
    requires SchemaOk(d) && DoInsertUser(d, user, account).Ok?
    ensures SchemaOk(DoInsertUser(d, user, account).value)
  {
  }

  lemma UpdateUserKeepsSchema(d: Registry, user: Id, email: string, name: string, enabled: bool, default: Option<string>)
    requires SchemaOk(d) && DoUpdateUser(d, user, email, name, enabled, default).Ok?
    ensures SchemaOk(DoUpdateUser(d, user, email, name, enabled, default).value)
  {
  }

  lemma InsertMemberKeepsSchema(d: Registry, user: Id, tenant: Id)
    requires SchemaOk(d) && DoInsertMember(d, user, tenant).Ok?
    ensures SchemaOk(DoInsertMember(d, user, tenant).value)
  {
  }

  lemma InsertMemberOfKeepsSchema(d: Registry, user: Id, slug: string)
    requires SchemaOk(d) && DoInsertMemberOf(d, user, slug).Ok?
    ensures SchemaOk(DoInsertMemberOf(d, user, slug).value)
  {
  }

  lemma DeleteMemberKeepsSchema(d: Registry, user: Id, slug: string)
    requires SchemaOk(d) && DoDeleteMember(d, user, slug).Ok?
    ensures SchemaOk(DoDeleteMember(d, user, slug).value)
  {
  }

  lemma ClearDefaultKeepsSchema(d: Registry, user: Id, slug: string)
    requires SchemaOk(d) && DoClearDefault(d, user, slug).Ok?
    ensures SchemaOk(DoClearDefault(d, user, slug).value)
  {
  }

  lemma SetOverridesKeepsSchema(d: Registry, user: Id, slug: string, overrides: Overrides)
    requires SchemaOk(d) && DoSetOverrides(d, user, slug, overrides).Ok?
    ensures SchemaOk(DoSetOverrides(d, user, slug, overrides).value)
  {
  }

  lemma InsertDomainKeepsSchema(d: Registry, domain: string, slug: string)
    requires SchemaOk(d) && DoInsertDomain(d, domain, slug).Ok?
    ensures SchemaOk(DoInsertDomain(d, domain, slug).value)
  {
  }

  lemma DeleteDomainKeepsSchema(d: Registry, domain: string, slug: string)
    requires SchemaOk(d) && DoDeleteDomain(d, domain, slug).Ok?
    ensures SchemaOk(DoDeleteDomain(d, domain, slug).value)
  {
  }

  lemma PutConfigKeepsSchema(d: Registry, slug: string, key: string, value: Any)
    requires SchemaOk(d) && DoPutConfig(d, slug, key, value).Ok?
    ensures SchemaOk(DoPutConfig(d, slug, key, value).value)
  {
  }

  lemma DeleteConfigKeepsSchema(d: Registry, slug: string, key: string)
    requires SchemaOk(d) && DoDeleteConfig(d, slug, key).Ok?
    ensures SchemaOk(DoDeleteConfig(d, slug, key).value)
  {
  }

  predicate OnTenantsOrUsers(stmt: Stmt) {
    stmt.InsertTenant? || stmt.UpdateTenant? || stmt.ClearDefaults? || stmt.InsertUser? || stmt.UpdateUser? || stmt.ClearDefault?
  }

  lemma TableKeepsSchema(d: Registry, stmt: Stmt)
    requires SchemaOk(d) && Exec(d, stmt).Ok? && OnTenantsOrUsers(stmt)
    ensures SchemaOk(Exec(d, stmt).value)
  {
    match stmt
    case InsertTenant(tenant, row) => InsertTenantKeepsSchema(d, tenant, row);
    case UpdateTenant(slug, name, enabled, metadata) => UpdateTenantKeepsSchema(d, slug, name, enabled, metadata);
    case ClearDefaults(slug) => ClearDefaultsKeepsSchema(d, slug);
    case InsertUser(user, account) => InsertUserKeepsSchema(d, user, account);
    case UpdateUser(user, email, name, enabled, default) => UpdateUserKeepsSchema(d, user, email, name, enabled, default);
    case ClearDefault(user, slug) => ClearDefaultKeepsSchema(d, user, slug);
  }

  /** The constraints hold after every statement. */
  lemma ExecKeepsSchema(d: Registry, stmt: Stmt)
    requires SchemaOk(d) && Exec(d, stmt).Ok?
    ensures SchemaOk(Exec(d, stmt).value)
  {
    if OnTenantsOrUsers(stmt) {
      TableKeepsSchema(d, stmt);
    } else {
      match stmt
      case InsertMember(user, tenant) => InsertMemberKeepsSchema(d, user, tenant);
      case InsertMemberOf(user, slug) => InsertMemberOfKeepsSchema(d, user, slug);
      case DeleteMember(user, slug) => DeleteMemberKeepsSchema(d, user, slug);
      case SetOverrides(user, slug, overrides) => SetOverridesKeepsSchema(d, user, slug, overrides);
      case InsertDomain(domain, slug) => InsertDomainKeepsSchema(d, domain, slug);
      case DeleteDomain(domain, slug) => DeleteDomainKeepsSchema(d, domain, slug);
      case PutConfig(slug, key, value) => PutConfigKeepsSchema(d, slug, key, value);
      case DeleteConfig(slug, key) => DeleteConfigKeepsSchema(d, slug, key);
      case _ =>
    }
  }
}
