/**
 Operator writes, enrollments and platform writes as interleaved statements. One step is one SQL
 statement (or begin, commit, rollback) of one transaction; a write, or SELECT ... FOR UPDATE, of
 the revision row takes the row lock, and only its holder can write the five tables. A transaction
 reads the committed registry overlaid with its own statements, whatever has been committed since.
 `base` is history: the committed registry when the transaction took the lock.
 */
module Transactions {
  import opened Values
  import opened ConfigKeys
  import opened Registry
  import opened Operators
  import opened Enrollment

  datatype Job = Operator(write: Write) | Enroller(enroll: Enroll) | Platform

  datatype Effect = Wrote(stmt: Stmt) | Audited(row: AuditRow)

  /** What getUserWithTenants told the enrollment. */
  datatype Found = Found(user: Id, enabled: bool, member: bool)

  datatype Phase =
    | Begun
    | Operating(next: nat)
    | Auditing(revision: int)
    | FindTenant
    | LoadUser(tenant: Id)
    | ReadFlag(tenant: Id, found: Option<Found>)
    | ReadProviders(tenant: Id, found: Option<Found>)
    | ReadChecks(tenant: Id, found: Option<Found>, providers: Any)
    | AddUser(tenant: Id)
    | AddMember(tenant: Id, user: Id, fields: seq<string>)
    | Reread(user: Id, fields: seq<string>)
    | AddAudit(user: Id, fields: seq<string>, revision: int)
    | Writing
    | Ready(enrolled: Option<Id>)
    | Done(committed: bool)

  datatype Tx = Tx(job: Job, phase: Phase, base: Db, work: seq<Effect>)

  datatype State = State(db: Db, holder: Option<nat>, txs: seq<Tx>)

  datatype Step =
    | Begin(job: Job)
    | Lock(x: nat)
    | Advance(x: nat, newId: Id)
    | PlatformWrite(x: nat, stmt: Stmt)
    | Commit(x: nat)
    | Rollback(x: nat)

  ghost function Apply(db: Db, effect: Effect): Db {
    match effect
    case Audited(row) => db.(audit := db.audit + [row])
    case Wrote(stmt) =>
      match Exec(db.data, stmt)
      case Err(_) => db
      case Ok(d) => Db(db.revision + 1, d, db.audit)
  }

  /** `db` as a transaction that has executed `work` sees it. */
  ghost function Replay(db: Db, work: seq<Effect>): Db {
    if work == [] then db else Apply(Replay(db, work[..|work| - 1]), work[|work| - 1])
  }

  ghost function View(s: State, x: nat): Db
    requires x < |s.txs|
  {
    Replay(s.db, s.txs[x].work)
  }

  predicate Holding(phase: Phase) {
    !phase.Begun? && !phase.Done?
  }

  // ---- steps ---------------------------------------------------------------

  function Set(s: State, x: nat, phase: Phase): State
    requires x < |s.txs|
  {
    s.(txs := s.txs[x := s.txs[x].(phase := phase)])
  }

  function SetWork(s: State, x: nat, phase: Phase, effect: Effect): State
    requires x < |s.txs|
  {
    s.(txs := s.txs[x := s.txs[x].(phase := phase, work := s.txs[x].work + [effect])])
  }

  function RolledBack(s: State, x: nat): State
    requires x < |s.txs|
  {
    Set(s, x, Done(false)).(holder := if s.holder == Some(x) then None else s.holder)
  }

  function DoBegin(s: State, job: Job): State {
    s.(txs := s.txs + [Tx(job, Begun, s.db, [])])
  }

  function Take(s: State, x: nat, phase: Phase): State
    requires x < |s.txs|
  {
    s.(txs := s.txs[x := Tx(s.txs[x].job, phase, s.db, [])], holder := Some(x))
  }

  /** SELECT revision ... FOR UPDATE: it waits for the lock and then reads the newest revision. */
  function DoLock(s: State, x: nat): State {
    if x < |s.txs| && s.txs[x].phase.Begun? && s.holder.None? then
      match s.txs[x].job
      case Operator(w) => if s.db.revision != w.expected then RolledBack(s, x) else Take(s, x, Operating(0))
      case Enroller(_) => Take(s, x, FindTenant)
      case Platform => s
    else s
  }

  ghost function Lookup(d: Registry, e: Enroll): Option<Found> {
    match FindUser(d, e.email)
    case None => None
    case Some(u) => Some(Found(u, u in d.users && d.users[u].enabled, EnabledMember(d, u, e.slug)))
  }

  ghost function OperatorStep(s: State, x: nat, w: Write): State
    requires x < |s.txs|
  {
    var view := View(s, x);
    match s.txs[x].phase
    case Operating(next) =>
      if next < |Plan(w.op)| then
        var stmt := Plan(w.op)[next];
        if Exec(view.data, stmt).Err? then RolledBack(s, x)
        else if Writes(stmt) then SetWork(s, x, Operating(next + 1), Wrote(stmt))
        else Set(s, x, Operating(next + 1))
      else Set(s, x, Auditing(view.revision))
    case Auditing(revision) => SetWork(s, x, Ready(None), Audited(WriteRow(w, revision)))
    case _ => s
  }

  /** The reads of AutoAddUser, each of the view at its own moment. */
  ghost function EnrollRead(s: State, x: nat, e: Enroll): State
    requires x < |s.txs|
  {
    var d := View(s, x).data;
    match s.txs[x].phase
    case FindTenant =>
      if DomainTenant(d, e.domain).Some? && TenantAllows(d, e, DomainTenant(d, e.domain).value)
      then Set(s, x, LoadUser(DomainTenant(d, e.domain).value))
      else RolledBack(s, x)
    case LoadUser(tenant) =>
      if Lookup(d, e).Some? && !Lookup(d, e).value.enabled then RolledBack(s, x)
      else Set(s, x, ReadFlag(tenant, Lookup(d, e)))
    case ReadFlag(tenant, found) =>
      if ConfigValue(d, e.slug, AUTO_ADD) == Bool(true) then Set(s, x, ReadProviders(tenant, found)) else RolledBack(s, x)
    case ReadProviders(tenant, found) => Set(s, x, ReadChecks(tenant, found, ConfigValue(d, e.slug, PROVIDERS)))
    case ReadChecks(tenant, found, providers) =>
      if !e.authorize(providers, ConfigValue(d, e.slug, ChecksKey(e.provider))) then RolledBack(s, x)
      else if found.None? then Set(s, x, AddUser(tenant))
      else if found.value.member then Set(s, x, Ready(None))
      else Set(s, x, AddMember(tenant, found.value.user, ["membership"]))
    case _ => s
  }

  /** Its writes. */
  ghost function EnrollWrite(s: State, x: nat, e: Enroll, newId: Id): State
    requires x < |s.txs|
  {
    var view := View(s, x);
    match s.txs[x].phase
    case AddUser(tenant) =>
      if Exec(view.data, InsertUser(newId, NewUser(e))).Err? then RolledBack(s, x)
      else SetWork(s, x, AddMember(tenant, newId, ["membership", "user"]), Wrote(InsertUser(newId, NewUser(e))))
    case AddMember(tenant, user, fields) =>
      if Exec(view.data, InsertMember(user, tenant)).Err? then RolledBack(s, x)
      else SetWork(s, x, Reread(user, fields), Wrote(InsertMember(user, tenant)))
    case Reread(user, fields) => Set(s, x, AddAudit(user, fields, view.revision))
    case AddAudit(user, fields, revision) =>
      SetWork(s, x, Ready(Some(user)), Audited(EnrollRow(e, user, fields, revision)))
    case _ => s
  }

  predicate Reading(phase: Phase) {
    phase.FindTenant? || phase.LoadUser? || phase.ReadFlag? || phase.ReadProviders? || phase.ReadChecks?
  }

  ghost function DoAdvance(s: State, x: nat, newId: Id): State {
    if x < |s.txs| && s.holder == Some(x) then
      match s.txs[x].job
      case Operator(w) => OperatorStep(s, x, w)
      case Enroller(e) => if Reading(s.txs[x].phase) then EnrollRead(s, x, e) else EnrollWrite(s, x, e, newId)
      case Platform => s
    else s
  }

  /** Any statement of another program: its trigger takes the lock before it changes a row. */
  ghost function DoPlatformWrite(s: State, x: nat, stmt: Stmt): State {
    if x < |s.txs| && s.txs[x].job.Platform? && Writes(stmt) then
      if s.txs[x].phase.Begun? && s.holder.None? && Exec(s.db.data, stmt).Ok? then
        SetWork(Take(s, x, Writing), x, Writing, Wrote(stmt))
      else if s.txs[x].phase.Writing? && Exec(View(s, x).data, stmt).Ok? then SetWork(s, x, Writing, Wrote(stmt))
      else s
    else s
  }

  ghost function DoCommit(s: State, x: nat): State {
    if x < |s.txs| && (s.txs[x].phase.Ready? || s.txs[x].phase.Writing?)
    then Set(s, x, Done(true)).(db := View(s, x), holder := None)
    else s
  }

  function DoRollback(s: State, x: nat): State {
    if x < |s.txs| && !s.txs[x].phase.Done? then RolledBack(s, x) else s
  }

  ghost function Next(s: State, step: Step): State {
    match step
    case Begin(job) => DoBegin(s, job)
    case Lock(x) => DoLock(s, x)
    case Advance(x, newId) => DoAdvance(s, x, newId)
    case PlatformWrite(x, stmt) => DoPlatformWrite(s, x, stmt)
    case Commit(x) => DoCommit(s, x)
    case Rollback(x) => DoRollback(s, x)
  }

  ghost function Run(s: State, steps: seq<Step>): State
    decreases |steps|
  {
    if steps == [] then s else Run(Next(s, steps[0]), steps[1..])
  }

  // ---- the invariant -------------------------------------------------------

  ghost predicate PlanDone(base: Db, w: Write, view: Db, next: nat) {
    && base.revision == w.expected
    && next <= |Plan(w.op)|
    && ExecAll(base.data, Plan(w.op)[..next]) == Ok(view.data)
    && view.revision == base.revision + Bumps(Plan(w.op)[..next])
    && view.audit == base.audit
  }

  ghost predicate OperatorOk(base: Db, w: Write, view: Db, phase: Phase) {
    match phase
    case Operating(next) => PlanDone(base, w, view, next)
    case Auditing(revision) => PlanDone(base, w, view, |Plan(w.op)|) && revision == view.revision
    case Ready(_) => AtomicWrite(base, w) == Ok(view)
    case _ => false
  }

  ghost predicate TenantRead(base: Db, e: Enroll, tenant: Id) {
    TenantAllows(base.data, e, tenant)
  }

  ghost predicate UserRead(base: Db, e: Enroll, found: Option<Found>) {
    found == Lookup(base.data, e) && UserAllows(base.data, e)
  }

  ghost predicate Chosen(base: Db, e: Enroll, tenant: Id) {
    Eligible(base.data, e) && !Enrolled(base.data, e) && TenantRead(base, e, tenant)
  }

  ghost predicate EnrollOk(base: Db, e: Enroll, view: Db, phase: Phase) {
    match phase
    case FindTenant => view == base
    case LoadUser(tenant) => view == base && TenantRead(base, e, tenant)
    case ReadFlag(tenant, found) => view == base && TenantRead(base, e, tenant) && UserRead(base, e, found)
    case ReadProviders(tenant, found) =>
      view == base && TenantRead(base, e, tenant) && UserRead(base, e, found) && ConfigValue(base.data, e.slug, AUTO_ADD) == Bool(true)
    case ReadChecks(tenant, found, providers) =>
      && view == base && TenantRead(base, e, tenant) && UserRead(base, e, found) && ConfigValue(base.data, e.slug, AUTO_ADD) == Bool(true)
      && providers == ConfigValue(base.data, e.slug, PROVIDERS)
    case AddUser(tenant) => view == base && Chosen(base, e, tenant) && FindUser(base.data, e.email).None?
    case AddMember(tenant, user, fields) =>
      Chosen(base, e, tenant) && UserStep(base, e, user) == Ok(view) && fields == Fields(base.data, e)
    case Reread(user, fields) =>
      && Eligible(base.data, e) && !Enrolled(base.data, e)
      && MemberStep(base, e, user) == Ok(view) && fields == Fields(base.data, e)
    case AddAudit(user, fields, revision) =>
      && Eligible(base.data, e) && !Enrolled(base.data, e)
      && MemberStep(base, e, user) == Ok(view) && fields == Fields(base.data, e) && revision == view.revision
    case Ready(None) => view == base && Eligible(base.data, e) && Enrolled(base.data, e)
    case Ready(Some(user)) => AtomicEnroll(base, e, user) == Some(view)
    case _ => false
  }

  ghost predicate PlatformOk(base: Db, view: Db, phase: Phase) {
    && phase.Writing?
    && view.audit == base.audit && view.revision > base.revision
    && SchemaOk(view.data)
  }

  ghost predicate TxOk(job: Job, base: Db, view: Db, phase: Phase) {
    match job
    case Operator(w) => OperatorOk(base, w, view, phase)
    case Enroller(e) => EnrollOk(base, e, view, phase)
    case Platform => PlatformOk(base, view, phase)
  }

  /** The lock holder is the only transaction past its first statement, it is working on the
      committed registry of the moment it took the lock, and no one has changed that since. */
  ghost predicate Inv(s: State) {
    && SchemaOk(s.db.data)
    && (forall x :: 0 <= x < |s.txs| ==> (Holding(s.txs[x].phase) <==> s.holder == Some(x)))
    && (s.holder.Some? ==>
          && s.holder.value < |s.txs|
          && var tx := s.txs[s.holder.value];
             && tx.base == s.db
             && TxOk(tx.job, tx.base, Replay(tx.base, tx.work), tx.phase))
  }
}
