/**
 Enrollment happens once: in every run of enrollments and of operator writes that do not undo it, an
 enrolled email keeps its one user and membership, and every further attempt changes nothing.
 */
module ExactlyOnce {
  import opened Values
  import opened Registry
  import opened Operators
  import opened Enrollment
  import opened Transactions
  import opened TransactionProofs
  import opened TransactionTheorems

  // ---- who is enrolled -------------------------------------------------------

  /** User `u` has the email, and its membership in tenant `t` of that slug is in force. */
  ghost predicate Holds(d: Registry, email: string, slug: string, u: Id, t: Id) {
    && u in d.users && EmailKey(d.users[u].email) == EmailKey(email)
    && (u, t) in d.members && t in d.tenants && d.tenants[t].slug == slug && d.tenants[t].enabled
  }

  lemma EnrolledHolds(d: Registry, e: Enroll) returns (u: Id, t: Id)
    requires SchemaOk(d) && Enrolled(d, e)
    ensures FindUser(d, e.email) == Some(u) && Holds(d, e.email, e.slug, u, t)
  {
    u := FindUser(d, e.email).value;
    t :| (u, t) in d.members && t in d.tenants && d.tenants[t].slug == e.slug && d.tenants[t].enabled;
    EmailKeyStays(d.users[u].email);
  }

  lemma EnrollmentHolds(db: Db, e: Enroll, u: Id)
    requires SchemaOk(db.data) && AtomicEnroll(db, e, u).Some?
    ensures Holds(AtomicEnroll(db, e, u).value.data, e.email, e.slug, u, DomainTenant(db.data, e.domain).value)
  {
    EnrollmentFrame(db, e, u);
    if FindUser(db.data, e.email).Some? {
      EmailKeyStays(db.data.users[u].email);
    }
  }

  lemma OneUserPerEmail(d: Registry, email: string, slug: string, u: Id, t: Id, v: Id)
    requires SchemaOk(d) && Holds(d, email, slug, u, t)
    requires v in d.users && EmailKey(d.users[v].email) == EmailKey(email)
    ensures v == u
  {
  }

  /** No attempt of that email and slug, with whatever claims, is an enrollment. */
  lemma HeldRefuses(db: Db, again: Enroll, slug: string, u: Id, t: Id, other: Id)
    requires SchemaOk(db.data) && Holds(db.data, again.email, slug, u, t) && again.slug == slug
    ensures AtomicEnroll(db, again, other) == None
  {
    match FindUser(db.data, again.email)
    case Some(found) =>
      EmailKeyStays(db.data.users[found].email);
      OneUserPerEmail(db.data, again.email, slug, u, t, found);
    case None =>
      assert EmailTaken(db.data.users, again.email, {});
  }

  /** Right after an enrollment, every attempt of its email and slug leaves everything as it is. */
  lemma EnrollOnce(db: Db, e: Enroll, user: Id, again: Enroll, other: Id)
    requires SchemaOk(db.data) && AtomicEnroll(db, e, user).Some?
    requires again.email == e.email && again.slug == e.slug
    ensures AtomicEnroll(AtomicEnroll(db, e, user).value, again, other) == None
  {
    StepsKeepSchema(db, e, user);
    EnrollmentHolds(db, e, user);
    HeldRefuses(AtomicEnroll(db, e, user).value, again, e.slug, user, DomainTenant(db.data, e.domain).value, other);
  }

  // ---- statements and operations that leave an enrollment in force ---------------

  /** The statement does not disable that tenant, change that user's email or remove the membership. */
  predicate Spares(stmt: Stmt, email: string, slug: string, u: Id) {
    match stmt
    case UpdateTenant(s, _, enabled, _) => s == slug ==> enabled
    case UpdateUser(user, address, _, _, _) => user == u ==> EmailKey(address) == EmailKey(email)
    case DeleteMember(user, s) => user == u ==> s != slug
    case Replace(_) => false
    case _ => true
  }

  lemma TenantOrUserSpares(d: Registry, stmt: Stmt, email: string, slug: string, u: Id, t: Id)
    requires Holds(d, email, slug, u, t) && Spares(stmt, email, slug, u) && Exec(d, stmt).Ok? && OnTenantsOrUsers(stmt)
    ensures Holds(Exec(d, stmt).value, email, slug, u, t)
  {
  }

  lemma StatementSpares(d: Registry, stmt: Stmt, email: string, slug: string, u: Id, t: Id)
    requires Holds(d, email, slug, u, t) && Spares(stmt, email, slug, u) && Exec(d, stmt).Ok?
    ensures Holds(Exec(d, stmt).value, email, slug, u, t)
  {
    if OnTenantsOrUsers(stmt) {
      TenantOrUserSpares(d, stmt, email, slug, u, t);
    }
  }

  lemma {:induction false} StatementsSpare(d: Registry, stmts: seq<Stmt>, email: string, slug: string, u: Id, t: Id)
    requires Holds(d, email, slug, u, t) && ExecAll(d, stmts).Ok?
    requires forall i :: 0 <= i < |stmts| ==> Spares(stmts[i], email, slug, u)
    ensures Holds(ExecAll(d, stmts).value, email, slug, u, t)
    decreases |stmts|
  {
    if stmts != [] {
      StatementSpares(d, stmts[0], email, slug, u, t);
      StatementsSpare(Exec(d, stmts[0]).value, stmts[1..], email, slug, u, t);
    }
  }

  /** The operator does not disable that tenant, change that user's email or remove the membership. */
  predicate SparesOperation(op: Operation, email: string, slug: string, u: Id) {
    match op
    case EditTenant(s, _, enabled, _) => s == slug ==> enabled
    case EditUser(user, address, _, _, _) => user == u ==> EmailKey(address) == EmailKey(email)
    case RemoveMembership(user, s) => user == u ==> s != slug
    case _ => true
  }

  lemma {:induction false} PolicySpares(s: string, writes: seq<PolicyWrite>, email: string, slug: string, u: Id)
    ensures forall i :: 0 <= i < |PolicyStmts(s, writes)| ==> Spares(PolicyStmts(s, writes)[i], email, slug, u)
  {
    if writes != [] {
      PolicySpares(s, writes[1..], email, slug, u);
    }
  }

  lemma PlanSpares(op: Operation, email: string, slug: string, u: Id)
    requires SparesOperation(op, email, slug, u)
    ensures forall i :: 0 <= i < |Plan(op)| ==> Spares(Plan(op)[i], email, slug, u)
  {
    if op.EditPolicy? {
      PolicySpares(op.slug, op.writes, email, slug, u);
    }
  }

  // ---- transitions and runs ----------------------------------------------------

  predicate SparesJob(job: Job, email: string, slug: string, u: Id) {
    match job
    case Operator(w) => SparesOperation(w.op, email, slug, u)
    case Enroller(_) => true
    case Platform => false
  }

  lemma AnotherEnrollmentSpares(db: Db, e: Enroll, v: Id, email: string, slug: string, u: Id, t: Id)
    requires SchemaOk(db.data) && Holds(db.data, email, slug, u, t) && AtomicEnroll(db, e, v).Some?
    ensures var end := AtomicEnroll(db, e, v).value;
            Holds(end.data, email, slug, u, t) && Rows(end.audit, u, slug) == Rows(db.audit, u, slug)
  {
    SlugNamesTenant(db.data, slug, t);
    SlugNamesTenant(db.data, e.slug, DomainTenant(db.data, e.domain).value);
    EnrollmentFrame(db, e, v);
    RowsThen(db.audit, EnrollRow(e, v, Fields(db.data, e), AtomicEnroll(db, e, v).value.revision), u, slug);
  }

  lemma TransitionSpares(db: Db, end: Db, job: Job, email: string, slug: string, u: Id, t: Id)
    requires SchemaOk(db.data) && Holds(db.data, email, slug, u, t)
    requires AtomicNext(db, end, job) && SparesJob(job, email, slug, u)
    ensures Holds(end.data, email, slug, u, t) && Rows(end.audit, u, slug) == Rows(db.audit, u, slug)
  {
    match job
    case Operator(w) =>
      PlanSpares(w.op, email, slug, u);
      StatementsSpare(db.data, Plan(w.op), email, slug, u, t);
      RowsThen(db.audit, WriteRow(w, end.revision), u, slug);
    case Enroller(e) =>
      if end != db {
        var v :| AtomicEnroll(db, e, v) == Some(end);
        AnotherEnrollmentSpares(db, e, v, email, slug, u, t);
      }
  }

  /** Every transaction that is not yet over spares the enrollment. */
  predicate AllSpare(s: State, email: string, slug: string, u: Id) {
    forall x :: 0 <= x < |s.txs| && !s.txs[x].phase.Done? ==> SparesJob(s.txs[x].job, email, slug, u)
  }

  predicate StepsSpare(steps: seq<Step>, email: string, slug: string, u: Id) {
    forall i :: 0 <= i < |steps| && steps[i].Begin? ==> SparesJob(steps[i].job, email, slug, u)
  }

  lemma AllSpareStays(s: State, step: Step, email: string, slug: string, u: Id)
    requires AllSpare(s, email, slug, u) && (step.Begin? ==> SparesJob(step.job, email, slug, u))
    ensures AllSpare(Next(s, step), email, slug, u)
  {
    var t := Next(s, step);
    TxsGrowByBegin(s, step);
    forall x | 0 <= x < |t.txs| && !t.txs[x].phase.Done? ensures SparesJob(t.txs[x].job, email, slug, u) {
      if x < |s.txs| {
        BasePersists(s, step, x);
      }
    }
  }

  lemma StepSpares(s: State, step: Step, email: string, slug: string, u: Id, t: Id)
    requires Inv(s) && Holds(s.db.data, email, slug, u, t) && AllSpare(s, email, slug, u)
    ensures Holds(Next(s, step).db.data, email, slug, u, t)
    ensures Rows(Next(s, step).db.audit, u, slug) == Rows(s.db.audit, u, slug)
  {
    CommitsAreAtomic(s, step);
    if Next(s, step).db != s.db {
      TransitionSpares(s.db, Next(s, step).db, s.txs[step.x].job, email, slug, u, t);
    }
  }

  lemma {:induction false} RunSpares(s: State, steps: seq<Step>, email: string, slug: string, u: Id, t: Id)
    requires Inv(s) && Holds(s.db.data, email, slug, u, t)
    requires AllSpare(s, email, slug, u) && StepsSpare(steps, email, slug, u)
    ensures Inv(Run(s, steps)) && Holds(Run(s, steps).db.data, email, slug, u, t)
    ensures Rows(Run(s, steps).db.audit, u, slug) == Rows(s.db.audit, u, slug)
    decreases |steps|
  {
    if steps != [] {
      StepSpares(s, steps[0], email, slug, u, t);
      NextKeeps(s, steps[0]);
      AllSpareStays(s, steps[0], email, slug, u);
      RunSpares(Next(s, steps[0]), steps[1..], email, slug, u, t);
    }
  }

  lemma AttemptChangesNothing(s: State, x: nat, again: Enroll, u: Id, t: Id)
    requires Inv(s) && Holds(s.db.data, again.email, again.slug, u, t)
    requires x < |s.txs| && s.txs[x].job == Enroller(again)
    ensures Next(s, Commit(x)).db == s.db
  {
    CommitsAreAtomic(s, Commit(x));
    var end := Next(s, Commit(x)).db;
    if end != s.db {
      var v :| AtomicEnroll(s.db, again, v) == Some(end);
      HeldRefuses(s.db, again, again.slug, u, t, v);
    }
  }

  /** From any state in which an email is enrolled, in every run of enrollments, of whatever emails, and
      of operator writes that do not disable the tenant, change the user's email or remove the
      membership: the email keeps its one user and its membership in force, no enrollment row for them
      is added, and the commit of every attempt of that email and tenant changes nothing at all. */
  lemma LaterAttemptsChangeNothing(s: State, steps: seq<Step>, e: Enroll, x: nat, again: Enroll)
    requires Inv(s) && Enrolled(s.db.data, e)
    requires var u := FindUser(s.db.data, e.email).value;
             AllSpare(s, e.email, e.slug, u) && StepsSpare(steps, e.email, e.slug, u)
    ensures var u, end := FindUser(s.db.data, e.email).value, Run(s, steps);
            && FindUser(end.db.data, e.email) == Some(u) && Enrolled(end.db.data, e)
            && (forall v :: v in end.db.data.users && EmailKey(end.db.data.users[v].email) == EmailKey(e.email) ==> v == u)
            && Rows(end.db.audit, u, e.slug) == Rows(s.db.audit, u, e.slug)
            && (x < |end.txs| && end.txs[x].job == Enroller(again) && again.email == e.email && again.slug == e.slug ==>
                  Next(end, Commit(x)).db == end.db)
  {
    var u, t := EnrolledHolds(s.db.data, e);
    RunSpares(s, steps, e.email, e.slug, u, t);
    var end := Run(s, steps);
    EmailKeyStays(s.db.data.users[u].email);
    EmailNamesUser(end.db.data, e.email, u);
    if x < |end.txs| && end.txs[x].job == Enroller(again) && again.email == e.email && again.slug == e.slug {
      AttemptChangesNothing(end, x, again, u, t);
    }
  }

  /** Exactly once: the commit that enrolls an email adds one row, and after it, in every such run,
      there is still that one user, that one membership and that one row, whatever is attempted. */
  lemma EnrolledExactlyOnce(s: State, x: nat, e: Enroll, u: Id, steps: seq<Step>, y: nat, again: Enroll)
    requires Inv(s) && AtomicEnroll(s.db, e, u) == Some(Next(s, Commit(x)).db)
    requires AllSpare(s, e.email, e.slug, u) && StepsSpare(steps, e.email, e.slug, u)
    ensures var end := Run(Next(s, Commit(x)), steps);
            && u in end.db.data.users && EnabledMember(end.db.data, u, e.slug)
            && (forall v :: v in end.db.data.users && EmailKey(end.db.data.users[v].email) == EmailKey(e.email) ==> v == u)
            && Rows(end.db.audit, u, e.slug) == Rows(s.db.audit, u, e.slug) + 1
            && (y < |end.txs| && end.txs[y].job == Enroller(again) && again.email == e.email && again.slug == e.slug ==>
                  Next(end, Commit(y)).db == end.db)
  {
    var t := DomainTenant(s.db.data, e.domain).value;
    var first := Next(s, Commit(x));
    EnrollmentFrame(s.db, e, u);
    EnrollmentHolds(s.db, e, u);
    RowsThen(s.db.audit, EnrollRow(e, u, Fields(s.db.data, e), first.db.revision), u, e.slug);
    NextKeeps(s, Commit(x));
    AllSpareStays(s, Commit(x), e.email, e.slug, u);
    RunSpares(first, steps, e.email, e.slug, u, t);
    var end := Run(first, steps);
    if y < |end.txs| && end.txs[y].job == Enroller(again) && again.email == e.email && again.slug == e.slug {
      AttemptChangesNothing(end, y, again, u, t);
    }
  }
}
