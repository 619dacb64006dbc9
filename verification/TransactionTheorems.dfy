/** What the revision lock promises, in every run of interleaved transactions. */
module TransactionTheorems {
  import opened Values
  import opened Registry
  import opened Operators
  import opened Enrollment
  import opened Transactions
  import opened TransactionProofs

  ghost predicate Reachable(s: State) {
    exists db: Db, steps :: SchemaOk(db.data) && s == Run(State(db, None, []), steps)
  }

  lemma {:induction false} RunKeeps(s: State, steps: seq<Step>)
    requires Inv(s)
    ensures Inv(Run(s, steps))
    decreases |steps|
  {
    if steps != [] {
      NextKeeps(s, steps[0]);
      RunKeeps(Next(s, steps[0]), steps[1..]);
    }
  }

  lemma ReachableOk(s: State)
    requires Reachable(s)
    ensures Inv(s)
  {
    var db: Db, steps :| SchemaOk(db.data) && s == Run(State(db, None, []), steps);
    RunKeeps(State(db, None, []), steps);
  }

  /** Unique indexes and foreign keys hold of every committed registry. */
  lemma SchemaAlwaysOk(s: State)
    requires Reachable(s)
    ensures SchemaOk(s.db.data)
  {
    ReachableOk(s);
  }

  // ---- refinement ----------------------------------------------------------

  /** What one commit may do to the registry it finds. */
  ghost predicate AtomicNext(db: Db, end: Db, job: Job) {
    match job
    case Operator(w) => AtomicWrite(db, w) == Ok(end)
    case Enroller(e) => end == db || exists user :: AtomicEnroll(db, e, user) == Some(end)
    case Platform => end.audit == db.audit && end.revision > db.revision && SchemaOk(end.data)
  }

  lemma OnlyCommitsWrite(s: State, step: Step)
    requires !step.Commit?
    ensures Next(s, step).db == s.db
  {
  }

  lemma CommitIsAtomic(s: State, x: nat)
    requires Inv(s)
    ensures DoCommit(s, x).db == s.db || (x < |s.txs| && AtomicNext(s.db, DoCommit(s, x).db, s.txs[x].job))
  {
  }

  /** Only a commit changes the registry, and it is one atomic transition from what was committed. */
  lemma CommitsAreAtomic(s: State, step: Step)
    requires Inv(s)
    ensures Next(s, step).db == s.db ||
            (step.Commit? && step.x < |s.txs| && AtomicNext(s.db, Next(s, step).db, s.txs[step.x].job))
  {
    if step.Commit? {
      CommitIsAtomic(s, step.x);
    } else {
      OnlyCommitsWrite(s, step);
    }
  }

  /** A transaction keeps its job and base while it works, and never starts again. */
  ghost predicate Continues(a: Tx, b: Tx) {
    && b.job == a.job
    && (a.phase.Done? ==> b.phase.Done?)
    && (Holding(a.phase) && Holding(b.phase) ==> b.base == a.base)
    && (Holding(a.phase) ==> !b.phase.Begun?)
  }

  lemma AdvanceContinues(s: State, x: nat, newId: Id)
    requires x < |s.txs|
    ensures var t := DoAdvance(s, x, newId);
            |t.txs| == |s.txs| && Continues(s.txs[x], t.txs[x]) &&
            forall y :: 0 <= y < |s.txs| && y != x ==> t.txs[y] == s.txs[y]
  {
  }

  lemma BasePersists(s: State, step: Step, x: nat)
    requires x < |s.txs|
    ensures x < |Next(s, step).txs| && Continues(s.txs[x], Next(s, step).txs[x])
  {
    if step.Advance? && step.x < |s.txs| {
      AdvanceContinues(s, step.x, step.newId);
    }
  }

  lemma {:induction false} BasePersistsOverRuns(s: State, steps: seq<Step>, x: nat)
    requires x < |s.txs| && !s.txs[x].phase.Begun?
    ensures x < |Run(s, steps).txs| && !Run(s, steps).txs[x].phase.Begun?
    ensures Holding(Run(s, steps).txs[x].phase) ==>
              Holding(s.txs[x].phase) && Run(s, steps).txs[x].base == s.txs[x].base
    decreases |steps|
  {
    if steps != [] {
      BasePersists(s, steps[0], x);
      BasePersistsOverRuns(Next(s, steps[0]), steps[1..], x);
    }
  }

  /** From the moment a transaction holds the lock until it ends, whatever the others do, the
      committed registry is the one it locked, and every read sees that plus its own statements. */
  lemma LockFreezesRegistry(s: State, x: nat, steps: seq<Step>)
    requires Reachable(s) && x < |s.txs| && s.txs[x].phase.Begun?
    requires Holding(Next(s, Lock(x)).txs[x].phase)
    requires var t := Run(Next(s, Lock(x)), steps); x < |t.txs| && Holding(t.txs[x].phase)
    ensures var t := Run(Next(s, Lock(x)), steps);
            t.holder == Some(x) && t.db == s.db && View(t, x) == Replay(s.db, t.txs[x].work)
  {
    ReachableOk(s);
    NextKeeps(s, Lock(x));
    var locked := Next(s, Lock(x));
    assert locked.txs[x].base == s.db;
    BasePersistsOverRuns(locked, steps, x);
    RunKeeps(locked, steps);
  }

  // ---- revisions -----------------------------------------------------------

  lemma {:induction false} NoWritesNoChange(d: Registry, stmts: seq<Stmt>)
    requires ExecAll(d, stmts).Ok? && Bumps(stmts) == 0
    ensures ExecAll(d, stmts).value == d
    decreases |stmts|
  {
    if stmts != [] {
      var n := |stmts| - 1;
      assert stmts == stmts[..n] + [stmts[n]];
      ExecAllThen(d, stmts[..n], stmts[n]);
      NoWritesNoChange(d, stmts[..n]);
    }
  }

  lemma AtomicNextRevision(db: Db, end: Db, job: Job)
    requires AtomicNext(db, end, job)
    ensures db.revision <= end.revision
    ensures db.revision == end.revision ==> end.data == db.data
  {
    match job
    case Operator(w) =>
      if Bumps(Plan(w.op)) == 0 {
        NoWritesNoChange(db.data, Plan(w.op));
      }
    case Enroller(e) =>
    case Platform =>
  }

  /** The revision names the data of all five tables: it never goes back, and two moments of a run
      with the same committed revision have the same data. */
  lemma {:induction false} RevisionDeterminesData(s: State, steps: seq<Step>)
    requires Inv(s)
    ensures s.db.revision <= Run(s, steps).db.revision
    ensures s.db.revision == Run(s, steps).db.revision ==> Run(s, steps).db.data == s.db.data
    decreases |steps|
  {
    if steps != [] {
      var t := Next(s, steps[0]);
      CommitsAreAtomic(s, steps[0]);
      if t.db != s.db {
        AtomicNextRevision(s.db, t.db, s.txs[steps[0].x].job);
      }
      NextKeeps(s, steps[0]);
      RevisionDeterminesData(t, steps[1..]);
    }
  }

  // ---- no lost update ------------------------------------------------------

  /** A write that expected the revision an operator read commits only on the data that was read. */
  lemma NoLostUpdate(s: State, steps: seq<Step>, x: nat, w: Write)
    requires Reachable(s)
    requires var t := Run(s, steps);
             x < |t.txs| && t.txs[x].job == Operator(w) && t.txs[x].phase.Ready? && w.expected == s.db.revision
    ensures var t := Run(s, steps);
            t.db.data == s.db.data && AtomicWrite(t.db, w) == Ok(Next(t, Commit(x)).db)
  {
    ReachableOk(s);
    RunKeeps(s, steps);
    RevisionDeterminesData(s, steps);
  }

  /** A write whose expected revision is already behind never commits anything, in any run. */
  lemma StaleWriteNeverCommits(s: State, steps: seq<Step>, x: nat, w: Write)
    requires Inv(s) && w.expected < s.db.revision
    requires var t := Run(s, steps); x < |t.txs| && t.txs[x].job == Operator(w)
    ensures var t := Run(s, steps); Next(t, Commit(x)).db == t.db
  {
    RunKeeps(s, steps);
    RevisionDeterminesData(s, steps);
    CommitsAreAtomic(Run(s, steps), Commit(x));
  }

  // ---- enrollment ----------------------------------------------------------

  /** What an enrollment commits: it was eligible where it committed, it adds one membership with no
      overrides (and the user, if absent), it touches nothing else, and its audit row carries the
      revision it commits. */
  lemma EnrollmentFrame(db: Db, e: Enroll, user: Id)
    requires SchemaOk(db.data) && AtomicEnroll(db, e, user).Some?
    ensures var end := AtomicEnroll(db, e, user).value;
            && Eligible(db.data, e) && !Enrolled(db.data, e)
            && EnabledMember(end.data, user, e.slug)
            && user in end.data.users && end.data.users[user].enabled
            && (match FindUser(db.data, e.email)
                case Some(found) => user == found && end.data.users == db.data.users && end.revision == db.revision + 1
                case None => user !in db.data.users && end.data.users == db.data.users[user := NewUser(e)] && end.revision == db.revision + 2)
            && (user, DomainTenant(db.data, e.domain).value) !in db.data.members
            && end.data == db.data.(users := end.data.users,
                                    members := db.data.members[(user, DomainTenant(db.data, e.domain).value) := map[]])
            && end.audit == db.audit + [EnrollRow(e, user, Fields(db.data, e), end.revision)]
            && EnrollRow(e, user, Fields(db.data, e), end.revision) ==
               AuditRow("system:auto-add", "auto_add", Membership(user, e.slug),
                        if user in db.data.users then ["membership"] else ["membership", "user"], end.revision)
            && (user !in db.data.users ==> end.data.users[user] == User(e.email, e.name, true, Some(e.slug)))
    ensures e.domain in db.data.domains && db.data.domains[e.domain] == e.slug
    ensures exists t :: t in db.data.tenants && db.data.tenants[t].slug == e.slug && db.data.tenants[t].enabled
    ensures forall u :: u in db.data.users && EmailKey(db.data.users[u].email) == e.email ==> db.data.users[u].enabled
    ensures (e.slug, "auth:auto_add") in db.data.config && db.data.config[(e.slug, "auth:auto_add")] == Packed(Bool(true))
  {
    EligibleMeans(db.data, e);
  }

  /** In every run, a membership row enters the audit trail only by such an enrollment. */
  lemma EnrollmentRowsAreSound(s: State, step: Step)
    requires Inv(s) && Next(s, step).db.audit != s.db.audit
    ensures |Next(s, step).db.audit| > 0
    ensures var row := Next(s, step).db.audit[|Next(s, step).db.audit| - 1];
            && step.Commit? && step.x < |s.txs| &&
            (row.resource.Membership? ==>
               && s.txs[step.x].job.Enroller?
               && row.operator == SYSTEM && row.action == ADDED && row.revision == Next(s, step).db.revision
               && AtomicEnroll(s.db, s.txs[step.x].job.enroll, row.resource.user) == Some(Next(s, step).db))
  {
    CommitsAreAtomic(s, step);
    if s.txs[step.x].job.Enroller? {
      var e := s.txs[step.x].job.enroll;
      var u :| AtomicEnroll(s.db, e, u) == Some(Next(s, step).db);
      EnrollmentFrame(s.db, e, u);
    }
  }

  // ---- audit rows against memberships ----------------------------------------

  ghost predicate HasMember(d: Registry, user: Id, slug: string) {
    HasSlug(d.tenants, slug) && (user, SlugId(d.tenants, slug)) in d.members
  }

  ghost function Count(b: bool): nat {
    if b then 1 else 0
  }

  function Rows(audit: seq<AuditRow>, user: Id, slug: string): nat {
    if audit == [] then 0
    else Rows(audit[..|audit| - 1], user, slug) +
         if audit[|audit| - 1].resource == Membership(user, slug) then 1 else 0
  }

  lemma RowsThen(audit: seq<AuditRow>, row: AuditRow, user: Id, slug: string)
    ensures Rows(audit + [row], user, slug) == Rows(audit, user, slug) + if row.resource == Membership(user, slug) then 1 else 0
  {
  }

  /** How often, in a run, a committed membership disappears. */
  ghost function Removals(s: State, steps: seq<Step>, user: Id, slug: string): nat
    decreases |steps|
  {
    if steps == [] then 0
    else
      var t := Next(s, steps[0]);
      Count(HasMember(s.db.data, user, slug) && !HasMember(t.db.data, user, slug)) + Removals(t, steps[1..], user, slug)
  }

  /** An enrollment row comes with its membership; no other transition adds one. */
  lemma AtomicAddsRow(db: Db, end: Db, job: Job, user: Id, slug: string)
    requires SchemaOk(db.data) && AtomicNext(db, end, job)
    ensures Rows(end.audit, user, slug) + Count(HasMember(db.data, user, slug))
            <= Rows(db.audit, user, slug) + Count(HasMember(end.data, user, slug))
               + Count(HasMember(db.data, user, slug) && !HasMember(end.data, user, slug))
  {
    match job
    case Operator(w) => RowsThen(db.audit, WriteRow(w, end.revision), user, slug);
    case Platform =>
    case Enroller(e) =>
      if end != db {
        var u :| AtomicEnroll(db, e, u) == Some(end);
        EnrollmentFrame(db, e, u);
        RowsThen(db.audit, EnrollRow(e, u, Fields(db.data, e), end.revision), user, slug);
        SlugNamesTenant(db.data, e.slug, DomainTenant(db.data, e.domain).value);
        assert end.data.tenants == db.data.tenants;
      }
  }

  lemma StepAddsRow(s: State, step: Step, user: Id, slug: string)
    requires Inv(s)
    ensures var t := Next(s, step);
            Rows(t.db.audit, user, slug) + Count(HasMember(s.db.data, user, slug))
            <= Rows(s.db.audit, user, slug) + Count(HasMember(t.db.data, user, slug))
               + Count(HasMember(s.db.data, user, slug) && !HasMember(t.db.data, user, slug))
  {
    CommitsAreAtomic(s, step);
    if Next(s, step).db != s.db {
      AtomicAddsRow(s.db, Next(s, step).db, s.txs[step.x].job, user, slug);
    }
  }

  /** In every run, the enrollment rows of a membership are at most its removals plus one, and none
      without a removal if it existed before: concurrent sign-ins enroll exactly once. */
  lemma {:induction false} EnrolledAtMostOnce(s: State, steps: seq<Step>, user: Id, slug: string)
    requires Inv(s)
    ensures Rows(Run(s, steps).db.audit, user, slug) + Count(HasMember(s.db.data, user, slug))
            <= Rows(s.db.audit, user, slug) + Count(HasMember(Run(s, steps).db.data, user, slug)) + Removals(s, steps, user, slug)
    decreases |steps|
  {
    if steps != [] {
      StepAddsRow(s, steps[0], user, slug);
      NextKeeps(s, steps[0]);
      EnrolledAtMostOnce(Next(s, steps[0]), steps[1..], user, slug);
    }
  }

  // ---- defaults ------------------------------------------------------------

  lemma EnrollKeepsDefaults(db: Db, e: Enroll, user: Id)
    requires SchemaOk(db.data) && DefaultsOk(db.data) && AtomicEnroll(db, e, user).Some?
    ensures DefaultsOk(AtomicEnroll(db, e, user).value.data)
  {
    EnrollmentFrame(db, e, user);
    var end := AtomicEnroll(db, e, user).value.data;
    forall u | u in end.users && end.users[u].defaultTenant.Some?
      ensures EnabledMember(end, u, end.users[u].defaultTenant.value)
    {
      if u in db.data.users {
        assert EnabledMember(db.data, u, db.data.users[u].defaultTenant.value);
      }
    }
  }

  lemma AtomicKeepsDefaults(db: Db, end: Db, job: Job)
    requires SchemaOk(db.data) && DefaultsOk(db.data) && AtomicNext(db, end, job) && !job.Platform?
    ensures DefaultsOk(end.data)
  {
    match job
    case Operator(w) => OperationKeepsDefaults(db.data, w.op);
    case Enroller(e) =>
      if end != db {
        var u :| AtomicEnroll(db, e, u) == Some(end);
        EnrollKeepsDefaults(db, e, u);
      }
  }

  /** No unfinished transaction is another program's. */
  predicate NoPlatform(s: State) {
    forall x :: 0 <= x < |s.txs| && !s.txs[x].phase.Done? ==> !s.txs[x].job.Platform?
  }

  lemma NoPlatformStays(s: State, step: Step)
    requires NoPlatform(s) && !(step.Begin? && step.job.Platform?)
    ensures NoPlatform(Next(s, step))
  {
    var t := Next(s, step);
    forall x | 0 <= x < |t.txs| && !t.txs[x].phase.Done? ensures !t.txs[x].job.Platform? {
      if x < |s.txs| {
        BasePersists(s, step, x);
      } else {
        TxsGrowByBegin(s, step);
      }
    }
  }

  lemma TxsGrowByBegin(s: State, step: Step)
    ensures step.Begin? ==> Next(s, step).txs == s.txs + [Tx(step.job, Begun, s.db, [])]
    ensures !step.Begin? ==> |Next(s, step).txs| == |s.txs|
  {
  }

  /** In every run in which no other program begins or is under way, every stored default stays an
      enabled membership. */
  lemma {:induction false} DefaultsAlwaysOk(s: State, steps: seq<Step>)
    requires Inv(s) && DefaultsOk(s.db.data) && NoPlatform(s)
    requires forall i :: 0 <= i < |steps| ==> !(steps[i].Begin? && steps[i].job.Platform?)
    ensures DefaultsOk(Run(s, steps).db.data)
    decreases |steps|
  {
    if steps != [] {
      NextKeeps(s, steps[0]);
      CommitsAreAtomic(s, steps[0]);
      if Next(s, steps[0]).db != s.db {
        AtomicKeepsDefaults(s.db, Next(s, steps[0]).db, s.txs[steps[0].x].job);
      }
      NoPlatformStays(s, steps[0]);
      DefaultsAlwaysOk(Next(s, steps[0]), steps[1..]);
    }
  }
}
