/** Serialization: every run of interleaved statements is a sequence of atomic transitions. */
module TransactionProofs {
  import opened Values
  import opened ConfigKeys
  import opened Registry
  import opened Operators
  import opened Enrollment
  import opened Transactions

  // ---- replay and plans ----------------------------------------------------

  lemma {:induction false} ExecAllThen(d: Registry, stmts: seq<Stmt>, stmt: Stmt)
    ensures ExecAll(d, stmts + [stmt]) ==
            match ExecAll(d, stmts) case Err(e) => Err(e) case Ok(next) => Exec(next, stmt)
    decreases |stmts|
  {
    if stmts == [] {
      Exec1(d, stmt);
    } else {
      assert (stmts + [stmt])[1..] == stmts[1..] + [stmt];
      if Exec(d, stmts[0]).Ok? {
        ExecAllThen(Exec(d, stmts[0]).value, stmts[1..], stmt);
      }
    }
  }

  lemma PlanStep(base: Db, w: Write, view: Db, next: nat)
    requires PlanDone(base, w, view, next) && next < |Plan(w.op)|
    requires Exec(view.data, Plan(w.op)[next]).Ok?
    ensures PlanDone(base, w, if Writes(Plan(w.op)[next]) then Apply(view, Wrote(Plan(w.op)[next])) else view, next + 1)
  {
    var plan := Plan(w.op);
    assert plan[..next + 1] == plan[..next] + [plan[next]];
    ExecAllThen(base.data, plan[..next], plan[next]);
    assert plan[..next + 1][..next] == plan[..next];
  }

  // ---- each step keeps the invariant ----------------------------------------

  lemma SetKeeps(s: State, x: nat, phase: Phase)
    requires Inv(s) && s.holder == Some(x) && x < |s.txs| && Holding(phase)
    requires TxOk(s.txs[x].job, s.db, View(s, x), phase)
    ensures Inv(Set(s, x, phase))
  {
  }

  lemma SetWorkKeeps(s: State, x: nat, phase: Phase, effect: Effect)
    requires Inv(s) && s.holder == Some(x) && x < |s.txs| && Holding(phase)
    requires TxOk(s.txs[x].job, s.db, Apply(View(s, x), effect), phase)
    ensures Inv(SetWork(s, x, phase, effect))
  {
  }

  lemma RolledBackKeeps(s: State, x: nat)
    requires Inv(s) && x < |s.txs|
    ensures Inv(RolledBack(s, x))
  {
  }

  lemma LockKeeps(s: State, x: nat)
    requires Inv(s)
    ensures Inv(DoLock(s, x))
  {
    if x < |s.txs| && s.txs[x].job.Operator? {
      assert Plan(s.txs[x].job.write.op)[..0] == [];
    }
  }

  lemma OperatingKeeps(s: State, x: nat, w: Write, next: nat)
    requires Inv(s) && s.holder == Some(x) && s.txs[x].job == Operator(w) && s.txs[x].phase == Operating(next)
    requires next < |Plan(w.op)|
    ensures Inv(OperatorStep(s, x, w))
  {
    var view, stmt := View(s, x), Plan(w.op)[next];
    if Exec(view.data, stmt).Err? {
      RolledBackKeeps(s, x);
    } else {
      PlanStep(s.db, w, view, next);
      if Writes(stmt) {
        SetWorkKeeps(s, x, Operating(next + 1), Wrote(stmt));
      } else {
        SetKeeps(s, x, Operating(next + 1));
      }
    }
  }

  lemma WriteDone(base: Db, w: Write, view: Db, revision: int)
    requires OperatorOk(base, w, view, Auditing(revision))
    ensures OperatorOk(base, w, Apply(view, Audited(WriteRow(w, revision))), Ready(None))
  {
    assert Plan(w.op)[..|Plan(w.op)|] == Plan(w.op);
  }

  lemma AuditingKeeps(s: State, x: nat, w: Write, revision: int)
    requires Inv(s) && s.holder == Some(x) && s.txs[x].job == Operator(w) && s.txs[x].phase == Auditing(revision)
    ensures Inv(OperatorStep(s, x, w))
  {
    WriteDone(s.db, w, View(s, x), revision);
    SetWorkKeeps(s, x, Ready(None), Audited(WriteRow(w, revision)));
  }

  lemma PlanEndKeeps(s: State, x: nat, w: Write)
    requires Inv(s) && s.holder == Some(x) && s.txs[x].job == Operator(w) && s.txs[x].phase == Operating(|Plan(w.op)|)
    ensures Inv(OperatorStep(s, x, w))
  {
  }

  lemma OperatorKeeps(s: State, x: nat, w: Write)
    requires Inv(s) && s.holder == Some(x) && s.txs[x].job == Operator(w)
    ensures Inv(OperatorStep(s, x, w))
  {
    match s.txs[x].phase
    case Operating(next) =>
      assert OperatorOk(s.db, w, View(s, x), s.txs[x].phase);
      if next < |Plan(w.op)| {
        OperatingKeeps(s, x, w, next);
      } else {
        PlanEndKeeps(s, x, w);
      }
    case Auditing(revision) => AuditingKeeps(s, x, w, revision);
    case _ =>
  }

  lemma LookupTells(d: Registry, e: Enroll)
    ensures Lookup(d, e).None? <==> FindUser(d, e.email).None?
    ensures Lookup(d, e).Some? ==>
              && (Lookup(d, e).value.enabled <==> UserAllows(d, e))
              && (Lookup(d, e).value.member <==> Enrolled(d, e))
              && Lookup(d, e).value.user == FindUser(d, e.email).value
  {
  }

  lemma ReadTenantKeeps(s: State, x: nat, e: Enroll)
    requires Inv(s) && s.holder == Some(x) && s.txs[x].job == Enroller(e)
    requires s.txs[x].phase.FindTenant? || s.txs[x].phase.LoadUser?
    ensures Inv(EnrollRead(s, x, e))
  {
    var d := View(s, x).data;
    match s.txs[x].phase
    case FindTenant =>
      if DomainTenant(d, e.domain).Some? && TenantAllows(d, e, DomainTenant(d, e.domain).value) {
        SetKeeps(s, x, LoadUser(DomainTenant(d, e.domain).value));
      } else {
        RolledBackKeeps(s, x);
      }
    case LoadUser(tenant) =>
      LookupTells(d, e);
      if Lookup(d, e).Some? && !Lookup(d, e).value.enabled {
        RolledBackKeeps(s, x);
      } else {
        SetKeeps(s, x, ReadFlag(tenant, Lookup(d, e)));
      }
    case _ =>
  }

  lemma ReadPolicyKeeps(s: State, x: nat, e: Enroll)
    requires Inv(s) && s.holder == Some(x) && s.txs[x].job == Enroller(e)
    requires s.txs[x].phase.ReadFlag? || s.txs[x].phase.ReadProviders?
    ensures Inv(EnrollRead(s, x, e))
  {
    var d := View(s, x).data;
    match s.txs[x].phase
    case ReadFlag(tenant, found) =>
      if ConfigValue(d, e.slug, AUTO_ADD) == Bool(true) {
        SetKeeps(s, x, ReadProviders(tenant, found));
      } else {
        RolledBackKeeps(s, x);
      }
    case ReadProviders(tenant, found) =>
      SetKeeps(s, x, ReadChecks(tenant, found, ConfigValue(d, e.slug, PROVIDERS)));
  }

  /** Once authorized, the fresh reads settle which of the three ends the enrollment has. */
  lemma AuthorizedOk(base: Db, e: Enroll, tenant: Id, found: Option<Found>, providers: Any)
    requires EnrollOk(base, e, base, ReadChecks(tenant, found, providers))
    requires e.authorize(providers, ConfigValue(base.data, e.slug, ChecksKey(e.provider)))
    ensures match found
            case None => EnrollOk(base, e, base, AddUser(tenant))
            case Some(f) =>
              EnrollOk(base, e, base, if f.member then Ready(None) else AddMember(tenant, f.user, ["membership"]))
  {
  }

  lemma AuthorizeKeeps(s: State, x: nat, e: Enroll, tenant: Id, found: Option<Found>, providers: Any)
    requires Inv(s) && s.holder == Some(x) && s.txs[x].job == Enroller(e)
    requires s.txs[x].phase == ReadChecks(tenant, found, providers)
    ensures Inv(EnrollRead(s, x, e))
  {
    if !e.authorize(providers, ConfigValue(View(s, x).data, e.slug, ChecksKey(e.provider))) {
      RolledBackKeeps(s, x);
    } else {
      AuthorizedOk(s.db, e, tenant, found, providers);
      SetKeeps(s, x, if found.None? then AddUser(tenant)
                     else if found.value.member then Ready(None)
                     else AddMember(tenant, found.value.user, ["membership"]));
    }
  }

  lemma EnrollReadKeeps(s: State, x: nat, e: Enroll)
    requires Inv(s) && s.holder == Some(x) && s.txs[x].job == Enroller(e) && Reading(s.txs[x].phase)
    ensures Inv(EnrollRead(s, x, e))
  {
    if s.txs[x].phase.FindTenant? || s.txs[x].phase.LoadUser? {
      ReadTenantKeeps(s, x, e);
    } else if s.txs[x].phase.ReadChecks? {
      var p := s.txs[x].phase;
      AuthorizeKeeps(s, x, e, p.tenant, p.found, p.providers);
    } else {
      ReadPolicyKeeps(s, x, e);
    }
  }

  lemma AddUserOk(base: Db, e: Enroll, tenant: Id, user: Id)
    requires EnrollOk(base, e, base, AddUser(tenant)) && Exec(base.data, InsertUser(user, NewUser(e))).Ok?
    ensures EnrollOk(base, e, Apply(base, Wrote(InsertUser(user, NewUser(e)))), AddMember(tenant, user, ["membership", "user"]))
  {
  }

  lemma AddMemberOk(base: Db, e: Enroll, view: Db, tenant: Id, user: Id, fields: seq<string>)
    requires EnrollOk(base, e, view, AddMember(tenant, user, fields)) && Exec(view.data, InsertMember(user, tenant)).Ok?
    ensures EnrollOk(base, e, Apply(view, Wrote(InsertMember(user, tenant))), Reread(user, fields))
  {
  }

  lemma AddAuditOk(base: Db, e: Enroll, view: Db, user: Id, fields: seq<string>, revision: int)
    requires EnrollOk(base, e, view, AddAudit(user, fields, revision))
    ensures EnrollOk(base, e, Apply(view, Audited(EnrollRow(e, user, fields, revision))), Ready(Some(user)))
  {
  }

  lemma EnrollInsertKeeps(s: State, x: nat, e: Enroll, newId: Id)
    requires Inv(s) && s.holder == Some(x) && s.txs[x].job == Enroller(e)
    requires s.txs[x].phase.AddUser? || s.txs[x].phase.AddMember?
    ensures Inv(EnrollWrite(s, x, e, newId))
  {
    var view := View(s, x);
    match s.txs[x].phase
    case AddUser(tenant) =>
      var insert := InsertUser(newId, NewUser(e));
      if Exec(view.data, insert).Err? {
        RolledBackKeeps(s, x);
      } else {
        AddUserOk(s.db, e, tenant, newId);
        SetWorkKeeps(s, x, AddMember(tenant, newId, ["membership", "user"]), Wrote(insert));
      }
    case AddMember(tenant, user, fields) =>
      var insert := InsertMember(user, tenant);
      if Exec(view.data, insert).Err? {
        RolledBackKeeps(s, x);
      } else {
        AddMemberOk(s.db, e, view, tenant, user, fields);
        SetWorkKeeps(s, x, Reread(user, fields), Wrote(insert));
      }
  }

  lemma EnrollAuditKeeps(s: State, x: nat, e: Enroll, newId: Id)
    requires Inv(s) && s.holder == Some(x) && s.txs[x].job == Enroller(e)
    requires s.txs[x].phase.Reread? || s.txs[x].phase.AddAudit?
    ensures Inv(EnrollWrite(s, x, e, newId))
  {
    var view := View(s, x);
    match s.txs[x].phase
    case Reread(user, fields) =>
      SetKeeps(s, x, AddAudit(user, fields, view.revision));
    case AddAudit(user, fields, revision) =>
      AddAuditOk(s.db, e, view, user, fields, revision);
      SetWorkKeeps(s, x, Ready(Some(user)), Audited(EnrollRow(e, user, fields, revision)));
  }

  lemma EnrollWriteKeeps(s: State, x: nat, e: Enroll, newId: Id)
    requires Inv(s) && s.holder == Some(x) && s.txs[x].job == Enroller(e)
    ensures Inv(EnrollWrite(s, x, e, newId))
  {
    if s.txs[x].phase.AddUser? || s.txs[x].phase.AddMember? {
      EnrollInsertKeeps(s, x, e, newId);
    } else if s.txs[x].phase.Reread? || s.txs[x].phase.AddAudit? {
      EnrollAuditKeeps(s, x, e, newId);
    }
  }

  lemma WroteOk(db: Db, stmt: Stmt)
    requires SchemaOk(db.data) && Exec(db.data, stmt).Ok?
    ensures var end := Apply(db, Wrote(stmt));
            SchemaOk(end.data) && end.revision == db.revision + 1 && end.audit == db.audit
  {
    ExecKeepsSchema(db.data, stmt);
  }

  lemma FirstWriteKeeps(s: State, x: nat, effect: Effect)
    requires Inv(s) && x < |s.txs| && s.holder.None? && s.txs[x].job.Platform? && s.txs[x].phase.Begun?
    requires PlatformOk(s.db, Apply(s.db, effect), Writing)
    ensures Inv(SetWork(Take(s, x, Writing), x, Writing, effect))
  {
  }

  lemma PlatformKeeps(s: State, x: nat, stmt: Stmt)
    requires Inv(s)
    ensures Inv(DoPlatformWrite(s, x, stmt))
  {
    if x < |s.txs| && s.txs[x].job.Platform? && Writes(stmt) {
      if s.txs[x].phase.Begun? && s.holder.None? && Exec(s.db.data, stmt).Ok? {
        WroteOk(s.db, stmt);
        FirstWriteKeeps(s, x, Wrote(stmt));
      } else if s.txs[x].phase.Writing? && Exec(View(s, x).data, stmt).Ok? {
        WroteOk(View(s, x), stmt);
        SetWorkKeeps(s, x, Writing, Wrote(stmt));
      }
    }
  }

  lemma StepsKeepSchema(db: Db, e: Enroll, user: Id)
    requires SchemaOk(db.data) && AtomicEnroll(db, e, user).Some?
    ensures SchemaOk(AtomicEnroll(db, e, user).value.data)
  {
    var mid := UserStep(db, e, user).value;
    if FindUser(db.data, e.email).None? {
      InsertUserKeepsSchema(db.data, user, NewUser(e));
    }
    InsertMemberKeepsSchema(mid.data, user, DomainTenant(db.data, e.domain).value);
  }

  lemma ReadyKeepsSchema(job: Job, base: Db, view: Db, phase: Phase)
    requires SchemaOk(base.data) && TxOk(job, base, view, phase) && (phase.Ready? || phase.Writing?)
    ensures SchemaOk(view.data)
  {
    match job
    case Operator(w) => PlanKeepsSchema(base.data, Plan(w.op));
    case Enroller(e) =>
      if phase.Ready? && phase.enrolled.Some? {
        StepsKeepSchema(base, e, phase.enrolled.value);
      }
    case Platform =>
  }

  lemma CommitKeeps(s: State, x: nat)
    requires Inv(s)
    ensures Inv(DoCommit(s, x))
  {
    if x < |s.txs| && (s.txs[x].phase.Ready? || s.txs[x].phase.Writing?) {
      ReadyKeepsSchema(s.txs[x].job, s.db, View(s, x), s.txs[x].phase);
    }
  }

  lemma AdvanceKeeps(s: State, x: nat, newId: Id)
    requires Inv(s)
    ensures Inv(DoAdvance(s, x, newId))
  {
    if x < |s.txs| && s.holder == Some(x) {
      match s.txs[x].job
      case Operator(w) => OperatorKeeps(s, x, w);
      case Enroller(e) =>
        if Reading(s.txs[x].phase) {
          EnrollReadKeeps(s, x, e);
        } else {
          EnrollWriteKeeps(s, x, e, newId);
        }
      case Platform =>
    }
  }

  lemma NextKeeps(s: State, step: Step)
    requires Inv(s)
    ensures Inv(Next(s, step))
  {
    match step
    case Begin(_) =>
    case Lock(x) => LockKeeps(s, x);
    case Advance(x, newId) => AdvanceKeeps(s, x, newId);
    case PlatformWrite(x, stmt) => PlatformKeeps(s, x, stmt);
    case Commit(x) => CommitKeeps(s, x);
    case Rollback(x) =>
      if x < |s.txs| {
        RolledBackKeeps(s, x);
      }
  }
}
