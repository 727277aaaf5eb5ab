/** The invariants over every run of the system, and what they mean for leases and events. */
module RunHistory {
  import opened RunTypes
  import opened RunBlocks
  import opened RunEvolution
  import opened RunSafety
  import opened RunMicro
  import opened RunParents
  import opened RunSystem
  import opened RunRefinement
  import Dependencies

  // ------------------------------------------------------------ administration

  lemma {:induction false} ClaimCommandsTouched(db: Db, owner: string, rows: seq<Id>, now: Time)
    ensures CommandsTouched(db, ClaimCommands(db, owner, rows, now))
    decreases rows
  {
    if rows != [] {
      ClaimCommandsTouched(ClaimCommand(db, owner, rows[0], now), owner, rows[1..], now);
    }
  }

  /** Job rows are created with version 1, or rewritten with the next version and, if at all, a new next time. */
  ghost predicate RowsWritten(before: map<Id, Job>, after: map<Id, Job>, unused: Id, unusedAfter: Id) {
    && unused <= unusedAfter <= unused + 1
    && JobsKept(before, after)
    && (forall j :: j in after && j !in before ==>
          j == unused < unusedAfter && after[j].version == 1 && Timed(after[j]))
    && (forall j :: j in before ==>
          || after[j] == before[j]
          || (after[j].version == before[j].version + 1 && (Timed(after[j]) || SameTurn(before[j], after[j]))))
  }

  /** The columns that decide when a job runs are as they were. */
  predicate SameTurn(a: Job, b: Job) {
    b.kind == a.kind && b.enabled == a.enabled && b.nextRunAt == a.nextRunAt
  }

  ghost predicate JobsAdministered(db: Db, next: Db) {
    next == db.(jobs := next.jobs, unused := next.unused) && RowsWritten(db.jobs, next.jobs, db.unused, next.unused)
  }

  /** An enabled fixed-delay job is written with a next time. */
  predicate Timed(job: Job) {
    job.kind.FixedDelay? && job.enabled ==> job.nextRunAt.Some?
  }

  ghost predicate EdgesAdministered(db: Db, next: Db) {
    next == db.(edges := next.edges) && Dependencies.Acyclic(next.edges)
  }

  /** The three things administration does, one at a time. */
  ghost predicate Administered(db: Db, next: Db) {
    JobsAdministered(db, next) || EdgesAdministered(db, next) || CommandsTouched(db, next)
  }

  lemma RowWritten(db: Db, j: Id, row: Job)
    requires j in db.jobs && row.tenant == db.jobs[j].tenant && row.version == db.jobs[j].version + 1
    requires Timed(row) || SameTurn(db.jobs[j], row)
    ensures JobsAdministered(db, db.(jobs := db.jobs[j := row]))
  {
  }

  lemma RowCreated(db: Db, row: Job)
    requires db.unused !in db.jobs && row.version == 1 && Timed(row)
    ensures JobsAdministered(db, db.(jobs := db.jobs[db.unused := row], unused := db.unused + 1))
  {
  }

  lemma CreateWrites(db: Db, job: Job, now: Time, calendar: Option<Time>)
    requires CreateJob(db, job, now, calendar).Ok? && db.unused !in db.jobs
    ensures JobsAdministered(db, CreateJob(db, job, now, calendar).value)
  {
    hide JobsAdministered;
    RowCreated(db, CreateJob(db, job, now, calendar).value.jobs[db.unused]);
  }

  lemma UpdateWrites(db: Db, id: Id, job: Job, now: Time, calendar: Option<Time>)
    requires UpdateJob(db, id, job, now, calendar).Ok?
    ensures JobsAdministered(db, UpdateJob(db, id, job, now, calendar).value)
  {
    hide JobsAdministered;
    RowWritten(db, id, UpdateJob(db, id, job, now, calendar).value.jobs[id]);
  }

  lemma EnableWrites(db: Db, tenant: Id, id: Id, enabled: bool, version: nat, now: Time, calendar: Option<Time>)
    requires SetJobEnabled(db, tenant, id, enabled, version, now, calendar).Ok?
    ensures JobsAdministered(db, SetJobEnabled(db, tenant, id, enabled, version, now, calendar).value)
  {
    hide JobsAdministered;
    if db.jobs[id].enabled == enabled {
      NothingWritten(db);
    } else {
      RowWritten(db, id, SetJobEnabled(db, tenant, id, enabled, version, now, calendar).value.jobs[id]);
    }
  }

  lemma RollbackWrites(db: Db, tenant: Id, id: Id, version: nat)
    requires RollbackScript(db, tenant, id, version).Ok?
    ensures JobsAdministered(db, RollbackScript(db, tenant, id, version).value)
  {
    hide JobsAdministered;
    RowWritten(db, id, RollbackScript(db, tenant, id, version).value.jobs[id]);
  }

  predicate WritesJobs(a: Action) {
    a.DoCreateJob? || a.DoUpdateJob? || a.DoSetEnabled? || a.DoRollbackScript?
  }

  lemma JobActions(db: Db, a: Action)
    requires WritesJobs(a)
    requires Apply(db, a).Ok? && db.unused !in db.jobs
    ensures JobsAdministered(db, Apply(db, a).value)
  {
    hide JobsAdministered, CreateJob, UpdateJob, SetJobEnabled, RollbackScript;
    match a
    case DoCreateJob(job, now, calendar) => CreateWrites(db, job, now, calendar);
    case DoUpdateJob(id, job, now, calendar) => UpdateWrites(db, id, job, now, calendar);
    case DoSetEnabled(tenant, id, enabled, version, now, calendar) =>
      EnableWrites(db, tenant, id, enabled, version, now, calendar);
    case DoRollbackScript(tenant, id, version) => RollbackWrites(db, tenant, id, version);
  }

  lemma NothingWritten(db: Db)
    ensures JobsAdministered(db, db)
  {
  }

  lemma AdministerAction(db: Db, a: Action)
    requires Whole(db) && Dependencies.Acyclic(db.edges)
    requires Administers(a) && Apply(db, a).Ok?
    ensures Administered(db, Apply(db, a).value)
  {
    hide Dependencies.Acyclic, JobsAdministered, Lives, Links, OneRetry, Answered, Groups, Claims, Commands, Parents;
    if a.DoSetDependencies? {
      Dependencies.SetDependenciesExact(db.edges, TenantJobs(db, a.tenant), a.parent, a.children);
    } else if a.DoClaimCommands? {
      ClaimCommandsTouched(db, a.owner, a.rows, a.now);
    } else if !a.DoCompleteCommand? && !a.DoRetryCommand? {
      JobActions(db, a);
    }
  }

  lemma AdministeredKept(db: Db, next: Db)
    requires Inv(db) && Administered(db, next)
    ensures Kept(db, next)
  {
    hide Inv, Evolves, Dependencies.Acyclic;
    if JobsAdministered(db, next) {
      JobsKeep(db, next);
    } else if CommandsTouched(db, next) {
      TouchedKept(db, next);
    } else {
      UntouchedKept(db, next);
    }
  }

  lemma JobsKeep(db: Db, next: Db)
    requires Inv(db) && JobsAdministered(db, next)
    ensures Kept(db, next)
  {
    hide Block, Evolves;
    RunBlockLemmas.SameRunsBlock(db, next);
    ByBlock(db, next);
  }

  lemma AdministeredRuns(db: Db, next: Db)
    requires Administered(db, next)
    ensures next.runs == db.runs && next.dispatched == db.dispatched && next.claims == db.claims && next.log == db.log
  {
    hide Dependencies.Acyclic, RowsWritten, LaterCommands;
    if JobsAdministered(db, next) {
    } else if EdgesAdministered(db, next) {
    }
  }

  lemma AdministeredParents(db: Db, next: Db)
    requires Parents(db) && Administered(db, next)
    ensures Parents(next)
  {
    hide Administered, Parents;
    AdministeredRuns(db, next);
    SameParents(db, next);
  }

  lemma SameParents(db: Db, next: Db)
    requires Parents(db) && next.runs == db.runs && next.dispatched == db.dispatched
    ensures Parents(next)
  {
    forall id | id in next.runs ensures ParentOk(next, id) {
      assert ParentOk(db, id);
    }
  }

  // ------------------------------------------------------------- whole histories

  /** What every reachable database satisfies. */
  ghost predicate Sound(db: Db) {
    Whole(db) && Dependencies.Acyclic(db.edges)
  }

  lemma DoSound(db: Db, a: Action)
    requires Sound(db)
    ensures Sound(Do(db, a)) && Evolves(db, Do(db, a))
  {
    hide Inv, Parents, Dependencies.Acyclic, Evolves, Administered, Apply, SameJob;
    if Apply(db, a).Err? {
      EvolvesSelf(db);
    } else if Administers(a) {
      var next := Apply(db, a).value;
      AdministerAction(db, a);
      AdministeredKept(db, next);
      AdministeredParents(db, next);
      AdministeredEdges(db, next);
    } else {
      var ms := RefineAction(db, a);
      RunsWhole(State(db, None), ms, State(Apply(db, a).value, None));
    }
  }

  lemma AdministeredEdges(db: Db, next: Db)
    requires Dependencies.Acyclic(db.edges) && Administered(db, next)
    ensures Dependencies.Acyclic(next.edges)
  {
  }

  lemma EmptySound()
    ensures Sound(EMPTY)
  {
    EmptyInv();
    forall x, p ensures !(Dependencies.PathFrom(EMPTY.edges, p, x, x) && |p| >= 2) {
      assert |p| >= 2 ==> (p[0], p[0 + 1]) !in EMPTY.edges;
    }
  }

  lemma {:induction false} ExecSound(actions: seq<Action>)
    ensures Sound(Exec(actions))
  {
    hide Sound, Do;
    if actions == [] {
      EmptySound();
    } else {
      ExecSound(actions[..|actions| - 1]);
      DoSound(Exec(actions[..|actions| - 1]), actions[|actions| - 1]);
    }
  }

  lemma {:induction false} ExecEvolves(actions: seq<Action>, k: nat)
    requires k <= |actions|
    ensures Evolves(Exec(actions[..k]), Exec(actions))
    decreases |actions|
  {
    hide Sound, Evolves, Do;
    if k == |actions| {
      assert actions[..k] == actions;
      EvolvesSelf(Exec(actions));
    } else {
      var shorter := actions[..|actions| - 1];
      ExecEvolves(shorter, k);
      assert shorter[..k] == actions[..k];
      ExecSound(shorter);
      DoSound(Exec(shorter), actions[|actions| - 1]);
      EvolvesTrans(Exec(actions[..k]), Exec(shorter), Exec(actions));
    }
  }
}
