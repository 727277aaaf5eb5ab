/**
 The rest of the transactions, and the system they make up: any number of Core
 processes that run any transactions in any order, workers that act on claims
 however old, and crashes, which are workers that never act again.
 */
module RunSystem {
  import opened RunTypes
  import opened RunTransactions
  import Dependencies

  // ------------------------------------------------------------------ job rows

  predicate FixedSchedule(kind: Kind) {
    kind.FixedInterval? || kind.FixedRate? || kind.FixedDelay?
  }

  /** schedule.Next: computed for fixed schedules, otherwise what the calendar answered. */
  function NextRun(job: Job, now: Time, calendar: Option<Time>): Result<Option<Time>> {
    if !FixedSchedule(job.kind) then Ok(calendar)
    else if job.period < 1 then Err(InvalidSchedule)
    else Ok(Some(NextDelay(job, now)))
  }

  function CreateJob(db: Db, job: Job, now: Time, calendar: Option<Time>): Result<Db> {
    var next :- NextRun(job, now, calendar);
    var row := job.(policy := CanonicalPolicy(job.policy),
                    maxConcurrent := if job.maxConcurrent < 1 then 1 else job.maxConcurrent,
                    maxQueue := if job.maxQueue < 1 then 1000 else job.maxQueue,
                    nextRunAt := if job.enabled then next else None,
                    version := 1);
    Ok(db.(jobs := db.jobs[db.unused := row], unused := db.unused + 1))
  }

  function UpdateJob(db: Db, j: Id, job: Job, now: Time, calendar: Option<Time>): Result<Db> {
    var next :- NextRun(job, now, calendar);
    if j !in db.jobs || db.jobs[j].tenant != job.tenant || db.jobs[j].version != job.version then Err(Conflict)
    else
      var row := job.(policy := CanonicalPolicy(job.policy),
                      nextRunAt := if job.enabled then next else None,
                      version := job.version + 1);
      Ok(db.(jobs := db.jobs[j := row]))
  }

  /** Stopping a job needs no next time, so an unreadable schedule does not prevent it. */
  function SetJobEnabled(db: Db, tenant: Id, j: Id, enabled: bool, version: nat, now: Time,
                         calendar: Option<Time>): Result<Db> {
    if j !in db.jobs || db.jobs[j].tenant != tenant then Err(NotFound)
    else if db.jobs[j].version != version then Err(Conflict)
    else if db.jobs[j].enabled == enabled then Ok(db)
    else
      var next :- if enabled then NextRun(db.jobs[j], now, calendar) else Ok(None);
      Ok(db.(jobs := db.jobs[j := db.jobs[j].(enabled := enabled, nextRunAt := next, version := version + 1)]))
  }

  /** RollbackJobScriptVersion to a revision that exists: a new version of the row, with its schedule as it was. */
  function RollbackScript(db: Db, tenant: Id, j: Id, version: nat): Result<Db> {
    if j !in db.jobs || db.jobs[j].tenant != tenant then Err(NotFound)
    else if db.jobs[j].version != version then Err(Conflict)
    else Ok(db.(jobs := db.jobs[j := db.jobs[j].(version := version + 1)]))
  }

  // ------------------------------------------------------------------- claims

  /** The limits the claim query reads: per tenant, and per cluster with default 1. */
  datatype Caps = Caps(tenants: map<Id, int>, clusters: map<Id, int>)

  function ClusterCap(caps: Caps, c: Id): int {
    if c in caps.clusters then caps.clusters[c] else 1
  }

  /** What a capacity is counted over. */
  datatype Scope = OfJob(job: Id) | OfTenant(tenant: Id) | OfCluster(cluster: Id)

  predicate InScope(db: Db, id: Id, scope: Scope)
    requires id in db.runs
  {
    match scope
    case OfJob(j) => db.runs[id].job == j
    case OfTenant(t) => db.runs[id].tenant == t
    case OfCluster(c) => db.runs[id].job in db.jobs && db.jobs[db.runs[id].job].cluster == Some(c)
  }

  function ActiveRuns(db: Db, scope: Scope, now: Time): set<Id> {
    set id | id in db.runs && InScope(db, id, scope) && LiveActive(db.runs[id], now)
  }

  /** The candidates of the claim query, after its joins. */
  predicate Candidate(db: Db, caps: Caps, id: Id, now: Time) {
    id in db.runs && Claimable(db.runs[id], now) && db.runs[id].job in db.jobs && db.runs[id].tenant in caps.tenants
  }

  /** The candidates of a scope that rank no later than the given one. */
  function UpTo(db: Db, caps: Caps, scope: Scope, id: Id, now: Time): set<Id>
    requires id in db.runs
  {
    set q | q in db.runs && Candidate(db, caps, q, now) && InScope(db, q, scope) && !Before(db, id, q)
  }

  function JobCap(db: Db, id: Id): int
    requires id in db.runs && db.runs[id].job in db.jobs
  {
    var cap := db.jobs[db.runs[id].job].maxConcurrent;
    if db.runs[id].shard.Some? then Max(cap, db.runs[id].shard.value.total) else cap
  }

  predicate WithinCap(db: Db, caps: Caps, scope: Scope, cap: int, id: Id, now: Time)
    requires id in db.runs
  {
    |UpTo(db, caps, scope, id, now)| <= Max(cap - |ActiveRuns(db, scope, now)|, 0)
  }

  predicate Eligible(db: Db, caps: Caps, id: Id, now: Time) {
    && Candidate(db, caps, id, now)
    && WithinCap(db, caps, OfJob(db.runs[id].job), JobCap(db, id), id, now)
    && WithinCap(db, caps, OfTenant(db.runs[id].tenant), caps.tenants[db.runs[id].tenant], id, now)
    && (match db.jobs[db.runs[id].job].cluster
        case None => true
        case Some(c) => WithinCap(db, caps, OfCluster(c), ClusterCap(caps, c), id, now))
  }

  function EligibleRuns(db: Db, caps: Caps, now: Time): set<Id> {
    set id | id in db.runs && Eligible(db, caps, id, now)
  }

  ghost predicate IsFirst(db: Db, pool: set<Id>, m: Id)
    requires pool <= db.runs.Keys
  {
    m in pool && forall q :: q in pool && q != m ==> Before(db, m, q)
  }

  lemma {:induction false} First(db: Db, pool: set<Id>) returns (m: Id)
    requires pool <= db.runs.Keys && pool != {}
    ensures IsFirst(db, pool, m)
    decreases |pool|
  {
    var a :| a in pool;
    var rest := pool - {a};
    assert pool == rest + {a};
    if rest == {} {
      m := a;
    } else {
      var f := First(db, rest);
      m := if Before(db, a, f) then a else f;
    }
  }

  /** ORDER BY available_at, id ... LIMIT: the first rows of the pool, in order. */
  ghost function Pick(db: Db, pool: set<Id>, limit: nat): seq<Id>
    requires pool <= db.runs.Keys
    decreases limit
  {
    if limit == 0 || pool == {} then []
    else
      assert exists m :: IsFirst(db, pool, m) by { var m := First(db, pool); }
      var m :| IsFirst(db, pool, m);
      [m] + Pick(db, pool - {m}, limit - 1)
  }

  /** ClaimRuns: `locked` are the rows SKIP LOCKED passes over. */
  ghost function ClaimRuns(db: Db, caps: Caps, limit: nat, locked: set<Id>, lease: Time, now: Time): Db {
    ClaimEach(db, Pick(db, EligibleRuns(db, caps, now) - locked, limit), now, lease)
  }

  // ----------------------------------------------------------------- commands

  predicate CommandFree(c: Command, now: Time) {
    !c.delivered && c.availableAt <= now && (c.lockedUntil.None? || c.lockedUntil.value < now)
  }

  predicate CommandHeld(c: Command, owner: string, now: Time) {
    !c.delivered && c.lockedBy == Some(owner) && c.lockedUntil.Some? && c.lockedUntil.value >= now
  }

  function ClaimCommand(db: Db, owner: string, id: Id, now: Time): Db {
    if id in db.commands && CommandFree(db.commands[id], now)
    then
      var c := db.commands[id];
      db.(commands := db.commands[id := c.(lockedBy := Some(owner), lockedUntil := Some(now + 30 * SECOND),
        attempts := c.attempts + 1)])
    else db
  }

  /** ClaimExecutorCommands over the rows its query picked. */
  function ClaimCommands(db: Db, owner: string, rows: seq<Id>, now: Time): Db
    decreases rows
  {
    if rows == [] then db else ClaimCommands(ClaimCommand(db, owner, rows[0], now), owner, rows[1..], now)
  }

  function CompleteCommand(db: Db, owner: string, id: Id, now: Time): Result<Db> {
    if id in db.commands && CommandHeld(db.commands[id], owner, now)
    then Ok(db.(commands := db.commands[id := db.commands[id].(delivered := true, lockedBy := None,
      lockedUntil := None)]))
    else Err(Conflict)
  }

  function RetryCommand(db: Db, owner: string, id: Id, delay: Time, now: Time): Result<Db> {
    if id in db.commands && CommandHeld(db.commands[id], owner, now)
    then Ok(db.(commands := db.commands[id := db.commands[id].(availableAt := now + delay, lockedBy := None,
      lockedUntil := None)]))
    else Err(Conflict)
  }

  // ------------------------------------------------------------ dependencies

  function TenantJobs(db: Db, tenant: Id): set<Id> {
    set j | j in db.jobs && db.jobs[j].tenant == tenant
  }

  ghost function SetJobDependencies(db: Db, tenant: Id, parent: Id, children: seq<Id>): Result<Db> {
    var edges :- Dependencies.SetDependencies(db.edges, TenantJobs(db, tenant), parent, children);
    Ok(db.(edges := edges))
  }

  // ------------------------------------------------------------------- system

  /** One transaction, with everything it reads from outside the database. */
  datatype Action =
    | DoCreateJob(job: Job, now: Time, calendar: Option<Time>)
    | DoUpdateJob(id: Id, job: Job, now: Time, calendar: Option<Time>)
    | DoSetEnabled(tenant: Id, id: Id, enabled: bool, version: nat, now: Time, calendar: Option<Time>)
    | DoRollbackScript(tenant: Id, id: Id, version: nat)
    | DoSetDependencies(tenant: Id, parent: Id, children: seq<Id>)
    | DoEnqueueDue(items: seq<DueItem>, now: Time)
    | DoTrigger(tenant: Id, id: Id, key: string, route: Route, now: Time)
    | DoClaim(caps: Caps, limit: nat, locked: set<Id>, lease: Time, now: Time)
    | DoPrepare(token: Id, node: Node, callback: Callback)
    | DoFail(token: Id, st: Status, now: Time, delay: Time)
    | DoComplete(token: Id, success: bool, routes: map<Id, Route>, now: Time)
    | DoCallback(id: Id, hash: Id, success: bool, routes: map<Id, Route>, now: Time)
    | DoExpire(rows: seq<Id>, now: Time)
    | DoCancel(tenant: Id, id: Id, now: Time)
    | DoClaimCommands(owner: string, rows: seq<Id>, now: Time)
    | DoCompleteCommand(owner: string, id: Id, now: Time)
    | DoRetryCommand(owner: string, id: Id, delay: Time, now: Time)

  /** The database after a transaction, or why it was rolled back. */
  ghost function Apply(db: Db, a: Action): Result<Db> {
    match a
    case DoCreateJob(job, now, calendar) => CreateJob(db, job, now, calendar)
    case DoUpdateJob(id, job, now, calendar) => UpdateJob(db, id, job, now, calendar)
    case DoSetEnabled(tenant, id, enabled, version, now, calendar) =>
      SetJobEnabled(db, tenant, id, enabled, version, now, calendar)
    case DoRollbackScript(tenant, id, version) => RollbackScript(db, tenant, id, version)
    case DoSetDependencies(tenant, parent, children) => SetJobDependencies(db, tenant, parent, children)
    case DoEnqueueDue(items, now) => EnqueueDue(db, items, now)
    case DoTrigger(tenant, id, key, route, now) =>
      var (next, _) :- TriggerJob(db, tenant, id, key, route, now); Ok(next)
    case DoClaim(caps, limit, locked, lease, now) => Ok(ClaimRuns(db, caps, limit, locked, lease, now))
    case DoPrepare(token, node, callback) =>
      if token in db.claims then PrepareDispatch(db, db.claims[token], node, callback) else Err(Conflict)
    case DoFail(token, st, now, delay) =>
      if token in db.claims then FailWithState(db, db.claims[token], st, now, delay) else Err(Conflict)
    case DoComplete(token, success, routes, now) =>
      if token in db.claims then CompleteRun(db, db.claims[token], success, routes, now) else Err(Conflict)
    case DoCallback(id, hash, success, routes, now) => CompleteCallback(db, id, hash, success, routes, now)
    case DoExpire(rows, now) => Ok(ExpireCallbacks(db, rows, now))
    case DoCancel(tenant, id, now) => CancelRun(db, tenant, id, now)
    case DoClaimCommands(owner, rows, now) => Ok(ClaimCommands(db, owner, rows, now))
    case DoCompleteCommand(owner, id, now) => CompleteCommand(db, owner, id, now)
    case DoRetryCommand(owner, id, delay, now) => RetryCommand(db, owner, id, delay, now)
  }

  ghost function Do(db: Db, a: Action): Db {
    var r := Apply(db, a);
    if r.Ok? then r.value else db
  }

  /** The database after a run of the system from the empty one. */
  ghost function Exec(actions: seq<Action>): Db {
    if actions == [] then EMPTY
    else Do(Exec(actions[..|actions| - 1]), actions[|actions| - 1])
  }

  lemma ExecSnoc(actions: seq<Action>, a: Action)
    ensures Exec(actions + [a]) == Do(Exec(actions), a)
  {
    hide Do;
    assert (actions + [a])[..|actions|] == actions;
  }
}
