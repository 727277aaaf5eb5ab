/**
 The store's transactions on runs and jobs, each as a function from the database
 before to the database after. A transaction runs as one atomic step; one that
 returns an error rolls back, so it has no state to return.
 */
module RunTransactions {
  import opened RunTypes

  // ---------------------------------------------------------------- statements

  /** INSERT INTO outbox_events ... SELECT: writes an event only while the row has that status. */
  function Emit(db: Db, id: Id, expected: Status, topic: Topic): Db {
    if id in db.runs && db.runs[id].status == expected
    then db.(log := db.log[id := Log(db, id) + [topic]])
    else db
  }

  /** The columns every terminal UPDATE clears and sets. */
  function Terminal(run: Run, st: Status, now: Time): Run {
    run.(status := st, trail := run.trail + [st], finishedAt := Some(now),
         token := None, leaseUntil := None, callback := None)
  }

  function SetRun(db: Db, id: Id, run: Run): Db {
    db.(runs := db.runs[id := run])
  }

  function Finish(db: Db, id: Id, st: Status, now: Time): Db
    requires id in db.runs
  {
    Emit(SetRun(db, id, Terminal(db.runs[id], st, now)), id, st, Entered(st))
  }

  /** The event of the status each row starts in. */
  function Topics(rows: map<Id, Run>): map<Id, seq<Topic>> {
    map id | id in rows :: [Entered(rows[id].status)]
  }

  /** Adds rows under unused identifiers, with their first events. */
  function AddRuns(db: Db, rows: map<Id, Run>, unused: Id): Db {
    db.(runs := db.runs + rows, log := db.log + Topics(rows), unused := unused)
  }

  // -------------------------------------------------------------- fixed delay

  predicate Awaited(run: Run) {
    run.rearm && Unfinished(run.status)
  }

  predicate GroupAwaited(db: Db, group: Id) {
    exists id :: id in db.runs && db.runs[id].shard.Some?
      && db.runs[id].shard.value.group == group && Awaited(db.runs[id])
  }

  predicate WantsRearm(db: Db, j: Id) {
    j in db.jobs && db.jobs[j].kind.FixedDelay? && db.jobs[j].enabled && db.jobs[j].nextRunAt.None?
  }

  /** schedule.Next for a fixed delay. */
  function NextDelay(job: Job, after: Time): Time {
    after + Duration(job.period)
  }

  function SetNext(db: Db, j: Id, at: Time): Db
    requires j in db.jobs
  {
    db.(jobs := db.jobs[j := db.jobs[j].(nextRunAt := Some(NextDelay(db.jobs[j], at)))])
  }

  /** rearmFixedDelay: `run` is the caller's copy of the row that just became terminal. */
  function Rearm(db: Db, run: Run, terminalAt: Time): Db {
    if !run.rearm then db
    else if run.shard.Some? && GroupAwaited(db, run.shard.value.group) then db
    else if WantsRearm(db, run.job) then SetNext(db, run.job, terminalAt)
    else db
  }

  // ------------------------------------------------------------------ retries

  /** insertRetryRunTx: `previous` is the caller's copy of the run being retried. */
  function RetryRow(id: Id, previous: Run, now: Time, delay: Time): Run {
    Run(previous.tenant, previous.job, Retry, Pending, previous.attempt + 1, now, now + delay,
        None, None, None, previous.parent, Some(id), previous.node, previous.address,
        previous.shard, previous.rearm, None, [Pending])
  }

  function InsertRetry(db: Db, id: Id, previous: Run, now: Time, delay: Time): Db {
    AddRuns(db, map[db.unused := RetryRow(id, previous, now, delay)], db.unused + 1)
  }

  /**
   What FailRun, CompleteCallback and ExpireCallbacks do once the row is terminal
   and broken: retry it, or say it is exhausted and rearm a fixed-delay job.
   */
  function AfterFailure(db: Db, id: Id, copy: Run, st: Status, now: Time, retry: Option<Time>): Db {
    if retry.Some? then InsertRetry(db, id, copy, now, retry.value)
    else Rearm(Emit(db, id, st, Exhausted), copy, now)
  }

  // ----------------------------------------------------------- cancel commands

  /** enqueueExecutorCancellationTx: an existing command keeps its state. */
  function Command0(address: string, now: Time): Command {
    Command(address, false, 0, now, None, None)
  }

  function EnqueueCancel(db: Db, id: Id, address: string, now: Time): Db {
    if id in db.commands then db
    else db.(commands := db.commands[id := Command0(address, now)])
  }

  // ------------------------------------------------------------ block policies

  datatype BlockAction = Enqueue | Discard | CancelAndEnqueue

  function CanonicalPolicy(p: Policy): Policy {
    match p
    case Queue => Serial
    case Skip => DiscardLater
    case _ => p
  }

  function DecideBlockAction(p: Policy, hasActive: bool): BlockAction {
    if !hasActive then Enqueue
    else match CanonicalPolicy(p)
      case DiscardLater => Discard
      case CoverEarly => CancelAndEnqueue
      case _ => Enqueue
  }

  predicate ActiveIn(db: Db, j: Id, id: Id) {
    id in db.runs && db.runs[id].job == j && Unfinished(db.runs[id].status)
  }

  predicate HasActive(db: Db, j: Id) {
    exists id :: id in db.runs && ActiveIn(db, j, id)
  }

  function PendingRuns(db: Db, j: Id): set<Id> {
    set id | id in db.runs && db.runs[id].job == j && db.runs[id].status.Pending?
  }

  /** applyBlockAction for cancel_and_enqueue: every unfinished run of the job is cancelled. */
  function Cover(db: Db, j: Id, now: Time): Db {
    db.(runs := map id | id in db.runs ::
          if ActiveIn(db, j, id) then Terminal(db.runs[id], Cancelled, now) else db.runs[id],
        log := map id | id in db.log ::
          if ActiveIn(db, j, id) then db.log[id] + [Entered(Cancelled)] else db.log[id],
        commands := db.commands + map id | id in db.runs && ActiveIn(db, j, id)
                                           && db.runs[id].address != "" && id !in db.commands ::
          Command0(db.runs[id].address, now),
        jobs := if CoversAwaited(db, j) && WantsRearm(db, j)
          then db.jobs[j := db.jobs[j].(nextRunAt := Some(NextDelay(db.jobs[j], now)))]
          else db.jobs)
  }

  predicate CoversAwaited(db: Db, j: Id) {
    exists id :: id in db.runs && ActiveIn(db, j, id) && db.runs[id].rearm
  }

  // ----------------------------------------------------------------- triggers

  function NewRun(job: Job, j: Id, trigger: Trigger, st: Status, at: Time, now: Time,
                  parent: Option<Id>, rearm: bool): Run {
    Run(job.tenant, j, trigger, st, 1, at, now, None, None, None, parent, None, "", "", None, rearm,
        if st.Skipped? then Some(now) else None, [st])
  }

  function ShardRow(base: Run, nodes: seq<Node>, group: Id, k: nat): Run
    requires k < |nodes|
  {
    base.(node := nodes[k].id, address := nodes[k].address, shard := Some(Shard(group, k, |nodes|)))
  }

  /** The rows one trigger inserts: ids first, first + 1, ...; the group id follows the last row. */
  function LaunchRows(base: Run, route: Route, first: Id): map<Id, Run> {
    match route
    case Plain => map[first := base]
    case Broadcast(nodes) =>
      map id | id in Span(first, |nodes|) :: ShardRow(base, nodes, first + |nodes|, id - first)
  }

  function LaunchEnd(route: Route, first: Id): Id {
    if route.Plain? then first + 1 else first + |route.nodes| + 1
  }

  function Launch(db: Db, base: Run, route: Route): Db {
    AddRuns(db, LaunchRows(base, route, db.unused), LaunchEnd(route, db.unused))
  }

  datatype Decision = Fire(cover: bool) | Drop | Full | NoNodes

  /** The block policy and the queue limit, in the order the three callers test them. */
  function Decide(db: Db, j: Id, route: Route): Decision
    requires j in db.jobs
  {
    var action := DecideBlockAction(db.jobs[j].policy, HasActive(db, j));
    var queued := |PendingRuns(db, j)|;
    if action.Discard? then Drop
    else if action.Enqueue? && queued >= db.jobs[j].maxQueue then Full
    else if route.Broadcast? && |route.nodes| == 0 then NoNodes
    else if route.Broadcast? && action.Enqueue? && queued + |route.nodes| > db.jobs[j].maxQueue then Full
    else Fire(action.CancelAndEnqueue?)
  }

  function FireRun(db: Db, j: Id, base: Run, route: Route, cover: bool, now: Time): Db {
    Launch(if cover then Cover(db, j, now) else db, base, route)
  }

  /** A scheduled or dependency trigger: refused work is recorded as a skipped run. */
  function Admit(db: Db, j: Id, trigger: Trigger, route: Route, at: Time, now: Time,
                 parent: Option<Id>, rearm: bool): Result<(Db, bool)>
    requires j in db.jobs
  {
    match Decide(db, j, route)
    case Fire(cover) =>
      Ok((FireRun(db, j, NewRun(db.jobs[j], j, trigger, Pending, at, now, parent, rearm), route, cover, now), true))
    case NoNodes => Err(NoExecutors)
    case _ =>
      Ok((Launch(db, NewRun(db.jobs[j], j, trigger, RunTypes.Skipped, at, now, parent, rearm), Plain), false))
  }

  /** TriggerJobWithOptions: refused by a full queue it fails; a known key returns the first run. */
  function TriggerJob(db: Db, tenant: Id, j: Id, key: string, route: Route, now: Time): Result<(Db, Id)> {
    if j !in db.jobs || db.jobs[j].tenant != tenant then Err(NotFound)
    else if key != "" && (j, key) in db.keys then Ok((db, db.keys[(j, key)]))
    else
      var keyed := if key == "" then db else db.(keys := db.keys[(j, key) := db.unused]);
      match Decide(db, j, route)
      case Fire(cover) =>
        Ok((FireRun(keyed, j, NewRun(db.jobs[j], j, Manual, Pending, now, now, None, false), route, cover, now),
          db.unused))
      case Drop =>
        Ok((Launch(keyed, NewRun(db.jobs[j], j, Manual, RunTypes.Skipped, now, now, None, false), Plain), db.unused))
      case Full => Err(QueueFull)
      case NoNodes => Err(NoExecutors)
  }

  // -------------------------------------------------------------- EnqueueDue

  datatype Plan = Plan(due: seq<Time>, next: Option<Time>)

  /** One row of the due-jobs query, with the schedule's answer and the job's routing. */
  datatype DueItem = DueItem(job: Id, plan: Plan, route: Route)

  predicate IsDue(db: Db, j: Id, now: Time) {
    j in db.jobs && db.jobs[j].enabled && db.jobs[j].nextRunAt.Some? && db.jobs[j].nextRunAt.value <= now
  }

  /** schedule.Due; for a fixed delay it is computed here, otherwise it is the given plan. */
  function DuePlan(job: Job, plan: Plan, now: Time): Plan
    requires job.nextRunAt.Some?
  {
    if !job.kind.FixedDelay? then plan
    else if now - job.nextRunAt.value <= 2 * SECOND then Plan([job.nextRunAt.value], None)
    else if job.misfire.MisfireSkip? then Plan([], Some(NextDelay(job, now)))
    else Plan([now], None)
  }

  predicate FastPath(job: Job, route: Route) {
    job.policy.Parallel? && route.Plain?
  }

  /** The due times of one job; the flag says whether the last one was skipped. */
  function EnqueueTimes(db: Db, j: Id, times: seq<Time>, route: Route, now: Time, skipped: bool): Result<(Db, bool)>
    requires j in db.jobs
    decreases times
  {
    if times == [] then Ok((db, skipped))
    else
      var rearm := db.jobs[j].kind.FixedDelay?;
      if FastPath(db.jobs[j], route) then
        var next := Launch(db, NewRun(db.jobs[j], j, BySchedule, Pending, times[0], now, None, rearm), route);
        EnqueueTimes(next, j, times[1..], route, now, false)
      else
        var (next, fired) :- Admit(db, j, BySchedule, route, times[0], now, None, rearm);
        EnqueueTimes(next, j, times[1..], route, now, !fired)
  }

  /** The UPDATE that closes a job's turn: a one-shot job without a next time is disabled. */
  function Advance(db: Db, j: Id, next: Option<Time>): Db {
    if j !in db.jobs then db
    else
    var job := db.jobs[j];
    db.(jobs := db.jobs[j := job.(nextRunAt := next,
                                  enabled := if next.None? && job.kind.Once? then false else job.enabled)])
  }

  function EnqueueJob(db: Db, item: DueItem, now: Time): Result<Db> {
    if !IsDue(db, item.job, now) then Ok(db)
    else
      var job := db.jobs[item.job];
      var plan := DuePlan(job, item.plan, now);
      var (next, skipped) :- EnqueueTimes(db, item.job, plan.due, item.route, now, false);
      Ok(Advance(next, item.job, if job.kind.FixedDelay? && skipped then Some(NextDelay(job, now)) else plan.next))
  }

  predicate Selected(db: Db, item: DueItem, fast: bool) {
    item.job in db.jobs && FastPath(db.jobs[item.job], item.route) == fast
  }

  /** One pass over the batch: the jobs on the fast path are written after all the others. */
  function EnqueuePass(db: Db, items: seq<DueItem>, now: Time, fast: bool): Result<Db>
    decreases items
  {
    if items == [] then Ok(db)
    else if Selected(db, items[0], fast) then
      var next :- EnqueueJob(db, items[0], now);
      EnqueuePass(next, items[1..], now, fast)
    else EnqueuePass(db, items[1..], now, fast)
  }

  function EnqueueDue(db: Db, items: seq<DueItem>, now: Time): Result<Db> {
    var slow :- EnqueuePass(db, items, now, false);
    EnqueuePass(slow, items, now, true)
  }

  // -------------------------------------------------------------- dependencies

  /** The jobs that depend on j. */
  function ChildJobs(db: Db, j: Id): set<Id> {
    set c | c in db.jobs && (j, c) in db.edges
  }

  ghost function Children(db: Db, j: Id): seq<Id> {
    Ascending(ChildJobs(db, j))
  }

  function RouteOf(routes: map<Id, Route>, j: Id): Route {
    if j in routes then routes[j] else Plain
  }

  function TriggerChild(db: Db, parentId: Id, child: Id, route: Route, now: Time): Result<Db>
    requires child in db.jobs
  {
    if (parentId, child) in db.dispatched then Ok(db)
    else
      var reserved := db.(dispatched := db.dispatched[(parentId, child) := db.unused]);
      var (next, _) :- Admit(reserved, child, Dependency, route, now, now, Some(parentId), false);
      Ok(next)
  }

  function TriggerChildren(db: Db, parentId: Id, children: seq<Id>, routes: map<Id, Route>, now: Time): Result<Db>
    decreases children
  {
    if children == [] then Ok(db)
    else if children[0] !in db.jobs then TriggerChildren(db, parentId, children[1..], routes, now)
    else
      var next :- TriggerChild(db, parentId, children[0], RouteOf(routes, children[0]), now);
      TriggerChildren(next, parentId, children[1..], routes, now)
  }

  ghost function EnqueueDependents(db: Db, parentId: Id, job: Id, routes: map<Id, Route>, now: Time): Result<Db> {
    TriggerChildren(db, parentId, Children(db, job), routes, now)
  }

  // ------------------------------------------------------- leases and outcomes

  /** WHERE id=$1 AND status='running' AND lease_token=$n, after requireRunLease. */
  predicate HoldsLease(db: Db, claim: Claim) {
    claim.run.token.Some? && claim.id in db.runs && db.runs[claim.id].status.Running?
      && db.runs[claim.id].token == claim.run.token
  }

  ghost function CompleteRun(db: Db, claim: Claim, success: bool, routes: map<Id, Route>, now: Time): Result<Db> {
    if !HoldsLease(db, claim) then Err(Conflict)
    else if success then
      var done := Finish(db, claim.id, Succeeded, now);
      var next :- EnqueueDependents(done, claim.id, claim.run.job, routes, now);
      Ok(Rearm(next, claim.run, now))
    else Ok(AfterFailure(Finish(db, claim.id, Failed, now), claim.id, claim.run, Failed, now, None))
  }

  function FailRun(db: Db, claim: Claim, st: Status, now: Time, retry: Option<Time>): Result<Db> {
    if !Broken(st) then Err(InvalidState)
    else if !HoldsLease(db, claim) then Err(Conflict)
    else Ok(AfterFailure(Finish(db, claim.id, st, now), claim.id, claim.run, st, now, retry))
  }

  predicate ShouldRetry(attempt: int, maxRetries: int) {
    attempt <= maxRetries
  }

  /** failWithState: the worker decides on its own copy whether to retry. */
  function FailWithState(db: Db, claim: Claim, st: Status, now: Time, delay: Time): Result<Db> {
    FailRun(db, claim, st, now, if ShouldRetry(claim.run.attempt, claim.maxRetries) then Some(delay) else None)
  }

  /** PrepareClaimedExecutorDispatch: fixes the executor before the dispatch call is made. */
  function PrepareDispatch(db: Db, claim: Claim, node: Node, callback: Callback): Result<Db> {
    if !HoldsLease(db, claim) then Err(Conflict)
    else
      var run := db.runs[claim.id];
      Ok(Emit(SetRun(db, claim.id, run.(node := node.id, address := node.address, status := WaitingCallback,
                                        trail := run.trail + [WaitingCallback], callback := Some(callback),
                                        token := None, leaseUntil := None)),
              claim.id, WaitingCallback, Entered(WaitingCallback)))
  }

  predicate AwaitsCallback(db: Db, id: Id, hash: Id, now: Time) {
    id in db.runs && db.runs[id].status.WaitingCallback? && db.runs[id].callback.Some?
      && db.runs[id].callback.value.hash == hash && db.runs[id].callback.value.deadline > now
  }

  function CallbackRetryDelay(attempt: int): Time {
    SECOND * Pow2(if attempt <= 1 then 0 else if attempt >= 7 then 6 else attempt - 1)
  }

  function Pow2(n: nat): nat {
    if n == 0 then 1 else 2 * Pow2(n - 1)
  }

  /** CompleteCallback; the retry limit is the job's at this moment. */
  ghost function CompleteCallback(db: Db, id: Id, hash: Id, success: bool, routes: map<Id, Route>,
                                  now: Time): Result<Db> {
    if !AwaitsCallback(db, id, hash, now) || db.runs[id].job !in db.jobs then Err(NotFound)
    else
      var run := db.runs[id];
      if success then
        var next :- EnqueueDependents(Finish(db, id, Succeeded, now), id, run.job, routes, now);
        Ok(Rearm(next, run, now))
      else
        Ok(AfterFailure(Finish(db, id, Failed, now), id, run, Failed, now, CallbackRetry(db, run)))
  }

  function CallbackRetry(db: Db, run: Run): Option<Time>
    requires run.job in db.jobs
  {
    if ShouldRetry(run.attempt, db.jobs[run.job].maxRetries) then Some(CallbackRetryDelay(run.attempt)) else None
  }

  predicate Expired(db: Db, id: Id, now: Time) {
    id in db.runs && db.runs[id].status.WaitingCallback? && db.runs[id].callback.Some?
      && db.runs[id].callback.value.deadline <= now && db.runs[id].job in db.jobs
  }

  function ExpireOne(db: Db, id: Id, now: Time): Db
    requires Expired(db, id, now)
  {
    var run := db.runs[id];
    AfterFailure(Finish(db, id, TimedOut, now), id, run, TimedOut, now, CallbackRetry(db, run))
  }

  /** ExpireCallbacks over the rows its query returned, in the order it returned them. */
  function ExpireCallbacks(db: Db, rows: seq<Id>, now: Time): Db
    decreases rows
  {
    if rows == [] then db
    else if Expired(db, rows[0], now) then ExpireCallbacks(ExpireOne(db, rows[0], now), rows[1..], now)
    else ExpireCallbacks(db, rows[1..], now)
  }

  function CancelRun(db: Db, tenant: Id, id: Id, now: Time): Result<Db> {
    if id !in db.runs || db.runs[id].tenant != tenant then Err(NotFound)
    else
      var run := db.runs[id];
      if Unfinished(run.status) then
        var done := Finish(db, id, Cancelled, now);
        var told := if run.address != "" then EnqueueCancel(done, id, run.address, now) else done;
        Ok(Rearm(told, run, now))
      else if run.status.Cancelled? then
        Ok(if run.address != "" then EnqueueCancel(db, id, run.address, now) else db)
      else Err(NotCancellable)
  }

  // -------------------------------------------------------------------- claims

  predicate Claimable(run: Run, now: Time) {
    || (run.status.Pending? && run.availableAt <= now)
    || (run.status.Running? && run.leaseUntil.Some? && run.leaseUntil.value < now)
  }

  predicate LiveActive(run: Run, now: Time) {
    || (run.status.Running? && run.leaseUntil.Some? && run.leaseUntil.value >= now)
    || run.status.WaitingCallback?
  }

  /** ORDER BY available_at, id. */
  predicate Before(db: Db, a: Id, b: Id)
    requires a in db.runs && b in db.runs
  {
    db.runs[a].availableAt < db.runs[b].availableAt || (db.runs[a].availableAt == db.runs[b].availableAt && a < b)
  }

  function Max(a: int, b: int): int {
    if a >= b then a else b
  }

  function LeaseEnd(db: Db, id: Id, now: Time, lease: Time): Time
    requires id in db.runs && db.runs[id].job in db.jobs
  {
    now + Max(lease, (db.jobs[db.runs[id].job].timeout + 30) * SECOND)
  }

  function ClaimedRow(db: Db, id: Id, now: Time, lease: Time): Run
    requires id in db.runs && db.runs[id].job in db.jobs
  {
    db.runs[id].(status := Running, trail := db.runs[id].trail + [Running], token := Some(db.unused),
                 leaseUntil := Some(LeaseEnd(db, id, now, lease)))
  }

  /** One row of the claiming UPDATE; a run taken over from an expired lease emits nothing. */
  function ClaimOne(db: Db, id: Id, now: Time, lease: Time): Db
    requires id in db.runs && db.runs[id].job in db.jobs
  {
    var row := ClaimedRow(db, id, now, lease);
    db.(runs := db.runs[id := row],
        log := if db.runs[id].status.Pending? then db.log[id := Log(db, id) + [Entered(Running)]] else db.log,
        claims := db.claims[db.unused := Claim(id, row, db.jobs[db.runs[id].job].maxRetries)],
        unused := db.unused + 1)
  }

  function ClaimEach(db: Db, picked: seq<Id>, now: Time, lease: Time): Db
    decreases picked
  {
    if picked == [] then db
    else if picked[0] in db.runs && db.runs[picked[0]].job in db.jobs
    then ClaimEach(ClaimOne(db, picked[0], now, lease), picked[1..], now, lease)
    else ClaimEach(db, picked[1..], now, lease)
  }
}
