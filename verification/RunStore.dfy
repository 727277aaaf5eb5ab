/**
 The store as an object whose methods update its tables in place, each proved to
 do exactly what the transaction of the same name does to the database value.
 */
module RunStore {
  import opened RunTypes
  import T = RunTransactions
  import opened RunBlocks
  import S = RunSystem
  import H = RunHistory
  import RunBlockLemmas
  import RunSafety
  import RunRefinement
  import C = RunCover
  import Dependencies

  /** What a transaction's body must have done when it returns: its writes, or its error. */
  ghost predicate Wrote(spec: Result<Db>, r: Result<bool>, after: Db) {
    match spec
    case Ok(db) => r.Ok? && after == db
    case Err(e) => r == Err(e)
  }

  /** What a transaction must have done when it returns: an error also rolls every write back. */
  ghost predicate Committed(spec: Result<Db>, r: Result<bool>, before: Db, after: Db) {
    Wrote(spec, r, after) && (spec.Err? ==> after == before)
  }

  class Store {
    var jobs: map<Id, Job>
    var runs: map<Id, Run>
    var log: map<Id, seq<Topic>>
    var commands: map<Id, Command>
    var edges: set<(Id, Id)>
    var dispatched: map<(Id, Id), Id>
    var keys: map<(Id, string), Id>
    var claims: map<Id, Claim>
    var unused: Id

    function Value(): Db
      reads this
    {
      Db(jobs, runs, log, commands, edges, dispatched, keys, claims, unused)
    }

    ghost predicate Valid()
      reads this
    {
      H.Sound(Value())
    }

    /** What the covering loop relies on: groups belong to one job, and every run has its events. */
    ghost predicate Tables()
      reads this
    {
      Groups(runs) && log.Keys == runs.Keys
    }

    constructor ()
      ensures Valid() && Value() == EMPTY
    {
      jobs, runs, log, commands, edges := map[], map[], map[], map[], {};
      dispatched, keys, claims, unused := map[], map[], map[], 0;
      new;
      H.EmptySound();
    }

    method Rollback(db: Db)
      modifies this
      ensures Value() == db
    {
      jobs, runs, log, commands := db.jobs, db.runs, db.log, db.commands;
      edges, dispatched, keys, claims, unused := db.edges, db.dispatched, db.keys, db.claims, db.unused;
    }

    // ---------------------------------------------------------------- statements

    method Emit(id: Id, expected: Status, topic: Topic)
      modifies this`log
      ensures Value() == T.Emit(old(Value()), id, expected, topic)
    {
      if id in runs && runs[id].status == expected {
        log := log[id := (if id in log then log[id] else []) + [topic]];
      }
    }

    method FinishRun(id: Id, st: Status, now: Time)
      requires id in runs
      modifies this`runs, this`log
      ensures Value() == T.Finish(old(Value()), id, st, now)
    {
      runs := runs[id := T.Terminal(runs[id], st, now)];
      Emit(id, st, Entered(st));
    }

    method RearmFixedDelay(run: Run, terminalAt: Time)
      modifies this`jobs
      ensures Value() == T.Rearm(old(Value()), run, terminalAt)
    {
      if !run.rearm {
        return;
      }
      if run.shard.Some? && T.GroupAwaited(Value(), run.shard.value.group) {
        return;
      }
      if T.WantsRearm(Value(), run.job) {
        jobs := jobs[run.job := jobs[run.job].(nextRunAt := Some(T.NextDelay(jobs[run.job], terminalAt)))];
      }
    }

    method InsertRun(id: Id, row: Run)
      modifies this`runs, this`log
      ensures Value() == old(Value()).(runs := old(runs)[id := row], log := old(log)[id := [Entered(row.status)]])
    {
      runs := runs[id := row];
      log := log[id := [Entered(row.status)]];
    }

    method InsertRetryRun(id: Id, previous: Run, now: Time, delay: Time)
      modifies this`runs, this`log, this`unused
      ensures Value() == T.InsertRetry(old(Value()), id, previous, now, delay)
    {
      ghost var before := Value();
      InsertRun(unused, T.RetryRow(id, previous, now, delay));
      RunBlockLemmas.AddOne(before, before.unused, T.RetryRow(id, previous, now, delay));
      unused := unused + 1;
    }

    method EnqueueCancellation(id: Id, address: string, now: Time)
      modifies this`commands
      ensures Value() == T.EnqueueCancel(old(Value()), id, address, now)
    {
      if id !in commands {
        commands := commands[id := T.Command0(address, now)];
      }
    }

    // ------------------------------------------------------------------- covering

    /** applyBlockAction: one UPDATE of all the rows, then a loop over the rows it returned. */
    method CoverRuns(j: Id, now: Time)
      requires Tables()
      modifies this
      ensures Value() == T.Cover(old(Value()), j, now)
    {
      hide C.Covered, T.Emit, T.EnqueueCancel, T.Rearm, T.Cover, Groups;
      ghost var before := Value();
      var copies := runs;
      var todo := C.Active(Value(), j);
      runs := C.CoveredRuns(Value(), j, now);
      C.CoveredStart(before, j, now);
      while todo != {}
        invariant forall id :: id in todo ==> T.ActiveIn(before, j, id)
        invariant Value() == C.Covered(before, j, now, todo)
        decreases |todo|
      {
        var id :| id in todo;
        C.CoveredStep(before, j, now, todo, id);
        Emit(id, Cancelled, Entered(Cancelled));
        if copies[id].address != "" {
          EnqueueCancellation(id, copies[id].address, now);
        }
        RearmFixedDelay(copies[id], now);
        todo := todo - {id};
      }
      C.CoveredEnd(before, j, now);
    }

    // ------------------------------------------------------------------- triggers

    /** The loop over the shards of a broadcast. */
    method InsertShards(base: Run, nodes: seq<Node>, first: Id)
      modifies this`runs, this`log
      ensures var rows := T.LaunchRows(base, Broadcast(nodes), first);
              runs == old(runs) + rows && log == old(log) + T.Topics(rows)
    {
      hide T.LaunchRows, T.ShardRow, T.Topics, Upto;
      ghost var rows := T.LaunchRows(base, Broadcast(nodes), first);
      ghost var topics := T.Topics(rows);
      ShardKeys(base, nodes, first);
      UptoNone(runs, rows, first, |nodes|);
      UptoNone(log, topics, first, |nodes|);
      for k := 0 to |nodes|
        invariant runs == old(runs) + Upto(rows, first + k) && log == old(log) + Upto(topics, first + k)
      {
        ShardAt(base, nodes, first, k);
        UptoStep(old(runs), rows, first + k);
        UptoStep(old(log), topics, first + k);
        InsertRun(first + k, T.ShardRow(base, nodes, first + |nodes|, k));
      }
      UptoAll(rows, first, |nodes|);
      UptoAll(topics, first, |nodes|);
    }

    /** The rows of one trigger: a single run, or one shard per node under a new group. */
    method Launch(base: Run, route: Route)
      modifies this`runs, this`log, this`unused
      ensures Value() == T.Launch(old(Value()), base, route)
    {
      ghost var before := Value();
      match route {
        case Plain =>
          InsertRun(unused, base);
          RunBlockLemmas.AddOne(before, before.unused, base);
          unused := unused + 1;
        case Broadcast(nodes) =>
          InsertShards(base, nodes, unused);
          unused := unused + |nodes| + 1;
      }
    }

    method Fire(j: Id, base: Run, route: Route, cover: bool, now: Time)
      requires Tables()
      modifies this
      ensures Value() == T.FireRun(old(Value()), j, base, route, cover, now)
    {
      hide T.Cover, T.Launch, Groups;
      if cover {
        CoverRuns(j, now);
      }
      Launch(base, route);
    }

    /** A scheduled or dependency trigger; the result is false when it was recorded as skipped. */
    method Admit(j: Id, trigger: Trigger, route: Route, at: Time, now: Time, parent: Option<Id>, rearm: bool)
      returns (r: Result<bool>)
      requires j in jobs && Tables()
      modifies this
      ensures match T.Admit(old(Value()), j, trigger, route, at, now, parent, rearm)
              case Ok((db, fired)) => r == Ok(fired) && Value() == db
              case Err(e) => r == Err(e)
    {
      hide T.FireRun, T.Launch, T.Decide, Groups;
      var job := jobs[j];
      match T.Decide(Value(), j, route) {
        case Fire(cover) =>
          Fire(j, T.NewRun(job, j, trigger, Pending, at, now, parent, rearm), route, cover, now);
          r := Ok(true);
        case NoNodes =>
          r := Err(NoExecutors);
        case _ =>
          Launch(T.NewRun(job, j, trigger, RunTypes.Skipped, at, now, parent, rearm), Plain);
          r := Ok(false);
      }
    }

    method TriggerBody(tenant: Id, j: Id, key: string, route: Route, now: Time) returns (r: Result<Id>)
      requires Tables()
      modifies this
      ensures match T.TriggerJob(old(Value()), tenant, j, key, route, now)
              case Ok((db, id)) => r == Ok(id) && Value() == db
              case Err(e) => r == Err(e)
    {
      hide T.FireRun, T.Launch, T.Decide, Groups;
      if j !in jobs || jobs[j].tenant != tenant {
        return Err(NotFound);
      }
      if key != "" && (j, key) in keys {
        return Ok(keys[(j, key)]);
      }
      var job, decision := jobs[j], T.Decide(Value(), j, route);
      r := Ok(unused);
      if key != "" {
        keys := keys[(j, key) := unused];
      }
      match decision {
        case Fire(cover) => Fire(j, T.NewRun(job, j, Manual, Pending, now, now, None, false), route, cover, now);
        case Drop => Launch(T.NewRun(job, j, Manual, RunTypes.Skipped, now, now, None, false), Plain);
        case Full => r := Err(QueueFull);
        case NoNodes => r := Err(NoExecutors);
      }
    }

    /** TriggerJobWithOptions; the result is the run's id, also when the key was used before. */
    method TriggerJob(tenant: Id, j: Id, key: string, route: Route, now: Time) returns (r: Result<Id>)
      requires Valid()
      modifies this
      ensures Valid() && Value() == S.Do(old(Value()), S.DoTrigger(tenant, j, key, route, now))
      ensures match T.TriggerJob(old(Value()), tenant, j, key, route, now)
              case Ok((_, id)) => r == Ok(id)
              case Err(e) => r == Err(e)
    {
      hide H.Sound, T.TriggerJob, Groups;
      var before := Value();
      H.DoSound(before, S.DoTrigger(tenant, j, key, route, now));
      SoundTables(before);
      r := TriggerBody(tenant, j, key, route, now);
      if r.Err? {
        Rollback(before);
      }
    }

    // ----------------------------------------------------------------- EnqueueDue

    /** The loop over the due times of one job; the result says whether the last one was skipped. */
    method EnqueueTimes(j: Id, times: seq<Time>, route: Route, now: Time) returns (r: Result<bool>)
      requires Inv(Value()) && j in jobs
      modifies this
      ensures match T.EnqueueTimes(old(Value()), j, times, route, now, false)
              case Ok((db, skipped)) => r == Ok(skipped) && Value() == db && Inv(db)
              case Err(e) => r == Err(e)
    {
      hide Inv, T.Admit, T.Launch;
      ghost var before := Value();
      var skipped, i := false, 0;
      while i < |times|
        invariant 0 <= i <= |times| && j in jobs && Inv(Value())
        invariant T.EnqueueTimes(Value(), j, times[i..], route, now, skipped)
               == T.EnqueueTimes(before, j, times, route, now, false)
      {
        var job := jobs[j];
        var rearm := job.kind.FixedDelay?;
        assert times[i..][0] == times[i] && times[i..][1..] == times[i + 1..];
        if T.FastPath(job, route) {
          LaunchKeepsInv(Value(), T.NewRun(job, j, BySchedule, Pending, times[i], now, None, rearm), route);
          Launch(T.NewRun(job, j, BySchedule, Pending, times[i], now, None, rearm), route);
          skipped := false;
        } else {
          InvTables(Value());
          AdmitKeepsInv(Value(), j, BySchedule, route, times[i], now, None, rearm);
          var fired :- Admit(j, BySchedule, route, times[i], now, None, rearm);
          skipped := !fired;
        }
        i := i + 1;
      }
      r := Ok(skipped);
    }

    /** One job of the batch: its due times, then the UPDATE that advances it. */
    method EnqueueJob(item: T.DueItem, now: Time) returns (r: Result<bool>)
      requires Inv(Value())
      modifies this
      ensures Wrote(T.EnqueueJob(old(Value()), item, now), r, Value())
      ensures r.Ok? ==> Inv(Value())
    {
      hide Inv, T.EnqueueTimes, T.DuePlan;
      var j := item.job;
      if !T.IsDue(Value(), j, now) {
        return Ok(true);
      }
      var job := jobs[j];
      var plan := T.DuePlan(job, item.plan, now);
      var skipped :- EnqueueTimes(j, plan.due, item.route, now);
      var next := if job.kind.FixedDelay? && skipped then Some(T.NextDelay(job, now)) else plan.next;
      AdvanceKeepsInv(Value(), j, next);
      if j in jobs {
        var enabled := if next.None? && jobs[j].kind.Once? then false else jobs[j].enabled;
        jobs := jobs[j := jobs[j].(nextRunAt := next, enabled := enabled)];
      }
      r := Ok(true);
    }

    /** One pass over the batch: the jobs on the fast path, or the others. */
    method EnqueuePass(items: seq<T.DueItem>, now: Time, fast: bool) returns (r: Result<bool>)
      requires Inv(Value())
      modifies this
      ensures Wrote(T.EnqueuePass(old(Value()), items, now, fast), r, Value())
      ensures r.Ok? ==> Inv(Value())
    {
      hide Inv, T.EnqueueJob;
      ghost var before := Value();
      var i := 0;
      while i < |items|
        invariant 0 <= i <= |items| && Inv(Value())
        invariant T.EnqueuePass(Value(), items[i..], now, fast) == T.EnqueuePass(before, items, now, fast)
      {
        assert items[i..][0] == items[i] && items[i..][1..] == items[i + 1..];
        if T.Selected(Value(), items[i], fast) {
          var _ :- EnqueueJob(items[i], now);
        }
        i := i + 1;
      }
      r := Ok(true);
    }

    /** EnqueueDue over the rows its query returned; the batched jobs are written last. */
    method EnqueueDue(items: seq<T.DueItem>, now: Time) returns (r: Result<bool>)
      requires Valid()
      modifies this
      ensures Valid() && Committed(S.Apply(old(Value()), S.DoEnqueueDue(items, now)), r, old(Value()), Value())
    {
      hide H.Sound, Inv, T.EnqueuePass;
      var before := Value();
      H.DoSound(before, S.DoEnqueueDue(items, now));
      SoundTables(before);
      r := EnqueuePass(items, now, false);
      if r.Ok? {
        r := EnqueuePass(items, now, true);
      }
      if r.Err? {
        Rollback(before);
      }
    }

    // ------------------------------------------------------- leases and outcomes

    /** What follows a broken run: its retry, or the exhausted event and the rearming. */
    method AfterFailure(id: Id, copy: Run, st: Status, now: Time, retry: Option<Time>)
      modifies this
      ensures Value() == T.AfterFailure(old(Value()), id, copy, st, now, retry)
    {
      hide T.InsertRetry, T.Rearm, T.Emit;
      if retry.Some? {
        InsertRetryRun(id, copy, now, retry.value);
      } else {
        Emit(id, st, Exhausted);
        RearmFixedDelay(copy, now);
      }
    }

    /** failWithState and FailRun, for the worker that holds the claim with this token. */
    method FailRun(token: Id, st: Status, now: Time, delay: Time) returns (r: Result<bool>)
      requires Valid()
      modifies this
      ensures Valid() && Committed(S.Apply(old(Value()), S.DoFail(token, st, now, delay)), r, old(Value()), Value())
    {
      hide H.Sound, T.AfterFailure, T.Finish;
      H.DoSound(Value(), S.DoFail(token, st, now, delay));
      if token !in claims {
        return Err(Conflict);
      }
      var claim := claims[token];
      if !Broken(st) {
        return Err(InvalidState);
      }
      if !T.HoldsLease(Value(), claim) {
        return Err(Conflict);
      }
      FinishRun(claim.id, st, now);
      AfterFailure(claim.id, claim.run, st, now,
                   if T.ShouldRetry(claim.run.attempt, claim.maxRetries) then Some(delay) else None);
      r := Ok(true);
    }

    method CancelRun(tenant: Id, id: Id, now: Time) returns (r: Result<bool>)
      requires Valid()
      modifies this
      ensures Valid() && Committed(S.Apply(old(Value()), S.DoCancel(tenant, id, now)), r, old(Value()), Value())
    {
      hide H.Sound, T.Rearm, T.EnqueueCancel, T.Finish;
      H.DoSound(Value(), S.DoCancel(tenant, id, now));
      if id !in runs || runs[id].tenant != tenant {
        return Err(NotFound);
      }
      var run := runs[id];
      if Unfinished(run.status) {
        FinishRun(id, Cancelled, now);
        if run.address != "" {
          EnqueueCancellation(id, run.address, now);
        }
        RearmFixedDelay(run, now);
        return Ok(true);
      }
      if run.status.Cancelled? {
        if run.address != "" {
          EnqueueCancellation(id, run.address, now);
        }
        return Ok(true);
      }
      r := Err(NotCancellable);
    }

    /** PrepareClaimedExecutorDispatch. */
    method PrepareDispatch(token: Id, node: Node, callback: Callback) returns (r: Result<bool>)
      requires Valid()
      modifies this
      ensures Valid() && Committed(S.Apply(old(Value()), S.DoPrepare(token, node, callback)), r, old(Value()), Value())
    {
      hide H.Sound, T.Emit;
      H.DoSound(Value(), S.DoPrepare(token, node, callback));
      if token !in claims || !T.HoldsLease(Value(), claims[token]) {
        return Err(Conflict);
      }
      var id := claims[token].id;
      var run := runs[id];
      runs := runs[id := run.(node := node.id, address := node.address, status := WaitingCallback,
                              trail := run.trail + [WaitingCallback], callback := Some(callback),
                              token := None, leaseUntil := None)];
      Emit(id, WaitingCallback, Entered(WaitingCallback));
      r := Ok(true);
    }

    /** One dependent job: reserve its dispatch, then trigger it. */
    method TriggerChild(parentId: Id, c: Id, route: Route, now: Time) returns (r: Result<bool>)
      requires Inv(Value()) && c in jobs
      modifies this
      ensures Wrote(T.TriggerChild(old(Value()), parentId, c, route, now), r, Value())
      ensures r.Ok? ==> Inv(Value())
    {
      hide Inv, T.Admit;
      if (parentId, c) in dispatched {
        return Ok(true);
      }
      ReserveKeepsInv(Value(), parentId, c);
      dispatched := dispatched[(parentId, c) := unused];
      InvTables(Value());
      AdmitKeepsInv(Value(), c, Dependency, route, now, now, Some(parentId), false);
      var _ :- Admit(c, Dependency, route, now, now, Some(parentId), false);
      r := Ok(true);
    }

    /** The loop over dependent jobs. */
    method TriggerChildren(parentId: Id, children: seq<Id>, routes: map<Id, Route>, now: Time) returns (r: Result<bool>)
      requires Inv(Value())
      modifies this
      ensures Wrote(T.TriggerChildren(old(Value()), parentId, children, routes, now), r, Value())
    {
      hide Inv, T.TriggerChild;
      ghost var before := Value();
      var i := 0;
      while i < |children|
        invariant 0 <= i <= |children| && Inv(Value())
        invariant T.TriggerChildren(Value(), parentId, children[i..], routes, now)
               == T.TriggerChildren(before, parentId, children, routes, now)
      {
        var c := children[i];
        assert children[i..][0] == c && children[i..][1..] == children[i + 1..];
        if c in jobs {
          var _ :- TriggerChild(parentId, c, T.RouteOf(routes, c), now);
        }
        i := i + 1;
      }
      r := Ok(true);
    }

    /** enqueueDependentRuns, in the order of the job ids. */
    method EnqueueDependents(parentId: Id, job: Id, routes: map<Id, Route>, now: Time) returns (r: Result<bool>)
      requires Inv(Value())
      modifies this
      ensures Wrote(T.EnqueueDependents(old(Value()), parentId, job, routes, now), r, Value())
    {
      hide Inv, T.TriggerChildren;
      var children := SortIds(T.ChildJobs(Value(), job));
      r := TriggerChildren(parentId, children, routes, now);
    }

    /** What a success writes: the row, the dependents, and the next time of a fixed delay. */
    method SucceedRun(id: Id, copy: Run, routes: map<Id, Route>, now: Time) returns (r: Result<bool>)
      requires Inv(Value()) && id in runs && Unfinished(runs[id].status)
      modifies this
      ensures match T.EnqueueDependents(T.Finish(old(Value()), id, Succeeded, now), id, copy.job, routes, now)
              case Ok(db) => r == Ok(true) && Value() == T.Rearm(db, copy, now)
              case Err(e) => r == Err(e)
    {
      hide Inv, T.Finish, T.EnqueueDependents, T.Rearm;
      RunSafety.FinishKept(Value(), id, now);
      FinishRun(id, Succeeded, now);
      var _ :- EnqueueDependents(id, copy.job, routes, now);
      RearmFixedDelay(copy, now);
      r := Ok(true);
    }

    method CompleteBody(token: Id, success: bool, routes: map<Id, Route>, now: Time) returns (r: Result<bool>)
      requires Inv(Value())
      modifies this
      ensures Wrote(S.Apply(old(Value()), S.DoComplete(token, success, routes, now)), r, Value())
    {
      hide Inv, T.Finish, T.EnqueueDependents, T.Rearm, T.AfterFailure;
      if token !in claims || !T.HoldsLease(Value(), claims[token]) {
        return Err(Conflict);
      }
      var claim := claims[token];
      if success {
        r := SucceedRun(claim.id, claim.run, routes, now);
      } else {
        FinishRun(claim.id, Failed, now);
        AfterFailure(claim.id, claim.run, Failed, now, None);
        r := Ok(true);
      }
    }

    method CompleteRun(token: Id, success: bool, routes: map<Id, Route>, now: Time) returns (r: Result<bool>)
      requires Valid()
      modifies this
      ensures Valid()
      ensures Committed(S.Apply(old(Value()), S.DoComplete(token, success, routes, now)), r, old(Value()), Value())
    {
      hide H.Sound, Inv, S.Apply;
      var before := Value();
      H.DoSound(before, S.DoComplete(token, success, routes, now));
      SoundTables(before);
      r := CompleteBody(token, success, routes, now);
      if r.Err? {
        Rollback(before);
      }
    }

    method CallbackBody(id: Id, hash: Id, success: bool, routes: map<Id, Route>, now: Time) returns (r: Result<bool>)
      requires Inv(Value())
      modifies this
      ensures Wrote(S.Apply(old(Value()), S.DoCallback(id, hash, success, routes, now)), r, Value())
    {
      hide Inv, T.Finish, T.EnqueueDependents, T.Rearm, T.AfterFailure;
      if !T.AwaitsCallback(Value(), id, hash, now) || runs[id].job !in jobs {
        return Err(NotFound);
      }
      var run := runs[id];
      if success {
        r := SucceedRun(id, run, routes, now);
      } else {
        var retry := T.CallbackRetry(Value(), run);
        FinishRun(id, Failed, now);
        AfterFailure(id, run, Failed, now, retry);
        r := Ok(true);
      }
    }

    method CompleteCallback(id: Id, hash: Id, success: bool, routes: map<Id, Route>, now: Time)
      returns (r: Result<bool>)
      requires Valid()
      modifies this
      ensures Valid()
      ensures Committed(S.Apply(old(Value()), S.DoCallback(id, hash, success, routes, now)), r, old(Value()), Value())
    {
      hide H.Sound, Inv, S.Apply;
      var before := Value();
      H.DoSound(before, S.DoCallback(id, hash, success, routes, now));
      SoundTables(before);
      r := CallbackBody(id, hash, success, routes, now);
      if r.Err? {
        Rollback(before);
      }
    }

    /** The loop over the rows the expiry query returned. */
    method ExpireCallbacks(rows: seq<Id>, now: Time)
      requires Valid()
      modifies this
      ensures Valid() && Value() == S.Do(old(Value()), S.DoExpire(rows, now))
    {
      hide H.Sound, T.Finish, T.AfterFailure;
      ghost var before := Value();
      H.DoSound(before, S.DoExpire(rows, now));
      var i := 0;
      while i < |rows|
        invariant 0 <= i <= |rows|
        invariant T.ExpireCallbacks(Value(), rows[i..], now) == T.ExpireCallbacks(before, rows, now)
      {
        assert rows[i..][0] == rows[i] && rows[i..][1..] == rows[i + 1..];
        if T.Expired(Value(), rows[i], now) {
          var run := runs[rows[i]];
          var retry := T.CallbackRetry(Value(), run);
          FinishRun(rows[i], TimedOut, now);
          AfterFailure(rows[i], run, TimedOut, now, retry);
        }
        i := i + 1;
      }
    }

    // --------------------------------------------------------------------- claims

    /** ORDER BY available_at, id ... LIMIT. */
    method PickRows(pool: set<Id>, limit: nat) returns (picked: seq<Id>)
      requires pool <= runs.Keys
      ensures picked == S.Pick(Value(), pool, limit)
    {
      picked := [];
      var rest, n := pool, limit;
      while n > 0 && rest != {}
        invariant rest <= runs.Keys
        invariant picked + S.Pick(Value(), rest, n) == S.Pick(Value(), pool, limit)
        decreases n
      {
        ghost var m0 := S.First(Value(), rest);
        var m :| m in rest && forall q :: q in rest && q != m ==> T.Before(Value(), m, q);
        PickFirst(Value(), rest, n, m);
        picked := picked + [m];
        rest := rest - {m};
        n := n - 1;
      }
    }

    /** ClaimRuns: `locked` are the rows SKIP LOCKED passes over. */
    method ClaimRuns(caps: S.Caps, limit: nat, locked: set<Id>, lease: Time, now: Time)
      requires Valid()
      modifies this
      ensures Valid() && Value() == S.Do(old(Value()), S.DoClaim(caps, limit, locked, lease, now))
    {
      hide H.Sound, S.EligibleRuns, S.Pick, T.ClaimOne;
      ghost var before := Value();
      H.DoSound(before, S.DoClaim(caps, limit, locked, lease, now));
      EligibleExist(before, caps, now);
      var picked := PickRows(S.EligibleRuns(Value(), caps, now) - locked, limit);
      var i := 0;
      while i < |picked|
        invariant 0 <= i <= |picked|
        invariant T.ClaimEach(Value(), picked[i..], now, lease) == T.ClaimEach(before, picked, now, lease)
      {
        var id := picked[i];
        assert picked[i..][0] == id && picked[i..][1..] == picked[i + 1..];
        if id in runs && runs[id].job in jobs {
          ClaimRow(id, now, lease);
        }
        i := i + 1;
      }
    }

    method ClaimRow(id: Id, now: Time, lease: Time)
      requires id in runs && runs[id].job in jobs
      modifies this
      ensures Value() == T.ClaimOne(old(Value()), id, now, lease)
    {
      var first := runs[id].status.Pending?;
      var row := T.ClaimedRow(Value(), id, now, lease);
      claims := claims[unused := Claim(id, row, jobs[runs[id].job].maxRetries)];
      runs := runs[id := row];
      unused := unused + 1;
      if first {
        log := log[id := (if id in log then log[id] else []) + [Entered(Running)]];
      }
    }

    // ------------------------------------------------------- commands and graph

    method ClaimCommands(owner: string, rows: seq<Id>, now: Time)
      requires Valid()
      modifies this
      ensures Valid() && Value() == S.Do(old(Value()), S.DoClaimCommands(owner, rows, now))
    {
      hide H.Sound;
      ghost var before := Value();
      H.DoSound(before, S.DoClaimCommands(owner, rows, now));
      var i := 0;
      while i < |rows|
        invariant 0 <= i <= |rows|
        invariant S.ClaimCommands(Value(), owner, rows[i..], now) == S.ClaimCommands(before, owner, rows, now)
      {
        assert rows[i..][0] == rows[i] && rows[i..][1..] == rows[i + 1..];
        if rows[i] in commands && S.CommandFree(commands[rows[i]], now) {
          var c := commands[rows[i]];
          commands := commands[rows[i] := c.(lockedBy := Some(owner), lockedUntil := Some(now + 30 * SECOND),
            attempts := c.attempts + 1)];
        }
        i := i + 1;
      }
    }

    method CompleteCommand(owner: string, id: Id, now: Time) returns (r: Result<bool>)
      requires Valid()
      modifies this
      ensures Valid() && Committed(S.Apply(old(Value()), S.DoCompleteCommand(owner, id, now)), r, old(Value()), Value())
    {
      hide H.Sound;
      H.DoSound(Value(), S.DoCompleteCommand(owner, id, now));
      if id !in commands || !S.CommandHeld(commands[id], owner, now) {
        return Err(Conflict);
      }
      commands := commands[id := commands[id].(delivered := true, lockedBy := None, lockedUntil := None)];
      r := Ok(true);
    }

    method RetryCommand(owner: string, id: Id, delay: Time, now: Time) returns (r: Result<bool>)
      requires Valid()
      modifies this
      ensures Valid()
      ensures Committed(S.Apply(old(Value()), S.DoRetryCommand(owner, id, delay, now)), r, old(Value()), Value())
    {
      hide H.Sound;
      H.DoSound(Value(), S.DoRetryCommand(owner, id, delay, now));
      if id !in commands || !S.CommandHeld(commands[id], owner, now) {
        return Err(Conflict);
      }
      commands := commands[id := commands[id].(availableAt := now + delay, lockedBy := None, lockedUntil := None)];
      r := Ok(true);
    }

    /** The insert loop, which asks for a cycle before every edge. */
    method InsertEdges(parent: Id, children: seq<Id>) returns (r: Result<bool>)
      modifies this`edges
      ensures match Dependencies.InsertChildren(old(edges), parent, children)
              case Ok(all) => r == Ok(true) && edges == all
              case Err(e) => r == Err(e)
    {
      hide Dependencies.Reaches;
      var i := 0;
      while i < |children|
        invariant 0 <= i <= |children|
        invariant Dependencies.InsertChildren(edges, parent, children[i..])
            == Dependencies.InsertChildren(old(edges), parent, children)
      {
        assert children[i..][0] == children[i] && children[i..][1..] == children[i + 1..];
        var below := Dependencies.Descendants(edges, children[i]);
        if children[i] == parent || parent in below {
          return Err(DependencyCycle);
        }
        edges := edges + {(parent, children[i])};
        i := i + 1;
      }
      r := Ok(true);
    }

    /** SetJobDependencies: delete the parent's edges, then insert the new ones. */
    method SetJobDependencies(tenant: Id, parent: Id, children: seq<Id>) returns (r: Result<bool>)
      requires Valid()
      modifies this
      ensures Valid()
      ensures Committed(S.Apply(old(Value()), S.DoSetDependencies(tenant, parent, children)), r, old(Value()), Value())
    {
      hide H.Sound, Dependencies.InsertChildren, Dependencies.Named;
      H.DoSound(Value(), S.DoSetDependencies(tenant, parent, children));
      if |Dependencies.Named(S.TenantJobs(Value(), tenant), parent, children)| != |children| + 1 {
        return Err(NotFound);
      }
      var saved := edges;
      edges := Dependencies.WithoutParent(edges, parent);
      r := InsertEdges(parent, children);
      if r.Err? {
        edges := saved;
      }
    }
  }

  lemma SoundTables(db: Db)
    requires H.Sound(db)
    ensures Inv(db) && Groups(db.runs) && db.log.Keys == db.runs.Keys
  {
  }

  lemma InvTables(db: Db)
    requires Inv(db)
    ensures Groups(db.runs) && db.log.Keys == db.runs.Keys
  {
  }

  lemma LaunchKeepsInv(db: Db, base: Run, route: Route)
    requires Inv(db) && RunBlockLemmas.Seed(db, base)
    ensures Inv(T.Launch(db, base, route)) && T.Launch(db, base, route).jobs == db.jobs
  {
    hide Inv;
    RunSafety.LaunchKept(db, base, route);
  }

  lemma SeedCovered(db: Db, j: Id, now: Time, base: Run)
    requires RunBlockLemmas.Seed(db, base)
    ensures RunBlockLemmas.Seed(T.Cover(db, j, now), base)
  {
    hide T.Cover;
    RunRefinement.CoverClears(db, j, now);
    RunRefinement.CoverEdges(db, j, now);
  }

  lemma FireKeepsInv(db: Db, j: Id, base: Run, route: Route, cover: bool, now: Time)
    requires Inv(db) && RunBlockLemmas.Seed(db, base)
    ensures Inv(T.FireRun(db, j, base, route, cover, now))
    ensures T.FireRun(db, j, base, route, cover, now).jobs.Keys == db.jobs.Keys
  {
    hide Inv, T.Cover, T.Launch, RunBlockLemmas.Seed, JobsKept, T.HasActive;
    if cover {
      SeedCovered(db, j, now, base);
      RunSafety.CoverKept(db, j, now);
      RunRefinement.CoverClears(db, j, now);
      LaunchKeepsInv(T.Cover(db, j, now), base, route);
    } else {
      LaunchKeepsInv(db, base, route);
    }
  }

  lemma AdmitKeepsInv(db: Db, j: Id, trigger: Trigger, route: Route, at: Time, now: Time, parent: Option<Id>,
                      rearm: bool)
    requires Inv(db) && j in db.jobs
    ensures var r := T.Admit(db, j, trigger, route, at, now, parent, rearm);
            r.Ok? ==> Inv(r.value.0) && j in r.value.0.jobs
  {
    hide Inv, T.FireRun, T.Launch, T.Decide;
    match T.Decide(db, j, route)
    case Fire(cover) =>
      FireKeepsInv(db, j, T.NewRun(db.jobs[j], j, trigger, Pending, at, now, parent, rearm), route, cover, now);
    case _ =>
      LaunchKeepsInv(db, T.NewRun(db.jobs[j], j, trigger, RunTypes.Skipped, at, now, parent, rearm), Plain);
  }

  lemma ReserveKeepsInv(db: Db, p: Id, c: Id)
    requires Inv(db)
    ensures Inv(db.(dispatched := db.dispatched[(p, c) := db.unused]))
  {
    hide Inv;
    RunSafety.UntouchedKept(db, db.(dispatched := db.dispatched[(p, c) := db.unused]));
  }

  lemma PickFirst(db: Db, pool: set<Id>, limit: nat, m: Id)
    requires pool <= db.runs.Keys && limit > 0 && S.IsFirst(db, pool, m)
    ensures S.Pick(db, pool, limit) == [m] + S.Pick(db, pool - {m}, limit - 1)
  {
    var p := S.Pick(db, pool, limit);
    assert S.IsFirst(db, pool, p[0]);
    assert p[0] == m;
  }

  lemma EligibleExist(db: Db, caps: S.Caps, now: Time)
    ensures S.EligibleRuns(db, caps, now) <= db.runs.Keys
  {
  }

  lemma AdvanceKeepsInv(db: Db, j: Id, next: Option<Time>)
    requires Inv(db)
    ensures Inv(T.Advance(db, j, next))
  {
    hide Inv;
    RunSafety.UntouchedKept(db, T.Advance(db, j, next));
  }

  /** The entries below a bound. */
  ghost function Upto<V>(m: map<Id, V>, bound: Id): map<Id, V> {
    map id | id in m && id < bound :: m[id]
  }

  lemma ShardKeys(base: Run, nodes: seq<Node>, first: Id)
    ensures var rows := T.LaunchRows(base, Broadcast(nodes), first);
            rows.Keys == Span(first, |nodes|) && T.Topics(rows).Keys == Span(first, |nodes|)
  {
  }

  lemma ShardAt(base: Run, nodes: seq<Node>, first: Id, k: nat)
    requires k < |nodes|
    ensures var rows, row := T.LaunchRows(base, Broadcast(nodes), first), T.ShardRow(base, nodes, first + |nodes|, k);
            && first + k in rows && rows[first + k] == row
            && first + k in T.Topics(rows) && T.Topics(rows)[first + k] == [Entered(row.status)]
  {
  }

  lemma UptoNone<V>(m: map<Id, V>, rows: map<Id, V>, first: Id, n: nat)
    requires rows.Keys == Span(first, n)
    ensures m + Upto(rows, first) == m
  {
  }

  lemma UptoStep<V>(m: map<Id, V>, rows: map<Id, V>, id: Id)
    requires id in rows
    ensures m + Upto(rows, id + 1) == (m + Upto(rows, id))[id := rows[id]]
  {
  }

  lemma UptoAll<V>(rows: map<Id, V>, first: Id, n: nat)
    requires rows.Keys == Span(first, n)
    ensures Upto(rows, first + n) == rows
  {
    forall id | id in rows ensures id < first + n {
      assert id in Span(first, n);
    }
  }
}
