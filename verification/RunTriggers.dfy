/** What a trigger inserts and when it is refused, and when what it inserted can be claimed, completed or expired. */
module RunTriggers {
  import opened RunTypes
  import opened RunTransactions
  import opened RunRows
  import opened RunBlocks
  import opened RunBlockLemmas
  import opened RunRefinement
  import RunMicro

  // ------------------------------------------------------------------- the queue

  /** How many runs a trigger inserts. */
  function Width(route: Route): nat {
    if route.Plain? then 1 else |route.nodes|
  }

  lemma {:induction false} SpanSize(first: Id, n: nat)
    ensures |Span(first, n)| == n
    decreases n
  {
    if n > 0 {
      SpanSize(first, n - 1);
      var rest := Span(first, n - 1);
      assert Span(first, n) == rest + {first + n - 1} && first + n - 1 !in rest;
    }
  }

  lemma LaunchSize(base: Run, route: Route, first: Id)
    ensures |LaunchRows(base, route, first).Keys| == Width(route)
  {
    if route.Broadcast? {
      SpanSize(first, |route.nodes|);
      assert LaunchRows(base, route, first).Keys == Span(first, |route.nodes|);
    }
  }

  lemma PendingPost(db: Db, next: Db, base: Run, route: Route, keys: set<Id>)
    requires LaunchPost(db, next, base, route) && base.status.Pending?
    requires keys == LaunchRows(base, route, db.unused).Keys
    ensures PendingRuns(next, base.job) == PendingRuns(db, base.job) + keys && PendingRuns(db, base.job) !! keys
  {
    hide LaunchRows;
    forall id ensures id in PendingRuns(next, base.job) <==> id in PendingRuns(db, base.job) + keys {
      if id in next.runs && id !in db.runs { assert Launched(db, base, route, id, next.runs[id]); }
    }
  }

  lemma PendingAfterLaunch(db: Db, base: Run, route: Route)
    requires Seed(db, base) && base.status.Pending? && forall id :: id in db.runs ==> id < db.unused
    ensures |PendingRuns(Launch(db, base, route), base.job)| == |PendingRuns(db, base.job)| + Width(route)
  {
    hide LaunchRows, Launch, LaunchPost, PendingRuns;
    LaunchIsPost(db, base, route);
    PendingPost(db, Launch(db, base, route), base, route, LaunchRows(base, route, db.unused).Keys);
    LaunchSize(base, route, db.unused);
  }

  lemma CoverEmptiesQueue(db: Db, j: Id, now: Time)
    ensures PendingRuns(Cover(db, j, now), j) == {}
  {
  }

  /** A trigger that fires leaves at most max_queue_size pending runs; one that covers leaves only its own. */
  lemma FiringRespectsTheQueue(db: Db, j: Id, base: Run, route: Route, cover: bool, now: Time)
    requires Inv(db) && j in db.jobs && Decide(db, j, route) == Fire(cover)
    requires Seed(db, base) && base.job == j && base.status.Pending?
    ensures var next := FireRun(db, j, base, route, cover, now);
            if cover then |PendingRuns(next, j)| == Width(route) else |PendingRuns(next, j)| <= db.jobs[j].maxQueue
  {
    hide Cover, Launch, HasActive, LifeOk, Links, OneRetry, Answered, Groups, Claims, Commands;
    if cover {
      CoverSeed(db, j, now, base);
      CoverEmptiesQueue(db, j, now);
      PendingAfterLaunch(Cover(db, j, now), base, route);
    } else {
      PendingAfterLaunch(db, base, route);
    }
  }

  lemma CoverSeed(db: Db, j: Id, now: Time, base: Run)
    requires Seed(db, base) && forall id :: id in db.runs ==> id < db.unused
    ensures Seed(Cover(db, j, now), base) && forall id :: id in Cover(db, j, now).runs ==> id < Cover(db, j, now).unused
  {
    CoverClears(db, j, now);
    CoverEdges(db, j, now);
    assert Cover(db, j, now).runs.Keys == db.runs.Keys;
  }

  /** Retries know no limit either: each adds a pending run, unless it replaces one. */
  lemma RetriesIgnoreTheQueue(db: Db, id: Id, st: Status, now: Time, delay: Time)
    requires Inv(db) && id in db.runs && Unfinished(db.runs[id].status) && Broken(st)
    ensures var next := AfterFailure(Finish(db, id, st, now), id, db.runs[id], st, now, Some(delay));
            var j := db.runs[id].job;
            |PendingRuns(next, j)| == |PendingRuns(db, j)| + (if db.runs[id].status.Pending? then 0 else 1)
  {
    RowAlive(db, id);
    hide LifeOk, Links, OneRetry, Answered, Groups, Claims, Commands;
    RetryShape(db, id, db.runs[id], st, now, delay);
    RetryPending(db, AfterFailure(Finish(db, id, st, now), id, db.runs[id], st, now, Some(delay)), id, st, now, delay);
  }

  lemma RetryPending(db: Db, next: Db, id: Id, st: Status, now: Time, delay: Time)
    requires id in db.runs && id in db.log && id != db.unused && db.unused !in db.runs && Broken(st)
    requires RetryPost(db, next, id, db.runs[id], st, now, delay)
    ensures var j := db.runs[id].job;
            |PendingRuns(next, j)| == |PendingRuns(db, j)| + (if db.runs[id].status.Pending? then 0 else 1)
  {
    var before, after := PendingRuns(db, db.runs[id].job), PendingRuns(next, db.runs[id].job);
    assert id in before <==> db.runs[id].status.Pending?;
    assert db.unused !in before;
    assert forall x :: x in after <==> (x in before && x != id) || x == db.unused;
    hide PendingRuns;
    OneInPlace(before, after, id, db.unused);
  }

  lemma OneInPlace(before: set<Id>, after: set<Id>, x: Id, y: Id)
    requires y !in before && x != y && forall z :: z in after <==> (z in before && z != x) || z == y
    ensures |after| == |before| + (if x in before then 0 else 1)
  {
    assert after == before - {x} + {y};
    assert x !in before ==> before - {x} == before;
  }

  /** The batched path of parallel jobs knows no limit: every due time adds a pending run. */
  lemma {:induction false} FastPathIgnoresTheQueue(db: Db, j: Id, times: seq<Time>, now: Time, skipped: bool)
    requires (forall id :: id in db.runs ==> id < db.unused) && j in db.jobs && FastPath(db.jobs[j], Plain)
    ensures var r := EnqueueTimes(db, j, times, Plain, now, skipped);
            r.Ok? && |PendingRuns(r.value.0, j)| == |PendingRuns(db, j)| + |times|
    decreases times
  {
    hide PendingRuns, Launch;
    if times != [] {
      var base := NewRun(db.jobs[j], j, BySchedule, Pending, times[0], now, None, db.jobs[j].kind.FixedDelay?);
      PendingAfterLaunch(db, base, Plain);
      LaunchLow(db, base, Plain);
      LaunchJobs(db, base, Plain);
      FastPathIgnoresTheQueue(Launch(db, base, Plain), j, times[1..], now, false);
    }
  }

  lemma LaunchLow(db: Db, base: Run, route: Route)
    requires forall id :: id in db.runs ==> id < db.unused
    ensures forall id :: id in Launch(db, base, route).runs ==> id < Launch(db, base, route).unused
  {
    hide Span;
    assert db.unused <= LaunchEnd(route, db.unused);
  }

  // ---------------------------------------------------------------- the broadcast

  lemma NewShards(db: Db, base: Run, nodes: seq<Node>, id: Id)
    requires forall x :: x in db.runs ==> x < db.unused
    ensures var next := Launch(db, base, Broadcast(nodes));
            && (Newborns(db, next, id) <==> db.unused <= id < db.unused + |nodes|)
            && (Newborns(db, next, id) ==> next.runs[id] == ShardRow(base, nodes, db.unused + |nodes|, id - db.unused))
  {
    hide ShardRow;
    assert id in LaunchRows(base, Broadcast(nodes), db.unused) <==> id in Span(db.unused, |nodes|);
  }

  /** A broadcast starts exactly one run per node, numbered like the nodes, all in one new group. */
  lemma BroadcastReachesEveryNode(db: Db, base: Run, nodes: seq<Node>, k: nat)
    requires k < |nodes| && forall id :: id in db.runs ==> id < db.unused
    ensures var next := Launch(db, base, Broadcast(nodes));
            && (exists id :: OnNode(db, next, id, nodes, k))
            && (forall a, b :: OnNode(db, next, a, nodes, k) && OnNode(db, next, b, nodes, k) ==> a == b)
            && (forall id :: Newborns(db, next, id) ==> exists i: nat :: i < |nodes| && OnNode(db, next, id, nodes, i))
  {
    hide Launch;
    var next := Launch(db, base, Broadcast(nodes));
    NewShards(db, base, nodes, db.unused + k);
    assert OnNode(db, next, db.unused + k, nodes, k);
    forall id: Id | Newborns(db, next, id) ensures exists i: nat :: i < |nodes| && OnNode(db, next, id, nodes, i) {
      NewShards(db, base, nodes, id);
      var i: nat := id - db.unused;
      assert OnNode(db, next, id, nodes, i);
    }
    forall a: Id | OnNode(db, next, a, nodes, k) ensures a == db.unused + k {
      NewShards(db, base, nodes, a);
    }
  }

  /** A new run that is the k-th shard of the new group, on the k-th node. */
  ghost predicate OnNode(db: Db, next: Db, id: Id, nodes: seq<Node>, k: nat)
    requires k < |nodes|
  {
    && Newborns(db, next, id) && next.runs[id].node == nodes[k].id && next.runs[id].address == nodes[k].address
    && next.runs[id].shard == Some(Shard(db.unused + |nodes|, k, |nodes|))
  }

  // ------------------------------------------------------------- when work can start

  /** A new run can be claimed at once, a retry exactly when its delay is over. */
  lemma RetriesWait(db: Db, id: Id, st: Status, now: Time, delay: Time, t: Time)
    requires id in db.runs && id in db.log && id != db.unused
    ensures var next := AfterFailure(Finish(db, id, st, now), id, db.runs[id], st, now, Some(delay));
            && db.unused in next.runs && (Claimable(next.runs[db.unused], t) <==> t >= now + delay)
            && id in next.runs && next.runs[id].finishedAt == Some(now)
  {
    RetryShape(db, id, db.runs[id], st, now, delay);
  }

  /** Whatever triggered it: by hand, by schedule or after another job, covering or not. */
  lemma NewRunsStartAtOnce(db: Db, j: Id, trigger: Trigger, route: Route, at: Time, now: Time, parent: Option<Id>,
                           rearm: bool, t: Time, id: Id)
    requires j in db.jobs && Admit(db, j, trigger, route, at, now, parent, rearm).Ok?
    ensures var (next, fired) := Admit(db, j, trigger, route, at, now, parent, rearm).value;
            Newborns(db, next, id) ==>
              && next.runs[id].scheduledAt == at
              && (Claimable(next.runs[id], t) <==> fired && t >= now)
  {
    hide FireRun, Decide, Launch;
    match Decide(db, j, route)
    case Fire(cover) =>
      FiredRow(db, j, NewRun(db.jobs[j], j, trigger, Pending, at, now, parent, rearm), route, cover, now, id);
    case _ => NewRow(db, NewRun(db.jobs[j], j, trigger, RunTypes.Skipped, at, now, parent, rearm), Plain, id);
  }

  lemma FiredRow(db: Db, j: Id, base: Run, route: Route, cover: bool, now: Time, id: Id)
    ensures var next := FireRun(db, j, base, route, cover, now);
            Newborns(db, next, id) ==>
              && next.runs[id].status == base.status && next.runs[id].scheduledAt == base.scheduledAt
              && next.runs[id].availableAt == base.availableAt && next.runs[id].leaseUntil == base.leaseUntil
  {
    hide Cover, Launch;
    CoverKeys(db, j, now);
    NewRow(if cover then Cover(db, j, now) else db, base, route, id);
  }

  lemma CoverKeys(db: Db, j: Id, now: Time)
    ensures Cover(db, j, now).runs.Keys == db.runs.Keys
  {
  }

  lemma NewRow(db: Db, base: Run, route: Route, id: Id)
    ensures var next := Launch(db, base, route);
            Newborns(db, next, id) ==>
              && next.runs[id].status == base.status && next.runs[id].scheduledAt == base.scheduledAt
              && next.runs[id].availableAt == base.availableAt && next.runs[id].leaseUntil == base.leaseUntil
  {
    hide Span;
  }

  /** Callback retries back off: one second, doubling, never more than 64. */
  lemma CallbackRetriesBackOff(attempt: int)
    requires attempt >= 1
    ensures CallbackRetryDelay(1) == SECOND
    ensures CallbackRetryDelay(attempt + 1)
            == if CallbackRetryDelay(attempt) == 64 * SECOND then 64 * SECOND else 2 * CallbackRetryDelay(attempt)
    ensures SECOND <= CallbackRetryDelay(attempt) <= 64 * SECOND
  {
    assert Pow2(1) == 2 && Pow2(2) == 4 && Pow2(3) == 8;
    assert Pow2(4) == 16 && Pow2(5) == 32 && Pow2(6) == 64;
  }

  // ------------------------------------------------------------ callback or expiry

  /** At every instant a run that waits for its callback either accepts it or is expired, never both. */
  lemma CallbackOrExpiry(db: Db, id: Id, now: Time)
    requires Inv(db) && id in db.runs && db.runs[id].status.WaitingCallback?
    ensures db.runs[id].callback.Some?
            && (AwaitsCallback(db, id, db.runs[id].callback.value.hash, now) <==> !Expired(db, id, now))
  {
    assert LifeOk(db.runs[id], db.log[id]) && PlaceOk(db.runs[id], db.jobs, db.unused);
  }

  /** A worker whose dispatch call fails after the preparation can still end the run, with the token it prepared. */
  lemma FailedDispatchesAreAnswered(db: Db, claim: Claim, node: Node, callback: Callback, routes: map<Id, Route>,
                                    now: Time)
    requires Inv(db) && HoldsLease(db, claim) && now < callback.deadline
    ensures var prepared := PrepareDispatch(db, claim, node, callback).value;
            var r := CompleteCallback(prepared, claim.id, callback.hash, false, routes, now);
            r.Ok? && claim.id in r.value.runs && r.value.runs[claim.id].status.Failed?
  {
    hide Inv, PrepareDispatch, AfterFailure, Finish;
    PreparedAwaits(db, claim, node, callback, now);
    var prepared := PrepareDispatch(db, claim, node, callback).value;
    FailedStaysFailed(prepared, claim.id, prepared.runs[claim.id], now,
      CallbackRetry(prepared, prepared.runs[claim.id]));
  }

  lemma PreparedAwaits(db: Db, claim: Claim, node: Node, callback: Callback, now: Time)
    requires Inv(db) && HoldsLease(db, claim) && now < callback.deadline
    ensures PrepareDispatch(db, claim, node, callback).Ok?
    ensures var prepared := PrepareDispatch(db, claim, node, callback).value;
            && AwaitsCallback(prepared, claim.id, callback.hash, now) && prepared.runs[claim.id].job in prepared.jobs
            && claim.id in prepared.log && claim.id != prepared.unused
  {
    assert claim.id in db.log && claim.id != db.unused && db.runs[claim.id].job in db.jobs by {
      AliveRow(db, claim.id);
    }
    hide Inv;
    PreparedRow(db, claim, node, callback, now);
  }

  lemma AliveRow(db: Db, id: Id)
    requires Inv(db) && id in db.runs
    ensures id in db.log && id != db.unused && db.runs[id].job in db.jobs
  {
    RowAlive(db, id);
  }

  lemma PreparedRow(db: Db, claim: Claim, node: Node, callback: Callback, now: Time)
    requires HoldsLease(db, claim) && now < callback.deadline
    requires claim.id in db.log && claim.id != db.unused && db.runs[claim.id].job in db.jobs
    ensures var prepared := PrepareDispatch(db, claim, node, callback).value;
            && AwaitsCallback(prepared, claim.id, callback.hash, now) && prepared.runs[claim.id].job in prepared.jobs
            && claim.id in prepared.log && claim.id != prepared.unused
  {
  }

  lemma FailedStaysFailed(db: Db, id: Id, copy: Run, now: Time, retry: Option<Time>)
    requires id in db.runs && id in db.log && id != db.unused
    ensures var next := AfterFailure(Finish(db, id, Failed, now), id, copy, Failed, now, retry);
            id in next.runs && next.runs[id].status.Failed?
  {
    hide Rearm;
    if retry.Some? {
      RetryShape(db, id, copy, Failed, now, retry.value);
    } else {
      FinishShape(db, id, Failed, now);
      RunMicro.RearmRuns(Emit(Finish(db, id, Failed, now), id, Failed, Exhausted), copy, now);
    }
  }

  // ------------------------------------------------------------------ one-shot jobs

  /** A one-shot job whose schedule has no further time is disabled by its turn, so it is not due again. */
  lemma OneShotJobsStop(db: Db, item: DueItem, now: Time, later: Time)
    requires IsDue(db, item.job, now) && db.jobs[item.job].kind.Once? && item.plan.next.None?
    requires EnqueueJob(db, item, now).Ok?
    ensures !IsDue(EnqueueJob(db, item, now).value, item.job, later)
  {
    hide EnqueueTimes;
    TimesJobs(db, item.job, item.plan.due, item.route, now, false);
    TimesKind(db, item.job, item.plan.due, item.route, now, false);
  }

  lemma {:induction false} TimesKind(db: Db, j: Id, times: seq<Time>, route: Route, now: Time, skipped: bool)
    requires j in db.jobs && EnqueueTimes(db, j, times, route, now, skipped).Ok?
    ensures var next := EnqueueTimes(db, j, times, route, now, skipped).value.0;
            j in next.jobs && next.jobs[j].kind == db.jobs[j].kind
    decreases times
  {
    hide Launch, Admit;
    if times != [] {
      var rearm := db.jobs[j].kind.FixedDelay?;
      if FastPath(db.jobs[j], route) {
        var base := NewRun(db.jobs[j], j, BySchedule, Pending, times[0], now, None, rearm);
        LaunchJobs(db, base, route);
        TimesKind(Launch(db, base, route), j, times[1..], route, now, false);
      } else {
        var r := Admit(db, j, BySchedule, route, times[0], now, None, rearm);
        AdmitJobs(db, j, BySchedule, route, times[0], now, None, rearm);
        TimesKind(r.value.0, j, times[1..], route, now, !r.value.1);
      }
    }
  }
}
