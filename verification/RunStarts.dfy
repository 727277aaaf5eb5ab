/**
 What a trigger starts, whoever pulls it: said on the columns of the tables before and after,
 for a manual call, for the dependents of a success and for the turn of a due job.
 */
module RunStarts {
  import opened RunTypes
  import opened RunTransactions
  import opened RunSystem
  import opened RunRefinement
  import opened RunHistory
  import opened RunQueue

  // ------------------------------------------------------------- when a job starts

  /** Some run of the job has not ended. */
  predicate Busy(db: Db, j: Id) {
    exists id :: id in db.runs && db.runs[id].job == j
                 && (db.runs[id].status.Pending? || db.runs[id].status.Running? || db.runs[id].status.WaitingCallback?)
  }

  function Queued(db: Db, j: Id): set<Id> {
    set id | id in db.runs && db.runs[id].job == j && db.runs[id].status.Pending?
  }

  /** A busy job that discards, under its present name or the old one. */
  predicate Discards(db: Db, j: Id)
    requires j in db.jobs
  {
    Busy(db, j) && (db.jobs[j].policy.DiscardLater? || db.jobs[j].policy.Skip?)
  }

  /** A busy job that cancels what is unfinished. */
  predicate Covers(db: Db, j: Id)
    requires j in db.jobs
  {
    Busy(db, j) && db.jobs[j].policy.CoverEarly?
  }

  /** The policy lets the trigger through, and its runs fit the queue unless it covers. */
  predicate Fires(db: Db, j: Id, route: Route)
    requires j in db.jobs
  {
    && (route.Broadcast? ==> |route.nodes| > 0) && !Discards(db, j)
    && (Covers(db, j) || |Queued(db, j)| + (if route.Plain? then 1 else |route.nodes|) <= db.jobs[j].maxQueue)
  }

  /** The policy and the queue have room, and there is no node to broadcast to. */
  predicate Stranded(db: Db, j: Id, route: Route)
    requires j in db.jobs
  {
    route == Broadcast([]) && !Discards(db, j) && (Covers(db, j) || |Queued(db, j)| < db.jobs[j].maxQueue)
  }

  lemma DecidesExactly(db: Db, j: Id, route: Route)
    requires j in db.jobs
    ensures Fires(db, j, route) <==> Decide(db, j, route).Fire?
    ensures Fires(db, j, route) ==> Decide(db, j, route) == Fire(Covers(db, j))
    ensures Discards(db, j) <==> Decide(db, j, route).Drop?
    ensures Stranded(db, j, route) <==> Decide(db, j, route).NoNodes?
  {
    assert Queued(db, j) == PendingRuns(db, j);
    assert Busy(db, j) <==> HasActive(db, j) by { BusyIsActive(db, j); }
    hide Queued, PendingRuns, Busy, HasActive;
  }

  lemma BusyIsActive(db: Db, j: Id)
    ensures Busy(db, j) <==> HasActive(db, j)
  {
    if id :| ActiveIn(db, j, id) { assert id in db.runs; }
    if id :| id in db.runs && db.runs[id].job == j
             && (db.runs[id].status.Pending? || db.runs[id].status.Running? || db.runs[id].status.WaitingCallback?) {
      assert ActiveIn(db, j, id);
    }
  }

  // ------------------------------------------------------------- what it starts

  datatype Order = Order(job: Id, trigger: Trigger, at: Time, now: Time, parent: Option<Id>, rearm: bool)

  /** A new row as the order wants it: pending from now on, or recorded as skipped. */
  predicate Ordered(run: Run, o: Order, tenant: Id, pending: bool) {
    && run.job == o.job && run.tenant == tenant && run.trigger == o.trigger && run.attempt == 1
    && run.status == (if pending then Pending else RunTypes.Skipped)
    && run.scheduledAt == o.at && run.availableAt == o.now
    && run.token.None? && run.leaseUntil.None? && run.callback.None?
    && run.parent == o.parent && run.retryOf.None? && run.rearm == o.rearm
    && run.finishedAt == (if pending then None else Some(o.now))
  }

  /** On which executor: none yet, or the k-th node as the k-th shard of its group. */
  predicate Placed(run: Run, route: Route, k: nat, group: Id) {
    match route
    case Plain => run.shard.None? && run.node == "" && run.address == ""
    case Broadcast(nodes) =>
      && k < |nodes| && run.node == nodes[k].id && run.address == nodes[k].address
      && run.shard == Some(Shard(group, k, |nodes|))
  }

  /** The old runs of the job: cancelled at that instant if the trigger covers, otherwise as they were. */
  ghost predicate OldRuns(db: Db, next: Db, o: Order, covers: bool) {
    forall x :: x in db.runs && db.runs[x].job == o.job ==>
      && x in next.runs && next.runs[x].job == o.job
      && next.runs[x] == (if covers && Unfinished(db.runs[x].status) then CancelledRow(db.runs[x], o.now)
                          else db.runs[x])
  }

  function CancelledRow(run: Run, now: Time): Run {
    run.(status := Cancelled, trail := run.trail + [Cancelled], finishedAt := Some(now), token := None,
         leaseUntil := None, callback := None)
  }

  /** The new runs of the job are the n that start at first, all as ordered. */
  ghost predicate NewRuns(db: Db, next: Db, o: Order, route: Route, pending: bool, first: Id, n: nat) {
    && db.unused <= first && o.job in db.jobs
    && (forall x :: x in next.runs && next.runs[x].job == o.job ==>
          (x in db.runs && db.runs[x].job == o.job) || first <= x < first + n)
    && (forall x: Id :: first <= x < first + n ==>
          && x in next.runs && x !in db.runs && Ordered(next.runs[x], o, db.jobs[o.job].tenant, pending)
          && Placed(next.runs[x], route, x - first, first + n))
  }

  /** What the order does to the runs of its job: one run or one shard per node if it fires, else one skipped run. */
  ghost predicate Obeyed(db: Db, next: Db, o: Order, route: Route, first: Id)
    requires o.job in db.jobs
  {
    var fires := Fires(db, o.job, route);
    && OldRuns(db, next, o, fires && Covers(db, o.job))
    && (if fires then NewRuns(db, next, o, route, true, first, if route.Plain? then 1 else |route.nodes|)
        else NewRuns(db, next, o, Plain, false, first, 1))
  }

  ghost predicate CarriedOut(db: Db, next: Db, o: Order, route: Route)
    requires o.job in db.jobs
  {
    exists first :: Obeyed(db, next, o, route, first)
  }

  lemma LaunchedRows(db: Db, base: Run, route: Route, x: Id)
    requires Low(db)
    ensures var next := Launch(db, base, route); var n := if route.Plain? then 1 else |route.nodes|;
            && (x in db.runs ==> x in next.runs && next.runs[x] == db.runs[x] && x < db.unused)
            && (x in next.runs ==> x in db.runs || db.unused <= x < db.unused + n)
            && (db.unused <= x < db.unused + n ==> x in next.runs && x !in db.runs)
            && (db.unused <= x < db.unused + n ==>
                  var k := x - db.unused;
                  next.runs[x] == if route.Plain? then base
                                  else base.(node := route.nodes[k].id, address := route.nodes[k].address,
                                             shard := Some(Shard(db.unused + n, k, n))))
  {
    hide LaunchRows;
    RowsToLaunch(base, route, db.unused, x);
  }

  lemma RowsToLaunch(base: Run, route: Route, first: Id, x: Id)
    ensures var rows := LaunchRows(base, route, first); var n := if route.Plain? then 1 else |route.nodes|;
            && (x in rows <==> first <= x < first + n)
            && (x in rows ==>
                  var k := x - first;
                  rows[x] == if route.Plain? then base
                             else base.(node := route.nodes[k].id, address := route.nodes[k].address,
                                        shard := Some(Shard(first + n, k, n))))
  {
    if route.Broadcast? {
      assert x in LaunchRows(base, route, first) <==> x in Span(first, |route.nodes|);
    }
  }

  /** A base row as NewRun makes it. */
  predicate BaseRow(base: Run, o: Order, tenant: Id, pending: bool) {
    Ordered(base, o, tenant, pending) && base.shard.None? && base.node == "" && base.address == ""
  }

  lemma LaunchObeys(db: Db, base: Run, route: Route, o: Order, pending: bool)
    requires Low(db) && o.job in db.jobs && BaseRow(base, o, db.jobs[o.job].tenant, pending)
    ensures OldRuns(db, Launch(db, base, route), o, false)
    ensures NewRuns(db, Launch(db, base, route), o, route, pending, db.unused,
                    if route.Plain? then 1 else |route.nodes|)
  {
    hide Launch;
    var next, n := Launch(db, base, route), if route.Plain? then 1 else |route.nodes|;
    forall x | x in db.runs ensures x in next.runs && next.runs[x] == db.runs[x] { LaunchedRows(db, base, route, x); }
    forall x | x in next.runs ensures x in db.runs || db.unused <= x < db.unused + n {
      LaunchedRows(db, base, route, x);
    }
    forall x: Id | db.unused <= x < db.unused + n
      ensures x in next.runs && x !in db.runs && Ordered(next.runs[x], o, db.jobs[o.job].tenant, pending)
              && Placed(next.runs[x], route, x - db.unused, db.unused + n)
    {
      LaunchedRows(db, base, route, x);
    }
  }

  lemma CoverObeys(db: Db, o: Order)
    requires Low(db) && o.job in db.jobs
    ensures var next := Cover(db, o.job, o.now);
            && OldRuns(db, next, o, true) && Low(next) && next.unused == db.unused && next.runs.Keys == db.runs.Keys
            && o.job in next.jobs && next.jobs[o.job].tenant == db.jobs[o.job].tenant
            && (forall x :: x in db.runs ==> next.runs[x].job == db.runs[x].job)
  {
  }

  lemma FireObeys(db: Db, base: Run, route: Route, covers: bool, o: Order)
    requires Low(db) && o.job in db.jobs && BaseRow(base, o, db.jobs[o.job].tenant, true)
    ensures var next := FireRun(db, o.job, base, route, covers, o.now);
            && OldRuns(db, next, o, covers)
            && NewRuns(db, next, o, route, true, db.unused, if route.Plain? then 1 else |route.nodes|)
  {
    hide Cover, Launch, BaseRow;
    if covers {
      var mid := Cover(db, o.job, o.now);
      CoverObeys(db, o);
      LaunchObeys(mid, base, route, o, true);
      CoveredThenLaunched(db, mid, Launch(mid, base, route), o);
    } else {
      LaunchObeys(db, base, route, o, true);
    }
  }

  lemma CoveredThenLaunched(db: Db, mid: Db, next: Db, o: Order)
    requires OldRuns(db, mid, o, true) && OldRuns(mid, next, o, false)
    ensures OldRuns(db, next, o, true)
  {
  }

  /** A scheduled or dependency trigger fails for want of a node, and for nothing else. */
  lemma AdmitFailsStranded(db: Db, route: Route, o: Order)
    requires o.job in db.jobs
    ensures var r := Admit(db, o.job, o.trigger, route, o.at, o.now, o.parent, o.rearm);
            if Stranded(db, o.job, route) then r == Err(NoExecutors) else r.Ok?
  {
    hide FireRun, Launch, Decide, Stranded, Fires, Discards, Covers;
    DecidesExactly(db, o.job, route);
  }

  /** A scheduled or dependency trigger does what its order says. */
  lemma AdmitObeys(db: Db, route: Route, o: Order)
    requires Low(db) && o.job in db.jobs
    requires Admit(db, o.job, o.trigger, route, o.at, o.now, o.parent, o.rearm).Ok?
    ensures var (next, fired) := Admit(db, o.job, o.trigger, route, o.at, o.now, o.parent, o.rearm).value;
            Obeyed(db, next, o, route, db.unused) && (fired <==> Fires(db, o.job, route))
  {
    hide FireRun, Launch, Decide, Fires, Covers, OldRuns, NewRuns;
    DecidesExactly(db, o.job, route);
    var job := db.jobs[o.job];
    if Decide(db, o.job, route).Fire? {
      var base := NewRun(job, o.job, o.trigger, Pending, o.at, o.now, o.parent, o.rearm);
      FireObeys(db, base, route, Covers(db, o.job), o);
    } else {
      var base := NewRun(job, o.job, o.trigger, RunTypes.Skipped, o.at, o.now, o.parent, o.rearm);
      LaunchObeys(db, base, Plain, o, false);
    }
  }

  // ------------------------------------------------------------- between other jobs

  /** What others did before and after does not matter to the order. */
  lemma ObeyedAmongOthers(db: Db, mid: Db, done: Db, next: Db, o: Order, route: Route, first: Id)
    requires Low(db) && o.job in db.jobs && Untouched(db, mid, o.job)
    requires Obeyed(mid, done, o, route, first) && Untouched(done, next, o.job)
    ensures Obeyed(db, next, o, route, first)
  {
    hide Obeyed, Fires, Covers, OldRuns, NewRuns, Untouched;
    SameRow(db, mid, o.job);
    FiresSame(db, mid, o.job, route);
    hide *;
    ObeyedParts(mid, done, o, route, first);
    OldRunsAmong(db, mid, done, next, o, Fires(db, o.job, route) && Covers(db, o.job));
    if Fires(db, o.job, route) {
      NewRunsAmong(db, mid, done, next, o, route, true, first, if route.Plain? then 1 else |route.nodes|);
    } else {
      NewRunsAmong(db, mid, done, next, o, Plain, false, first, 1);
    }
    ObeyedFrom(db, next, o, route, first);
  }

  lemma ObeyedParts(db: Db, next: Db, o: Order, route: Route, first: Id)
    requires o.job in db.jobs && Obeyed(db, next, o, route, first)
    ensures OldRuns(db, next, o, Fires(db, o.job, route) && Covers(db, o.job))
    ensures if Fires(db, o.job, route)
            then NewRuns(db, next, o, route, true, first, if route.Plain? then 1 else |route.nodes|)
            else NewRuns(db, next, o, Plain, false, first, 1)
  {
  }

  lemma ObeyedFrom(db: Db, next: Db, o: Order, route: Route, first: Id)
    requires o.job in db.jobs && OldRuns(db, next, o, Fires(db, o.job, route) && Covers(db, o.job))
    requires if Fires(db, o.job, route)
             then NewRuns(db, next, o, route, true, first, if route.Plain? then 1 else |route.nodes|)
             else NewRuns(db, next, o, Plain, false, first, 1)
    ensures Obeyed(db, next, o, route, first)
  {
  }

  lemma FiresSame(db: Db, next: Db, j: Id, route: Route)
    requires Untouched(db, next, j) && j in db.jobs
    ensures j in next.jobs && (Fires(next, j, route) <==> Fires(db, j, route)) && (Covers(next, j) <==> Covers(db, j))
  {
    hide Decide, PendingRuns, HasActive;
    UntouchedSame(db, next, j);
    BusyIsActive(db, j);
    BusyIsActive(next, j);
    DecidesExactly(db, j, route);
    DecidesExactly(next, j, route);
    assert Decide(next, j, route) == Decide(db, j, route);
  }

  lemma OldRunsAmong(db: Db, mid: Db, done: Db, next: Db, o: Order, covers: bool)
    requires Untouched(db, mid, o.job) && OldRuns(mid, done, o, covers) && Untouched(done, next, o.job)
    ensures OldRuns(db, next, o, covers)
  {
    forall x | x in db.runs && db.runs[x].job == o.job
      ensures && x in next.runs && next.runs[x].job == o.job
              && next.runs[x] == (if covers && Unfinished(db.runs[x].status) then CancelledRow(db.runs[x], o.now)
                                  else db.runs[x])
    {
      SameRun(db, mid, o.job, x);
      SameRun(done, next, o.job, x);
    }
  }

  lemma NewRunsAmong(db: Db, mid: Db, done: Db, next: Db, o: Order, route: Route, pending: bool, first: Id, n: nat)
    requires Low(db) && Untouched(db, mid, o.job) && NewRuns(mid, done, o, route, pending, first, n)
    requires Untouched(done, next, o.job) && o.job in db.jobs
    ensures NewRuns(db, next, o, route, pending, first, n)
  {
    hide Ordered, Placed, RunsOf, Low;
    forall x | x in next.runs && next.runs[x].job == o.job
      ensures (x in db.runs && db.runs[x].job == o.job) || first <= x < first + n
    {
      SameRun(done, next, o.job, x);
      SameRun(db, mid, o.job, x);
      KnownJob(mid, done, o, route, pending, first, n, x);
    }
    forall x: Id | first <= x < first + n
      ensures && x in next.runs && x !in db.runs && Ordered(next.runs[x], o, db.jobs[o.job].tenant, pending)
              && Placed(next.runs[x], route, x - first, first + n)
    {
      SameRun(done, next, o.job, x);
      assert Ordered(done.runs[x], o, mid.jobs[o.job].tenant, pending) && done.runs[x].job == o.job by {
        OrderedJob(done.runs[x], o, mid.jobs[o.job].tenant, pending);
      }
      NotYetThere(db, x);
    }
  }

  lemma OrderedJob(run: Run, o: Order, tenant: Id, pending: bool)
    requires Ordered(run, o, tenant, pending)
    ensures run.job == o.job
  {
  }

  lemma NotYetThere(db: Db, x: Id)
    requires Low(db) && db.unused <= x
    ensures x !in db.runs
  {
  }

  lemma KnownJob(mid: Db, done: Db, o: Order, route: Route, pending: bool, first: Id, n: nat, x: Id)
    requires NewRuns(mid, done, o, route, pending, first, n) && x in done.runs && done.runs[x].job == o.job
    ensures (x in mid.runs && mid.runs[x].job == o.job) || first <= x < first + n
  {
  }

  // ------------------------------------------------------------------ by hand

  /**
   A manual trigger, exactly: refused for an unknown job, answered from its key if that is known,
   recorded as skipped by a busy job that discards, started if it fires, and an error otherwise.
   */
  lemma ManualTriggers(db: Db, tenant: Id, j: Id, key: string, route: Route, now: Time)
    requires Low(db)
    ensures var r := TriggerJob(db, tenant, j, key, route, now);
            if j !in db.jobs || db.jobs[j].tenant != tenant then r == Err(NotFound)
            else if key != "" && (j, key) in db.keys then r == Ok((db, db.keys[(j, key)]))
            else if Discards(db, j) || Fires(db, j, route) then
              && r.Ok? && r.value.1 == db.unused
              && Obeyed(db, r.value.0, Order(j, Manual, now, now, None, false), route, db.unused)
            else r == Err(if Stranded(db, j, route) then NoExecutors else QueueFull)
  {
    hide FireRun, Launch, Decide, Fires, Covers, Obeyed, Discards, Stranded;
    if j in db.jobs && db.jobs[j].tenant == tenant && !(key != "" && (j, key) in db.keys) {
      DecidesExactly(db, j, route);
      var keyed := if key == "" then db else db.(keys := db.keys[(j, key) := db.unused]);
      if Fires(db, j, route) {
        KeyedFire(db, keyed, j, route, now);
      } else if Discards(db, j) {
        KeyedDrop(db, keyed, j, route, now);
      }
    }
  }

  lemma KeyedFire(db: Db, keyed: Db, j: Id, route: Route, now: Time)
    requires Low(db) && j in db.jobs && keyed == db.(keys := keyed.keys) && Fires(db, j, route)
    ensures var base := NewRun(db.jobs[j], j, Manual, Pending, now, now, None, false);
            Obeyed(db, FireRun(keyed, j, base, route, Covers(db, j), now), Order(j, Manual, now, now, None, false),
                   route, db.unused)
  {
    hide FireRun, Fires, Covers, OldRuns, NewRuns;
    var o := Order(j, Manual, now, now, None, false);
    var base := NewRun(db.jobs[j], j, Manual, Pending, now, now, None, false);
    FireObeys(keyed, base, route, Covers(db, j), o);
    KeyedRuns(db, keyed, FireRun(keyed, j, base, route, Covers(db, j), now), o, route, Covers(db, j), true,
              if route.Plain? then 1 else |route.nodes|);
  }

  lemma KeyedDrop(db: Db, keyed: Db, j: Id, route: Route, now: Time)
    requires Low(db) && j in db.jobs && keyed == db.(keys := keyed.keys) && Discards(db, j)
    ensures var base := NewRun(db.jobs[j], j, Manual, RunTypes.Skipped, now, now, None, false);
            Obeyed(db, Launch(keyed, base, Plain), Order(j, Manual, now, now, None, false), route, db.unused)
  {
    NotBoth(db, j, route);
    hide Launch, Fires, Covers, Discards, OldRuns, NewRuns;
    var o := Order(j, Manual, now, now, None, false);
    var base := NewRun(db.jobs[j], j, Manual, RunTypes.Skipped, now, now, None, false);
    LaunchObeys(keyed, base, Plain, o, false);
    KeyedRuns(db, keyed, Launch(keyed, base, Plain), o, Plain, false, false, 1);
  }

  lemma NotBoth(db: Db, j: Id, route: Route)
    requires j in db.jobs && Discards(db, j)
    ensures !Fires(db, j, route)
  {
  }

  lemma KeyedRuns(db: Db, keyed: Db, next: Db, o: Order, route: Route, covers: bool, pending: bool, n: nat)
    requires keyed == db.(keys := keyed.keys)
    requires OldRuns(keyed, next, o, covers) && NewRuns(keyed, next, o, route, pending, db.unused, n)
    ensures OldRuns(db, next, o, covers) && NewRuns(db, next, o, route, pending, db.unused, n)
  {
  }

  // ------------------------------------------------------------------ dependents

  /** The moment a dependent's turn comes, with its dispatch reserved. */
  lemma {:induction false} ChildTurn(db: Db, p: Id, children: seq<Id>, routes: map<Id, Route>, now: Time, j: Id)
    returns (mid: Db)
    requires Low(db) && j in db.jobs && j in children && (p, j) !in db.dispatched
    requires forall i, k :: 0 <= i < k < |children| ==> children[i] != children[k]
    requires TriggerChildren(db, p, children, routes, now).Ok?
    ensures Untouched(db, mid, j) && Low(mid) && j in mid.jobs
    ensures var r := Admit(mid, j, Dependency, RouteOf(routes, j), now, now, Some(p), false);
            r.Ok? && Untouched(r.value.0, TriggerChildren(db, p, children, routes, now).value, j)
    decreases children
  {
    hide Admit, Untouched;
    var rest := children[1..];
    assert forall i :: 0 <= i < |rest| ==> rest[i] == children[i + 1];
    if children[0] == j {
      mid := db.(dispatched := db.dispatched[(p, j) := db.unused]);
      SameUntouched(db, mid, j);
      LowAfter(db, mid, j);
      var next := Admit(mid, j, Dependency, RouteOf(routes, j), now, now, Some(p), false).value.0;
      AdmitLow(mid, j, RouteOf(routes, j), now, Some(p));
      ChildrenOther(next, p, rest, routes, now, j);
    } else if children[0] !in db.jobs {
      assert j in rest;
      mid := ChildTurn(db, p, rest, routes, now, j);
    } else {
      var first := TriggerChild(db, p, children[0], RouteOf(routes, children[0]), now).value;
      ChildOther(db, p, children[0], RouteOf(routes, children[0]), now, j);
      LowAfter(db, first, j);
      assert j in rest;
      mid := ChildTurn(first, p, rest, routes, now, j);
      UntouchedThen(db, first, mid, j);
    }
  }

  lemma AdmitLow(db: Db, j: Id, route: Route, now: Time, parent: Option<Id>)
    requires Low(db) && j in db.jobs && Admit(db, j, Dependency, route, now, now, parent, false).Ok?
    ensures Low(Admit(db, j, Dependency, route, now, now, parent, false).value.0)
  {
    hide Admit;
    AdmitOwn(db, j, Dependency, route, now, now, parent, false);
  }

  /** Exactly the listed jobs are reserved. */
  lemma {:induction false} ChildrenDispatched(db: Db, p: Id, children: seq<Id>, routes: map<Id, Route>, now: Time,
                                              c: Id)
    requires TriggerChildren(db, p, children, routes, now).Ok?
    ensures (p, c) in TriggerChildren(db, p, children, routes, now).value.dispatched
            <==> (p, c) in db.dispatched || (c in children && c in db.jobs)
    decreases children
  {
    hide Admit;
    if children != [] {
      assert c in children <==> c == children[0] || c in children[1..];
      if children[0] in db.jobs {
        var route := RouteOf(routes, children[0]);
        var mid := TriggerChild(db, p, children[0], route, now).value;
        if (p, children[0]) !in db.dispatched {
          var reserved := db.(dispatched := db.dispatched[(p, children[0]) := db.unused]);
          AdmitDispatched(reserved, children[0], Dependency, route, now, now, Some(p), false);
          AdmitJobKeys(reserved, children[0], Dependency, route, now, now, Some(p), false);
        }
        ChildrenDispatched(mid, p, children[1..], routes, now, c);
      } else {
        ChildrenDispatched(db, p, children[1..], routes, now, c);
      }
    }
  }

  lemma AdmitJobKeys(db: Db, i: Id, trigger: Trigger, route: Route, at: Time, now: Time, parent: Option<Id>,
                     rearm: bool)
    requires i in db.jobs && Admit(db, i, trigger, route, at, now, parent, rearm).Ok?
    ensures Admit(db, i, trigger, route, at, now, parent, rearm).value.0.jobs.Keys == db.jobs.Keys
  {
    hide Cover, Decide;
    CoverClears(db, i, now);
  }

  lemma RearmOther(db: Db, run: Run, at: Time, j: Id)
    requires Low(db) && run.job != j
    ensures Untouched(db, Rearm(db, run, at), j)
  {
  }

  /** How a success of run id leaves the job c, as one of its dependents or not. */
  ghost predicate Followed(db: Db, next: Db, id: Id, c: Id, routes: map<Id, Route>, now: Time)
    requires id in db.runs && c in db.jobs
  {
    var follows := (db.runs[id].job, c) in db.edges;
    && ((id, c) in next.dispatched <==> follows)
    && (follows ==> CarriedOut(db, next, Order(c, Dependency, now, now, Some(id), false),
                               if c in routes then routes[c] else Plain))
    && (!follows && c != db.runs[id].job ==> RunsOf(next, c) == RunsOf(db, c))
  }

  lemma SuccessFollowed(db: Db, id: Id, routes: map<Id, Route>, now: Time, c: Id)
    requires Sound(db) && Low(db) && c in db.jobs && id in db.runs && Unfinished(db.runs[id].status)
    requires !db.runs[id].status.Pending? && Succeed(db, id, routes, now).Ok?
    ensures Followed(db, Succeed(db, id, routes, now).value, id, c, routes, now)
  {
    hide Sound, Finish, Rearm, TriggerChildren, Untouched, Children, CarriedOut;
    NoneYet(db, id, c);
    EndQueue(db, id, Succeeded, now, c);
    FinishRow(db, id, Succeeded, now);
    var i, done := db.runs[id].job, Finish(db, id, Succeeded, now);
    var kids := Children(done, i);
    KidsAre(done, i, c);
    var fed := TriggerChildren(done, id, kids, routes, now).value;
    var next := Rearm(fed, db.runs[id], now);
    ChildrenDispatched(done, id, kids, routes, now, c);
    RearmRuns(fed, db.runs[id], now);
    if (i, c) in db.edges {
      var mid := ChildTurn(done, id, kids, routes, now, c);
      DependentStarts(db, done, mid, fed, next, id, c, routes, now);
    } else if c != i {
      ChildrenOther(done, id, kids, routes, now, c);
      LowAfter(done, fed, c);
      RearmOther(fed, db.runs[id], now, c);
      UntouchedThen(db, done, fed, c);
      UntouchedThen(db, fed, next, c);
      UntouchedRuns(db, next, c);
    }
  }

  lemma RearmRuns(db: Db, run: Run, at: Time)
    ensures Rearm(db, run, at).dispatched == db.dispatched
  {
  }

  lemma UntouchedRuns(db: Db, next: Db, j: Id)
    requires Untouched(db, next, j)
    ensures RunsOf(next, j) == RunsOf(db, j)
  {
  }

  lemma KidsAre(db: Db, i: Id, c: Id)
    ensures c in Children(db, i) <==> c in db.jobs && (i, c) in db.edges
    ensures forall k, l :: 0 <= k < l < |Children(db, i)| ==> Children(db, i)[k] != Children(db, i)[l]
  {
  }

  lemma DependentStarts(db: Db, done: Db, mid: Db, fed: Db, next: Db, id: Id, c: Id, routes: map<Id, Route>, now: Time)
    requires Low(db) && id in db.runs && c in db.jobs && db.runs[id].job != c
    requires Untouched(db, done, c) && Untouched(done, mid, c) && Low(mid) && c in mid.jobs
    requires var r := Admit(mid, c, Dependency, RouteOf(routes, c), now, now, Some(id), false);
             r.Ok? && Untouched(r.value.0, fed, c)
    requires next == Rearm(fed, db.runs[id], now)
    ensures CarriedOut(db, next, Order(c, Dependency, now, now, Some(id), false),
                       if c in routes then routes[c] else Plain)
  {
    hide Admit, Rearm, Untouched, Obeyed;
    var o := Order(c, Dependency, now, now, Some(id), false);
    var after := Admit(mid, c, Dependency, RouteOf(routes, c), now, now, Some(id), false).value.0;
    AdmitObeys(mid, RouteOf(routes, c), o);
    LowAfter(after, fed, c);
    RearmOther(fed, db.runs[id], now, c);
    UntouchedThen(after, fed, next, c);
    UntouchedThen(db, done, mid, c);
    ObeyedAmongOthers(db, mid, after, next, o, RouteOf(routes, c), mid.unused);
  }

  /**
   A success starts its dependents, each once: after a completion or a callback that commits, a
   job is reserved for the run exactly if it depends on the run's job, and then it has the new run
   or broadcast, or the one skipped run, that its policy and its queue called for before.
   */
  lemma DependentsStart(db: Db, a: Action, c: Id)
    requires Sound(db) && c in db.jobs && Apply(db, a).Ok?
    requires (a.DoComplete? && a.success) || (a.DoCallback? && a.success)
    ensures var id := if a.DoCallback? then a.id else db.claims[a.token].id;
            id in db.runs && Followed(db, Apply(db, a).value, id, c, a.routes, a.now)
  {
    hide Sound, Followed, Apply, Succeed;
    SoundLow(db);
    var id := SuccessIs(db, a);
    SuccessFollowed(db, id, a.routes, a.now, c);
  }

  /** Both kinds of success are the same thing done to their run. */
  lemma SuccessIs(db: Db, a: Action) returns (id: Id)
    requires Sound(db) && Apply(db, a).Ok? && ((a.DoComplete? && a.success) || (a.DoCallback? && a.success))
    ensures id == if a.DoCallback? then a.id else db.claims[a.token].id
    ensures id in db.runs && Unfinished(db.runs[id].status) && !db.runs[id].status.Pending?
    ensures Apply(db, a) == Succeed(db, id, a.routes, a.now)
  {
    hide Sound, Finish, EnqueueDependents, Rearm;
    if a.DoCallback? {
      id := a.id;
    } else {
      id := db.claims[a.token].id;
      SoundHolder(db, a.token);
    }
  }
}
