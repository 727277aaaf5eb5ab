/** How a run comes to wait for its callback, and the four ways in which it stops waiting. */
module RunWaiting {
  import opened RunTypes
  import opened RunTransactions
  import opened RunSystem
  import opened RunRefinement
  import opened RunHistory
  import opened RunGuarantees
  import Dependencies

  predicate Waits(db: Db, x: Id) {
    x in db.runs && db.runs[x].status.WaitingCallback?
  }

  predicate Ended(db: Db, x: Id) {
    x in db.runs && !Unfinished(db.runs[x].status)
  }

  predicate Below(db: Db, x: Id) {
    x in db.runs ==> x < db.unused
  }

  /** A trigger of the run's job cancels what is unfinished. */
  predicate Coverable(db: Db, x: Id) {
    x in db.runs && db.runs[x].job in db.jobs && CanonicalPolicy(db.jobs[db.runs[x].job].policy).CoverEarly?
  }

  /** Nothing starts to wait, what has ended stays, and what waits stays or is covered, if something covers at all. */
  ghost predicate Calm(db: Db, next: Db, x: Id, covers: bool) {
    && db.unused <= next.unused && Below(next, x)
    && (Waits(next, x) ==> Waits(db, x))
    && (Ended(db, x) ==> Ended(next, x) && next.runs[x] == db.runs[x])
    && (Waits(db, x) ==>
          && x in next.runs && next.runs[x].job == db.runs[x].job
          && (next.runs[x] == db.runs[x] || (covers && next.runs[x].status.Cancelled? && Coverable(db, x)))
          && (Coverable(next, x) ==> Coverable(db, x)))
  }

  lemma CalmThen(a: Db, b: Db, c: Db, x: Id, covers: bool)
    requires Calm(a, b, x, covers) && Calm(b, c, x, covers)
    ensures Calm(a, c, x, covers)
  {
  }

  /** Other tables do not matter. */
  lemma CalmIf(db: Db, next: Db, x: Id, covers: bool)
    requires Below(db, x) && next.runs == db.runs && next.unused == db.unused
    requires forall j :: j in next.jobs ==> j in db.jobs && next.jobs[j].policy == db.jobs[j].policy
    ensures Calm(db, next, x, covers)
  {
  }

  lemma RearmCalm(db: Db, run: Run, at: Time, x: Id, covers: bool)
    requires Below(db, x)
    ensures Calm(db, Rearm(db, run, at), x, covers)
  {
    hide Calm;
    CalmIf(db, Rearm(db, run, at), x, covers);
  }

  lemma AdvanceCalm(db: Db, j: Id, next: Option<Time>, x: Id, covers: bool)
    requires Below(db, x)
    ensures Calm(db, Advance(db, j, next), x, covers)
  {
    hide Calm;
    CalmIf(db, Advance(db, j, next), x, covers);
  }

  lemma LaunchRow(base: Run, route: Route, first: Id, x: Id)
    ensures x in LaunchRows(base, route, first) ==> first <= x < LaunchEnd(route, first)
    ensures x in LaunchRows(base, route, first) ==> LaunchRows(base, route, first)[x].status == base.status
    ensures first <= LaunchEnd(route, first)
  {
  }

  lemma LaunchCalm(db: Db, base: Run, route: Route, x: Id, covers: bool)
    requires Below(db, x) && (base.status.Pending? || base.status.Skipped?)
    ensures Calm(db, Launch(db, base, route), x, covers)
  {
    hide LaunchRows, LaunchEnd;
    LaunchRow(base, route, db.unused, x);
  }

  lemma CoverCalm(db: Db, j: Id, now: Time, x: Id)
    requires Below(db, x) && j in db.jobs && CanonicalPolicy(db.jobs[j].policy).CoverEarly?
    ensures Calm(db, Cover(db, j, now), x, true)
  {
    assert forall i :: i in db.jobs ==> Cover(db, j, now).jobs[i].policy == db.jobs[i].policy;
  }

  // ------------------------------------------------------------------ triggers

  lemma FireCalm(db: Db, j: Id, base: Run, route: Route, cover: bool, now: Time, x: Id)
    requires Below(db, x) && base.status.Pending?
    requires cover ==> j in db.jobs && CanonicalPolicy(db.jobs[j].policy).CoverEarly?
    ensures Calm(db, FireRun(db, j, base, route, cover, now), x, true)
  {
    hide Cover, Launch;
    if cover {
      CoverCalm(db, j, now, x);
      LaunchCalm(Cover(db, j, now), base, route, x, true);
      CalmThen(db, Cover(db, j, now), Launch(Cover(db, j, now), base, route), x, true);
    } else {
      LaunchCalm(db, base, route, x, true);
    }
  }

  lemma CoversByPolicy(db: Db, j: Id, route: Route)
    requires j in db.jobs && Decide(db, j, route) == Fire(true)
    ensures CanonicalPolicy(db.jobs[j].policy).CoverEarly?
  {
    hide HasActive, PendingRuns;
  }

  lemma AdmitCalm(db: Db, j: Id, trigger: Trigger, route: Route, at: Time, now: Time, parent: Option<Id>, rearm: bool,
                  x: Id)
    requires Below(db, x) && j in db.jobs && Admit(db, j, trigger, route, at, now, parent, rearm).Ok?
    ensures Calm(db, Admit(db, j, trigger, route, at, now, parent, rearm).value.0, x, true)
  {
    hide FireRun, Launch, Decide, Calm;
    match Decide(db, j, route)
    case Fire(cover) =>
      if cover { CoversByPolicy(db, j, route); }
      FireCalm(db, j, NewRun(db.jobs[j], j, trigger, Pending, at, now, parent, rearm), route, cover, now, x);
    case _ => LaunchCalm(db, NewRun(db.jobs[j], j, trigger, RunTypes.Skipped, at, now, parent, rearm), Plain, x, true);
  }

  lemma TriggerCalm(db: Db, tenant: Id, j: Id, key: string, route: Route, now: Time, x: Id)
    requires Below(db, x) && TriggerJob(db, tenant, j, key, route, now).Ok?
    ensures Calm(db, TriggerJob(db, tenant, j, key, route, now).value.0, x, true)
  {
    hide FireRun, Launch, Decide, Calm;
    var keyed := if key == "" then db else db.(keys := db.keys[(j, key) := db.unused]);
    var next := TriggerJob(db, tenant, j, key, route, now).value.0;
    CalmIf(db, keyed, x, true);
    if !(key != "" && (j, key) in db.keys) {
      match Decide(db, j, route) {
        case Fire(cover) =>
          if cover { CoversByPolicy(db, j, route); }
          FireCalm(keyed, j, NewRun(db.jobs[j], j, Manual, Pending, now, now, None, false), route, cover, now, x);
        case Drop =>
          LaunchCalm(keyed, NewRun(db.jobs[j], j, Manual, RunTypes.Skipped, now, now, None, false), Plain, x, true);
      }
      CalmThen(db, keyed, next, x, true);
    } else {
      CalmIf(db, db, x, true);
    }
  }

  lemma CalmBelow(db: Db, next: Db, x: Id, covers: bool)
    requires Calm(db, next, x, covers)
    ensures Below(next, x)
  {
  }

  lemma {:induction false} TimesCalm(db: Db, j: Id, times: seq<Time>, route: Route, now: Time, skipped: bool, x: Id)
    requires Below(db, x) && j in db.jobs && EnqueueTimes(db, j, times, route, now, skipped).Ok?
    ensures Calm(db, EnqueueTimes(db, j, times, route, now, skipped).value.0, x, true)
    decreases times
  {
    hide Admit, Launch, Calm;
    if times == [] {
      CalmIf(db, db, x, true);
    } else {
      var rearm := db.jobs[j].kind.FixedDelay?;
      var base := NewRun(db.jobs[j], j, BySchedule, Pending, times[0], now, None, rearm);
      var mid, flag := Launch(db, base, route), false;
      if FastPath(db.jobs[j], route) {
        LaunchJobs(db, base, route);
        LaunchCalm(db, base, route, x, true);
      } else {
        var r := Admit(db, j, BySchedule, route, times[0], now, None, rearm);
        mid, flag := r.value.0, !r.value.1;
        AdmitJobs(db, j, BySchedule, route, times[0], now, None, rearm);
        AdmitCalm(db, j, BySchedule, route, times[0], now, None, rearm, x);
      }
      CalmBelow(db, mid, x, true);
      TimesCalm(mid, j, times[1..], route, now, flag, x);
      CalmThen(db, mid, EnqueueTimes(db, j, times, route, now, skipped).value.0, x, true);
    }
  }

  lemma JobCalm(db: Db, item: DueItem, now: Time, x: Id)
    requires Below(db, x) && EnqueueJob(db, item, now).Ok?
    ensures Calm(db, EnqueueJob(db, item, now).value, x, true)
  {
    hide EnqueueTimes, Advance, DuePlan, Calm;
    if IsDue(db, item.job, now) {
      var j, job := item.job, db.jobs[item.job];
      var plan := DuePlan(job, item.plan, now);
      var t := EnqueueTimes(db, j, plan.due, item.route, now, false);
      var next := if job.kind.FixedDelay? && t.value.1 then Some(NextDelay(job, now)) else plan.next;
      TimesCalm(db, j, plan.due, item.route, now, false, x);
      CalmBelow(db, t.value.0, x, true);
      AdvanceCalm(t.value.0, j, next, x, true);
      CalmThen(db, t.value.0, Advance(t.value.0, j, next), x, true);
    } else {
      CalmIf(db, db, x, true);
    }
  }

  lemma {:induction false} PassCalm(db: Db, items: seq<DueItem>, now: Time, fast: bool, x: Id)
    requires Below(db, x) && EnqueuePass(db, items, now, fast).Ok?
    ensures Calm(db, EnqueuePass(db, items, now, fast).value, x, true)
    decreases items
  {
    hide EnqueueJob, Calm;
    if items == [] {
      CalmIf(db, db, x, true);
    } else if Selected(db, items[0], fast) {
      var mid := EnqueueJob(db, items[0], now).value;
      JobCalm(db, items[0], now, x);
      CalmBelow(db, mid, x, true);
      PassCalm(mid, items[1..], now, fast, x);
      CalmThen(db, mid, EnqueuePass(db, items, now, fast).value, x, true);
    } else {
      PassCalm(db, items[1..], now, fast, x);
    }
  }

  lemma DueCalm(db: Db, items: seq<DueItem>, now: Time, x: Id)
    requires Below(db, x) && EnqueueDue(db, items, now).Ok?
    ensures Calm(db, EnqueueDue(db, items, now).value, x, true)
  {
    hide EnqueuePass, Calm;
    var mid := EnqueuePass(db, items, now, false).value;
    PassCalm(db, items, now, false, x);
    CalmBelow(db, mid, x, true);
    PassCalm(mid, items, now, true, x);
    CalmThen(db, mid, EnqueueDue(db, items, now).value, x, true);
  }

  lemma {:induction false} ChildrenCalm(db: Db, p: Id, children: seq<Id>, routes: map<Id, Route>, now: Time, x: Id)
    requires Below(db, x) && TriggerChildren(db, p, children, routes, now).Ok?
    ensures Calm(db, TriggerChildren(db, p, children, routes, now).value, x, true)
    decreases children
  {
    hide TriggerChild, Calm;
    if children == [] {
      CalmIf(db, db, x, true);
    } else if children[0] !in db.jobs {
      ChildrenCalm(db, p, children[1..], routes, now, x);
    } else {
      var mid := TriggerChild(db, p, children[0], RouteOf(routes, children[0]), now).value;
      ChildCalm(db, p, children[0], RouteOf(routes, children[0]), now, x);
      CalmBelow(db, mid, x, true);
      ChildrenCalm(mid, p, children[1..], routes, now, x);
      CalmThen(db, mid, TriggerChildren(db, p, children, routes, now).value, x, true);
    }
  }

  lemma ChildCalm(db: Db, p: Id, c: Id, route: Route, now: Time, x: Id)
    requires Below(db, x) && c in db.jobs && TriggerChild(db, p, c, route, now).Ok?
    ensures Calm(db, TriggerChild(db, p, c, route, now).value, x, true)
  {
    hide Admit, Calm;
    var reserved := db.(dispatched := db.dispatched[(p, c) := db.unused]);
    CalmIf(db, db, x, true);
    CalmIf(db, reserved, x, true);
    if (p, c) !in db.dispatched {
      AdmitCalm(reserved, c, Dependency, route, now, now, Some(p), false, x);
      CalmThen(db, reserved, TriggerChild(db, p, c, route, now).value, x, true);
    }
  }

  // ------------------------------------------------------------------ outcomes

  /** The run ends in this status, and every other one is left as it was. */
  lemma FinishCalm(db: Db, id: Id, st: Status, now: Time, x: Id, covers: bool)
    requires id in db.runs && Below(db, x) && Below(db, id) && !Unfinished(st)
    ensures Finish(db, id, st, now).unused == db.unused && Finish(db, id, st, now).jobs == db.jobs
    ensures x != id ==> Calm(db, Finish(db, id, st, now), x, covers)
    ensures x == id ==> Ended(Finish(db, id, st, now), x) && Finish(db, id, st, now).runs[x].status == st
  {
  }

  lemma AfterFailureCalm(db: Db, id: Id, copy: Run, st: Status, now: Time, retry: Option<Time>, x: Id, covers: bool)
    requires Below(db, x)
    ensures Calm(db, AfterFailure(db, id, copy, st, now, retry), x, covers)
  {
    hide Rearm;
    if retry.None? {
      var told := Emit(db, id, st, Exhausted);
      CalmIf(db, told, x, covers);
      RearmCalm(told, copy, now, x, covers);
      CalmThen(db, told, Rearm(told, copy, now), x, covers);
    }
  }

  /** What a transaction does that ends one run and then only what is calm. */
  ghost predicate EndsOne(db: Db, next: Db, id: Id, st: Status, x: Id, covers: bool) {
    (x == id ==> x in next.runs && next.runs[x].status == st) && (x != id ==> Calm(db, next, x, covers))
  }

  lemma EndedThen(db: Db, done: Db, next: Db, id: Id, st: Status, x: Id, covers: bool)
    requires x != id ==> Calm(db, done, x, covers)
    requires x == id ==> Ended(done, x) && done.runs[x].status == st
    requires Calm(done, next, x, covers)
    ensures EndsOne(db, next, id, st, x, covers)
  {
    if x != id { CalmThen(db, done, next, x, covers); }
  }

  lemma FailureEnds(db: Db, id: Id, copy: Run, st: Status, now: Time, retry: Option<Time>, x: Id)
    requires id in db.runs && Below(db, x) && Below(db, id) && Broken(st)
    ensures EndsOne(db, AfterFailure(Finish(db, id, st, now), id, copy, st, now, retry), id, st, x, false)
  {
    hide Finish, AfterFailure, Calm;
    var done := Finish(db, id, st, now);
    FinishCalm(db, id, st, now, x, false);
    FinishBelow(db, id, st, now, x);
    AfterFailureCalm(done, id, copy, st, now, retry, x, false);
    EndedThen(db, done, AfterFailure(done, id, copy, st, now, retry), id, st, x, false);
  }

  lemma FinishBelow(db: Db, id: Id, st: Status, now: Time, x: Id)
    requires id in db.runs && Below(db, x)
    ensures Below(Finish(db, id, st, now), x)
  {
  }

  lemma SuccessEnds(db: Db, id: Id, routes: map<Id, Route>, now: Time, x: Id)
    requires id in db.runs && Below(db, x) && Below(db, id) && Succeed(db, id, routes, now).Ok?
    ensures EndsOne(db, Succeed(db, id, routes, now).value, id, Succeeded, x, true)
  {
    hide Finish, TriggerChildren, Rearm, Children, Calm;
    var done := Finish(db, id, Succeeded, now);
    FinishCalm(db, id, Succeeded, now, x, true);
    FinishBelow(db, id, Succeeded, now, x);
    var kids := Children(done, db.runs[id].job);
    var fed := TriggerChildren(done, id, kids, routes, now).value;
    ChildrenCalm(done, id, kids, routes, now, x);
    CalmBelow(done, fed, x, true);
    RearmCalm(fed, db.runs[id], now, x, true);
    CalmThen(done, fed, Rearm(fed, db.runs[id], now), x, true);
    EndedThen(db, done, Rearm(fed, db.runs[id], now), id, Succeeded, x, true);
  }

  lemma CancelEnds(db: Db, tenant: Id, id: Id, now: Time, x: Id)
    requires Below(db, x) && id in db.runs && Below(db, id) && CancelRun(db, tenant, id, now).Ok?
    ensures EndsOne(db, CancelRun(db, tenant, id, now).value, id, Cancelled, x, false)
  {
    hide Finish, Rearm, Calm;
    var run := db.runs[id];
    if Unfinished(run.status) {
      var done := Finish(db, id, Cancelled, now);
      var told := if run.address != "" then EnqueueCancel(done, id, run.address, now) else done;
      FinishCalm(db, id, Cancelled, now, x, false);
      FinishBelow(db, id, Cancelled, now, x);
      CalmIf(done, told, x, false);
      RearmCalm(told, run, now, x, false);
      CalmThen(done, told, Rearm(told, run, now), x, false);
      EndedThen(db, done, Rearm(told, run, now), id, Cancelled, x, false);
    } else {
      CalmIf(db, CancelRun(db, tenant, id, now).value, x, false);
    }
  }

  /** A row that waits past its deadline is timed out; the others are left alone. */
  lemma {:induction false} ExpireEnds(db: Db, rows: seq<Id>, now: Time, x: Id)
    requires forall id: Id :: id in db.runs ==> id < db.unused
    ensures var next := ExpireCallbacks(db, rows, now);
            || Calm(db, next, x, false)
            || (x in rows && Waits(db, x) && db.runs[x].callback.Some? && db.runs[x].callback.value.deadline <= now
                && x in next.runs && next.runs[x].status.TimedOut?)
    decreases rows
  {
    hide Calm;
    if rows == [] {
      CalmIf(db, db, x, false);
    } else if Expired(db, rows[0], now) {
      hide Finish, AfterFailure, ExpireCallbacks;
      var run, mid := db.runs[rows[0]], ExpireOne(db, rows[0], now);
      assert ExpireCallbacks(db, rows, now) == ExpireCallbacks(mid, rows[1..], now) by { ExpireFirst(db, rows, now); }
      FailureEnds(db, rows[0], run, TimedOut, now, CallbackRetry(db, run), x);
      ExpireBelow(db, rows[0], now);
      ExpireEnds(mid, rows[1..], now, x);
      if x == rows[0] {
        TimedOutStays(mid, ExpireCallbacks(db, rows, now), x);
      } else if Calm(mid, ExpireCallbacks(mid, rows[1..], now), x, false) {
        CalmThen(db, mid, ExpireCallbacks(mid, rows[1..], now), x, false);
      } else {
        StillWaits(db, mid, x);
      }
    } else {
      ExpireEnds(db, rows[1..], now, x);
    }
  }

  lemma ExpireFirst(db: Db, rows: seq<Id>, now: Time)
    requires rows != [] && Expired(db, rows[0], now)
    ensures ExpireCallbacks(db, rows, now) == ExpireCallbacks(ExpireOne(db, rows[0], now), rows[1..], now)
  {
  }

  lemma TimedOutStays(mid: Db, next: Db, x: Id)
    requires x in mid.runs && mid.runs[x].status.TimedOut?
    ensures Calm(mid, next, x, false) ==> x in next.runs && next.runs[x].status.TimedOut?
  {
  }

  lemma StillWaits(db: Db, mid: Db, x: Id)
    requires Calm(db, mid, x, false) && Waits(mid, x)
    ensures Waits(db, x) && mid.runs[x] == db.runs[x]
  {
  }

  lemma ExpireBelow(db: Db, id: Id, now: Time)
    requires Expired(db, id, now) && forall r: Id :: r in db.runs ==> r < db.unused
    ensures forall r: Id :: r in ExpireOne(db, id, now).runs ==> r < ExpireOne(db, id, now).unused
  {
    hide Finish, AfterFailure, Calm;
    var run := db.runs[id];
    forall r: Id | r in ExpireOne(db, id, now).runs ensures r < ExpireOne(db, id, now).unused {
      FinishBelow(db, id, TimedOut, now, r);
      AfterFailureCalm(Finish(db, id, TimedOut, now), id, run, TimedOut, now, CallbackRetry(db, run), r, false);
      CalmBelow(Finish(db, id, TimedOut, now), ExpireOne(db, id, now), r, false);
    }
  }

  // ---------------------------------------------------------- claims and dispatch

  lemma ClaimOneCalm(db: Db, id: Id, now: Time, lease: Time, x: Id)
    requires Below(db, x) && id in db.runs && db.runs[id].job in db.jobs && Claimable(db.runs[id], now)
    ensures Calm(db, ClaimOne(db, id, now, lease), x, false)
  {
  }

  lemma {:induction false} ClaimEachCalm(db: Db, picked: seq<Id>, now: Time, lease: Time, x: Id)
    requires Below(db, x)
    requires forall i, k :: 0 <= i < k < |picked| ==> picked[i] != picked[k]
    requires forall i :: 0 <= i < |picked| ==> picked[i] in db.runs && Claimable(db.runs[picked[i]], now)
    ensures Calm(db, ClaimEach(db, picked, now, lease), x, false)
    decreases picked
  {
    if picked == [] {
      CalmIf(db, db, x, false);
    } else {
      hide Calm;
      var id := picked[0];
      var mid := if db.runs[id].job in db.jobs then ClaimOne(db, id, now, lease) else db;
      CalmIf(db, db, x, false);
      if db.runs[id].job in db.jobs { ClaimOneCalm(db, id, now, lease, x); }
      CalmBelow(db, mid, x, false);
      assert forall i :: 0 <= i < |picked[1..]| ==> picked[1..][i] == picked[i + 1] && picked[i + 1] != id;
      ClaimEachCalm(mid, picked[1..], now, lease, x);
      CalmThen(db, mid, ClaimEach(db, picked, now, lease), x, false);
    }
  }

  lemma ClaimCalm(db: Db, caps: Caps, limit: nat, locked: set<Id>, lease: Time, now: Time, x: Id)
    requires Below(db, x)
    ensures Calm(db, ClaimRuns(db, caps, limit, locked, lease, now), x, false)
  {
    var pool := EligibleRuns(db, caps, now) - locked;
    PickFacts(db, pool, limit);
    ClaimEachCalm(db, Pick(db, pool, limit), now, lease, x);
  }

  /** Only the preparation of a run makes it wait, for the callback it names. */
  lemma PrepareStarts(db: Db, claim: Claim, node: Node, callback: Callback, x: Id)
    requires Below(db, x) && HoldsLease(db, claim)
    ensures var next := PrepareDispatch(db, claim, node, callback).value;
            if x == claim.id then Waits(next, x) && next.runs[x].callback == Some(callback)
            else Calm(db, next, x, false)
  {
  }

  // --------------------------------------------------------------- every transaction

  /** The transactions that can trigger a job: by hand, by its schedule, or after another job. */
  predicate Triggers(a: Action) {
    a.DoTrigger? || a.DoEnqueueDue? || (a.DoComplete? && a.success) || (a.DoCallback? && a.success)
  }

  /** The four ways out of waiting. */
  ghost predicate Leaves(db: Db, a: Action, x: Id, run: Run)
    requires Waits(db, x)
  {
    || (a.DoCallback? && a.id == x && AwaitsCallback(db, x, a.hash, a.now)
        && run.status == if a.success then Succeeded else Failed)
    || (a.DoExpire? && x in a.rows && db.runs[x].callback.Some? && db.runs[x].callback.value.deadline <= a.now
        && run.status.TimedOut?)
    || (a.DoCancel? && a.id == x && run.status.Cancelled?)
    || (Triggers(a) && !(a.DoCallback? && a.id == x) && Coverable(db, x) && run.status.Cancelled?)
  }

  /** Who waits afterwards was prepared by the transaction or waited before; who stops, stops in one of four ways. */
  ghost predicate WaitStep(db: Db, a: Action, next: Db, x: Id) {
    && (Waits(next, x) ==>
          || (Waits(db, x) && next.runs[x] == db.runs[x])
          || (PreparesRun(db, a, x) && next.runs[x].callback == Some(a.callback)))
    && (Waits(db, x) ==> x in next.runs && (next.runs[x] == db.runs[x] || Leaves(db, a, x, next.runs[x])))
  }

  lemma CalmStep(db: Db, a: Action, next: Db, x: Id)
    requires Calm(db, next, x, Triggers(a)) && !(a.DoCallback? && a.id == x)
    ensures WaitStep(db, a, next, x)
  {
  }

  /** A success may cover, a failure does not. */
  lemma OneEndsStep(db: Db, a: Action, next: Db, id: Id, st: Status, x: Id)
    requires EndsOne(db, next, id, st, x, Triggers(a)) && !Unfinished(st)
    requires x == id && Waits(db, x) ==> x in next.runs && Leaves(db, a, x, next.runs[x])
    requires a.DoCallback? ==> a.id == id
    ensures WaitStep(db, a, next, x)
  {
    if x != id { CalmStep(db, a, next, x); }
  }

  lemma OutcomeStep(db: Db, a: Action, x: Id)
    requires Whole(db) && Below(db, x) && Apply(db, a).Ok? && (a.DoFail? || a.DoComplete?)
    ensures WaitStep(db, a, Apply(db, a).value, x)
  {
    hide Whole, Finish, AfterFailure, EnqueueDependents, Rearm, EndsOne, Leaves, WaitStep, Waits;
    var claim, next := db.claims[a.token], Apply(db, a).value;
    HolderIdentity(db, a.token);
    HolderBelow(db, claim.id);
    var st := if a.DoFail? then a.st else if a.success then Succeeded else Failed;
    if a.DoFail? {
      var retry := if ShouldRetry(claim.run.attempt, claim.maxRetries) then Some(a.delay) else None;
      FailureEnds(db, claim.id, claim.run, a.st, a.now, retry, x);
    } else if a.success {
      SuccessEnds(db, claim.id, a.routes, a.now, x);
    } else {
      FailureEnds(db, claim.id, claim.run, Failed, a.now, None, x);
    }
    assert !Waits(db, claim.id) by { RunningDoesNotWait(db, claim.id); }
    OneEndsStep(db, a, next, claim.id, st, x);
  }

  lemma RunningDoesNotWait(db: Db, id: Id)
    requires id in db.runs && db.runs[id].status.Running?
    ensures !Waits(db, id)
  {
  }

  lemma HolderBelow(db: Db, id: Id)
    requires Whole(db)
    ensures Below(db, id)
  {
  }

  lemma CallbackStep(db: Db, a: Action, x: Id)
    requires Whole(db) && Below(db, x) && Apply(db, a).Ok? && a.DoCallback?
    ensures WaitStep(db, a, Apply(db, a).value, x)
  {
    hide Whole, Finish, AfterFailure, EnqueueDependents, Rearm, WaitStep;
    HolderBelow(db, a.id);
    if a.success {
      SuccessEnds(db, a.id, a.routes, a.now, x);
    } else {
      FailureEnds(db, a.id, db.runs[a.id], Failed, a.now, CallbackRetry(db, db.runs[a.id]), x);
    }
    OneEndsStep(db, a, Apply(db, a).value, a.id, if a.success then Succeeded else Failed, x);
  }

  lemma CancelStep(db: Db, a: Action, x: Id)
    requires Whole(db) && Below(db, x) && Apply(db, a).Ok? && a.DoCancel?
    ensures WaitStep(db, a, Apply(db, a).value, x)
  {
    hide Whole, Finish, Rearm, EnqueueCancel, WaitStep;
    HolderBelow(db, a.id);
    CancelEnds(db, a.tenant, a.id, a.now, x);
    OneEndsStep(db, a, Apply(db, a).value, a.id, Cancelled, x);
  }

  lemma PrepareStep(db: Db, a: Action, x: Id)
    requires Whole(db) && Below(db, x) && Apply(db, a).Ok? && a.DoPrepare?
    ensures WaitStep(db, a, Apply(db, a).value, x)
  {
    hide Whole;
    assert HoldsLease(db, db.claims[a.token]);
    hide PrepareDispatch;
    PrepareStarts(db, db.claims[a.token], a.node, a.callback, x);
  }

  lemma ExpireStep(db: Db, a: Action, x: Id)
    requires Whole(db) && a.DoExpire?
    ensures WaitStep(db, a, Apply(db, a).value, x)
  {
    hide Whole, ExpireCallbacks, Calm, Leaves;
    AllBelow(db);
    ExpireEnds(db, a.rows, a.now, x);
    if Calm(db, ExpireCallbacks(db, a.rows, a.now), x, false) {
      CalmStep(db, a, ExpireCallbacks(db, a.rows, a.now), x);
    } else {
      ExpiredLeaves(db, a, ExpireCallbacks(db, a.rows, a.now), x);
    }
  }

  lemma AllBelow(db: Db)
    requires Whole(db)
    ensures forall id: Id :: id in db.runs ==> id < db.unused
  {
    hide Whole;
    forall id: Id | id in db.runs ensures id < db.unused { HolderBelow(db, id); }
  }

  lemma ExpiredLeaves(db: Db, a: Action, next: Db, x: Id)
    requires a.DoExpire? && x in a.rows && Waits(db, x) && x in next.runs && next.runs[x].status.TimedOut?
    requires db.runs[x].callback.Some? && db.runs[x].callback.value.deadline <= a.now
    ensures WaitStep(db, a, next, x)
  {
  }

  lemma ActionStep(db: Db, a: Action, x: Id)
    requires Whole(db) && Apply(db, a).Ok? && !Administers(a)
    ensures WaitStep(db, a, Apply(db, a).value, x)
  {
    hide Whole, Below, Calm, WaitStep;
    hide EnqueueDue, TriggerJob, ClaimRuns, PrepareDispatch, FailWithState, CompleteRun, CompleteCallback;
    hide ExpireCallbacks, CancelRun;
    HolderBelow(db, x);
    match a
    case DoEnqueueDue(items, now) =>
      DueCalm(db, items, now, x);
      CalmStep(db, a, Apply(db, a).value, x);
    case DoTrigger(tenant, id, key, route, now) =>
      TriggerCalm(db, tenant, id, key, route, now, x);
      CalmStep(db, a, Apply(db, a).value, x);
    case DoClaim(caps, limit, locked, lease, now) =>
      ClaimCalm(db, caps, limit, locked, lease, now, x);
      CalmStep(db, a, Apply(db, a).value, x);
    case DoPrepare(_, _, _) => PrepareStep(db, a, x);
    case DoFail(_, _, _, _) => OutcomeStep(db, a, x);
    case DoComplete(_, _, _, _) => OutcomeStep(db, a, x);
    case DoCallback(_, _, _, _, _) => CallbackStep(db, a, x);
    case DoExpire(_, _) => ExpireStep(db, a, x);
    case DoCancel(_, _, _) => CancelStep(db, a, x);
  }

  lemma DoStep(db: Db, a: Action, x: Id)
    requires Sound(db)
    ensures WaitStep(db, a, Do(db, a), x)
  {
    hide Whole, Apply, Administered, Dependencies.Acyclic;
    if Apply(db, a).Ok? {
      var next := Apply(db, a).value;
      if Administers(a) {
        AdministerAction(db, a);
        AdministeredRuns(db, next);
      } else {
        hide WaitStep;
        ActionStep(db, a, x);
      }
    }
  }

  // ------------------------------------------------------------- whole histories

  /** The i-th transaction prepared the run, with this callback. */
  ghost predicate PreparedAt(actions: seq<Action>, i: nat, x: Id, callback: Callback)
    requires i < |actions|
  {
    PreparesRun(Exec(actions[..i]), actions[i], x) && actions[i].callback == callback
  }

  /** A run that waits was prepared earlier in the history, for the very callback it waits for. */
  lemma {:induction false} WaitsForItsPreparation(actions: seq<Action>, x: Id) returns (i: nat)
    requires Waits(Exec(actions), x)
    ensures i < |actions| && Exec(actions).runs[x].callback.Some?
    ensures PreparedAt(actions, i, x, Exec(actions).runs[x].callback.value)
    decreases |actions|
  {
    hide Sound, Do, WaitStep;
    var shorter, last := actions[..|actions| - 1], |actions| - 1;
    ExecSound(shorter);
    DoStep(Exec(shorter), actions[last], x);
    assert Exec(actions) == Do(Exec(shorter), actions[last]);
    WaitCases(Exec(shorter), actions[last], x);
    if Waits(Exec(shorter), x) {
      i := WaitsForItsPreparation(shorter, x);
      assert shorter[..i] == actions[..i];
    } else {
      i := last;
    }
  }

  lemma WaitCases(db: Db, a: Action, x: Id)
    requires WaitStep(db, a, Do(db, a), x) && Waits(Do(db, a), x)
    ensures Waits(db, x) ==> Do(db, a).runs[x] == db.runs[x]
    ensures !Waits(db, x) ==> PreparesRun(db, a, x) && Do(db, a).runs[x].callback == Some(a.callback)
  {
  }

  /**
   Over every history, a run stops waiting in one of four ways only: a callback in time with
   the hash its own preparation stored, its expiry, its cancellation, or a trigger that covers it.
   */
  lemma WaitingEndsInFourWays(actions: seq<Action>, a: Action, x: Id) returns (i: nat)
    requires Waits(Exec(actions), x)
    ensures i < |actions| && PreparesRun(Exec(actions[..i]), actions[i], x)
    ensures var db, next := Exec(actions), Do(Exec(actions), a);
            && x in next.runs && (next.runs[x] == db.runs[x] || Leaves(db, a, x, next.runs[x]))
            && (a.DoCallback? && a.id == x && next.runs[x] != db.runs[x] ==>
                  a.hash == actions[i].callback.hash && a.now < actions[i].callback.deadline)
            && (a.DoExpire? && next.runs[x] != db.runs[x] ==> actions[i].callback.deadline <= a.now)
  {
    hide Exec, Do, WaitStep, Leaves, PreparesRun, Sound;
    i := WaitsForItsPreparation(actions, x);
    ExecSound(actions);
    DoStep(Exec(actions), a, x);
    LeaveCases(Exec(actions), a, x);
  }

  lemma LeaveCases(db: Db, a: Action, x: Id)
    requires Waits(db, x) && WaitStep(db, a, Do(db, a), x)
    ensures var next := Do(db, a);
            && x in next.runs && (next.runs[x] == db.runs[x] || Leaves(db, a, x, next.runs[x]))
            && (a.DoCallback? && a.id == x && next.runs[x] != db.runs[x] ==> AwaitsCallback(db, x, a.hash, a.now))
            && (a.DoExpire? && next.runs[x] != db.runs[x] ==>
                  db.runs[x].callback.Some? && db.runs[x].callback.value.deadline <= a.now)
  {
    hide Do;
  }
}
