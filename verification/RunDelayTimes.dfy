/**
 When a job runs next: a fixed-delay job one period after the transaction that ended or skipped
 its last run, and a job that is switched off never.
 */
module RunDelayTimes {
  import opened RunTypes
  import opened RunTransactions
  import opened RunMicro
  import opened RunSystem
  import opened RunRefinement
  import opened RunHistory

  /** Left alone, taken away, or one period from now. */
  predicate NextOk(a: Job, b: Job, now: Time) {
    a.kind.FixedDelay? ==>
      b.nextRunAt == a.nextRunAt || b.nextRunAt.None? || b.nextRunAt == Some(now + Duration(a.period))
  }

  /** A row that is switched off is not touched, and one that is being switched off loses its next time. */
  predicate SwitchOk(a: Job, b: Job) {
    if a.enabled then b.enabled || b.nextRunAt.None? else b == a
  }

  predicate RowOk(a: Job, b: Job, now: Time) {
    SameJob(a, b) && NextOk(a, b, now) && SwitchOk(a, b)
  }

  ghost predicate OnTime(before: map<Id, Job>, after: map<Id, Job>, now: Time) {
    after.Keys == before.Keys && (forall j :: j in before ==> RowOk(before[j], after[j], now))
  }

  ghost predicate SameSwitches(before: map<Id, Job>, after: map<Id, Job>) {
    after.Keys == before.Keys && (forall j :: j in before ==> after[j].enabled == before[j].enabled)
  }

  lemma OnTimeSelf(jobs: map<Id, Job>, now: Time)
    ensures OnTime(jobs, jobs, now)
  {
  }

  lemma OnTimeThen(a: map<Id, Job>, b: map<Id, Job>, c: map<Id, Job>, now: Time)
    requires OnTime(a, b, now) && OnTime(b, c, now)
    ensures OnTime(a, c, now)
  {
    forall j | j in a ensures RowOk(a[j], c[j], now) {
      assert RowOk(a[j], b[j], now) && RowOk(b[j], c[j], now);
    }
  }

  lemma RearmOnTime(db: Db, run: Run, now: Time)
    ensures OnTime(db.jobs, Rearm(db, run, now).jobs, now)
  {
  }

  lemma CoverOnTime(db: Db, j: Id, now: Time)
    ensures OnTime(db.jobs, Cover(db, j, now).jobs, now) && SameSwitches(db.jobs, Cover(db, j, now).jobs)
  {
  }

  lemma AdvanceOnTime(db: Db, j: Id, next: Option<Time>, now: Time)
    requires j in db.jobs && db.jobs[j].kind.FixedDelay? ==> next.None? || next == Some(NextDelay(db.jobs[j], now))
    requires j in db.jobs ==> db.jobs[j].enabled
    ensures OnTime(db.jobs, Advance(db, j, next).jobs, now)
  {
    var after := Advance(db, j, next).jobs;
    if j in db.jobs {
      assert RowOk(db.jobs[j], after[j], now);
      assert forall i :: i in db.jobs && i != j ==> after[i] == db.jobs[i];
    }
  }

  // ------------------------------------------------------------------ triggers

  lemma FireOnTime(db: Db, j: Id, base: Run, route: Route, cover: bool, now: Time)
    ensures OnTime(db.jobs, FireRun(db, j, base, route, cover, now).jobs, now)
    ensures SameSwitches(db.jobs, FireRun(db, j, base, route, cover, now).jobs)
  {
    hide Cover, OnTime;
    OnTimeSelf(db.jobs, now);
    CoverOnTime(db, j, now);
  }

  lemma AdmitOnTime(db: Db, j: Id, trigger: Trigger, route: Route, at: Time, now: Time, parent: Option<Id>, rearm: bool)
    requires j in db.jobs && Admit(db, j, trigger, route, at, now, parent, rearm).Ok?
    ensures OnTime(db.jobs, Admit(db, j, trigger, route, at, now, parent, rearm).value.0.jobs, now)
    ensures SameSwitches(db.jobs, Admit(db, j, trigger, route, at, now, parent, rearm).value.0.jobs)
  {
    hide FireRun, OnTime, Decide;
    OnTimeSelf(db.jobs, now);
    match Decide(db, j, route)
    case Fire(cover) =>
      FireOnTime(db, j, NewRun(db.jobs[j], j, trigger, Pending, at, now, parent, rearm), route, cover, now);
    case _ =>
  }

  lemma TriggerOnTime(db: Db, tenant: Id, j: Id, key: string, route: Route, now: Time)
    requires TriggerJob(db, tenant, j, key, route, now).Ok?
    ensures OnTime(db.jobs, TriggerJob(db, tenant, j, key, route, now).value.0.jobs, now)
  {
    hide FireRun, OnTime, Decide;
    OnTimeSelf(db.jobs, now);
    if !(key != "" && (j, key) in db.keys) {
      var keyed := if key == "" then db else db.(keys := db.keys[(j, key) := db.unused]);
      match Decide(db, j, route)
      case Fire(cover) =>
        FireOnTime(keyed, j, NewRun(db.jobs[j], j, Manual, Pending, now, now, None, false), route, cover, now);
      case _ =>
    }
  }

  lemma {:induction false} TimesOnTime(db: Db, j: Id, times: seq<Time>, route: Route, now: Time, skipped: bool)
    requires j in db.jobs && EnqueueTimes(db, j, times, route, now, skipped).Ok?
    ensures OnTime(db.jobs, EnqueueTimes(db, j, times, route, now, skipped).value.0.jobs, now)
    ensures SameSwitches(db.jobs, EnqueueTimes(db, j, times, route, now, skipped).value.0.jobs)
    decreases times
  {
    hide Admit, Launch, OnTime;
    if times == [] {
      OnTimeSelf(db.jobs, now);
    } else {
      var rearm := db.jobs[j].kind.FixedDelay?;
      var base := NewRun(db.jobs[j], j, BySchedule, Pending, times[0], now, None, rearm);
      if FastPath(db.jobs[j], route) {
        LaunchJobs(db, base, route);
        TimesOnTime(Launch(db, base, route), j, times[1..], route, now, false);
      } else {
        var r := Admit(db, j, BySchedule, route, times[0], now, None, rearm);
        AdmitJobs(db, j, BySchedule, route, times[0], now, None, rearm);
        AdmitOnTime(db, j, BySchedule, route, times[0], now, None, rearm);
        TimesOnTime(r.value.0, j, times[1..], route, now, !r.value.1);
        OnTimeThen(db.jobs, r.value.0.jobs, EnqueueTimes(db, j, times, route, now, skipped).value.0.jobs, now);
      }
    }
  }

  lemma JobOnTime(db: Db, item: DueItem, now: Time)
    requires EnqueueJob(db, item, now).Ok?
    ensures OnTime(db.jobs, EnqueueJob(db, item, now).value.jobs, now)
  {
    hide EnqueueTimes, Advance;
    if IsDue(db, item.job, now) {
      var j, job := item.job, db.jobs[item.job];
      var plan := DuePlan(job, item.plan, now);
      var t := EnqueueTimes(db, j, plan.due, item.route, now, false);
      var next := if job.kind.FixedDelay? && t.value.1 then Some(NextDelay(job, now)) else plan.next;
      TimesOnTime(db, j, plan.due, item.route, now, false);
      assert RowOk(job, t.value.0.jobs[j], now);
      AdvanceOnTime(t.value.0, j, next, now);
      hide OnTime;
      OnTimeThen(db.jobs, t.value.0.jobs, Advance(t.value.0, j, next).jobs, now);
    } else {
      OnTimeSelf(db.jobs, now);
    }
  }

  lemma {:induction false} PassOnTime(db: Db, items: seq<DueItem>, now: Time, fast: bool)
    requires EnqueuePass(db, items, now, fast).Ok?
    ensures OnTime(db.jobs, EnqueuePass(db, items, now, fast).value.jobs, now)
    decreases items
  {
    hide EnqueueJob, OnTime;
    if items == [] {
      OnTimeSelf(db.jobs, now);
    } else if Selected(db, items[0], fast) {
      var mid := EnqueueJob(db, items[0], now).value;
      JobOnTime(db, items[0], now);
      PassOnTime(mid, items[1..], now, fast);
      OnTimeThen(db.jobs, mid.jobs, EnqueuePass(db, items, now, fast).value.jobs, now);
    } else {
      PassOnTime(db, items[1..], now, fast);
    }
  }

  lemma DueOnTime(db: Db, items: seq<DueItem>, now: Time)
    requires EnqueueDue(db, items, now).Ok?
    ensures OnTime(db.jobs, EnqueueDue(db, items, now).value.jobs, now)
  {
    hide EnqueuePass, OnTime;
    var mid := EnqueuePass(db, items, now, false).value;
    PassOnTime(db, items, now, false);
    PassOnTime(mid, items, now, true);
    OnTimeThen(db.jobs, mid.jobs, EnqueueDue(db, items, now).value.jobs, now);
  }

  // ------------------------------------------------------------------ outcomes

  lemma FinishJobs(db: Db, id: Id, st: Status, now: Time)
    requires id in db.runs
    ensures Finish(db, id, st, now).jobs == db.jobs
  {
  }

  lemma FailureOnTime(db: Db, id: Id, copy: Run, st: Status, now: Time, retry: Option<Time>)
    requires id in db.runs
    ensures OnTime(db.jobs, AfterFailure(Finish(db, id, st, now), id, copy, st, now, retry).jobs, now)
  {
    hide Finish, Rearm, OnTime;
    FinishJobs(db, id, st, now);
    OnTimeSelf(db.jobs, now);
    RearmOnTime(Emit(Finish(db, id, st, now), id, st, Exhausted), copy, now);
  }

  lemma {:induction false} ChildrenOnTime(db: Db, p: Id, children: seq<Id>, routes: map<Id, Route>, now: Time)
    requires TriggerChildren(db, p, children, routes, now).Ok?
    ensures OnTime(db.jobs, TriggerChildren(db, p, children, routes, now).value.jobs, now)
    decreases children
  {
    hide Admit, OnTime;
    if children == [] {
      OnTimeSelf(db.jobs, now);
    } else if children[0] !in db.jobs {
      ChildrenOnTime(db, p, children[1..], routes, now);
    } else {
      var c, route := children[0], RouteOf(routes, children[0]);
      var mid := TriggerChild(db, p, c, route, now).value;
      if (p, c) in db.dispatched {
        OnTimeSelf(db.jobs, now);
      } else {
        AdmitOnTime(db.(dispatched := db.dispatched[(p, c) := db.unused]), c, Dependency, route, now, now, Some(p),
          false);
      }
      ChildrenOnTime(mid, p, children[1..], routes, now);
      OnTimeThen(db.jobs, mid.jobs, TriggerChildren(db, p, children, routes, now).value.jobs, now);
    }
  }

  lemma SuccessOnTime(db: Db, id: Id, routes: map<Id, Route>, now: Time)
    requires id in db.runs && Succeed(db, id, routes, now).Ok?
    ensures OnTime(db.jobs, Succeed(db, id, routes, now).value.jobs, now)
  {
    hide Finish, TriggerChildren, Rearm, OnTime, Children;
    var done := Finish(db, id, Succeeded, now);
    FinishJobs(db, id, Succeeded, now);
    var fed := EnqueueDependents(done, id, db.runs[id].job, routes, now).value;
    ChildrenOnTime(done, id, Children(done, db.runs[id].job), routes, now);
    RearmOnTime(fed, db.runs[id], now);
    OnTimeThen(db.jobs, fed.jobs, Rearm(fed, db.runs[id], now).jobs, now);
  }

  lemma {:induction false} ExpireOnTime(db: Db, rows: seq<Id>, now: Time)
    ensures OnTime(db.jobs, ExpireCallbacks(db, rows, now).jobs, now)
    decreases rows
  {
    hide Finish, AfterFailure, OnTime;
    if rows == [] {
      OnTimeSelf(db.jobs, now);
    } else if Expired(db, rows[0], now) {
      var run := db.runs[rows[0]];
      FailureOnTime(db, rows[0], run, TimedOut, now, CallbackRetry(db, run));
      ExpireOnTime(ExpireOne(db, rows[0], now), rows[1..], now);
      OnTimeThen(db.jobs, ExpireOne(db, rows[0], now).jobs, ExpireCallbacks(db, rows, now).jobs, now);
    } else {
      ExpireOnTime(db, rows[1..], now);
    }
  }

  lemma CancelOnTime(db: Db, tenant: Id, id: Id, now: Time)
    requires CancelRun(db, tenant, id, now).Ok?
    ensures OnTime(db.jobs, CancelRun(db, tenant, id, now).value.jobs, now)
  {
    hide Finish, Rearm, OnTime;
    OnTimeSelf(db.jobs, now);
    FinishJobs(db, id, Cancelled, now);
    var done := Finish(db, id, Cancelled, now);
    var told := if db.runs[id].address != "" then EnqueueCancel(done, id, db.runs[id].address, now) else done;
    RearmOnTime(told, db.runs[id], now);
  }

  lemma OutcomeOnTime(db: Db, a: Action)
    requires Whole(db) && Apply(db, a).Ok? && (a.DoFail? || a.DoComplete? || a.DoCallback?)
    ensures OnTime(db.jobs, Apply(db, a).value.jobs, a.now)
  {
    hide Whole, Finish, AfterFailure, EnqueueDependents, Rearm, OnTime;
    if a.DoCallback? {
      if a.success { SuccessOnTime(db, a.id, a.routes, a.now); }
      else { FailureOnTime(db, a.id, db.runs[a.id], Failed, a.now, CallbackRetry(db, db.runs[a.id])); }
    } else {
      var claim := db.claims[a.token];
      HolderIdentity(db, a.token);
      if a.DoFail? {
        FailureOnTime(db, claim.id, claim.run, a.st, a.now, if ShouldRetry(claim.run.attempt, claim.maxRetries)
          then Some(a.delay) else None);
      } else if a.success {
        SuccessOnTime(db, claim.id, a.routes, a.now);
      } else {
        FailureOnTime(db, claim.id, claim.run, Failed, a.now, None);
      }
    }
  }

  /**
   Every transaction on runs leaves the next time of a fixed-delay job alone, takes it away
   because a run is on its way, or sets it to one period after its own instant, which is
   the instant it writes as the end of the run that was waited for.
   */
  lemma DelaysCountFromTheEnd(db: Db, a: Action)
    requires Whole(db) && Apply(db, a).Ok? && !Administers(a) && !a.DoPrepare?
    ensures OnTime(db.jobs, Apply(db, a).value.jobs, a.now)
  {
    hide Whole, OnTime, EnqueueDue, TriggerJob, ClaimRuns, FailWithState, CompleteRun, CompleteCallback;
    hide ExpireCallbacks, CancelRun;
    match a
    case DoEnqueueDue(items, now) => DueOnTime(db, items, now);
    case DoTrigger(tenant, id, key, route, now) => TriggerOnTime(db, tenant, id, key, route, now);
    case DoClaim(caps, limit, locked, lease, now) =>
      ClaimsLeaveJobs(db, caps, limit, locked, lease, now);
      OnTimeSelf(db.jobs, now);
    case DoFail(_, _, _, _) => OutcomeOnTime(db, a);
    case DoComplete(_, _, _, _) => OutcomeOnTime(db, a);
    case DoCallback(_, _, _, _, _) => OutcomeOnTime(db, a);
    case DoExpire(rows, now) => ExpireOnTime(db, rows, now);
    case DoCancel(tenant, id, now) => CancelOnTime(db, tenant, id, now);
  }

  lemma ClaimsLeaveJobs(db: Db, caps: Caps, limit: nat, locked: set<Id>, lease: Time, now: Time)
    ensures ClaimRuns(db, caps, limit, locked, lease, now).jobs == db.jobs
  {
    ClaimEachLeavesJobs(db, Pick(db, EligibleRuns(db, caps, now) - locked, limit), now, lease);
  }

  lemma {:induction false} ClaimEachLeavesJobs(db: Db, picked: seq<Id>, now: Time, lease: Time)
    ensures ClaimEach(db, picked, now, lease).jobs == db.jobs
    decreases picked
  {
    if picked != [] {
      var mid := if picked[0] in db.runs && db.runs[picked[0]].job in db.jobs
        then ClaimOne(db, picked[0], now, lease) else db;
      ClaimEachLeavesJobs(mid, picked[1..], now, lease);
    }
  }

  // --------------------------------------------------------------- switched off

  ghost predicate OffQuiet(jobs: map<Id, Job>) {
    forall j :: j in jobs && !jobs[j].enabled ==> jobs[j].nextRunAt.None?
  }

  lemma OnTimeStaysQuiet(before: map<Id, Job>, after: map<Id, Job>, now: Time)
    requires OffQuiet(before) && OnTime(before, after, now)
    ensures OffQuiet(after)
  {
    forall j | j in after && !after[j].enabled ensures after[j].nextRunAt.None? {
      assert RowOk(before[j], after[j], now);
    }
  }

  lemma JobActionsStayQuiet(db: Db, a: Action)
    requires OffQuiet(db.jobs) && WritesJobs(a) && Apply(db, a).Ok?
    ensures OffQuiet(Apply(db, a).value.jobs)
  {
  }

  lemma OthersLeaveJobs(db: Db, a: Action)
    requires Apply(db, a).Ok?
    requires a.DoPrepare? || (Administers(a) && !WritesJobs(a))
    ensures Apply(db, a).value.jobs == db.jobs
  {
    if !a.DoPrepare? {
      match a
      case DoClaimCommands(owner, rows, now) => ClaimCommandsLeavesJobs(db, owner, rows, now);
      case _ =>
    }
  }

  lemma {:induction false} ClaimCommandsLeavesJobs(db: Db, owner: string, rows: seq<Id>, now: Time)
    ensures ClaimCommands(db, owner, rows, now).jobs == db.jobs
    decreases rows
  {
    if rows != [] {
      ClaimCommandsLeavesJobs(ClaimCommand(db, owner, rows[0], now), owner, rows[1..], now);
    }
  }

  /** In every history a job that is switched off has no next time. */
  lemma {:induction false} SwitchedOffJobsStayQuiet(actions: seq<Action>)
    ensures OffQuiet(Exec(actions).jobs)
  {
    hide Sound, Whole, OffQuiet, OnTime, Apply;
    if actions == [] {
      assert OffQuiet(EMPTY.jobs) by { EmptyIsQuiet(); }
    } else {
      var shorter, a := actions[..|actions| - 1], actions[|actions| - 1];
      var db := Exec(shorter);
      SwitchedOffJobsStayQuiet(shorter);
      ExecWhole(shorter);
      if Apply(db, a).Ok? {
        if WritesJobs(a) {
          JobActionsStayQuiet(db, a);
        } else if a.DoPrepare? || Administers(a) {
          OthersLeaveJobs(db, a);
        } else {
          DelaysCountFromTheEnd(db, a);
          OnTimeStaysQuiet(db.jobs, Apply(db, a).value.jobs, a.now);
        }
      }
    }
  }

  lemma EmptyIsQuiet()
    ensures OffQuiet(EMPTY.jobs)
  {
  }

  lemma ExecWhole(actions: seq<Action>)
    ensures Whole(Exec(actions))
  {
    hide Whole, Exec;
    ExecSound(actions);
  }
}
