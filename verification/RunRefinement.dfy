/** Every transaction is a run of the step machine that starts and ends with nothing owed. */
module RunRefinement {
  import opened RunTypes
  import opened RunTransactions
  import opened RunBlocks
  import opened RunBlockLemmas
  import opened RunEvolution
  import opened RunMicro
  import opened RunParents
  import opened RunSystem

  ghost predicate Whole(db: Db) {
    Inv(db) && Parents(db)
  }

  lemma CoverEdges(db: Db, j: Id, now: Time)
    ensures Cover(db, j, now).edges == db.edges && Cover(db, j, now).unused == db.unused
    ensures Cover(db, j, now).dispatched == db.dispatched && Cover(db, j, now).keys == db.keys
  {
  }

  lemma PlayWhole(s: State, m: Micro)
    requires Whole(s.db) && Allowed(s, m)
    ensures Whole(Play(s, m).db) && Evolves(s.db, Play(s, m).db) && SameSettings(s.db, Play(s, m).db)
  {
    hide Inv, Parents, Evolves, SameSettings, Allowed, Play;
    PlayKept(s, m);
    PlayParents(s, m);
    PlaySettings(s, m);
  }

  lemma {:induction false} RunsWhole(a: State, ms: seq<Micro>, b: State)
    requires Whole(a.db) && Runs(a, ms, b)
    ensures Whole(b.db) && Evolves(a.db, b.db) && SameSettings(a.db, b.db)
    decreases |ms|
  {
    hide Whole, Evolves, SameSettings, Allowed, Play;
    if ms == [] {
      EvolvesSelf(a.db);
    } else {
      PlayWhole(a, ms[0]);
      RunsWhole(Play(a, ms[0]), ms[1..], b);
      EvolvesTrans(a.db, Play(a, ms[0]).db, b.db);
      SettingsTrans(a.db, Play(a, ms[0]).db, b.db);
    }
  }

  lemma EvolvesSelf(db: Db)
    ensures Evolves(db, db) && SameSettings(db, db)
  {
  }

  lemma SettingsTrans(a: Db, b: Db, c: Db)
    requires SameSettings(a, b) && SameSettings(b, c)
    ensures SameSettings(a, c)
  {
  }

  // ----------------------------------------------------------------- outcomes

  lemma RefineBroken(db: Db, id: Id, st: Status, now: Time, retry: Option<Time>) returns (ms: seq<Micro>)
    requires Whole(db) && id in db.runs && Unfinished(db.runs[id].status) && Broken(st)
    requires retry.Some? ==> RetryAllowed(db, id)
    ensures Runs(State(db, None), ms, State(AfterFailure(Finish(db, id, st, now), id, db.runs[id], st, now, retry),
            None))
  {
    hide Whole, Finish, Emit, Rearm, InsertRetry;
    var s := State(db, None);
    if retry.Some? {
      ms := [MRetry(id, st, now, retry.value)];
      RunsOne(s, ms[0]);
    } else {
      var m := MExhaust(id, st, now);
      RunsOne(s, m);
      RunsOne(Play(s, m), MRearm(now));
      ms := [m] + [MRearm(now)];
      RunsJoin(s, [m], Play(s, m), [MRearm(now)], Play(Play(s, m), MRearm(now)));
    }
  }

  lemma HolderIdentity(db: Db, token: Id)
    requires Whole(db) && token in db.claims && HoldsLease(db, db.claims[token])
    ensures db.claims[token].run == db.runs[db.claims[token].id]
    ensures db.runs[db.claims[token].id].token == Some(token)
  {
    assert ClaimOk(db, token);
  }

  lemma RefineFail(db: Db, token: Id, st: Status, now: Time, delay: Time) returns (ms: seq<Micro>)
    requires Whole(db) && token in db.claims
    requires FailWithState(db, db.claims[token], st, now, delay).Ok?
    ensures Runs(State(db, None), ms, State(FailWithState(db, db.claims[token], st, now, delay).value, None))
  {
    hide Whole, AfterFailure, Finish;
    var claim := db.claims[token];
    HolderIdentity(db, token);
    ms := RefineBroken(db, claim.id, st, now, if ShouldRetry(claim.run.attempt, claim.maxRetries)
      then Some(delay) else None);
  }

  lemma RefineCancel(db: Db, tenant: Id, id: Id, now: Time) returns (ms: seq<Micro>)
    requires Whole(db) && CancelRun(db, tenant, id, now).Ok?
    ensures Runs(State(db, None), ms, State(CancelRun(db, tenant, id, now).value, None))
  {
    hide Whole, Finish, Rearm, EnqueueCancel;
    var s := State(db, None);
    if Unfinished(db.runs[id].status) {
      var m := MCancel(id, now);
      RunsOne(s, m);
      RunsOne(Play(s, m), MRearm(now));
      ms := [m] + [MRearm(now)];
      RunsJoin(s, [m], Play(s, m), [MRearm(now)], Play(Play(s, m), MRearm(now)));
    } else {
      if db.runs[id].address != "" { AlreadyTold(db, id, now); }
      ms := [];
    }
  }

  lemma AlreadyTold(db: Db, id: Id, now: Time)
    requires Whole(db) && id in db.runs && db.runs[id].status.Cancelled? && db.runs[id].address != ""
    ensures EnqueueCancel(db, id, db.runs[id].address, now) == db
  {
    assert id in db.commands <==> NeedsCommand(db.runs, id);
  }

  // ----------------------------------------------------------------- triggers

  lemma CoverClears(db: Db, j: Id, now: Time)
    ensures !HasActive(Cover(db, j, now), j)
    ensures JobsKept(db.jobs, Cover(db, j, now).jobs) && Cover(db, j, now).jobs.Keys == db.jobs.Keys
    ensures j in db.jobs ==> Cover(db, j, now).jobs[j].policy == db.jobs[j].policy
                             && Cover(db, j, now).jobs[j].kind == db.jobs[j].kind
                             && Cover(db, j, now).jobs[j].enabled == db.jobs[j].enabled
                             && (db.jobs[j].nextRunAt.Some? ==> Cover(db, j, now).jobs[j] == db.jobs[j])
  {
  }

  /** What is true of a base row whichever of the three triggers made it. */
  ghost predicate BaseOk(db: Db, base: Run) {
    Seed(db, base) && (base.parent.Some? ==> ParentReady(db, base.parent.value, base.job))
  }

  lemma CoverBase(db: Db, base: Run, j: Id, now: Time)
    requires BaseOk(db, base)
    ensures BaseOk(Cover(db, j, now), base)
  {
    CoverClears(db, j, now);
    CoverEdges(db, j, now);
    if base.parent.Some? {
      CoverReady(db, base.parent.value, base.job, j, now);
    }
  }

  lemma CoverReady(db: Db, p: Id, c: Id, j: Id, now: Time)
    requires ParentReady(db, p, c)
    ensures ParentReady(Cover(db, j, now), p, c)
  {
    CoverEdges(db, j, now);
  }

  /** The optional covering, then whatever inserts the rows. */
  lemma RefineFire(db: Db, owed: Option<Run>, j: Id, base: Run, route: Route, cover: bool, now: Time, last: Micro)
    returns (ms: seq<Micro>)
    requires var mid := if cover then Cover(db, j, now) else db; Allowed(State(mid, owed), last)
    ensures var mid := if cover then Cover(db, j, now) else db; Runs(State(db, owed), ms, Play(State(mid, owed), last))
  {
    hide Cover, Allowed;
    var s := State(db, owed);
    if cover {
      assert Allowed(s, MCover(j, now)) by { CoverAllowed(s, j, now); }
      var mid := Play(s, MCover(j, now));
      assert mid == State(Cover(db, j, now), owed) by { CoverPlays(s, j, now); }
      RunsOne(s, MCover(j, now));
      RunsOne(mid, last);
      ms := [MCover(j, now)] + [last];
      RunsJoin(s, [MCover(j, now)], mid, [last], Play(mid, last));
    } else {
      RunsOne(s, last);
      ms := [last];
    }
  }

  lemma CoverAllowed(s: State, j: Id, now: Time)
    ensures Allowed(s, MCover(j, now))
  {
  }

  lemma CoverPlays(s: State, j: Id, now: Time)
    ensures Allowed(s, MCover(j, now)) && Play(s, MCover(j, now)) == s.(db := Cover(s.db, j, now))
  {
  }

  lemma FireLaunchOk(db: Db, j: Id, base: Run, route: Route, cover: bool, now: Time)
    requires j in db.jobs && Decide(db, j, route) == Fire(cover)
    requires BaseOk(db, base) && base.job == j && base.status.Pending?
    ensures LaunchOk(if cover then Cover(db, j, now) else db, base, route)
  {
    hide Cover, HasActive, PendingRuns;
    if cover {
      CoverBase(db, base, j, now);
      CoverClears(db, j, now);
    }
  }

  lemma RefineRefused(db: Db, owed: Option<Run>, j: Id, trigger: Trigger, at: Time, now: Time, parent: Option<Id>)
    returns (ms: seq<Micro>)
    requires j in db.jobs && (parent.Some? ==> ParentReady(db, parent.value, j))
    ensures var base := NewRun(db.jobs[j], j, trigger, RunTypes.Skipped, at, now, parent, false);
            Runs(State(db, owed), ms, State(Launch(db, base, Plain), owed))
  {
    hide HasActive, Launch, ParentReady;
    ms := [MLaunch(NewRun(db.jobs[j], j, trigger, RunTypes.Skipped, at, now, parent, false), Plain)];
    RunsOne(State(db, owed), ms[0]);
  }

  lemma RefineAdmitted(db: Db, owed: Option<Run>, j: Id, trigger: Trigger, route: Route, at: Time, now: Time,
                       parent: Option<Id>, cover: bool) returns (ms: seq<Micro>)
    requires j in db.jobs && (parent.Some? ==> ParentReady(db, parent.value, j))
    requires Decide(db, j, route) == Fire(cover)
    ensures var base := NewRun(db.jobs[j], j, trigger, Pending, at, now, parent, false);
            Runs(State(db, owed), ms, State(FireRun(db, j, base, route, cover, now), owed))
  {
    hide Cover, HasActive, Launch, Decide, ParentReady, LaunchOk;
    var base := NewRun(db.jobs[j], j, trigger, Pending, at, now, parent, false);
    FireLaunchOk(db, j, base, route, cover, now);
    ms := RefineFire(db, owed, j, base, route, cover, now, MLaunch(base, route));
  }

  lemma RefineAdmit(db: Db, owed: Option<Run>, j: Id, trigger: Trigger, route: Route, at: Time, now: Time,
                    parent: Option<Id>)
    returns (ms: seq<Micro>)
    requires j in db.jobs && (parent.Some? ==> ParentReady(db, parent.value, j))
    requires Admit(db, j, trigger, route, at, now, parent, false).Ok?
    ensures Runs(State(db, owed), ms, State(Admit(db, j, trigger, route, at, now, parent, false).value.0, owed))
  {
    hide FireRun, Launch, Decide, ParentReady, Runs;
    match Decide(db, j, route)
    case Fire(cover) => ms := RefineAdmitted(db, owed, j, trigger, route, at, now, parent, cover);
    case _ => ms := RefineRefused(db, owed, j, trigger, at, now, parent);
  }

  lemma RefineTrigger(db: Db, tenant: Id, j: Id, key: string, route: Route, now: Time) returns (ms: seq<Micro>)
    requires TriggerJob(db, tenant, j, key, route, now).Ok?
    ensures Runs(State(db, None), ms, State(TriggerJob(db, tenant, j, key, route, now).value.0, None))
  {
    hide FireRun, Launch, Decide;
    var s := State(db, None);
    if key != "" && (j, key) in db.keys {
      ms := [];
    } else {
      var keyed := if key == "" then db else db.(keys := db.keys[(j, key) := db.unused]);
      var first: seq<Micro> := if key == "" then [] else [MKey(j, key)];
      if key != "" { RunsOne(s, MKey(j, key)); }
      DecideKeyed(db, j, key, route);
      var rest;
      match Decide(db, j, route) {
        case Fire(cover) => rest := RefineAdmitted(keyed, None, j, Manual, route, now, now, None, cover);
        case Drop => rest := RefineRefused(keyed, None, j, Manual, now, now, None);
      }
      ms := first + rest;
      RunsJoin(s, first, State(keyed, None), rest, State(TriggerJob(db, tenant, j, key, route, now).value.0, None));
    }
  }

  lemma DecideKeyed(db: Db, j: Id, key: string, route: Route)
    requires j in db.jobs
    ensures Decide(db.(keys := db.keys[(j, key) := db.unused]), j, route) == Decide(db, j, route)
  {
    var keyed := db.(keys := db.keys[(j, key) := db.unused]);
    assert PendingRuns(keyed, j) == PendingRuns(db, j);
    assert forall id :: ActiveIn(keyed, j, id) <==> ActiveIn(db, j, id);
  }

  // --------------------------------------------------------------- EnqueueDue

  /** A job without a fixed delay: each due time is a trigger of its own. */
  lemma {:induction false} RefineTimes(db: Db, j: Id, times: seq<Time>, route: Route, now: Time, skipped: bool)
    returns (ms: seq<Micro>)
    requires j in db.jobs && !db.jobs[j].kind.FixedDelay?
    requires EnqueueTimes(db, j, times, route, now, skipped).Ok?
    ensures Runs(State(db, None), ms, State(EnqueueTimes(db, j, times, route, now, skipped).value.0, None))
    decreases times
  {
    hide Launch, Admit, LaunchOk;
    var s := State(db, None);
    if times == [] {
      ms := [];
    } else {
      var next, flag;
      if FastPath(db.jobs[j], route) {
        var base := NewRun(db.jobs[j], j, BySchedule, Pending, times[0], now, None, false);
        assert LaunchOk(db, base, route) by { FastLaunchOk(db, j, base, route); }
        next, flag := Launch(db, base, route), false;
        ms := [MLaunch(base, route)];
        RunsOne(s, ms[0]);
        LaunchJobs(db, base, route);
      } else {
        var r := Admit(db, j, BySchedule, route, times[0], now, None, false);
        next, flag := r.value.0, !r.value.1;
        ms := RefineAdmit(db, None, j, BySchedule, route, times[0], now, None);
        AdmitJobs(db, j, BySchedule, route, times[0], now, None, false);
      }
      var rest := RefineTimes(next, j, times[1..], route, now, flag);
      RunsJoin(s, ms, State(next, None), rest, State(EnqueueTimes(db, j, times, route, now, skipped).value.0, None));
      ms := ms + rest;
    }
  }

  lemma FastLaunchOk(db: Db, j: Id, base: Run, route: Route)
    requires j in db.jobs && FastPath(db.jobs[j], route)
    requires Seed(db, base) && base.job == j && base.parent.None?
    ensures LaunchOk(db, base, route)
  {
  }

  lemma LaunchJobs(db: Db, base: Run, route: Route)
    ensures Launch(db, base, route).jobs == db.jobs
  {
  }

  lemma AdmitJobs(db: Db, j: Id, trigger: Trigger, route: Route, at: Time, now: Time, parent: Option<Id>, rearm: bool)
    requires j in db.jobs && Admit(db, j, trigger, route, at, now, parent, rearm).Ok?
    ensures var next := Admit(db, j, trigger, route, at, now, parent, rearm).value.0;
            j in next.jobs && next.jobs[j].kind == db.jobs[j].kind
  {
    hide Cover, HasActive, PendingRuns;
    CoverClears(db, j, now);
  }

  lemma RefinePlainJob(db: Db, item: DueItem, now: Time) returns (ms: seq<Micro>)
    requires IsDue(db, item.job, now) && !db.jobs[item.job].kind.FixedDelay?
    requires EnqueueJob(db, item, now).Ok?
    ensures Runs(State(db, None), ms, State(EnqueueJob(db, item, now).value, None))
  {
    var j := item.job;
    var t := EnqueueTimes(db, j, item.plan.due, item.route, now, false);
    var first := RefineTimes(db, j, item.plan.due, item.route, now, false);
    TimesJobs(db, j, item.plan.due, item.route, now, false);
    var mid := State(t.value.0, None);
    RunsOne(mid, MAdvance(j, item.plan.next));
    ms := first + [MAdvance(j, item.plan.next)];
    RunsJoin(State(db, None), first, mid, [MAdvance(j, item.plan.next)], Play(mid, MAdvance(j, item.plan.next)));
  }

  lemma {:induction false} TimesJobs(db: Db, j: Id, times: seq<Time>, route: Route, now: Time, skipped: bool)
    requires j in db.jobs && !db.jobs[j].kind.FixedDelay?
    requires EnqueueTimes(db, j, times, route, now, skipped).Ok?
    ensures var next := EnqueueTimes(db, j, times, route, now, skipped).value.0;
            j in next.jobs && !next.jobs[j].kind.FixedDelay?
    decreases times
  {
    hide Launch, Admit;
    if times != [] {
      if FastPath(db.jobs[j], route) {
        var base := NewRun(db.jobs[j], j, BySchedule, Pending, times[0], now, None, false);
        LaunchJobs(db, base, route);
        TimesJobs(Launch(db, base, route), j, times[1..], route, now, false);
      } else {
        var r := Admit(db, j, BySchedule, route, times[0], now, None, false);
        AdmitJobs(db, j, BySchedule, route, times[0], now, None, false);
        TimesJobs(r.value.0, j, times[1..], route, now, !r.value.1);
      }
    }
  }

  /** A fixed-delay job that fires: its next time is taken away with the insert. */
  lemma RefineDelayedFire(db: Db, j: Id, at: Time, route: Route, now: Time, cover: bool, base: Run)
    returns (ms: seq<Micro>)
    requires j in db.jobs && db.jobs[j].kind.FixedDelay? && db.jobs[j].nextRunAt.Some?
    requires base == NewRun(db.jobs[j], j, BySchedule, Pending, at, now, None, true)
    requires LaunchOk(if cover then Cover(db, j, now) else db, base, route)
    ensures Runs(State(db, None), ms, State(Advance(FireRun(db, j, base, route, cover, now), j, None), None))
  {
    hide Cover, LaunchOk, Launch;
    var mid := if cover then Cover(db, j, now) else db;
    CoverClears(db, j, now);
    ms := RefineFire(db, None, j, base, route, cover, now, MDelayed(base, route));
    LaunchJobs(mid, base, route);
    AdvanceClears(mid, base, route);
  }

  lemma AdvanceClears(db: Db, base: Run, route: Route)
    requires base.job in db.jobs && db.jobs[base.job].kind.FixedDelay?
    ensures Advance(Launch(db, base, route), base.job, None) == LaunchAndClear(db, base, route)
  {
  }

  lemma OneTime(db: Db, j: Id, at: Time, route: Route, now: Time)
    requires j in db.jobs && EnqueueTimes(db, j, [at], route, now, false).Ok?
    ensures var rearm := db.jobs[j].kind.FixedDelay?;
            EnqueueTimes(db, j, [at], route, now, false) ==
              if FastPath(db.jobs[j], route)
              then Ok((Launch(db, NewRun(db.jobs[j], j, BySchedule, Pending, at, now, None, rearm), route), false))
              else var r := Admit(db, j, BySchedule, route, at, now, None, rearm);
                if r.Err? then Err(r.error) else Ok((r.value.0, !r.value.1))
  {
    hide Launch, Admit;
    assert [at][1..] == [];
  }

  /** The whole turn of a fixed-delay job that has one due time. */
  lemma RefineDelayedTime(db: Db, j: Id, at: Time, route: Route, now: Time) returns (ms: seq<Micro>)
    requires j in db.jobs && db.jobs[j].kind.FixedDelay? && db.jobs[j].nextRunAt.Some?
    requires EnqueueTimes(db, j, [at], route, now, false).Ok?
    ensures var (next, skipped) := EnqueueTimes(db, j, [at], route, now, false).value;
            Runs(State(db, None), ms,
                 State(Advance(next, j, if skipped then Some(NextDelay(db.jobs[j], now)) else None), None))
  {
    hide Cover, HasActive, PendingRuns, LaunchOk, FireRun, Launch, Advance, Decide, EnqueueTimes, Runs;
    var base := NewRun(db.jobs[j], j, BySchedule, Pending, at, now, None, true);
    OneTime(db, j, at, route, now);
    if FastPath(db.jobs[j], route) {
      FastLaunchOk(db, j, base, route);
      ms := RefineDelayedFire(db, j, at, route, now, false, base);
      FireIsLaunch(db, j, base, route, now);
    } else {
      match Decide(db, j, route)
      case Fire(cover) =>
        FireLaunchOk(db, j, base, route, cover, now);
        ms := RefineDelayedFire(db, j, at, route, now, cover, base);
      case _ =>
        ms := RefineDelayedSkip(db, j, at, now);
    }
  }

  lemma RefineDelayedJob(db: Db, item: DueItem, now: Time) returns (ms: seq<Micro>)
    requires IsDue(db, item.job, now) && db.jobs[item.job].kind.FixedDelay?
    requires EnqueueJob(db, item, now).Ok?
    ensures Runs(State(db, None), ms, State(EnqueueJob(db, item, now).value, None))
  {
    hide Advance, Runs;
    var plan := DuePlan(db.jobs[item.job], item.plan, now);
    if plan.due == [] {
      ms := RefineOne(db, MAdvance(item.job, plan.next), Advance(db, item.job, plan.next));
    } else {
      ms := RefineDelayedTime(db, item.job, plan.due[0], item.route, now);
    }
  }

  lemma FireIsLaunch(db: Db, j: Id, base: Run, route: Route, now: Time)
    ensures FireRun(db, j, base, route, false, now) == Launch(db, base, route)
  {
  }

  lemma RefineDelayedSkip(db: Db, j: Id, at: Time, now: Time) returns (ms: seq<Micro>)
    requires j in db.jobs && db.jobs[j].kind.FixedDelay? && db.jobs[j].nextRunAt.Some?
    ensures var base := NewRun(db.jobs[j], j, BySchedule, RunTypes.Skipped, at, now, None, true);
            Runs(State(db, None), ms, State(Advance(Launch(db, base, Plain), j, Some(NextDelay(db.jobs[j], now))),
              None))
  {
    hide Launch, Advance;
    var base := NewRun(db.jobs[j], j, BySchedule, RunTypes.Skipped, at, now, None, true);
    var s := State(db, None);
    var next := Some(NextDelay(db.jobs[j], now));
    RunsOne(s, MLaunch(base, Plain));
    var mid := Play(s, MLaunch(base, Plain));
    LaunchJobs(db, base, Plain);
    RunsOne(mid, MAdvance(j, next));
    ms := [MLaunch(base, Plain)] + [MAdvance(j, next)];
    RunsJoin(s, [MLaunch(base, Plain)], mid, [MAdvance(j, next)], Play(mid, MAdvance(j, next)));
  }

  lemma RefineEnqueueJob(db: Db, item: DueItem, now: Time) returns (ms: seq<Micro>)
    requires Whole(db) && EnqueueJob(db, item, now).Ok?
    ensures Runs(State(db, None), ms, State(EnqueueJob(db, item, now).value, None))
  {
    hide Whole, EnqueueTimes, DuePlan, Advance;
    if !IsDue(db, item.job, now) {
      ms := [];
    } else if db.jobs[item.job].kind.FixedDelay? {
      ms := RefineDelayedJob(db, item, now);
    } else {
      ms := RefinePlainJob(db, item, now);
    }
  }

  lemma {:induction false} RefinePass(db: Db, items: seq<DueItem>, now: Time, fast: bool) returns (ms: seq<Micro>)
    requires Whole(db) && EnqueuePass(db, items, now, fast).Ok?
    ensures Runs(State(db, None), ms, State(EnqueuePass(db, items, now, fast).value, None))
    decreases items
  {
    hide Whole, EnqueueJob;
    if items == [] {
      ms := [];
    } else if Selected(db, items[0], fast) {
      var mid := EnqueueJob(db, items[0], now).value;
      ms := RefineEnqueueJob(db, items[0], now);
      RunsWhole(State(db, None), ms, State(mid, None));
      var rest := RefinePass(mid, items[1..], now, fast);
      RunsJoin(State(db, None), ms, State(mid, None), rest, State(EnqueuePass(db, items, now, fast).value, None));
      ms := ms + rest;
    } else {
      ms := RefinePass(db, items[1..], now, fast);
    }
  }

  lemma RefineEnqueueDue(db: Db, items: seq<DueItem>, now: Time) returns (ms: seq<Micro>)
    requires Whole(db) && EnqueueDue(db, items, now).Ok?
    ensures Runs(State(db, None), ms, State(EnqueueDue(db, items, now).value, None))
  {
    hide Whole, EnqueuePass;
    var mid := EnqueuePass(db, items, now, false).value;
    ms := RefinePass(db, items, now, false);
    RunsWhole(State(db, None), ms, State(mid, None));
    var rest := RefinePass(mid, items, now, true);
    RunsJoin(State(db, None), ms, State(mid, None), rest, State(EnqueueDue(db, items, now).value, None));
    ms := ms + rest;
  }

  // ------------------------------------------------------- success and children

  lemma ReserveReady(db: Db, p: Id, c: Id)
    requires Parents(db) && p in db.runs && db.runs[p].status.Succeeded? && (p, c) !in db.dispatched
    requires (db.runs[p].job, c) in db.edges
    ensures ParentReady(db.(dispatched := db.dispatched[(p, c) := db.unused]), p, c)
  {
    forall id | id in db.runs ensures !(db.runs[id].parent == Some(p) && db.runs[id].job == c) {
      assert ParentOk(db, id);
    }
  }

  lemma RefineChild(db: Db, owed: Option<Run>, p: Id, c: Id, route: Route, now: Time) returns (ms: seq<Micro>)
    requires Whole(db) && c in db.jobs && p in db.runs && db.runs[p].status.Succeeded?
    requires (db.runs[p].job, c) in db.edges
    requires TriggerChild(db, p, c, route, now).Ok?
    ensures Runs(State(db, owed), ms, State(TriggerChild(db, p, c, route, now).value, owed))
  {
    hide Whole, Admit, ParentReady;
    var s := State(db, owed);
    if (p, c) in db.dispatched {
      ms := [];
    } else {
      var reserved := db.(dispatched := db.dispatched[(p, c) := db.unused]);
      assert Parents(db) by { WholeParts(db); }
      ReserveReady(db, p, c);
      RunsOne(s, MReserve(p, c));
      var rest := RefineAdmit(reserved, owed, c, Dependency, route, now, now, Some(p));
      ms := [MReserve(p, c)] + rest;
      RunsJoin(s, [MReserve(p, c)], State(reserved, owed), rest, State(TriggerChild(db, p, c, route, now).value, owed));
    }
  }

  lemma WholeParts(db: Db)
    requires Whole(db)
    ensures Inv(db) && Parents(db)
  {
  }

  lemma {:induction false} RefineChildren(db: Db, owed: Option<Run>, p: Id, children: seq<Id>, routes: map<Id, Route>,
                                          now: Time)
    returns (ms: seq<Micro>)
    requires Whole(db) && p in db.runs && db.runs[p].status.Succeeded?
    requires forall i :: 0 <= i < |children| ==> (db.runs[p].job, children[i]) in db.edges
    requires TriggerChildren(db, p, children, routes, now).Ok?
    ensures Runs(State(db, owed), ms, State(TriggerChildren(db, p, children, routes, now).value, owed))
    decreases children
  {
    hide Whole, TriggerChild;
    if children == [] {
      ms := [];
    } else if children[0] !in db.jobs {
      ms := RefineChildren(db, owed, p, children[1..], routes, now);
    } else {
      var mid := TriggerChild(db, p, children[0], RouteOf(routes, children[0]), now).value;
      ms := RefineChild(db, owed, p, children[0], RouteOf(routes, children[0]), now);
      RunsWhole(State(db, owed), ms, State(mid, owed));
      assert LaterRow(db.runs[p], mid.runs[p], db.unused);
      var rest := RefineChildren(mid, owed, p, children[1..], routes, now);
      RunsJoin(State(db, owed), ms, State(mid, owed), rest,
        State(TriggerChildren(db, p, children, routes, now).value, owed));
      ms := ms + rest;
    }
  }

  lemma ChildrenAreEdges(db: Db, j: Id)
    ensures forall i :: 0 <= i < |Children(db, j)| ==> (j, Children(db, j)[i]) in db.edges
  {
    forall i | 0 <= i < |Children(db, j)| ensures (j, Children(db, j)[i]) in db.edges {
      assert Children(db, j)[i] in ChildJobs(db, j);
    }
  }

  /** What CompleteRun and CompleteCallback do for a success. */
  ghost function Succeed(db: Db, id: Id, routes: map<Id, Route>, now: Time): Result<Db>
    requires id in db.runs
  {
    var next :- EnqueueDependents(Finish(db, id, Succeeded, now), id, db.runs[id].job, routes, now);
    Ok(Rearm(next, db.runs[id], now))
  }

  lemma RefineSucceed(db: Db, id: Id, routes: map<Id, Route>, now: Time) returns (ms: seq<Micro>)
    requires Whole(db) && id in db.runs && Unfinished(db.runs[id].status)
    requires Succeed(db, id, routes, now).Ok?
    ensures Runs(State(db, None), ms, State(Succeed(db, id, routes, now).value, None))
  {
    hide Whole, TriggerChildren, Rearm, Children;
    var s, run := State(db, None), db.runs[id];
    var first := MSucceed(id, now);
    RunsOne(s, first);
    var done := Play(s, first);
    RunsWhole(s, [first], done);
    assert done.db.runs[id].status.Succeeded?;
    var kids := Children(done.db, run.job);
    ChildrenAreEdges(done.db, run.job);
    var rest := RefineChildren(done.db, Some(run), id, kids, routes, now);
    var fed := State(TriggerChildren(done.db, id, kids, routes, now).value, Some(run));
    RunsJoin(s, [first], done, rest, fed);
    RunsOne(fed, MRearm(now));
    RunsJoin(s, [first] + rest, fed, [MRearm(now)], Play(fed, MRearm(now)));
    ms := [first] + rest + [MRearm(now)];
  }

  lemma RefineComplete(db: Db, token: Id, success: bool, routes: map<Id, Route>, now: Time) returns (ms: seq<Micro>)
    requires Whole(db) && token in db.claims
    requires CompleteRun(db, db.claims[token], success, routes, now).Ok?
    ensures Runs(State(db, None), ms, State(CompleteRun(db, db.claims[token], success, routes, now).value, None))
  {
    hide Whole, EnqueueDependents, AfterFailure, Rearm, Finish;
    var claim := db.claims[token];
    HolderIdentity(db, token);
    if success {
      ms := RefineSucceed(db, claim.id, routes, now);
    } else {
      ms := RefineBroken(db, claim.id, Failed, now, None);
    }
  }

  lemma RefineCallback(db: Db, id: Id, hash: Id, success: bool, routes: map<Id, Route>, now: Time)
    returns (ms: seq<Micro>)
    requires Whole(db) && CompleteCallback(db, id, hash, success, routes, now).Ok?
    ensures Runs(State(db, None), ms, State(CompleteCallback(db, id, hash, success, routes, now).value, None))
  {
    hide Whole, EnqueueDependents, AfterFailure, Rearm, Finish;
    if success {
      ms := RefineSucceed(db, id, routes, now);
    } else {
      ms := RefineBroken(db, id, Failed, now, CallbackRetry(db, db.runs[id]));
    }
  }

  lemma {:induction false} RefineExpire(db: Db, rows: seq<Id>, now: Time) returns (ms: seq<Micro>)
    requires Whole(db)
    ensures Runs(State(db, None), ms, State(ExpireCallbacks(db, rows, now), None))
    decreases rows
  {
    hide Whole, AfterFailure, Finish;
    if rows == [] {
      ms := [];
    } else if Expired(db, rows[0], now) {
      var mid := ExpireOne(db, rows[0], now);
      ms := RefineBroken(db, rows[0], TimedOut, now, CallbackRetry(db, db.runs[rows[0]]));
      RunsWhole(State(db, None), ms, State(mid, None));
      var rest := RefineExpire(mid, rows[1..], now);
      RunsJoin(State(db, None), ms, State(mid, None), rest, State(ExpireCallbacks(db, rows, now), None));
      ms := ms + rest;
    } else {
      ms := RefineExpire(db, rows[1..], now);
    }
  }

  // ------------------------------------------------------------------- claims

  /** The picked rows are different members of the pool. */
  lemma {:induction false} PickFacts(db: Db, pool: set<Id>, limit: nat)
    requires pool <= db.runs.Keys
    ensures forall i :: 0 <= i < |Pick(db, pool, limit)| ==> Pick(db, pool, limit)[i] in pool
    ensures forall i, k :: 0 <= i < k < |Pick(db, pool, limit)| ==> Pick(db, pool, limit)[i] != Pick(db, pool, limit)[k]
    decreases limit
  {
    var p := Pick(db, pool, limit);
    if limit != 0 && pool != {} {
      var m := p[0];
      var rest := Pick(db, pool - {m}, limit - 1);
      assert IsFirst(db, pool, m) && p == [m] + rest;
      PickFacts(db, pool - {m}, limit - 1);
      assert forall i :: 0 < i < |p| ==> p[i] == rest[i - 1];
    }
  }

  lemma {:induction false} RefineClaims(db: Db, picked: seq<Id>, now: Time, lease: Time) returns (ms: seq<Micro>)
    requires forall i, k :: 0 <= i < k < |picked| ==> picked[i] != picked[k]
    requires forall i :: 0 <= i < |picked| ==> picked[i] in db.runs && Claimable(db.runs[picked[i]], now)
    ensures Runs(State(db, None), ms, State(ClaimEach(db, picked, now, lease), None))
    decreases picked
  {
    var s := State(db, None);
    if picked == [] {
      ms := [];
    } else {
      var m := MClaim(picked[0], now, lease);
      RunsOne(s, m);
      var mid := Play(s, m);
      assert forall i :: 0 <= i < |picked[1..]| ==> picked[1..][i] == picked[i + 1] && picked[i + 1] != picked[0];
      var rest := RefineClaims(mid.db, picked[1..], now, lease);
      RunsJoin(s, [m], mid, rest, State(ClaimEach(db, picked, now, lease), None));
      ms := [m] + rest;
    }
  }

  lemma RefineClaim(db: Db, caps: Caps, limit: nat, locked: set<Id>, lease: Time, now: Time) returns (ms: seq<Micro>)
    ensures Runs(State(db, None), ms, State(ClaimRuns(db, caps, limit, locked, lease, now), None))
  {
    var pool := EligibleRuns(db, caps, now) - locked;
    PickFacts(db, pool, limit);
    ms := RefineClaims(db, Pick(db, pool, limit), now, lease);
  }

  lemma RefineOne(db: Db, m: Micro, next: Db) returns (ms: seq<Micro>)
    requires Allowed(State(db, None), m) && Play(State(db, None), m) == State(next, None)
    ensures Runs(State(db, None), ms, State(next, None))
  {
    ms := [m];
    RunsOne(State(db, None), m);
  }

  // -------------------------------------------------------------- every action

  /** The transactions that only touch job rows, dependency edges or cancel commands. */
  predicate Administers(a: Action) {
    || a.DoCreateJob? || a.DoUpdateJob? || a.DoSetEnabled? || a.DoRollbackScript? || a.DoSetDependencies?
    || a.DoClaimCommands? || a.DoCompleteCommand? || a.DoRetryCommand?
  }

  /** Every other transaction that commits is a run of the step machine. */
  lemma RefineAction(db: Db, a: Action) returns (ms: seq<Micro>)
    requires Whole(db) && !Administers(a) && Apply(db, a).Ok?
    ensures Runs(State(db, None), ms, State(Apply(db, a).value, None))
  {
    hide Whole;
    hide Runs, EnqueueDue, TriggerJob, ClaimRuns, PrepareDispatch, FailWithState, CompleteRun, CompleteCallback;
    hide ExpireCallbacks, CancelRun;
    match a
    case DoEnqueueDue(items, now) => ms := RefineEnqueueDue(db, items, now);
    case DoTrigger(tenant, id, key, route, now) => ms := RefineTrigger(db, tenant, id, key, route, now);
    case DoClaim(caps, limit, locked, lease, now) => ms := RefineClaim(db, caps, limit, locked, lease, now);
    case DoPrepare(token, node, callback) => ms := RefinePrepare(db, token, node, callback);
    case DoFail(token, st, now, delay) => ms := RefineFail(db, token, st, now, delay);
    case DoComplete(token, success, routes, now) => ms := RefineComplete(db, token, success, routes, now);
    case DoCallback(id, hash, success, routes, now) => ms := RefineCallback(db, id, hash, success, routes, now);
    case DoExpire(rows, now) => ms := RefineExpire(db, rows, now);
    case DoCancel(tenant, id, now) => ms := RefineCancel(db, tenant, id, now);
  }

  lemma RefinePrepare(db: Db, token: Id, node: Node, callback: Callback) returns (ms: seq<Micro>)
    requires token in db.claims && PrepareDispatch(db, db.claims[token], node, callback).Ok?
    ensures Runs(State(db, None), ms, State(PrepareDispatch(db, db.claims[token], node, callback).value, None))
  {
    ms := RefineOne(db, MPrepare(token, node, callback), PrepareDispatch(db, db.claims[token], node, callback).value);
  }
}
