/** When a job has more pending runs than its max_queue_size: the transactions that can bring it there, exactly. */
module RunQueue {
  import opened RunTypes
  import opened RunTransactions
  import opened RunBlocks
  import opened RunBlockLemmas
  import opened RunParents
  import opened RunSystem
  import opened RunRefinement
  import opened RunHistory
  import opened RunTriggers
  import Dependencies
  import RunMicro

  /** No more pending runs than the job allows. */
  predicate QueueOk(db: Db, j: Id) {
    j in db.jobs ==> |PendingRuns(db, j)| <= db.jobs[j].maxQueue
  }

  ghost predicate Low(db: Db) {
    forall id: Id :: id in db.runs ==> id < db.unused
  }

  // ------------------------------------------------------- what concerns one job

  /** The runs of one job. */
  function RunsOf(db: Db, j: Id): map<Id, Run> {
    map id | id in db.runs && db.runs[id].job == j :: db.runs[id]
  }

  /** Neither the runs of the job nor its row have changed. */
  ghost predicate Untouched(db: Db, next: Db, j: Id) {
    && Low(next) && db.unused <= next.unused && RunsOf(next, j) == RunsOf(db, j)
    && (j in next.jobs <==> j in db.jobs) && (j in db.jobs ==> next.jobs[j] == db.jobs[j])
  }

  /** The pending runs of the job are the same, and so is what it allows. */
  ghost predicate Quiet(db: Db, next: Db, j: Id) {
    && PendingRuns(next, j) == PendingRuns(db, j)
    && (j in next.jobs <==> j in db.jobs)
    && (j in db.jobs ==> next.jobs[j].maxQueue == db.jobs[j].maxQueue && next.jobs[j].policy == db.jobs[j].policy)
  }

  lemma QuietKeeps(db: Db, next: Db, j: Id)
    requires Quiet(db, next, j)
    ensures QueueOk(next, j) <==> QueueOk(db, j)
  {
  }

  lemma UntouchedThen(a: Db, b: Db, c: Db, j: Id)
    requires Untouched(a, b, j) && Untouched(b, c, j)
    ensures Untouched(a, c, j)
  {
  }

  /** All that a trigger looks at belongs to the job. */
  lemma UntouchedSame(db: Db, next: Db, j: Id)
    requires Untouched(db, next, j)
    ensures Quiet(db, next, j) && (HasActive(next, j) <==> HasActive(db, j))
    ensures forall route :: j in db.jobs ==> Decide(next, j, route) == Decide(db, j, route)
  {
    forall id ensures id in PendingRuns(next, j) <==> id in PendingRuns(db, j) { SameRun(db, next, j, id); }
    assert PendingRuns(next, j) == PendingRuns(db, j);
    forall id ensures ActiveIn(next, j, id) <==> ActiveIn(db, j, id) { SameRun(db, next, j, id); }
  }

  lemma SameRun(db: Db, next: Db, j: Id, id: Id)
    requires RunsOf(next, j) == RunsOf(db, j)
    ensures id in next.runs && next.runs[id].job == j <==> id in db.runs && db.runs[id].job == j
    ensures id in db.runs && db.runs[id].job == j ==> next.runs[id] == db.runs[id]
  {
    assert id in RunsOf(next, j) <==> id in RunsOf(db, j);
  }

  lemma SameUntouched(db: Db, next: Db, j: Id)
    requires Low(db) && next.runs == db.runs && next.unused == db.unused
    requires (j in next.jobs <==> j in db.jobs) && (j in db.jobs ==> next.jobs[j] == db.jobs[j])
    ensures Untouched(db, next, j)
  {
  }

  // ------------------------------------------------------- what concerns another job

  lemma LaunchOther(db: Db, base: Run, route: Route, j: Id)
    requires Low(db) && base.job != j
    ensures Untouched(db, Launch(db, base, route), j)
  {
    hide LaunchRows;
    var next := Launch(db, base, route);
    LaunchLow(db, base, route);
    forall id ensures id in RunsOf(next, j) <==> id in RunsOf(db, j) { LaunchedElsewhere(base, route, db.unused, id); }
    forall id | id in RunsOf(db, j) ensures RunsOf(next, j)[id] == RunsOf(db, j)[id] {
      LaunchedElsewhere(base, route, db.unused, id);
    }
  }

  lemma LaunchedElsewhere(base: Run, route: Route, first: Id, id: Id)
    ensures id in LaunchRows(base, route, first) ==> id >= first && LaunchRows(base, route, first)[id].job == base.job
  {
  }

  lemma CoverOther(db: Db, i: Id, now: Time, j: Id)
    requires Low(db) && i != j
    ensures Untouched(db, Cover(db, i, now), j)
  {
  }

  lemma FireOther(db: Db, i: Id, base: Run, route: Route, cover: bool, now: Time, j: Id)
    requires Low(db) && i != j && base.job == i
    ensures Untouched(db, FireRun(db, i, base, route, cover, now), j)
  {
    hide Cover, Launch, Untouched;
    if cover {
      CoverOther(db, i, now, j);
      LowAfter(db, Cover(db, i, now), j);
      LaunchOther(Cover(db, i, now), base, route, j);
      UntouchedThen(db, Cover(db, i, now), Launch(Cover(db, i, now), base, route), j);
    } else {
      LaunchOther(db, base, route, j);
    }
  }

  lemma LowAfter(db: Db, next: Db, j: Id)
    requires Untouched(db, next, j)
    ensures Low(next) && (j in next.jobs <==> j in db.jobs)
  {
  }

  lemma AdmitOther(db: Db, i: Id, trigger: Trigger, route: Route, at: Time, now: Time, parent: Option<Id>, rearm: bool,
                   j: Id)
    requires Low(db) && i != j && i in db.jobs && Admit(db, i, trigger, route, at, now, parent, rearm).Ok?
    ensures Untouched(db, Admit(db, i, trigger, route, at, now, parent, rearm).value.0, j)
  {
    hide FireRun, Launch, Decide, Untouched;
    match Decide(db, i, route)
    case Fire(cover) =>
      FireOther(db, i, NewRun(db.jobs[i], i, trigger, Pending, at, now, parent, rearm), route, cover, now, j);
    case _ => LaunchOther(db, NewRun(db.jobs[i], i, trigger, RunTypes.Skipped, at, now, parent, rearm), Plain, j);
  }

  lemma {:induction false} TimesOther(db: Db, i: Id, times: seq<Time>, route: Route, now: Time, skipped: bool, j: Id)
    requires Low(db) && i != j && i in db.jobs && EnqueueTimes(db, i, times, route, now, skipped).Ok?
    ensures Untouched(db, EnqueueTimes(db, i, times, route, now, skipped).value.0, j)
    decreases times
  {
    hide Admit, Launch, Untouched;
    if times == [] {
      SameUntouched(db, db, j);
    } else {
      var rearm := db.jobs[i].kind.FixedDelay?;
      var base := NewRun(db.jobs[i], i, BySchedule, Pending, times[0], now, None, rearm);
      var mid, flag := Launch(db, base, route), false;
      if FastPath(db.jobs[i], route) {
        LaunchJobs(db, base, route);
        LaunchOther(db, base, route, j);
      } else {
        var r := Admit(db, i, BySchedule, route, times[0], now, None, rearm);
        mid, flag := r.value.0, !r.value.1;
        AdmitJobs(db, i, BySchedule, route, times[0], now, None, rearm);
        AdmitOther(db, i, BySchedule, route, times[0], now, None, rearm, j);
      }
      LowAfter(db, mid, j);
      TimesOther(mid, i, times[1..], route, now, flag, j);
      UntouchedThen(db, mid, EnqueueTimes(db, i, times, route, now, skipped).value.0, j);
    }
  }

  lemma JobOther(db: Db, item: DueItem, now: Time, j: Id)
    requires Low(db) && item.job != j && EnqueueJob(db, item, now).Ok?
    ensures Untouched(db, EnqueueJob(db, item, now).value, j)
  {
    hide EnqueueTimes, DuePlan, Untouched;
    if IsDue(db, item.job, now) {
      var times := DuePlan(db.jobs[item.job], item.plan, now).due;
      var mid := EnqueueTimes(db, item.job, times, item.route, now, false).value.0;
      TimesOther(db, item.job, times, item.route, now, false, j);
      LowAfter(db, mid, j);
      SameUntouched(mid, EnqueueJob(db, item, now).value, j);
      UntouchedThen(db, mid, EnqueueJob(db, item, now).value, j);
    } else {
      SameUntouched(db, db, j);
    }
  }

  // ------------------------------------------------------------------ its own triggers

  /** A trigger that covers and brings more runs than the job allows. */
  predicate CoversTooWide(db: Db, j: Id, route: Route)
    requires j in db.jobs
  {
    Decide(db, j, route) == Fire(true) && Width(route) > db.jobs[j].maxQueue
  }

  /** The pending runs after a trigger, as it decides. */
  function PendingAfter(db: Db, j: Id, route: Route): nat
    requires j in db.jobs
  {
    match Decide(db, j, route)
    case Fire(cover) => (if cover then 0 else |PendingRuns(db, j)|) + Width(route)
    case _ => |PendingRuns(db, j)|
  }

  lemma DecideFits(db: Db, j: Id, route: Route)
    requires j in db.jobs
    ensures Decide(db, j, route) == Fire(false) ==> |PendingRuns(db, j)| + Width(route) <= db.jobs[j].maxQueue
    ensures Decide(db, j, route) == Fire(true) ==>
              HasActive(db, j) && CanonicalPolicy(db.jobs[j].policy).CoverEarly? && Width(route) > 0
  {
    hide HasActive, PendingRuns;
  }

  /** So a trigger overflows the queue exactly when it covers too widely. */
  lemma TriggerOverflows(db: Db, j: Id, route: Route)
    requires j in db.jobs && QueueOk(db, j)
    ensures PendingAfter(db, j, route) > db.jobs[j].maxQueue <==> CoversTooWide(db, j, route)
  {
    hide Decide, PendingRuns;
    DecideFits(db, j, route);
  }

  /** The state after a trigger of the job, as far as its queue is concerned. */
  ghost predicate Triggered(db: Db, next: Db, j: Id, pending: nat) {
    && Low(next) && |PendingRuns(next, j)| == pending && j in db.jobs && j in next.jobs
    && next.jobs[j].maxQueue == db.jobs[j].maxQueue && next.jobs[j].policy == db.jobs[j].policy
  }

  lemma FireOwn(db: Db, j: Id, base: Run, route: Route, cover: bool, now: Time)
    requires Low(db) && Seed(db, base) && base.job == j && base.status.Pending?
    ensures Triggered(db, FireRun(db, j, base, route, cover, now), j,
                      (if cover then 0 else |PendingRuns(db, j)|) + Width(route))
  {
    hide Cover, Launch, PendingRuns;
    var mid := if cover then Cover(db, j, now) else db;
    if cover {
      CoverSeed(db, j, now, base);
      CoverEmptiesQueue(db, j, now);
      CoverQueueRow(db, j, now);
    }
    PendingAfterLaunch(mid, base, route);
    LaunchLow(mid, base, route);
    LaunchJobs(mid, base, route);
  }

  lemma CoverQueueRow(db: Db, j: Id, now: Time)
    requires j in db.jobs
    ensures j in Cover(db, j, now).jobs && Cover(db, j, now).jobs[j].maxQueue == db.jobs[j].maxQueue
    ensures Cover(db, j, now).jobs[j].policy == db.jobs[j].policy
  {
  }

  /** Work that is only recorded as skipped is neither pending nor unfinished. */
  lemma SkipOwn(db: Db, j: Id, base: Run)
    requires Low(db) && base.job == j && base.status.Skipped? && j in db.jobs
    ensures var next := Launch(db, base, Plain);
            Triggered(db, next, j, |PendingRuns(db, j)|) && (HasActive(next, j) <==> HasActive(db, j))
  {
    var next := Launch(db, base, Plain);
    LaunchLow(db, base, Plain);
    assert next.runs == db.runs[db.unused := base] && db.unused !in db.runs && next.jobs == db.jobs;
    hide Launch;
    SkippedRow(db, next, j, base);
  }

  lemma SkippedRow(db: Db, next: Db, j: Id, base: Run)
    requires db.unused !in db.runs && next.runs == db.runs[db.unused := base] && base.status.Skipped?
    ensures PendingRuns(next, j) == PendingRuns(db, j) && (HasActive(next, j) <==> HasActive(db, j))
  {
    assert forall id :: ActiveIn(next, j, id) <==> ActiveIn(db, j, id);
  }

  lemma AdmitOwn(db: Db, j: Id, trigger: Trigger, route: Route, at: Time, now: Time, parent: Option<Id>, rearm: bool)
    requires Low(db) && j in db.jobs && Admit(db, j, trigger, route, at, now, parent, rearm).Ok?
    ensures var next := Admit(db, j, trigger, route, at, now, parent, rearm).value.0;
            && Triggered(db, next, j, PendingAfter(db, j, route))
            && (!Decide(db, j, route).Fire? ==> (HasActive(next, j) <==> HasActive(db, j)))
  {
    hide FireRun, Launch, Decide, Triggered, HasActive;
    match Decide(db, j, route)
    case Fire(cover) =>
      FireOwn(db, j, NewRun(db.jobs[j], j, trigger, Pending, at, now, parent, rearm), route, cover, now);
    case _ => SkipOwn(db, j, NewRun(db.jobs[j], j, trigger, RunTypes.Skipped, at, now, parent, rearm));
  }

  lemma TriggerOwn(db: Db, tenant: Id, j: Id, key: string, route: Route, now: Time)
    requires Low(db) && TriggerJob(db, tenant, j, key, route, now).Ok? && !(key != "" && (j, key) in db.keys)
    ensures Triggered(db, TriggerJob(db, tenant, j, key, route, now).value.0, j, PendingAfter(db, j, route))
  {
    hide FireRun, Launch, Decide, Triggered;
    var keyed := if key == "" then db else db.(keys := db.keys[(j, key) := db.unused]);
    var next := TriggerJob(db, tenant, j, key, route, now).value.0;
    match Decide(db, j, route) {
      case Fire(cover) =>
        FireOwn(keyed, j, NewRun(db.jobs[j], j, Manual, Pending, now, now, None, false), route, cover, now);
      case Drop => SkipOwn(keyed, j, NewRun(db.jobs[j], j, Manual, RunTypes.Skipped, now, now, None, false));
    }
    KeyedTriggered(db, keyed, next, j, PendingAfter(db, j, route));
  }

  lemma KeyedTriggered(db: Db, keyed: Db, next: Db, j: Id, pending: nat)
    requires keyed == db.(keys := keyed.keys)
    ensures PendingRuns(keyed, j) == PendingRuns(db, j)
    ensures Triggered(keyed, next, j, pending) ==> Triggered(db, next, j, pending)
  {
  }

  lemma TriggerOther(db: Db, tenant: Id, i: Id, key: string, route: Route, now: Time, j: Id)
    requires Low(db) && i != j && TriggerJob(db, tenant, i, key, route, now).Ok?
    ensures Untouched(db, TriggerJob(db, tenant, i, key, route, now).value.0, j)
  {
    hide FireRun, Launch, Decide, Untouched;
    var keyed := if key == "" then db else db.(keys := db.keys[(i, key) := db.unused]);
    SameUntouched(db, db, j);
    SameUntouched(db, keyed, j);
    if !(key != "" && (i, key) in db.keys) {
      match Decide(db, i, route) {
        case Fire(cover) =>
          FireOther(keyed, i, NewRun(db.jobs[i], i, Manual, Pending, now, now, None, false), route, cover, now, j);
        case Drop =>
          LaunchOther(keyed, NewRun(db.jobs[i], i, Manual, RunTypes.Skipped, now, now, None, false), Plain, j);
      }
      UntouchedThen(db, keyed, TriggerJob(db, tenant, i, key, route, now).value.0, j);
    }
  }

  // ------------------------------------------------------------------ its own due times

  /** Once covered too widely, a job stays so: each further due time covers again. */
  lemma {:induction false} StaysTooWide(db: Db, j: Id, times: seq<Time>, route: Route, now: Time, skipped: bool)
    requires Low(db) && j in db.jobs && !FastPath(db.jobs[j], route) && 0 <= db.jobs[j].maxQueue < |PendingRuns(db, j)|
    requires CanonicalPolicy(db.jobs[j].policy).CoverEarly? && Width(route) > db.jobs[j].maxQueue
    requires EnqueueTimes(db, j, times, route, now, skipped).Ok?
    ensures var next := EnqueueTimes(db, j, times, route, now, skipped).value.0;
            Low(next) && j in next.jobs && !QueueOk(next, j) && next.jobs[j].policy == db.jobs[j].policy
    decreases times
  {
    hide Admit, PendingRuns, Decide;
    if times != [] {
      var rearm := db.jobs[j].kind.FixedDelay?;
      var r := Admit(db, j, BySchedule, route, times[0], now, None, rearm);
      AdmitOwn(db, j, BySchedule, route, times[0], now, None, rearm);
      PendingIsActive(db, j);
      CoversAgain(db, j, route, BySchedule, times[0], now, rearm);
      StaysTooWide(r.value.0, j, times[1..], route, now, !r.value.1);
    }
  }

  lemma PendingIsActive(db: Db, j: Id)
    requires |PendingRuns(db, j)| > 0
    ensures HasActive(db, j)
  {
    var id :| id in PendingRuns(db, j);
    assert ActiveIn(db, j, id);
  }

  lemma CoversAgain(db: Db, j: Id, route: Route, trigger: Trigger, at: Time, now: Time, rearm: bool)
    requires j in db.jobs && HasActive(db, j) && CanonicalPolicy(db.jobs[j].policy).CoverEarly?
    requires Admit(db, j, trigger, route, at, now, None, rearm).Ok?
    ensures Decide(db, j, route) == Fire(true)
  {
    hide HasActive, PendingRuns, FireRun;
  }

  /** The due times of a job off the fast path overflow its queue exactly when there is one and it covers too widely. */
  lemma {:induction false} TimesOverflow(db: Db, j: Id, times: seq<Time>, route: Route, now: Time, skipped: bool)
    requires Low(db) && j in db.jobs && !FastPath(db.jobs[j], route) && QueueOk(db, j)
    requires EnqueueTimes(db, j, times, route, now, skipped).Ok?
    ensures var next := EnqueueTimes(db, j, times, route, now, skipped).value.0;
            && Low(next) && j in next.jobs && next.jobs[j].policy == db.jobs[j].policy
            && (QueueOk(next, j) <==> !(times != [] && CoversTooWide(db, j, route)))
    decreases times
  {
    hide Admit, PendingRuns, Decide, HasActive;
    if times != [] {
      var rearm := db.jobs[j].kind.FixedDelay?;
      var r := Admit(db, j, BySchedule, route, times[0], now, None, rearm);
      var mid := r.value.0;
      AdmitOwn(db, j, BySchedule, route, times[0], now, None, rearm);
      TriggerOverflows(db, j, route);
      DecideFits(db, j, route);
      if CoversTooWide(db, j, route) {
        StaysTooWide(mid, j, times[1..], route, now, !r.value.1);
      } else {
        TimesOverflow(mid, j, times[1..], route, now, !r.value.1);
        StillFits(db, mid, j, route);
      }
    }
  }

  /** After a trigger that fits, no further one with the same routing covers too widely. */
  lemma StillFits(db: Db, next: Db, j: Id, route: Route)
    requires j in db.jobs && QueueOk(db, j) && Triggered(db, next, j, PendingAfter(db, j, route))
    requires !CoversTooWide(db, j, route)
    requires !Decide(db, j, route).Fire? ==> (HasActive(next, j) <==> HasActive(db, j))
    ensures !CoversTooWide(next, j, route)
  {
    hide PendingRuns, HasActive;
  }

  /** The turn of one job of the batch overflows its queue. */
  predicate TurnOverflows(db: Db, item: DueItem, now: Time) {
    && IsDue(db, item.job, now)
    && var times := DuePlan(db.jobs[item.job], item.plan, now).due;
       if FastPath(db.jobs[item.job], item.route)
       then |PendingRuns(db, item.job)| + |times| > db.jobs[item.job].maxQueue
       else times != [] && CoversTooWide(db, item.job, item.route)
  }

  lemma {:induction false} FastTimes(db: Db, j: Id, times: seq<Time>, now: Time, skipped: bool)
    requires Low(db) && j in db.jobs && FastPath(db.jobs[j], Plain)
    ensures EnqueueTimes(db, j, times, Plain, now, skipped).Ok?
    ensures var next := EnqueueTimes(db, j, times, Plain, now, skipped).value.0; Low(next) && next.jobs == db.jobs
    decreases times
  {
    hide Launch;
    if times != [] {
      var base := NewRun(db.jobs[j], j, BySchedule, Pending, times[0], now, None, db.jobs[j].kind.FixedDelay?);
      LaunchLow(db, base, Plain);
      LaunchJobs(db, base, Plain);
      FastTimes(Launch(db, base, Plain), j, times[1..], now, false);
    }
  }

  lemma JobOwn(db: Db, item: DueItem, now: Time)
    requires Low(db) && QueueOk(db, item.job) && item.job in db.jobs && EnqueueJob(db, item, now).Ok?
    ensures var next := EnqueueJob(db, item, now).value;
            && Low(next) && item.job in next.jobs && next.jobs[item.job].policy == db.jobs[item.job].policy
            && (QueueOk(next, item.job) <==> !TurnOverflows(db, item, now))
  {
    hide EnqueueTimes, DuePlan, Decide;
    var j := item.job;
    if IsDue(db, j, now) {
      var times := DuePlan(db.jobs[j], item.plan, now).due;
      var mid := EnqueueTimes(db, j, times, item.route, now, false).value.0;
      if FastPath(db.jobs[j], item.route) {
        FastPathIgnoresTheQueue(db, j, times, now, false);
        FastTimes(db, j, times, now, false);
      } else {
        TimesOverflow(db, j, times, item.route, now, false);
      }
      AdvanceQuiet(mid, EnqueueJob(db, item, now).value, j);
    }
  }

  lemma AdvanceQuiet(db: Db, next: Db, j: Id)
    requires next.runs == db.runs && j in db.jobs && j in next.jobs
    requires next.jobs[j].maxQueue == db.jobs[j].maxQueue && next.jobs[j].policy == db.jobs[j].policy
    ensures QueueOk(next, j) <==> QueueOk(db, j)
  {
    assert PendingRuns(next, j) == PendingRuns(db, j);
  }

  // ------------------------------------------------------------------ the batch

  /** The query for due jobs returns every job once. */
  predicate OncePerJob(items: seq<DueItem>) {
    forall i, k :: 0 <= i < k < |items| ==> items[i].job != items[k].job
  }

  /** A pass that has nothing to do for the job. */
  lemma {:induction false} PassOther(db: Db, items: seq<DueItem>, now: Time, fast: bool, j: Id)
    requires Low(db) && EnqueuePass(db, items, now, fast).Ok?
    requires forall i :: 0 <= i < |items| && items[i].job == j ==> !Selected(db, items[i], fast)
    ensures Untouched(db, EnqueuePass(db, items, now, fast).value, j)
    decreases items
  {
    hide EnqueueJob, Untouched;
    if items == [] {
      SameUntouched(db, db, j);
    } else if Selected(db, items[0], fast) {
      var mid := EnqueueJob(db, items[0], now).value;
      JobOther(db, items[0], now, j);
      LowAfter(db, mid, j);
      SelectedSame(db, mid, items[1..], fast, j);
      PassOther(mid, items[1..], now, fast, j);
      UntouchedThen(db, mid, EnqueuePass(db, items, now, fast).value, j);
    } else {
      PassOther(db, items[1..], now, fast, j);
    }
  }

  lemma SelectedSame(db: Db, next: Db, items: seq<DueItem>, fast: bool, j: Id)
    requires Untouched(db, next, j)
    ensures forall i :: 0 <= i < |items| && items[i].job == j ==>
              (Selected(next, items[i], fast) <==> Selected(db, items[i], fast))
  {
  }

  /** The item is selected by this pass and its turn overflows. */
  predicate PassOverflows(db: Db, item: DueItem, now: Time, fast: bool, j: Id) {
    item.job == j && Selected(db, item, fast) && TurnOverflows(db, item, now)
  }

  lemma TurnSame(db: Db, next: Db, item: DueItem, now: Time, fast: bool, j: Id)
    requires Untouched(db, next, j)
    ensures PassOverflows(next, item, now, fast, j) <==> PassOverflows(db, item, now, fast, j)
    ensures QueueOk(next, j) <==> QueueOk(db, j)
  {
    hide Decide, PendingRuns, DuePlan, HasActive;
    UntouchedSame(db, next, j);
    if item.job == j && j in db.jobs {
      assert Decide(next, j, item.route) == Decide(db, j, item.route);
    }
  }

  /** A pass overflows the job's queue exactly when it has a turn for the job that does. */
  lemma {:induction false} PassQueue(db: Db, items: seq<DueItem>, now: Time, fast: bool, j: Id)
    requires Low(db) && QueueOk(db, j) && j in db.jobs && OncePerJob(items) && EnqueuePass(db, items, now, fast).Ok?
    ensures var next := EnqueuePass(db, items, now, fast).value;
            && Low(next) && j in next.jobs && next.jobs[j].policy == db.jobs[j].policy
            && (QueueOk(next, j) <==> forall i :: 0 <= i < |items| ==> !PassOverflows(db, items[i], now, fast, j))
    decreases items
  {
    hide EnqueueJob, Untouched, PassOverflows, QueueOk;
    if items != [] {
      var next := EnqueuePass(db, items, now, fast).value;
      var rest := items[1..];
      assert forall i :: 0 < i < |items| ==> items[i] == rest[i - 1];
      if Selected(db, items[0], fast) && items[0].job == j {
        PassOwn(db, items, now, fast, j);
      } else if Selected(db, items[0], fast) {
        var mid := EnqueueJob(db, items[0], now).value;
        JobOther(db, items[0], now, j);
        LowAfter(db, mid, j);
        assert QueueOk(mid, j) by { TurnSame(db, mid, items[0], now, fast, j); }
        PassQueue(mid, rest, now, fast, j);
        SameRow(db, mid, j);
        forall i | 0 <= i < |items|
          ensures PassOverflows(mid, items[i], now, fast, j) <==> PassOverflows(db, items[i], now, fast, j)
        {
          TurnSame(db, mid, items[i], now, fast, j);
        }
        assert !PassOverflows(db, items[0], now, fast, j) by { OtherTurn(db, items[0], now, fast, j); }
        assert forall i :: 0 <= i < |rest| ==> rest[i] == items[i + 1];
      } else {
        PassQueue(db, rest, now, fast, j);
        assert !PassOverflows(db, items[0], now, fast, j) by { OtherTurn(db, items[0], now, fast, j); }
        assert forall i :: 0 <= i < |rest| ==> rest[i] == items[i + 1];
      }
    }
  }

  lemma SameRow(db: Db, next: Db, j: Id)
    requires Untouched(db, next, j) && j in db.jobs
    ensures j in next.jobs && next.jobs[j] == db.jobs[j]
  {
  }

  lemma OtherTurn(db: Db, item: DueItem, now: Time, fast: bool, j: Id)
    requires item.job != j || !Selected(db, item, fast)
    ensures !PassOverflows(db, item, now, fast, j)
  {
  }

  /** The job's own turn comes first, and no other item of the batch is about it. */
  lemma PassOwn(db: Db, items: seq<DueItem>, now: Time, fast: bool, j: Id)
    requires Low(db) && QueueOk(db, j) && j in db.jobs && OncePerJob(items) && EnqueuePass(db, items, now, fast).Ok?
    requires items != [] && items[0].job == j && Selected(db, items[0], fast)
    ensures var next := EnqueuePass(db, items, now, fast).value;
            && Low(next) && j in next.jobs && next.jobs[j].policy == db.jobs[j].policy
            && (QueueOk(next, j) <==> forall i :: 0 <= i < |items| ==> !PassOverflows(db, items[i], now, fast, j))
  {
    hide EnqueueJob, Untouched, TurnOverflows;
    var mid, rest := EnqueueJob(db, items[0], now).value, items[1..];
    assert forall i :: 0 <= i < |rest| ==> rest[i] == items[i + 1] && rest[i].job != j;
    JobOwn(db, items[0], now);
    PassOther(mid, rest, now, fast, j);
    var next := EnqueuePass(mid, rest, now, fast).value;
    LowAfter(mid, next, j);
    SameRow(mid, next, j);
    TurnSame(mid, next, items[0], now, fast, j);
    assert forall i :: 0 < i < |items| ==> items[i].job != j;
    assert PassOverflows(db, items[0], now, fast, j) <==> TurnOverflows(db, items[0], now);
  }

  lemma DueQueue(db: Db, items: seq<DueItem>, now: Time, j: Id)
    requires Low(db) && QueueOk(db, j) && j in db.jobs && OncePerJob(items) && EnqueueDue(db, items, now).Ok?
    ensures QueueOk(EnqueueDue(db, items, now).value, j) <==>
              forall i :: 0 <= i < |items| && items[i].job == j ==> !TurnOverflows(db, items[i], now)
  {
    hide EnqueuePass, TurnOverflows;
    var mid := EnqueuePass(db, items, now, false).value;
    PassQueue(db, items, now, false, j);
    if k :| 0 <= k < |items| && items[k].job == j {
      assert forall i :: 0 <= i < |items| && items[i].job == j ==> i == k;
      if FastPath(db.jobs[j], items[k].route) {
        PassOther(db, items, now, false, j);
        TurnSame(db, mid, items[k], now, true, j);
        PassQueue(mid, items, now, true, j);
        assert Selected(db, items[k], true);
      } else {
        assert Selected(db, items[k], false);
        PassOther(mid, items, now, true, j);
        TurnSame(mid, EnqueuePass(mid, items, now, true).value, items[k], now, true, j);
      }
    } else {
      PassQueue(mid, items, now, true, j);
    }
  }

  // ------------------------------------------------------------------ outcomes

  /** Job rows keep all that the queue and the retries depend on. */
  ghost predicate MildJobs(db: Db, next: Db) {
    && next.jobs.Keys == db.jobs.Keys
    && (forall i :: i in db.jobs ==>
          && next.jobs[i].maxQueue == db.jobs[i].maxQueue && next.jobs[i].policy == db.jobs[i].policy
          && next.jobs[i].maxRetries == db.jobs[i].maxRetries)
  }

  lemma RearmMild(db: Db, run: Run, at: Time)
    ensures Rearm(db, run, at).runs == db.runs && Rearm(db, run, at).unused == db.unused
    ensures MildJobs(db, Rearm(db, run, at))
  {
  }

  lemma FinishRow(db: Db, id: Id, st: Status, now: Time)
    requires id in db.runs
    ensures var next := Finish(db, id, st, now);
            && next == db.(runs := db.runs[id := Terminal(db.runs[id], st, now)], log := next.log)
  {
  }

  /** The row ends; a retry adds one. */
  lemma FailureRows(db: Db, id: Id, st: Status, now: Time, retry: Option<Time>)
    requires id in db.runs
    ensures var run := db.runs[id];
            var next := AfterFailure(Finish(db, id, st, now), id, run, st, now, retry);
            var ended := db.runs[id := Terminal(run, st, now)];
            && MildJobs(db, next)
            && (retry.Some? ==> next.runs == ended[db.unused := RetryRow(id, run, now, retry.value)]
                                && next.unused == db.unused + 1)
            && (retry.None? ==> next.runs == ended && next.unused == db.unused)
  {
    hide Rearm, Finish, MildJobs, InsertRetry, Emit;
    var done := Finish(db, id, st, now);
    FinishRow(db, id, st, now);
    MildSame(db, done);
    if retry.Some? {
      InsertedRow(done, id, db.runs[id], now, retry.value);
      MildSame(db, InsertRetry(done, id, db.runs[id], now, retry.value));
    } else {
      var told := Emit(done, id, st, Exhausted);
      EmittedOnly(done, id, st, Exhausted);
      RearmMild(told, db.runs[id], now);
      MildSame(db, told);
      MildThen(db, told, Rearm(told, db.runs[id], now));
    }
  }

  lemma InsertedRow(db: Db, id: Id, copy: Run, now: Time, delay: Time)
    ensures var next := InsertRetry(db, id, copy, now, delay);
            && next.runs == db.runs[db.unused := RetryRow(id, copy, now, delay)]
            && next.jobs == db.jobs && next.unused == db.unused + 1
  {
  }

  lemma EmittedOnly(db: Db, id: Id, st: Status, topic: Topic)
    ensures Emit(db, id, st, topic) == db.(log := Emit(db, id, st, topic).log)
  {
  }

  /** A run that was not pending ends: the queue of its job gains the retry, if there is one. */
  lemma RetryCounts(db: Db, next: Db, id: Id, st: Status, now: Time, retry: Option<Time>, j: Id)
    requires Low(db) && id in db.runs && !db.runs[id].status.Pending? && Broken(st)
    requires next == AfterFailure(Finish(db, id, st, now), id, db.runs[id], st, now, retry)
    ensures Low(next) && MildJobs(db, next)
    ensures |PendingRuns(next, j)|
            == |PendingRuns(db, j)| + (if retry.Some? && db.runs[id].job == j then 1 else 0)
  {
    FailureRows(db, id, st, now, retry);
    hide AfterFailure, Finish, MildJobs, PendingRuns;
    var run := db.runs[id];
    var ended := db.(runs := db.runs[id := Terminal(run, st, now)]);
    EndedPending(db, ended, id, j);
    if retry.Some? {
      AddedPending(ended, next, RetryRow(id, run, now, retry.value), j);
    } else {
      SamePending(ended, next, j);
    }
  }

  lemma SamePending(db: Db, next: Db, j: Id)
    requires next.runs == db.runs
    ensures PendingRuns(next, j) == PendingRuns(db, j)
  {
  }

  lemma EndedPending(db: Db, next: Db, id: Id, j: Id)
    requires Low(db) && id in db.runs && id in next.runs && next.runs == db.runs[id := next.runs[id]]
    requires !db.runs[id].status.Pending? && !next.runs[id].status.Pending?
    ensures PendingRuns(next, j) == PendingRuns(db, j)
    ensures next.unused == db.unused ==> Low(next)
  {
  }

  lemma AddedPending(db: Db, next: Db, row: Run, j: Id)
    requires Low(db) && next.runs == db.runs[db.unused := row] && next.unused == db.unused + 1 && row.status.Pending?
    ensures |PendingRuns(next, j)| == |PendingRuns(db, j)| + (if row.job == j then 1 else 0) && Low(next)
  {
    var before, after := PendingRuns(db, j), PendingRuns(next, j);
    forall id ensures id in after <==> id in before || (id == db.unused && row.job == j) { }
    hide PendingRuns;
    assert db.unused !in before by { UnusedNotPending(db, j); }
    assert after == if row.job == j then before + {db.unused} else before;
  }

  lemma UnusedNotPending(db: Db, j: Id)
    requires Low(db)
    ensures db.unused !in PendingRuns(db, j)
  {
  }

  lemma MildQueue(db: Db, next: Db, j: Id, more: nat)
    requires MildJobs(db, next) && |PendingRuns(next, j)| == |PendingRuns(db, j)| + more
    ensures QueueOk(next, j) <==> (j in db.jobs ==> |PendingRuns(db, j)| + more <= db.jobs[j].maxQueue)
  {
  }

  /** The expired rows of the job that are retried. */
  function RetriedRows(db: Db, rows: seq<Id>, now: Time, j: Id): set<Id> {
    set x | x in rows && Expired(db, x, now) && db.runs[x].job == j && CallbackRetry(db, db.runs[x]).Some?
  }

  lemma {:induction false} ExpireQueue(db: Db, rows: seq<Id>, now: Time, j: Id)
    requires Low(db)
    ensures var next := ExpireCallbacks(db, rows, now);
            MildJobs(db, next) && |PendingRuns(next, j)| == |PendingRuns(db, j)| + |RetriedRows(db, rows, now, j)|
    decreases rows
  {
    hide AfterFailure, Finish, PendingRuns, CallbackRetry;
    if rows == [] {
    } else if Expired(db, rows[0], now) {
      var mid, retry := ExpireOne(db, rows[0], now), CallbackRetry(db, db.runs[rows[0]]);
      RetryCounts(db, mid, rows[0], TimedOut, now, retry, j);
      ExpireQueue(mid, rows[1..], now, j);
      RetriedRest(db, mid, rows, now, j);
      MildThen(db, mid, ExpireCallbacks(mid, rows[1..], now));
    } else {
      ExpireQueue(db, rows[1..], now, j);
      assert RetriedRows(db, rows[1..], now, j) == RetriedRows(db, rows, now, j);
    }
  }

  lemma MildThen(a: Db, b: Db, c: Db)
    requires MildJobs(a, b) && MildJobs(b, c)
    ensures MildJobs(a, c)
  {
  }

  /** After the first row, the others that will be retried are the same. */
  lemma RetriedRest(db: Db, mid: Db, rows: seq<Id>, now: Time, j: Id)
    requires Low(db) && rows != [] && Expired(db, rows[0], now) && mid == ExpireOne(db, rows[0], now)
    ensures var counted := db.runs[rows[0]].job == j && CallbackRetry(db, db.runs[rows[0]]).Some?;
            |RetriedRows(db, rows, now, j)| == |RetriedRows(mid, rows[1..], now, j)| + (if counted then 1 else 0)
  {
    var x, all, rest := rows[0], RetriedRows(db, rows, now, j), RetriedRows(mid, rows[1..], now, j);
    FailureRows(db, x, TimedOut, now, CallbackRetry(db, db.runs[x]));
    hide AfterFailure, Finish;
    forall y ensures y in rest <==> y in all && y != x { RetriedRow(db, mid, rows, now, j, y); }
    assert rest == all - {x};
  }

  lemma RetriedRow(db: Db, mid: Db, rows: seq<Id>, now: Time, j: Id, y: Id)
    requires Low(db) && rows != [] && Expired(db, rows[0], now) && MildJobs(db, mid)
    requires var run, ended := db.runs[rows[0]], db.runs[rows[0] := Terminal(db.runs[rows[0]], TimedOut, now)];
             || mid.runs == ended
             || (exists delay :: mid.runs == ended[db.unused := RetryRow(rows[0], run, now, delay)])
    ensures y in RetriedRows(mid, rows[1..], now, j) <==> y in RetriedRows(db, rows, now, j) && y != rows[0]
  {
    if y == rows[0] || y == db.unused {
      assert !Expired(mid, y, now);
    }
  }

  // ------------------------------------------------------------------ dependents

  lemma ChildOther(db: Db, p: Id, c: Id, route: Route, now: Time, j: Id)
    requires Low(db) && c != j && c in db.jobs && TriggerChild(db, p, c, route, now).Ok?
    ensures Untouched(db, TriggerChild(db, p, c, route, now).value, j)
    ensures (p, j) in TriggerChild(db, p, c, route, now).value.dispatched ==> (p, j) in db.dispatched
  {
    hide Admit, Untouched;
    var reserved := db.(dispatched := db.dispatched[(p, c) := db.unused]);
    SameUntouched(db, db, j);
    SameUntouched(db, reserved, j);
    if (p, c) !in db.dispatched {
      AdmitOther(reserved, c, Dependency, route, now, now, Some(p), false, j);
      AdmitDispatched(reserved, c, Dependency, route, now, now, Some(p), false);
      UntouchedThen(db, reserved, TriggerChild(db, p, c, route, now).value, j);
    }
  }

  lemma AdmitDispatched(db: Db, i: Id, trigger: Trigger, route: Route, at: Time, now: Time, parent: Option<Id>,
                        rearm: bool)
    requires i in db.jobs && Admit(db, i, trigger, route, at, now, parent, rearm).Ok?
    ensures Admit(db, i, trigger, route, at, now, parent, rearm).value.0.dispatched == db.dispatched
  {
    hide Cover, Decide;
    CoverEdges(db, i, now);
  }

  lemma {:induction false} ChildrenOther(db: Db, p: Id, children: seq<Id>, routes: map<Id, Route>, now: Time, j: Id)
    requires Low(db) && j !in children && TriggerChildren(db, p, children, routes, now).Ok?
    ensures Untouched(db, TriggerChildren(db, p, children, routes, now).value, j)
    decreases children
  {
    hide TriggerChild, Untouched;
    if children == [] {
      SameUntouched(db, db, j);
    } else if children[0] !in db.jobs {
      ChildrenOther(db, p, children[1..], routes, now, j);
    } else {
      var mid := TriggerChild(db, p, children[0], RouteOf(routes, children[0]), now).value;
      ChildOther(db, p, children[0], RouteOf(routes, children[0]), now, j);
      LowAfter(db, mid, j);
      ChildrenOther(mid, p, children[1..], routes, now, j);
      UntouchedThen(db, mid, TriggerChildren(db, p, children, routes, now).value, j);
    }
  }

  lemma ChildOwn(db: Db, p: Id, j: Id, route: Route, now: Time)
    requires Low(db) && j in db.jobs && (p, j) !in db.dispatched && TriggerChild(db, p, j, route, now).Ok?
    ensures Triggered(db, TriggerChild(db, p, j, route, now).value, j, PendingAfter(db, j, route))
  {
    hide Admit, Decide, Triggered;
    var reserved := db.(dispatched := db.dispatched[(p, j) := db.unused]);
    AdmitOwn(reserved, j, Dependency, route, now, now, Some(p), false);
    assert Untouched(db, reserved, j) by { SameUntouched(db, reserved, j); }
    UntouchedSame(db, reserved, j);
    assert Decide(reserved, j, route) == Decide(db, j, route);
    ReservedTriggered(db, reserved, TriggerChild(db, p, j, route, now).value, j, PendingAfter(db, j, route));
  }

  lemma ReservedTriggered(db: Db, reserved: Db, next: Db, j: Id, pending: nat)
    requires reserved.jobs == db.jobs && Triggered(reserved, next, j, pending)
    ensures Triggered(db, next, j, pending)
  {
  }

  lemma TriggeredQueue(db: Db, next: Db, j: Id, route: Route)
    requires j in db.jobs && QueueOk(db, j) && Triggered(db, next, j, PendingAfter(db, j, route))
    ensures QueueOk(next, j) <==> !CoversTooWide(db, j, route)
  {
    hide Decide, PendingRuns;
    TriggerOverflows(db, j, route);
  }

  /** Triggering the dependents overflows the queue of one of them exactly when that covers too widely. */
  lemma {:induction false} ChildrenQueue(db: Db, p: Id, children: seq<Id>, routes: map<Id, Route>, now: Time, j: Id)
    requires Low(db) && QueueOk(db, j) && j in db.jobs && j in children && (p, j) !in db.dispatched
    requires forall i, k :: 0 <= i < k < |children| ==> children[i] != children[k]
    requires TriggerChildren(db, p, children, routes, now).Ok?
    ensures var next := TriggerChildren(db, p, children, routes, now).value;
            Low(next) && j in next.jobs && (QueueOk(next, j) <==> !CoversTooWide(db, j, RouteOf(routes, j)))
    decreases children
  {
    hide TriggerChild, Untouched, Decide, PendingRuns;
    var rest := children[1..];
    assert forall i :: 0 <= i < |rest| ==> rest[i] == children[i + 1];
    if children[0] == j {
      var mid := TriggerChild(db, p, j, RouteOf(routes, j), now).value;
      ChildOwn(db, p, j, RouteOf(routes, j), now);
      TriggeredQueue(db, mid, j, RouteOf(routes, j));
      ChildrenOther(mid, p, rest, routes, now, j);
      UntouchedSame(mid, TriggerChildren(mid, p, rest, routes, now).value, j);
      LowAfter(mid, TriggerChildren(mid, p, rest, routes, now).value, j);
      QuietKeeps(mid, TriggerChildren(mid, p, rest, routes, now).value, j);
    } else if children[0] !in db.jobs {
      assert j in rest;
      ChildrenQueue(db, p, rest, routes, now, j);
    } else {
      var mid := TriggerChild(db, p, children[0], RouteOf(routes, children[0]), now).value;
      ChildOther(db, p, children[0], RouteOf(routes, children[0]), now, j);
      LowAfter(db, mid, j);
      UntouchedSame(db, mid, j);
      SameRow(db, mid, j);
      QuietKeeps(db, mid, j);
      assert j in rest;
      assert Decide(mid, j, RouteOf(routes, j)) == Decide(db, j, RouteOf(routes, j));
      ChildrenQueue(mid, p, rest, routes, now, j);
    }
  }

  /** The run ends: its own job keeps its queue, any other job all it has. */
  lemma EndQueue(db: Db, id: Id, st: Status, now: Time, j: Id)
    requires Low(db) && id in db.runs && !db.runs[id].status.Pending? && !Unfinished(st)
    ensures Low(Finish(db, id, st, now)) && Quiet(db, Finish(db, id, st, now), j)
    ensures db.runs[id].job != j ==> Untouched(db, Finish(db, id, st, now), j)
  {
    FinishRow(db, id, st, now);
    hide Finish;
  }

  lemma MildQuiet(db: Db, next: Db, j: Id)
    requires next.runs == db.runs && MildJobs(db, next)
    ensures QueueOk(next, j) <==> QueueOk(db, j)
  {
    assert PendingRuns(next, j) == PendingRuns(db, j);
  }

  lemma NoSelfEdge(edges: set<(Id, Id)>, j: Id)
    requires Dependencies.Acyclic(edges)
    ensures (j, j) !in edges
  {
    if (j, j) in edges {
      var p := [j, j];
      assert Dependencies.PathFrom(edges, p, j, j);
      assert Dependencies.Reaches(edges, j, j);
    }
  }

  lemma NotYetDispatched(db: Db, id: Id, j: Id)
    requires Parents(db) && id in db.runs && Unfinished(db.runs[id].status)
    ensures (id, j) !in db.dispatched
  {
  }

  lemma NoneYet(db: Db, id: Id, j: Id)
    requires Sound(db) && id in db.runs && Unfinished(db.runs[id].status)
    ensures (id, j) !in db.dispatched && (j, j) !in db.edges
  {
    NotYetDispatched(db, id, j);
    NoSelfEdge(db.edges, j);
  }

  /** From the end of the run to the triggering of its dependents. */
  lemma FedQueue(db: Db, done: Db, id: Id, i: Id, routes: map<Id, Route>, now: Time, j: Id)
    requires Low(done) && Quiet(db, done, j) && (i != j ==> Untouched(db, done, j)) && (j, j) !in done.edges
    requires j in db.jobs && QueueOk(db, j) && (id, j) !in done.dispatched
    requires EnqueueDependents(done, id, i, routes, now).Ok?
    ensures QueueOk(EnqueueDependents(done, id, i, routes, now).value, j) <==>
              !((i, j) in done.edges && CoversTooWide(db, j, RouteOf(routes, j)))
  {
    hide TriggerChildren, Untouched, Decide, PendingRuns;
    var kids := Children(done, i);
    var fed := TriggerChildren(done, id, kids, routes, now).value;
    QuietKeeps(db, done, j);
    if (i, j) in done.edges {
      UntouchedSame(db, done, j);
      assert Decide(done, j, RouteOf(routes, j)) == Decide(db, j, RouteOf(routes, j));
      ChildrenQueue(done, id, kids, routes, now, j);
    } else {
      ChildrenOther(done, id, kids, routes, now, j);
      UntouchedSame(done, fed, j);
      QuietKeeps(done, fed, j);
    }
  }

  lemma SuccessQueue(db: Db, id: Id, routes: map<Id, Route>, now: Time, j: Id)
    requires Sound(db) && Low(db) && j in db.jobs && QueueOk(db, j)
    requires id in db.runs && Unfinished(db.runs[id].status) && !db.runs[id].status.Pending?
    requires Succeed(db, id, routes, now).Ok?
    ensures QueueOk(Succeed(db, id, routes, now).value, j) <==>
              !((db.runs[id].job, j) in db.edges && CoversTooWide(db, j, RouteOf(routes, j)))
  {
    hide Sound, EnqueueDependents, Rearm, Finish, Untouched, Quiet, QueueOk, CoversTooWide;
    var i, done := db.runs[id].job, Finish(db, id, Succeeded, now);
    NoneYet(db, id, j);
    EndQueue(db, id, Succeeded, now, j);
    FinishRow(db, id, Succeeded, now);
    FedQueue(db, done, id, i, routes, now, j);
    var fed := EnqueueDependents(done, id, i, routes, now).value;
    RearmMild(fed, db.runs[id], now);
    MildQuiet(fed, Rearm(fed, db.runs[id], now), j);
  }

  // ------------------------------------------------------- claims and cancellations

  /** The queue of every job only shrinks. */
  ghost predicate Shrinks(db: Db, next: Db, j: Id) {
    PendingRuns(next, j) <= PendingRuns(db, j) && MildJobs(db, next)
  }

  lemma {:induction false} SmallerSet(a: set<Id>, b: set<Id>)
    requires a <= b
    ensures |a| <= |b|
    decreases |b|
  {
    if x :| x in b {
      SmallerSet(a - {x}, b - {x});
    }
  }

  lemma ShrinkKeeps(db: Db, next: Db, j: Id)
    requires QueueOk(db, j) && Shrinks(db, next, j)
    ensures QueueOk(next, j)
  {
    SmallerSet(PendingRuns(next, j), PendingRuns(db, j));
  }

  lemma {:induction false} ClaimsShrink(db: Db, picked: seq<Id>, now: Time, lease: Time, j: Id)
    ensures Shrinks(db, ClaimEach(db, picked, now, lease), j)
    decreases picked
  {
    if picked != [] {
      var id := picked[0];
      var known := id in db.runs && db.runs[id].job in db.jobs;
      var mid := if known then ClaimOne(db, id, now, lease) else db;
      ClaimsShrink(mid, picked[1..], now, lease, j);
    }
  }

  lemma CancelShrinks(db: Db, tenant: Id, id: Id, now: Time, j: Id)
    requires CancelRun(db, tenant, id, now).Ok?
    ensures Shrinks(db, CancelRun(db, tenant, id, now).value, j)
  {
    hide Finish, Rearm, PendingRuns, MildJobs;
    FinishRow(db, id, Cancelled, now);
    var next := CancelRun(db, tenant, id, now).value;
    if Unfinished(db.runs[id].status) {
      var done := Finish(db, id, Cancelled, now);
      var told := if db.runs[id].address != "" then EnqueueCancel(done, id, db.runs[id].address, now) else done;
      RearmMild(told, db.runs[id], now);
      MildSame(db, told);
      MildThen(db, told, next);
      RowShrinks(db, next, id, j);
    } else {
      MildSame(db, next);
      SamePending(db, next, j);
    }
  }

  lemma MildSame(db: Db, next: Db)
    requires next.jobs == db.jobs
    ensures MildJobs(db, next)
  {
  }

  lemma RowShrinks(db: Db, next: Db, id: Id, j: Id)
    requires id in next.runs && next.runs == db.runs[id := next.runs[id]] && !next.runs[id].status.Pending?
    ensures PendingRuns(next, j) <= PendingRuns(db, j)
  {
  }

  lemma PrepareShrinks(db: Db, claim: Claim, node: Node, callback: Callback, j: Id)
    requires HoldsLease(db, claim)
    ensures Shrinks(db, PrepareDispatch(db, claim, node, callback).value, j)
  {
  }

  // ---------------------------------------------------------------- every transaction

  predicate QueueFull(db: Db, j: Id)
    requires j in db.jobs
  {
    |PendingRuns(db, j)| >= db.jobs[j].maxQueue
  }

  /** The success of a run of this job triggers j, and covers too widely. */
  predicate DependentOverflows(db: Db, i: Id, routes: map<Id, Route>, j: Id)
    requires j in db.jobs
  {
    (i, j) in db.edges && CoversTooWide(db, j, RouteOf(routes, j))
  }

  /**
   What a transaction that commits needs to bring a job over its limit, to be read off before
   it: an update to a limit below the queue, a trigger that covers too widely, too many due times on
   the fast path, or more retries than there is room for.
   */
  ghost predicate Overflows(db: Db, a: Action, j: Id) {
    && j in db.jobs
    && match a
       case DoUpdateJob(id, job, _, _) => id == j && |PendingRuns(db, j)| > job.maxQueue
       case DoTrigger(_, id, key, route, _) =>
         id == j && !(key != "" && (j, key) in db.keys) && CoversTooWide(db, j, route)
       case DoEnqueueDue(items, now) =>
         exists i :: 0 <= i < |items| && items[i].job == j && TurnOverflows(db, items[i], now)
       case DoFail(token, _, _, _) =>
         && token in db.claims && db.claims[token].run.job == j && QueueFull(db, j)
         && ShouldRetry(db.claims[token].run.attempt, db.claims[token].maxRetries)
       case DoComplete(token, success, routes, _) =>
         token in db.claims && success && DependentOverflows(db, db.claims[token].run.job, routes, j)
       case DoCallback(id, _, success, routes, _) =>
         && id in db.runs && db.runs[id].job in db.jobs
         && (if success then DependentOverflows(db, db.runs[id].job, routes, j)
             else db.runs[id].job == j && QueueFull(db, j) && CallbackRetry(db, db.runs[id]).Some?)
       case DoExpire(rows, now) =>
         |PendingRuns(db, j)| + |RetriedRows(db, rows, now, j)| > db.jobs[j].maxQueue
       case _ => false
  }

  predicate DueOnce(a: Action) {
    a.DoEnqueueDue? ==> OncePerJob(a.items)
  }

  lemma FailureExact(db: Db, a: Action, j: Id)
    requires Sound(db) && Low(db) && QueueOk(db, j) && j in db.jobs && Apply(db, a).Ok?
    requires a.DoFail? || (a.DoComplete? && !a.success) || (a.DoCallback? && !a.success)
    ensures QueueOk(Apply(db, a).value, j) <==> !Overflows(db, a, j)
  {
    hide Sound, Whole, Finish, AfterFailure, PendingRuns;
    var next := Apply(db, a).value;
    if a.DoCallback? {
      var retry := CallbackRetry(db, db.runs[a.id]);
      RetryCounts(db, next, a.id, Failed, a.now, retry, j);
      MildQueue(db, next, j, if retry.Some? && db.runs[a.id].job == j then 1 else 0);
    } else {
      var claim := db.claims[a.token];
      assert claim.run == db.runs[claim.id] by { SoundHolder(db, a.token); }
      var retry := if a.DoFail? && ShouldRetry(claim.run.attempt, claim.maxRetries) then Some(a.delay) else None;
      RetryCounts(db, next, claim.id, if a.DoFail? then a.st else Failed, a.now, retry, j);
      MildQueue(db, next, j, if retry.Some? && claim.run.job == j then 1 else 0);
    }
  }

  lemma SoundHolder(db: Db, token: Id)
    requires Sound(db) && token in db.claims && HoldsLease(db, db.claims[token])
    ensures db.claims[token].run == db.runs[db.claims[token].id]
  {
    HolderIdentity(db, token);
  }

  lemma SuccessExact(db: Db, a: Action, j: Id)
    requires Sound(db) && Low(db) && QueueOk(db, j) && j in db.jobs && Apply(db, a).Ok?
    requires (a.DoComplete? && a.success) || (a.DoCallback? && a.success)
    ensures QueueOk(Apply(db, a).value, j) <==> !Overflows(db, a, j)
  {
    hide Sound, Finish, EnqueueDependents, Rearm, PendingRuns, CoversTooWide;
    if a.DoCallback? {
      SuccessQueue(db, a.id, a.routes, a.now, j);
    } else {
      var claim := db.claims[a.token];
      assert claim.run == db.runs[claim.id] by { SoundHolder(db, a.token); }
      SuccessQueue(db, claim.id, a.routes, a.now, j);
    }
  }

  lemma TriggerExact(db: Db, a: Action, j: Id)
    requires Low(db) && QueueOk(db, j) && j in db.jobs && Apply(db, a).Ok? && a.DoTrigger?
    ensures QueueOk(Apply(db, a).value, j) <==> !Overflows(db, a, j)
  {
    var next := Apply(db, a).value;
    var known := a.key != "" && (a.id, a.key) in db.keys;
    assert a.id == j && known ==> next == db;
    assert TriggerJob(db, a.tenant, a.id, a.key, a.route, a.now).Ok?
           && next == TriggerJob(db, a.tenant, a.id, a.key, a.route, a.now).value.0;
    hide TriggerJob, Untouched, Triggered, CoversTooWide, PendingRuns;
    if a.id != j {
      TriggerOther(db, a.tenant, a.id, a.key, a.route, a.now, j);
      UntouchedSame(db, next, j);
      QuietKeeps(db, next, j);
    } else if !known {
      TriggerOwn(db, a.tenant, j, a.key, a.route, a.now);
      TriggeredQueue(db, next, j, a.route);
    }
  }

  lemma WorkExact(db: Db, a: Action, j: Id)
    requires Sound(db) && Low(db) && QueueOk(db, j) && j in db.jobs && DueOnce(a) && Apply(db, a).Ok? && !Administers(a)
    ensures QueueOk(Apply(db, a).value, j) <==> !Overflows(db, a, j)
  {
    hide Sound, QueueOk, EnqueueDue, TriggerJob, ClaimRuns, PrepareDispatch, FailWithState, CompleteRun;
    hide CompleteCallback, ExpireCallbacks, CancelRun, TurnOverflows, CoversTooWide, PendingRuns, RetriedRows;
    match a
    case DoEnqueueDue(items, now) => DueQueue(db, items, now, j);
    case DoTrigger(_, _, _, _, _) => TriggerExact(db, a, j);
    case DoClaim(caps, limit, locked, lease, now) => ClaimExact(db, caps, limit, locked, lease, now, j);
    case DoPrepare(token, node, callback) => PrepareExact(db, token, node, callback, j);
    case DoFail(_, _, _, _) => FailureExact(db, a, j);
    case DoComplete(_, success, _, _) => if success { SuccessExact(db, a, j); } else { FailureExact(db, a, j); }
    case DoCallback(_, _, success, _, _) => if success { SuccessExact(db, a, j); } else { FailureExact(db, a, j); }
    case DoExpire(rows, now) => ExpireExact(db, rows, now, j);
    case DoCancel(tenant, id, now) => CancelExact(db, tenant, id, now, j);
  }

  lemma ClaimExact(db: Db, caps: Caps, limit: nat, locked: set<Id>, lease: Time, now: Time, j: Id)
    requires QueueOk(db, j)
    ensures QueueOk(ClaimRuns(db, caps, limit, locked, lease, now), j)
  {
    hide Shrinks, QueueOk;
    ClaimsShrink(db, Pick(db, EligibleRuns(db, caps, now) - locked, limit), now, lease, j);
    ShrinkKeeps(db, ClaimRuns(db, caps, limit, locked, lease, now), j);
  }

  lemma PrepareExact(db: Db, token: Id, node: Node, callback: Callback, j: Id)
    requires QueueOk(db, j) && token in db.claims && PrepareDispatch(db, db.claims[token], node, callback).Ok?
    ensures QueueOk(PrepareDispatch(db, db.claims[token], node, callback).value, j)
  {
    hide Shrinks;
    PrepareShrinks(db, db.claims[token], node, callback, j);
    ShrinkKeeps(db, PrepareDispatch(db, db.claims[token], node, callback).value, j);
  }

  lemma CancelExact(db: Db, tenant: Id, id: Id, now: Time, j: Id)
    requires QueueOk(db, j) && CancelRun(db, tenant, id, now).Ok?
    ensures QueueOk(CancelRun(db, tenant, id, now).value, j)
  {
    hide Shrinks, CancelRun;
    CancelShrinks(db, tenant, id, now, j);
    ShrinkKeeps(db, CancelRun(db, tenant, id, now).value, j);
  }

  lemma ExpireExact(db: Db, rows: seq<Id>, now: Time, j: Id)
    requires Low(db) && j in db.jobs
    ensures QueueOk(ExpireCallbacks(db, rows, now), j) <==> !Overflows(db, DoExpire(rows, now), j)
  {
    hide ExpireCallbacks, PendingRuns, RetriedRows;
    ExpireQueue(db, rows, now, j);
    MildQueue(db, ExpireCallbacks(db, rows, now), j, |RetriedRows(db, rows, now, j)|);
  }

  /** Administration changes no run, and only an update changes a limit. */
  lemma AdminExact(db: Db, a: Action, j: Id)
    requires Sound(db) && db.unused !in db.jobs && QueueOk(db, j) && Apply(db, a).Ok? && Administers(a)
    ensures QueueOk(Apply(db, a).value, j) <==> !Overflows(db, a, j)
  {
    var next := Apply(db, a).value;
    assert next.runs == db.runs by {
      AdministerAction(db, a);
      AdministeredRuns(db, next);
    }
    SamePending(db, next, j);
    AdminLimits(db, a, j);
    if j !in db.jobs { NewQueueEmpty(db, j); }
    hide Sound, PendingRuns, Apply;
  }

  /** The limit after an administration: that of the update, a new one that is not negative, or the old one. */
  lemma AdminLimits(db: Db, a: Action, j: Id)
    requires Apply(db, a).Ok? && Administers(a)
    ensures var next := Apply(db, a).value;
            && (j in db.jobs ==> j in next.jobs)
            && (j in next.jobs ==>
                  if a.DoUpdateJob? && a.id == j then j in db.jobs && next.jobs[j].maxQueue == a.job.maxQueue
                  else if j in db.jobs && !(a.DoCreateJob? && j == db.unused)
                  then next.jobs[j].maxQueue == db.jobs[j].maxQueue
                  else next.jobs[j].maxQueue >= 0)
  {
    if !WritesJobs(a) { OthersKeepJobs(db, a); }
  }

  lemma OthersKeepJobs(db: Db, a: Action)
    requires Apply(db, a).Ok? && Administers(a) && !WritesJobs(a)
    ensures Apply(db, a).value.jobs == db.jobs
  {
    if a.DoClaimCommands? {
      hide ClaimCommands;
      ClaimCommandsTouched(db, a.owner, a.rows, a.now);
    }
  }

  lemma NewQueueEmpty(db: Db, j: Id)
    requires Sound(db) && j !in db.jobs
    ensures PendingRuns(db, j) == {}
  {
    forall id | id in db.runs ensures db.runs[id].job != j { assert PlaceOk(db.runs[id], db.jobs, db.unused); }
  }

  lemma SoundLow(db: Db)
    requires Sound(db)
    ensures Low(db) && db.unused !in db.jobs
  {
  }

  lemma WorkNeedsJob(db: Db, a: Action, j: Id)
    requires Sound(db) && j !in db.jobs && Apply(db, a).Ok? && !Administers(a)
    ensures j !in Apply(db, a).value.jobs
  {
    hide Whole, RunMicro.Runs, Apply, Dependencies.Acyclic;
    var ms := RefineAction(db, a);
    RunsWhole(RunMicro.State(db, None), ms, RunMicro.State(Apply(db, a).value, None));
  }

  /** Every transaction that commits keeps the queue of a job within its limit, exactly unless it overflows. */
  lemma QueueStep(db: Db, a: Action, j: Id)
    requires Sound(db) && QueueOk(db, j) && DueOnce(a) && Apply(db, a).Ok?
    ensures QueueOk(Apply(db, a).value, j) <==> !Overflows(db, a, j)
  {
    hide Sound, Apply, Overflows;
    SoundLow(db);
    if Administers(a) {
      AdminExact(db, a, j);
    } else if j in db.jobs {
      WorkExact(db, a, j);
    } else {
      WorkNeedsJob(db, a, j);
      NoJobNoOverflow(db, a, j);
    }
  }

  lemma NoJobNoOverflow(db: Db, a: Action, j: Id)
    requires j !in db.jobs
    ensures !Overflows(db, a, j)
  {
  }

  // ------------------------------------------------------------- whole histories

  /** No transaction of the history that commits overflows the queue of the job. */
  ghost predicate NeverOverflows(actions: seq<Action>, j: Id) {
    forall k :: 0 <= k < |actions| ==> Fits(Exec(actions[..k]), actions[k], j)
  }

  ghost predicate Fits(db: Db, a: Action, j: Id) {
    Apply(db, a).Ok? ==> !Overflows(db, a, j)
  }

  lemma DoQueue(db: Db, a: Action, j: Id)
    requires Sound(db) && QueueOk(db, j) && DueOnce(a)
    ensures QueueOk(Do(db, a), j) <==> Fits(db, a, j)
  {
    hide Sound, Apply, Overflows;
    if Apply(db, a).Ok? { QueueStep(db, a, j); }
  }

  lemma {:induction false} QueueFrom(actions: seq<Action>, j: Id, k: nat)
    requires k <= |actions| && NeverOverflows(actions, j) && forall i :: 0 <= i < |actions| ==> DueOnce(actions[i])
    ensures QueueOk(Exec(actions[..k]), j)
    decreases k
  {
    hide Sound, Fits, Do;
    if k > 0 {
      assert actions[..k][..k - 1] == actions[..k - 1];
      QueueFrom(actions, j, k - 1);
      ExecSound(actions[..k - 1]);
      hide QueueOk;
      DoQueue(Exec(actions[..k - 1]), actions[k - 1], j);
    }
  }

  /**
   The pending runs of a job are within max_queue_size throughout a history if and only if none
   of its transactions overflows, as said before each of them.
   */
  lemma QueueBoundExactly(actions: seq<Action>, j: Id)
    requires forall i :: 0 <= i < |actions| ==> DueOnce(actions[i])
    ensures (forall k :: 0 <= k <= |actions| ==> QueueOk(Exec(actions[..k]), j)) <==> NeverOverflows(actions, j)
  {
    hide Sound, Fits, Do, QueueOk;
    if NeverOverflows(actions, j) {
      forall k | 0 <= k <= |actions| ensures QueueOk(Exec(actions[..k]), j) { QueueFrom(actions, j, k); }
    } else {
      var k :| 0 <= k < |actions| && !Fits(Exec(actions[..k]), actions[k], j);
      assert actions[..k + 1][..k] == actions[..k];
      ExecSound(actions[..k]);
      if QueueOk(Exec(actions[..k]), j) {
        DoQueue(Exec(actions[..k]), actions[k], j);
        assert !QueueOk(Exec(actions[..k + 1]), j);
      }
    }
  }
}
