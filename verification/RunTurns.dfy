/** The turn of a due job: the runs it starts and the row it leaves, on the columns of the tables. */
module RunTurns {
  import opened RunTypes
  import opened RunTransactions
  import opened RunRows
  import opened RunRefinement
  import opened RunHistory
  import opened RunQueue
  import opened RunStarts

  // ---------------------------------------------------------------- the job's row

  /** Of the job's own columns only its next time can have changed. */
  predicate OnlyNextTime(a: Job, b: Job) {
    b == a.(nextRunAt := b.nextRunAt)
  }

  lemma AdmitRow(db: Db, j: Id, trigger: Trigger, route: Route, at: Time, now: Time, parent: Option<Id>, rearm: bool)
    requires j in db.jobs && Admit(db, j, trigger, route, at, now, parent, rearm).Ok?
    ensures var next := Admit(db, j, trigger, route, at, now, parent, rearm).value.0;
            j in next.jobs && OnlyNextTime(db.jobs[j], next.jobs[j])
  {
    hide Decide;
    CoverRow(db, j, now);
    hide Cover;
  }

  lemma CoverRow(db: Db, j: Id, now: Time)
    requires j in db.jobs
    ensures j in Cover(db, j, now).jobs && OnlyNextTime(db.jobs[j], Cover(db, j, now).jobs[j])
  {
  }

  // ------------------------------------------------------------ runs for due times

  /** A run of the job that was not one before. */
  predicate NewOf(db: Db, next: Db, j: Id, x: Id) {
    x in next.runs && next.runs[x].job == j && !(x in db.runs && db.runs[x].job == j)
  }

  /** A new run of the job by schedule for this due time, under an identifier that was not in use. */
  ghost predicate RunFor(db: Db, next: Db, j: Id, at: Time, x: Id)
    requires j in db.jobs
  {
    && x in next.runs && x >= db.unused && next.runs[x].job == j && next.runs[x].tenant == db.jobs[j].tenant
    && next.runs[x].trigger.BySchedule? && next.runs[x].attempt == 1 && next.runs[x].scheduledAt == at
    && next.runs[x].parent.None? && next.runs[x].retryOf.None?
    && (next.runs[x].rearm <==> db.jobs[j].kind.FixedDelay?)
  }

  ghost predicate HasRunFor(db: Db, next: Db, j: Id, at: Time)
    requires j in db.jobs
  {
    exists x :: RunFor(db, next, j, at, x)
  }

  ghost predicate ForSomeTime(db: Db, next: Db, j: Id, times: seq<Time>, x: Id)
    requires j in db.jobs
  {
    exists i :: 0 <= i < |times| && RunFor(db, next, j, times[i], x)
  }

  /** No run goes away or changes its job. */
  ghost predicate RunsStay(db: Db, next: Db) {
    forall x :: x in db.runs ==> x in next.runs && next.runs[x].job == db.runs[x].job
  }

  /** Every due time has its run, every new run of the job its due time, and the old runs are still there. */
  ghost predicate Served(db: Db, next: Db, j: Id, times: seq<Time>)
    requires j in db.jobs
  {
    && Low(next) && db.unused <= next.unused && RunsStay(db, next)
    && j in next.jobs && OnlyNextTime(db.jobs[j], next.jobs[j])
    && (forall i :: 0 <= i < |times| ==> HasRunFor(db, next, j, times[i]))
    && (forall x :: NewOf(db, next, j, x) ==> ForSomeTime(db, next, j, times, x))
    && (forall x :: x in db.runs && db.runs[x].job == j ==> x in next.runs && SameIdentity(db.runs[x], next.runs[x]))
  }

  /** What one due time does, whether by the fast path or not. */
  ghost predicate OneServed(db: Db, mid: Db, j: Id, at: Time)
    requires j in db.jobs
  {
    && Low(mid) && db.unused <= mid.unused && RunsStay(db, mid)
    && j in mid.jobs && OnlyNextTime(db.jobs[j], mid.jobs[j])
    && HasRunFor(db, mid, j, at)
    && (forall x :: NewOf(db, mid, j, x) ==> RunFor(db, mid, j, at, x))
    && (forall x :: x in db.runs && db.runs[x].job == j ==> x in mid.runs && SameIdentity(db.runs[x], mid.runs[x]))
  }

  lemma FastServes(db: Db, j: Id, at: Time, now: Time)
    requires Low(db) && j in db.jobs
    ensures var base := NewRun(db.jobs[j], j, BySchedule, Pending, at, now, None, db.jobs[j].kind.FixedDelay?);
            OneServed(db, Launch(db, base, Plain), j, at)
  {
    var base := NewRun(db.jobs[j], j, BySchedule, Pending, at, now, None, db.jobs[j].kind.FixedDelay?);
    var mid := Launch(db, base, Plain);
    assert mid.runs == db.runs[db.unused := base] && db.unused !in db.runs && mid.unused == db.unused + 1;
    LaunchJobs(db, base, Plain);
    hide Launch;
    AddedServes(db, mid, base, j, at);
  }

  lemma AddedServes(db: Db, mid: Db, base: Run, j: Id, at: Time)
    requires Low(db) && j in db.jobs && mid.jobs == db.jobs && mid.unused == db.unused + 1
    requires mid.runs == db.runs[db.unused := base] && db.unused !in db.runs
    requires base.job == j && base.tenant == db.jobs[j].tenant && base.trigger.BySchedule? && base.attempt == 1
    requires base.scheduledAt == at && base.parent.None? && base.retryOf.None?
    requires base.rearm == db.jobs[j].kind.FixedDelay?
    ensures OneServed(db, mid, j, at)
  {
    assert RunFor(db, mid, j, at, db.unused);
  }

  lemma AdmitServes(db: Db, j: Id, at: Time, route: Route, now: Time)
    requires Low(db) && j in db.jobs
    requires Admit(db, j, BySchedule, route, at, now, None, db.jobs[j].kind.FixedDelay?).Ok?
    ensures OneServed(db, Admit(db, j, BySchedule, route, at, now, None, db.jobs[j].kind.FixedDelay?).value.0, j, at)
  {
    var o := Order(j, BySchedule, at, now, None, db.jobs[j].kind.FixedDelay?);
    var mid := Admit(db, j, BySchedule, route, at, now, None, o.rearm).value.0;
    AdmitObeys(db, route, o);
    AdmitRow(db, j, BySchedule, route, at, now, None, o.rearm);
    AdmitOwn(db, j, BySchedule, route, at, now, None, o.rearm);
    AdmitGrows(db, j, BySchedule, route, at, now, None, o.rearm);
    hide Admit, Fires, Covers;
    ObeyedParts(db, mid, o, route, db.unused);
    if Fires(db, j, route) {
      OrderServes(db, mid, o, route, true, db.unused, if route.Plain? then 1 else |route.nodes|);
      FiresSome(db, j, route);
    } else {
      OrderServes(db, mid, o, Plain, false, db.unused, 1);
    }
    OldServed(db, mid, o, Fires(db, j, route) && Covers(db, j));
  }

  lemma FiresSome(db: Db, j: Id, route: Route)
    requires j in db.jobs && Fires(db, j, route)
    ensures route.Broadcast? ==> |route.nodes| > 0
  {
  }

  lemma AdmitGrows(db: Db, j: Id, trigger: Trigger, route: Route, at: Time, now: Time, parent: Option<Id>, rearm: bool)
    requires Low(db) && j in db.jobs && Admit(db, j, trigger, route, at, now, parent, rearm).Ok?
    ensures var next := Admit(db, j, trigger, route, at, now, parent, rearm).value.0;
            db.unused <= next.unused && RunsStay(db, next)
  {
    hide Decide, Cover, Launch;
    var o := Order(j, trigger, at, now, parent, rearm);
    CoverObeys(db, o);
    var job, covered := db.jobs[j], Cover(db, j, now);
    if Decide(db, j, route).Fire? {
      var base := NewRun(job, j, trigger, Pending, at, now, parent, rearm);
      LaunchStays(if Decide(db, j, route).cover then covered else db, base, route);
    } else {
      LaunchStays(db, NewRun(job, j, trigger, RunTypes.Skipped, at, now, parent, rearm), Plain);
    }
  }

  lemma LaunchStays(db: Db, base: Run, route: Route)
    requires Low(db)
    ensures db.unused <= Launch(db, base, route).unused && RunsStay(db, Launch(db, base, route))
  {
    forall x | x in db.runs ensures x in Launch(db, base, route).runs && Launch(db, base, route).runs[x] == db.runs[x] {
      LaunchedRows(db, base, route, x);
    }
  }

  lemma OrderServes(db: Db, mid: Db, o: Order, route: Route, pending: bool, first: Id, n: nat)
    requires NewRuns(db, mid, o, route, pending, first, n) && o.trigger.BySchedule? && o.parent.None?
    requires o.rearm == db.jobs[o.job].kind.FixedDelay?
    ensures n > 0 ==> HasRunFor(db, mid, o.job, o.at)
    ensures forall x :: NewOf(db, mid, o.job, x) ==> RunFor(db, mid, o.job, o.at, x)
  {
    forall x: Id | first <= x < first + n ensures RunFor(db, mid, o.job, o.at, x) {
      assert Ordered(mid.runs[x], o, db.jobs[o.job].tenant, pending);
    }
    if n > 0 { assert RunFor(db, mid, o.job, o.at, first); }
  }

  lemma OldServed(db: Db, mid: Db, o: Order, covers: bool)
    requires OldRuns(db, mid, o, covers)
    ensures forall x :: x in db.runs && db.runs[x].job == o.job ==>
              x in mid.runs && SameIdentity(db.runs[x], mid.runs[x])
  {
  }

  /** One due time after another. */
  lemma ServedThen(db: Db, mid: Db, next: Db, j: Id, times: seq<Time>)
    requires times != [] && j in db.jobs && Low(db) && OneServed(db, mid, j, times[0])
    requires Served(mid, next, j, times[1..])
    ensures Served(db, next, j, times)
  {
    hide OnlyNextTime;
    RowThen(db, mid, next, j);
    forall i | 0 <= i < |times| ensures HasRunFor(db, next, j, times[i]) {
      if i == 0 {
        var x :| RunFor(db, mid, j, times[0], x);
        FirstLater(db, mid, next, j, times[0], x);
      } else {
        assert HasRunFor(mid, next, j, times[1..][i - 1]);
        var x :| RunFor(mid, next, j, times[i], x);
        LaterNew(db, mid, next, j, times[i], x);
      }
    }
    forall x | NewOf(db, next, j, x) ensures ForSomeTime(db, next, j, times, x) {
      if x in mid.runs && mid.runs[x].job == j {
        FirstLater(db, mid, next, j, times[0], x);
        assert RunFor(db, next, j, times[0], x);
      } else {
        LaterTime(db, mid, next, j, times, x);
      }
    }
  }

  lemma RowThen(db: Db, mid: Db, next: Db, j: Id)
    requires j in db.jobs && j in mid.jobs && j in next.jobs
    requires OnlyNextTime(db.jobs[j], mid.jobs[j]) && OnlyNextTime(mid.jobs[j], next.jobs[j])
    ensures OnlyNextTime(db.jobs[j], next.jobs[j])
    ensures mid.jobs[j].tenant == db.jobs[j].tenant && mid.jobs[j].kind == db.jobs[j].kind
  {
  }

  lemma FirstLater(db: Db, mid: Db, next: Db, j: Id, at: Time, x: Id)
    requires j in db.jobs && RunFor(db, mid, j, at, x) && x in next.runs && SameIdentity(mid.runs[x], next.runs[x])
    ensures RunFor(db, next, j, at, x)
  {
  }

  lemma LaterNew(db: Db, mid: Db, next: Db, j: Id, at: Time, x: Id)
    requires j in db.jobs && j in mid.jobs && RunFor(mid, next, j, at, x) && db.unused <= mid.unused
    requires mid.jobs[j].tenant == db.jobs[j].tenant && mid.jobs[j].kind == db.jobs[j].kind
    ensures RunFor(db, next, j, at, x)
  {
  }

  lemma LaterTime(db: Db, mid: Db, next: Db, j: Id, times: seq<Time>, x: Id)
    requires times != [] && j in db.jobs && j in mid.jobs && db.unused <= mid.unused
    requires mid.jobs[j].tenant == db.jobs[j].tenant && mid.jobs[j].kind == db.jobs[j].kind
    requires ForSomeTime(mid, next, j, times[1..], x)
    ensures ForSomeTime(db, next, j, times, x)
  {
    var i :| 0 <= i < |times[1..]| && RunFor(mid, next, j, times[1..][i], x);
    LaterNew(db, mid, next, j, times[i + 1], x);
    assert RunFor(db, next, j, times[i + 1], x);
  }

  /** The due times of one job, in order, by either path. */
  lemma {:induction false} TimesServed(db: Db, j: Id, times: seq<Time>, route: Route, now: Time, skipped: bool)
    requires Low(db) && j in db.jobs && EnqueueTimes(db, j, times, route, now, skipped).Ok?
    ensures Served(db, EnqueueTimes(db, j, times, route, now, skipped).value.0, j, times)
    decreases times
  {
    if times != [] {
      hide Admit, Launch, Served;
      var rearm := db.jobs[j].kind.FixedDelay?;
      var base := NewRun(db.jobs[j], j, BySchedule, Pending, times[0], now, None, rearm);
      var mid, flag := Launch(db, base, Plain), false;
      if FastPath(db.jobs[j], route) {
        FastServes(db, j, times[0], now);
      } else {
        var r := Admit(db, j, BySchedule, route, times[0], now, None, rearm);
        mid, flag := r.value.0, !r.value.1;
        AdmitServes(db, j, times[0], route, now);
      }
      TimesServed(mid, j, times[1..], route, now, flag);
      ServedThen(db, mid, EnqueueTimes(db, j, times, route, now, skipped).value.0, j, times);
    } else {
      assert forall x :: x in db.runs && db.runs[x].job == j ==> SameIdentity(db.runs[x], db.runs[x]);
    }
  }

  // ------------------------------------------------------------------- one turn

  /** Enabled, with a next time that has come. */
  predicate Comes(db: Db, j: Id, now: Time) {
    j in db.jobs && db.jobs[j].enabled && db.jobs[j].nextRunAt.Some? && db.jobs[j].nextRunAt.value <= now
  }

  /** The turn of a job that is no fixed delay: what its schedule answered is done and stored. */
  ghost predicate TurnDone(db: Db, next: Db, j: Id, plan: Plan, route: Route, now: Time)
    requires j in db.jobs
  {
    && (|plan.due| == 1 ==> OneDone(db, next, Order(j, BySchedule, plan.due[0], now, None, false), route))
    && j in next.jobs
    && next.jobs[j] == db.jobs[j].(nextRunAt := plan.next, enabled := !(db.jobs[j].kind.Once? && plan.next.None?))
    && (forall i :: 0 <= i < |plan.due| ==> HasRunFor(db, next, j, plan.due[i]))
    && (forall x :: NewOf(db, next, j, x) ==> ForSomeTime(db, next, j, plan.due, x))
  }

  /** A single due time is done as its policy and its queue called for. */
  ghost predicate OneDone(db: Db, next: Db, o: Order, route: Route)
    requires o.job in db.jobs
  {
    exists first :: OrderDone(db, next, o, route, first)
  }

  lemma OwnTurn(db: Db, item: DueItem, now: Time)
    requires Low(db) && Comes(db, item.job, now) && !db.jobs[item.job].kind.FixedDelay?
    requires EnqueueJob(db, item, now).Ok?
    ensures TurnDone(db, EnqueueJob(db, item, now).value, item.job, item.plan, item.route, now)
  {
    hide EnqueueTimes;
    var j, next := item.job, EnqueueJob(db, item, now).value;
    var mid := EnqueueTimes(db, j, item.plan.due, item.route, now, false).value.0;
    TimesServed(db, j, item.plan.due, item.route, now, false);
    assert next.runs == mid.runs;
    if |item.plan.due| == 1 {
      assert item.plan.due == [item.plan.due[0]];
      OneTimeDone(db, j, item.plan.due[0], item.route, now, next);
    }
    hide OneDone;
    forall i | 0 <= i < |item.plan.due| ensures HasRunFor(db, next, j, item.plan.due[i]) {
      var x :| RunFor(db, mid, j, item.plan.due[i], x);
      assert RunFor(db, next, j, item.plan.due[i], x);
    }
    forall x | NewOf(db, next, j, x)
      ensures ForSomeTime(db, next, j, item.plan.due, x)
    {
      assert ForSomeTime(db, mid, j, item.plan.due, x);
      var i :| 0 <= i < |item.plan.due| && RunFor(db, mid, j, item.plan.due[i], x);
      assert RunFor(db, next, j, item.plan.due[i], x);
    }
  }

  /** The batched path, which asks nobody. */
  predicate Parallel(job: Job, route: Route) {
    job.policy.Parallel? && route.Plain?
  }

  /** One order of the schedule, by either path. */
  ghost predicate OrderDone(db: Db, next: Db, o: Order, route: Route, first: Id)
    requires o.job in db.jobs
  {
    if Parallel(db.jobs[o.job], route) then OldRuns(db, next, o, false) && NewRuns(db, next, o, Plain, true, first, 1)
    else Obeyed(db, next, o, route, first)
  }

  lemma OneTimeDone(db: Db, j: Id, at: Time, route: Route, now: Time, next: Db)
    requires Low(db) && j in db.jobs && EnqueueTimes(db, j, [at], route, now, false).Ok?
    requires next.runs == EnqueueTimes(db, j, [at], route, now, false).value.0.runs
    ensures var o := Order(j, BySchedule, at, now, None, db.jobs[j].kind.FixedDelay?);
            OrderDone(db, next, o, route, db.unused)
    ensures EnqueueTimes(db, j, [at], route, now, false).value.1
            <==> !Parallel(db.jobs[j], route) && !Fires(db, j, route)
  {
    hide EnqueueTimes, OldRuns, NewRuns, Admit, Launch, Fires, Covers, Obeyed;
    var job, o := db.jobs[j], Order(j, BySchedule, at, now, None, db.jobs[j].kind.FixedDelay?);
    OneTime(db, j, at, route, now);
    var mid := EnqueueTimes(db, j, [at], route, now, false).value.0;
    if Parallel(job, route) {
      LaunchObeys(db, NewRun(job, j, BySchedule, Pending, at, now, None, o.rearm), Plain, o, true);
      AdvancedRuns(db, mid, next, o, Plain, false, true, 1);
    } else {
      AdmitObeys(db, route, o);
      ObeyedParts(db, mid, o, route, db.unused);
      if Fires(db, j, route) {
        AdvancedRuns(db, mid, next, o, route, Covers(db, j), true, if route.Plain? then 1 else |route.nodes|);
      } else {
        AdvancedRuns(db, mid, next, o, Plain, false, false, 1);
      }
      ObeyedFrom(db, next, o, route, db.unused);
    }
  }

  // -------------------------------------------------------------- the fixed delay

  /** When a fixed delay counts as missed. */
  predicate Missed(job: Job, now: Time)
    requires job.nextRunAt.Some?
  {
    now - job.nextRunAt.value > 2_000_000_000
  }

  /**
   The turn of a fixed delay: a missed one that is to be skipped only gets a new next time; any other
   has one order, for its due time or for now, and no next time until that is done, unless the
   order is refused.
   */
  ghost predicate DelayDone(db: Db, next: Db, j: Id, route: Route, now: Time, first: Id)
    requires j in db.jobs && db.jobs[j].nextRunAt.Some?
  {
    var job := db.jobs[j];
    var later := Some(now + Duration(job.period));
    j in next.jobs &&
    if Missed(job, now) && job.misfire.MisfireSkip? then
      next.jobs[j] == job.(nextRunAt := later) && RunsOf(next, j) == RunsOf(db, j)
    else
      var o := Order(j, BySchedule, if Missed(job, now) then now else job.nextRunAt.value, now, None, true);
      && next.jobs[j] == job.(nextRunAt := if Parallel(job, route) || Fires(db, j, route) then None else later)
      && OrderDone(db, next, o, route, first)
  }

  ghost predicate DelayTurn(db: Db, next: Db, j: Id, route: Route, now: Time)
    requires j in db.jobs && db.jobs[j].nextRunAt.Some?
  {
    exists first :: DelayDone(db, next, j, route, now, first)
  }

  lemma OwnDelay(db: Db, item: DueItem, now: Time)
    requires Low(db) && Comes(db, item.job, now) && db.jobs[item.job].kind.FixedDelay?
    requires EnqueueJob(db, item, now).Ok?
    ensures DelayDone(db, EnqueueJob(db, item, now).value, item.job, item.route, now, db.unused)
  {
    hide EnqueueJob, EnqueueTimes, OrderDone, Fires;
    var j, job, route := item.job, db.jobs[item.job], item.route;
    if Missed(job, now) && job.misfire.MisfireSkip? {
      SkippedTurn(db, item, now);
    } else {
      var at := if Missed(job, now) then now else job.nextRunAt.value;
      OneOrder(db, item, now, at);
      OneTimeDone(db, j, at, route, now, EnqueueJob(db, item, now).value);
    }
  }

  lemma SkippedTurn(db: Db, item: DueItem, now: Time)
    requires Comes(db, item.job, now) && db.jobs[item.job].kind.FixedDelay? && EnqueueJob(db, item, now).Ok?
    requires Missed(db.jobs[item.job], now) && db.jobs[item.job].misfire.MisfireSkip?
    ensures var j, job, next := item.job, db.jobs[item.job], EnqueueJob(db, item, now).value;
            && j in next.jobs && next.jobs[j] == job.(nextRunAt := Some(now + Duration(job.period)))
            && RunsOf(next, j) == RunsOf(db, j)
  {
    assert EnqueueJob(db, item, now).value.runs == db.runs;
  }

  /** The fixed delay has one due time, and its row is closed accordingly. */
  lemma OneOrder(db: Db, item: DueItem, now: Time, at: Time)
    requires Low(db) && Comes(db, item.job, now) && db.jobs[item.job].kind.FixedDelay?
    requires EnqueueJob(db, item, now).Ok?
    requires var job := db.jobs[item.job];
             && !(Missed(job, now) && job.misfire.MisfireSkip?)
             && at == if Missed(job, now) then now else job.nextRunAt.value
    ensures var job, next := db.jobs[item.job], EnqueueJob(db, item, now).value;
            var t := EnqueueTimes(db, item.job, [at], item.route, now, false);
            && t.Ok? && item.job in t.value.0.jobs && next == Closed(t.value.0, item.job, job, t.value.1, now)
  {
    var j, job := item.job, db.jobs[item.job];
    assert DuePlan(job, item.plan, now) == Plan([at], None);
    hide EnqueueTimes, DuePlan, Advance, Closed, Missed;
    var t := EnqueueTimes(db, j, [at], item.route, now, false);
    ServedRow(db, j, [at], item.route, now);
    AdvanceCloses(t.value.0, j, job, t.value.1, now);
  }

  lemma ServedRow(db: Db, j: Id, times: seq<Time>, route: Route, now: Time)
    requires Low(db) && j in db.jobs && EnqueueTimes(db, j, times, route, now, false).Ok?
    ensures var mid := EnqueueTimes(db, j, times, route, now, false).value.0;
            j in mid.jobs && OnlyNextTime(db.jobs[j], mid.jobs[j])
  {
    hide EnqueueTimes;
    TimesServed(db, j, times, route, now, false);
  }

  lemma AdvanceCloses(mid: Db, j: Id, job: Job, refused: bool, now: Time)
    requires j in mid.jobs && OnlyNextTime(job, mid.jobs[j]) && job.kind.FixedDelay?
    ensures Advance(mid, j, if refused then Some(NextDelay(job, now)) else None) == Closed(mid, j, job, refused, now)
  {
  }

  /** The row of a fixed delay after its turn. */
  function Closed(mid: Db, j: Id, job: Job, refused: bool, now: Time): Db {
    var later := Some(now + Duration(job.period));
    mid.(jobs := mid.jobs[j := job.(nextRunAt := if refused then later else None)])
  }

  lemma AdvancedRuns(db: Db, mid: Db, next: Db, o: Order, route: Route, covers: bool, pending: bool, n: nat)
    requires next.runs == mid.runs
    requires OldRuns(db, mid, o, covers) && NewRuns(db, mid, o, route, pending, db.unused, n)
    ensures OldRuns(db, next, o, covers) && NewRuns(db, next, o, route, pending, db.unused, n)
  {
  }

  // ------------------------------------------------------------------ in the batch

  /** The state in which one pass comes to the job's item. */
  lemma {:induction false} PassTurn(db: Db, items: seq<DueItem>, now: Time, fast: bool, k: nat) returns (mid: Db)
    requires Low(db) && k < |items| && OncePerJob(items) && items[k].job in db.jobs && Selected(db, items[k], fast)
    requires EnqueuePass(db, items, now, fast).Ok?
    ensures Untouched(db, mid, items[k].job) && Low(mid) && EnqueueJob(mid, items[k], now).Ok?
    ensures Untouched(EnqueueJob(mid, items[k], now).value, EnqueuePass(db, items, now, fast).value, items[k].job)
    decreases items
  {
    hide EnqueueJob, Untouched;
    var j, rest := items[k].job, items[1..];
    assert forall i :: 0 <= i < |rest| ==> rest[i] == items[i + 1];
    if k == 0 {
      mid := db;
      SameUntouched(db, db, j);
      JobLow(db, items[0], now);
      PassOther(EnqueueJob(db, items[0], now).value, rest, now, fast, j);
    } else if Selected(db, items[0], fast) {
      var first := EnqueueJob(db, items[0], now).value;
      JobOther(db, items[0], now, j);
      LowAfter(db, first, j);
      SameRow(db, first, j);
      mid := PassTurn(first, rest, now, fast, k - 1);
      UntouchedThen(db, first, mid, j);
    } else {
      mid := PassTurn(db, rest, now, fast, k - 1);
    }
  }

  lemma JobLow(db: Db, item: DueItem, now: Time)
    requires Low(db) && EnqueueJob(db, item, now).Ok?
    ensures Low(EnqueueJob(db, item, now).value)
  {
    hide EnqueueTimes, DuePlan;
    if IsDue(db, item.job, now) {
      TimesServed(db, item.job, DuePlan(db.jobs[item.job], item.plan, now).due, item.route, now, false);
    }
  }

  /** The state in which the batch comes to the job, in whichever pass that is. */
  lemma BatchTurn(db: Db, items: seq<DueItem>, now: Time, k: nat) returns (mid: Db)
    requires Low(db) && k < |items| && OncePerJob(items) && items[k].job in db.jobs && EnqueueDue(db, items, now).Ok?
    ensures Untouched(db, mid, items[k].job) && Low(mid) && EnqueueJob(mid, items[k], now).Ok?
    ensures Untouched(EnqueueJob(mid, items[k], now).value, EnqueueDue(db, items, now).value, items[k].job)
  {
    hide EnqueuePass, EnqueueJob, Untouched;
    var j := items[k].job;
    var slow := EnqueuePass(db, items, now, false).value;
    assert forall i :: 0 <= i < |items| && items[i].job == j ==> i == k;
    if FastPath(db.jobs[j], items[k].route) {
      PassOther(db, items, now, false, j);
      LowAfter(db, slow, j);
      SameRow(db, slow, j);
      mid := PassTurn(slow, items, now, true, k);
      UntouchedThen(db, slow, mid, j);
    } else {
      mid := PassTurn(db, items, now, false, k);
      var after := EnqueueJob(mid, items[k], now).value;
      LowAfter(after, slow, j);
      SamePolicy(db, mid, after, slow, items[k], now);
      PassOther(slow, items, now, true, j);
      UntouchedThen(after, slow, EnqueueDue(db, items, now).value, j);
    }
  }

  /** The turn does not change whether the job is on the fast path. */
  lemma SamePolicy(db: Db, mid: Db, after: Db, slow: Db, item: DueItem, now: Time)
    requires Low(mid) && item.job in db.jobs && Untouched(db, mid, item.job) && EnqueueJob(mid, item, now).Ok?
    requires after == EnqueueJob(mid, item, now).value && Untouched(after, slow, item.job)
    ensures item.job in slow.jobs && slow.jobs[item.job].policy == db.jobs[item.job].policy
  {
    hide EnqueueTimes, DuePlan;
    if IsDue(mid, item.job, now) {
      TimesServed(mid, item.job, DuePlan(mid.jobs[item.job], item.plan, now).due, item.route, now, false);
    }
  }

  lemma OrderAmongOthers(db: Db, mid: Db, done: Db, next: Db, o: Order, route: Route, first: Id)
    requires Low(db) && o.job in db.jobs && Untouched(db, mid, o.job) && Untouched(done, next, o.job)
    requires o.job in mid.jobs && OrderDone(mid, done, o, route, first)
    ensures OrderDone(db, next, o, route, first)
  {
    hide Untouched, OldRuns, NewRuns, Obeyed;
    SameRow(db, mid, o.job);
    if Parallel(db.jobs[o.job], route) {
      OldRunsAmong(db, mid, done, next, o, false);
      NewRunsAmong(db, mid, done, next, o, Plain, true, first, 1);
    } else {
      ObeyedAmongOthers(db, mid, done, next, o, route, first);
    }
  }

  lemma OneAmongOthers(db: Db, mid: Db, done: Db, next: Db, o: Order, route: Route)
    requires Low(db) && o.job in db.jobs && Untouched(db, mid, o.job) && Untouched(done, next, o.job)
    requires o.job in mid.jobs && OneDone(mid, done, o, route)
    ensures OneDone(db, next, o, route)
  {
    hide OrderDone, Untouched;
    var first :| OrderDone(mid, done, o, route, first);
    OrderAmongOthers(db, mid, done, next, o, route, first);
  }

  lemma TurnAmongOthers(db: Db, mid: Db, done: Db, next: Db, j: Id, plan: Plan, route: Route, now: Time)
    requires Low(db) && j in db.jobs && Untouched(db, mid, j) && Untouched(done, next, j)
    requires TurnDone(mid, done, j, plan, route, now)
    ensures TurnDone(db, next, j, plan, route, now)
  {
    if |plan.due| == 1 {
      OneAmongOthers(db, mid, done, next, Order(j, BySchedule, plan.due[0], now, None, false), route);
    }
    hide OneDone;
    forall i | 0 <= i < |plan.due| ensures HasRunFor(db, next, j, plan.due[i]) {
      var x :| RunFor(mid, done, j, plan.due[i], x);
      RunAmongOthers(db, mid, done, next, j, plan.due[i], x);
    }
    forall x | NewOf(db, next, j, x) ensures ForSomeTime(db, next, j, plan.due, x) {
      SameRun(done, next, j, x);
      SameRun(db, mid, j, x);
      assert NewOf(mid, done, j, x) && ForSomeTime(mid, done, j, plan.due, x);
      var i :| 0 <= i < |plan.due| && RunFor(mid, done, j, plan.due[i], x);
      RunAmongOthers(db, mid, done, next, j, plan.due[i], x);
    }
  }

  lemma RunAmongOthers(db: Db, mid: Db, done: Db, next: Db, j: Id, at: Time, x: Id)
    requires j in db.jobs && Untouched(db, mid, j) && Untouched(done, next, j) && RunFor(mid, done, j, at, x)
    ensures RunFor(db, next, j, at, x)
  {
    SameRun(done, next, j, x);
  }

  lemma DelayAmongOthers(db: Db, mid: Db, done: Db, next: Db, j: Id, route: Route, now: Time)
    requires Low(db) && Comes(db, j, now) && Untouched(db, mid, j) && Comes(mid, j, now)
    requires DelayDone(mid, done, j, route, now, mid.unused) && Untouched(done, next, j)
    ensures DelayDone(db, next, j, route, now, mid.unused)
  {
    hide Untouched, Fires, Covers, OrderDone;
    SameRow(db, mid, j);
    FiresSame(db, mid, j, route);
    LowAfter(done, next, j);
    SameRow(done, next, j);
    UntouchedRuns(db, mid, j);
    UntouchedRuns(done, next, j);
    var job := db.jobs[j];
    var o := Order(j, BySchedule, if Missed(job, now) then now else job.nextRunAt.value, now, None, true);
    if !(Missed(job, now) && job.misfire.MisfireSkip?) {
      OrderAmongOthers(db, mid, done, next, o, route, mid.unused);
    }
  }

  /**
   A batch serves every job that is due: its next time is the one its schedule answered, it is
   switched off exactly if it was one-shot and has none, its other columns stay, and for each of its
   due times there is a new run, started or recorded as skipped, and no other. A fixed delay has its own rule.
   */
  lemma DueJobsAreServed(db: Db, items: seq<DueItem>, now: Time, k: nat)
    requires Sound(db) && k < |items| && OncePerJob(items) && EnqueueDue(db, items, now).Ok?
    requires Comes(db, items[k].job, now)
    ensures var j, next := items[k].job, EnqueueDue(db, items, now).value;
            if db.jobs[j].kind.FixedDelay? then DelayTurn(db, next, j, items[k].route, now)
            else TurnDone(db, next, j, items[k].plan, items[k].route, now)
  {
    SoundLow(db);
    hide Sound, EnqueueDue, EnqueueJob, Untouched, DelayDone, TurnDone;
    var j := items[k].job;
    var mid := BatchTurn(db, items, now, k);
    SameRow(db, mid, j);
    var done := EnqueueJob(mid, items[k], now).value;
    if db.jobs[j].kind.FixedDelay? {
      OwnDelay(mid, items[k], now);
      DelayAmongOthers(db, mid, done, EnqueueDue(db, items, now).value, j, items[k].route, now);
    } else {
      OwnTurn(mid, items[k], now);
      TurnAmongOthers(db, mid, done, EnqueueDue(db, items, now).value, j, items[k].plan, items[k].route, now);
    }
  }

  /** A job that is not in the batch, or whose time has not come, keeps its row and its runs. */
  lemma OthersAreLeftAlone(db: Db, items: seq<DueItem>, now: Time, j: Id)
    requires Sound(db) && OncePerJob(items) && EnqueueDue(db, items, now).Ok? && j in db.jobs
    requires !Comes(db, j, now) || forall k :: 0 <= k < |items| ==> items[k].job != j
    ensures var next := EnqueueDue(db, items, now).value;
            j in next.jobs && next.jobs[j] == db.jobs[j] && RunsOf(next, j) == RunsOf(db, j)
  {
    SoundLow(db);
    hide Sound, EnqueuePass, Untouched;
    if k :| 0 <= k < |items| && items[k].job == j {
      var mid := BatchTurn(db, items, now, k);
      SameRow(db, mid, j);
      assert EnqueueJob(mid, items[k], now) == Ok(mid);
      UntouchedThen(db, mid, EnqueueDue(db, items, now).value, j);
    } else {
      var slow := EnqueuePass(db, items, now, false).value;
      PassOther(db, items, now, false, j);
      LowAfter(db, slow, j);
      PassOther(slow, items, now, true, j);
      UntouchedThen(db, slow, EnqueueDue(db, items, now).value, j);
    }
    SameRow(db, EnqueueDue(db, items, now).value, j);
    UntouchedRuns(db, EnqueueDue(db, items, now).value, j);
  }
}
