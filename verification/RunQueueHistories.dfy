/** One history for each way in which the queue of a job gets longer than its max_queue_size. */
module RunQueueHistories {
  import opened RunTypes
  import opened RunTransactions
  import opened RunSystem
  import opened RunHistory
  import opened RunTriggers
  import opened RunQueue

  /** A job by the calendar that allows one pending run and one retry. */
  const REPORT: Job := Job(0, Cron, 0, Parallel, FireOnce, 1, 1, 1, None, 60, true, None, 1)

  function Stored(job: Job): Job {
    job.(nextRunAt := Some(SECOND))
  }

  /** The database with nothing but this job, due at one second. */
  function JobOnly(job: Job): Db {
    EMPTY.(jobs := map[0 := Stored(job)], unused := 1)
  }

  lemma Created(job: Job)
    requires job.kind.Cron? && job.enabled && job.version == 1 && job.maxQueue >= 1 && job.maxConcurrent >= 1
    requires CanonicalPolicy(job.policy) == job.policy
    ensures Exec([DoCreateJob(job, 0, Some(SECOND))]) == JobOnly(job)
  {
    ExecSnoc([], DoCreateJob(job, 0, Some(SECOND)));
    assert [] + [DoCreateJob(job, 0, Some(SECOND))] == [DoCreateJob(job, 0, Some(SECOND))];
  }

  /** One more transaction that commits and overflows. */
  lemma Overflowed(actions: seq<Action>, a: Action, j: Id)
    requires QueueOk(Exec(actions), j) && DueOnce(a) && Apply(Exec(actions), a).Ok? && Overflows(Exec(actions), a, j)
    ensures !QueueOk(Exec(actions + [a]), j)
  {
    hide Sound, QueueOk, Overflows;
    ExecSound(actions);
    QueueStep(Exec(actions), a, j);
    ExecSnoc(actions, a);
  }

  // ------------------------------------------------------------------ the fast path

  function TwoDue(): Action {
    DoEnqueueDue([DueItem(0, Plan([0, SECOND], None), Plain)], SECOND)
  }

  lemma TwoDueRuns(job: Job)
    requires job.kind.Cron? && job.enabled && job.policy.Parallel?
    ensures var r := Apply(JobOnly(job), TwoDue());
            r.Ok? && |PendingRuns(r.value, 0)| == 2 && r.value.jobs == map[0 := job.(nextRunAt := None)]
  {
    var db, item := JobOnly(job), DueItem(0, Plan([0, SECOND], None), Plain);
    FastPathIgnoresTheQueue(db, 0, [0, SECOND], SECOND, false);
    FastTimes(db, 0, [0, SECOND], SECOND, false);
    NoRuns(db, 0);
    hide EnqueueTimes;
    var mid := EnqueueTimes(db, 0, [0, SECOND], Plain, SECOND, false).value.0;
    assert EnqueueJob(db, item, SECOND) == Ok(Advance(mid, 0, None));
    SamePending(mid, Advance(mid, 0, None), 0);
    assert Advance(mid, 0, None).jobs == map[0 := job.(nextRunAt := None)];
    hide EnqueueJob, Advance;
    assert [item][1..] == [];
    assert EnqueuePass(db, [item], SECOND, false) == Ok(db);
    assert EnqueuePass(db, [item], SECOND, true) == Ok(Advance(mid, 0, None));
  }

  lemma NoRuns(db: Db, j: Id)
    requires db.runs == map[]
    ensures PendingRuns(db, j) == {} && !HasActive(db, j)
  {
  }

  /** Two due times are enqueued for a job that allows one pending run. */
  lemma FastPathOverflows()
    ensures !QueueOk(Exec([DoCreateJob(REPORT, 0, Some(SECOND)), TwoDue()]), 0)
  {
    Created(REPORT);
    TwoDueRuns(REPORT);
    ExecSnoc([DoCreateJob(REPORT, 0, Some(SECOND))], TwoDue());
    assert [DoCreateJob(REPORT, 0, Some(SECOND))] + [TwoDue()] == [DoCreateJob(REPORT, 0, Some(SECOND)), TwoDue()];
  }

  // ---------------------------------------------------------------------- an update

  /** The limit is lowered below the queue. */
  lemma UpdateOverflows()
    ensures var wide := REPORT.(maxQueue := 2);
            !QueueOk(Exec([DoCreateJob(wide, 0, Some(SECOND)), TwoDue()] + [DoUpdateJob(0, REPORT, SECOND, None)]), 0)
  {
    var wide := REPORT.(maxQueue := 2);
    var update := DoUpdateJob(0, REPORT, SECOND, None);
    Created(wide);
    TwoDueRuns(wide);
    ExecSnoc([DoCreateJob(wide, 0, Some(SECOND))], TwoDue());
    assert [DoCreateJob(wide, 0, Some(SECOND))] + [TwoDue()] == [DoCreateJob(wide, 0, Some(SECOND)), TwoDue()];
    Overflowed([DoCreateJob(wide, 0, Some(SECOND)), TwoDue()], update, 0);
  }

  // ------------------------------------------------------------------- a broad cover

  function ByHand(route: Route): Action {
    DoTrigger(0, 0, "", route, SECOND)
  }

  function FirstRun(job: Job): Run {
    NewRun(Stored(job), 0, Manual, Pending, SECOND, SECOND, None, false)
  }

  /** The job, and one pending run of it. */
  function OneRun(job: Job): Db {
    Launch(JobOnly(job), FirstRun(job), Plain)
  }

  lemma TriggeredOnce(job: Job)
    requires job.tenant == 0 && job.maxQueue >= 1
    ensures Apply(JobOnly(job), ByHand(Plain)) == Ok(OneRun(job))
    ensures OneRun(job).runs == map[1 := FirstRun(job)]
  {
    NoRuns(JobOnly(job), 0);
    hide PendingRuns, HasActive;
  }

  lemma OnePending(db: Db, id: Id, row: Run)
    requires db.runs == map[id := row] && row.job == 0 && row.status.Pending?
    ensures PendingRuns(db, 0) == {id} && HasActive(db, 0)
  {
    assert ActiveIn(db, 0, id);
  }

  /** A broadcast to two nodes covers the one run that was pending. */
  lemma CoverOverflows()
    ensures var job, nodes := REPORT.(policy := CoverEarly), [Node("a", "a:1"), Node("b", "b:1")];
            !QueueOk(Exec([DoCreateJob(job, 0, Some(SECOND)), ByHand(Plain)] + [ByHand(Broadcast(nodes))]), 0)
  {
    var job, nodes := REPORT.(policy := CoverEarly), [Node("a", "a:1"), Node("b", "b:1")];
    var first := [DoCreateJob(job, 0, Some(SECOND)), ByHand(Plain)];
    Created(job);
    TriggeredOnce(job);
    ExecSnoc([DoCreateJob(job, 0, Some(SECOND))], ByHand(Plain));
    assert [DoCreateJob(job, 0, Some(SECOND))] + [ByHand(Plain)] == first;
    OnePending(OneRun(job), 1, FirstRun(job));
    CoversTwo(OneRun(job), job, nodes);
    Overflowed(first, ByHand(Broadcast(nodes)), 0);
  }

  lemma CoversTwo(db: Db, job: Job, nodes: seq<Node>)
    requires db.jobs == map[0 := Stored(job)] && job.policy.CoverEarly? && job.maxQueue == 1 && job.tenant == 0
    requires |PendingRuns(db, 0)| == 1 && HasActive(db, 0) && |nodes| == 2
    ensures QueueOk(db, 0) && Apply(db, ByHand(Broadcast(nodes))).Ok?
    ensures Overflows(db, ByHand(Broadcast(nodes)), 0)
  {
    hide PendingRuns, HasActive, FireRun;
  }

  // ------------------------------------------------------------------------ a retry

  const CAPS: Caps := Caps(map[0 := 1], map[])

  function Claims(): Action {
    DoClaim(CAPS, 1, {}, SECOND, SECOND)
  }

  /** The only run can be claimed: it is first in line and nothing is active. */
  lemma OnlyRunIsEligible(db: Db, id: Id, row: Run, job: Job)
    requires db.runs == map[id := row] && row.status.Pending? && row.availableAt <= SECOND
    requires row.job == 0 && row.tenant == 0 && row.shard.None?
    requires db.jobs == map[0 := job] && job.maxConcurrent == 1 && job.cluster.None?
    ensures EligibleRuns(db, CAPS, SECOND) == {id}
  {
    OnlyRunWithin(db, id, OfJob(0));
    OnlyRunWithin(db, id, OfTenant(0));
  }

  lemma OnlyRunWithin(db: Db, id: Id, scope: Scope)
    requires db.runs.Keys == {id} && db.runs[id].status.Pending? && InScope(db, id, scope)
    ensures WithinCap(db, CAPS, scope, 1, id, SECOND)
  {
    assert ActiveRuns(db, scope, SECOND) == {};
    var upTo := UpTo(db, CAPS, scope, id, SECOND);
    assert upTo == {} || upTo == {id};
  }

  lemma PicksOnly(db: Db, id: Id)
    requires id in db.runs
    ensures Pick(db, {id}, 1) == [id]
  {
    var m := Pick(db, {id}, 1)[0];
    assert IsFirst(db, {id}, m);
  }

  /** Its claim, which carries the token 2. */
  lemma Claimed(db: Db, row: Run, job: Job)
    requires db.runs == map[1 := row] && row.status.Pending? && row.availableAt <= SECOND && row.attempt == 1
    requires row.job == 0 && row.tenant == 0 && row.shard.None?
    requires db.jobs == map[0 := job] && job.maxConcurrent == 1 && job.cluster.None? && db.unused == 2
    ensures Apply(db, Claims()) == Ok(ClaimOne(db, 1, SECOND, SECOND))
  {
    OnlyRunIsEligible(db, 1, row, job);
    PicksOnly(db, 1);
    assert EligibleRuns(db, CAPS, SECOND) - {} == {1};
    hide EligibleRuns, Pick, ClaimOne;
    assert [1][1..] == [];
    assert ClaimEach(db, [1], SECOND, SECOND) == ClaimOne(db, 1, SECOND, SECOND);
  }

  /** The claimed run leaves the queue, and a second trigger fills it again. */
  lemma SecondTrigger(db: Db, row: Run, job: Job)
    requires db.runs == map[1 := row] && row.job == 0 && row.status.Running? && db.unused == 3
    requires db.jobs == map[0 := job] && job.policy.Serial? && job.maxQueue == 1 && job.tenant == 0
    ensures var next := Launch(db, NewRun(job, 0, Manual, Pending, SECOND, SECOND, None, false), Plain);
            && Apply(db, ByHand(Plain)) == Ok(next) && PendingRuns(next, 0) == {3}
            && 1 in next.runs && next.runs[1] == row && next.claims == db.claims && next.jobs == db.jobs
  {
    var base := NewRun(job, 0, Manual, Pending, SECOND, SECOND, None, false);
    var next := Launch(db, base, Plain);
    hide Apply, Launch, PendingRuns;
    LaunchedThird(db, base);
    SecondQueue(db, next, row, base);
    SerialFires(db, job);
  }

  lemma SerialFires(db: Db, job: Job)
    requires db.jobs == map[0 := job] && job.policy.Serial? && job.maxQueue == 1 && job.tenant == 0
    requires PendingRuns(db, 0) == {}
    ensures Apply(db, ByHand(Plain))
            == Ok(Launch(db, NewRun(job, 0, Manual, Pending, SECOND, SECOND, None, false), Plain))
  {
    hide PendingRuns, HasActive, Launch;
  }

  lemma LaunchedThird(db: Db, base: Run)
    requires db.unused == 3
    ensures var next := Launch(db, base, Plain);
            next.runs == db.runs[3 := base] && next.claims == db.claims && next.jobs == db.jobs
  {
  }

  lemma SecondQueue(db: Db, next: Db, row: Run, base: Run)
    requires db.runs == map[1 := row] && row.job == 0 && row.status.Running?
    requires next.runs == db.runs[3 := base] && base.job == 0 && base.status.Pending?
    ensures PendingRuns(db, 0) == {} && PendingRuns(next, 0) == {3}
  {
    assert PendingRuns(db, 0) == {} && PendingRuns(next, 0) == {3};
  }

  lemma RetriesIntoFullQueue(db: Db, claim: Claim, job: Job)
    requires 2 in db.claims && db.claims[2] == claim && HoldsLease(db, claim) && claim.run.job == 0
    requires claim.run.attempt == 1 == claim.maxRetries
    requires db.jobs == map[0 := job] && job.maxQueue == 1 && |PendingRuns(db, 0)| == 1
    ensures QueueOk(db, 0) && Apply(db, DoFail(2, Failed, SECOND, 0)).Ok?
    ensures Overflows(db, DoFail(2, Failed, SECOND, 0), 0)
  {
    hide PendingRuns, AfterFailure, Finish;
  }

  /** The run is claimed, another one takes its place in the queue, and then it fails and is retried. */
  lemma RetryOverflows()
    ensures var job := REPORT.(policy := Serial);
            !QueueOk(Exec([DoCreateJob(job, 0, Some(SECOND))] + [ByHand(Plain)] + [Claims()] + [ByHand(Plain)]
                          + [DoFail(2, Failed, SECOND, 0)]), 0)
  {
    var job := REPORT.(policy := Serial);
    var h0 := [DoCreateJob(job, 0, Some(SECOND))];
    var h1, h2 := h0 + [ByHand(Plain)], h0 + [ByHand(Plain)] + [Claims()];
    var h3 := h2 + [ByHand(Plain)];
    Created(job);
    ExecSnoc(h0, ByHand(Plain));
    TriggeredOnce(job);
    ExecSnoc(h1, Claims());
    assert OneRun(job).jobs == map[0 := Stored(job)] && OneRun(job).unused == 2;
    Claimed(OneRun(job), FirstRun(job), Stored(job));
    var claimed := ClaimOne(OneRun(job), 1, SECOND, SECOND);
    ClaimedRun(OneRun(job), claimed, FirstRun(job), Stored(job));
    ExecSnoc(h2, ByHand(Plain));
    SecondTrigger(claimed, claimed.runs[1], Stored(job));
    RetriesIntoFullQueue(Exec(h3), claimed.claims[2], Stored(job));
    Overflowed(h3, DoFail(2, Failed, SECOND, 0), 0);
  }

  lemma ClaimedRun(db: Db, next: Db, row: Run, job: Job)
    requires db.runs == map[1 := row] && row.job == 0 && db.jobs == map[0 := job] && db.unused == 2
    requires next == ClaimOne(db, 1, SECOND, SECOND)
    ensures 1 in next.runs && next.runs == map[1 := next.runs[1]]
    ensures next.runs[1].status.Running? && next.runs[1].job == 0
    ensures next.runs[1].token == Some(2) && next.jobs == db.jobs && next.unused == 3
    ensures 2 in next.claims && next.claims[2] == Claim(1, next.runs[1], job.maxRetries)
    ensures next.runs[1].attempt == row.attempt
  {
  }
}
