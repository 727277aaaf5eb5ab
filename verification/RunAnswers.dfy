/**
 Whose word counts, and what follows from it: outcomes, retries, cancellations, cancel commands
 and job administration, each said exactly on the columns of the tables.
 */
module RunAnswers {
  import opened RunTypes
  import opened RunTransactions
  import opened RunSystem
  import opened RunRefinement
  import opened RunHistory
  import opened RunQueue
  import opened RunStarts

  // ---------------------------------------------------------------- how a run ends

  /** The row of a run that has ended in this status. */
  function EndedRow(run: Run, st: Status, now: Time): Run {
    run.(status := st, trail := run.trail + [st], finishedAt := Some(now), token := None, leaseUntil := None,
         callback := None)
  }

  /** A new run that tries again what this one failed to do, later by the delay. */
  ghost predicate RetryOf(db: Db, next: Db, id: Id, x: Id, now: Time, delay: Time)
    requires id in db.runs
  {
    && x in next.runs && x !in db.runs
    && var run := db.runs[id];
       next.runs[x] == Run(run.tenant, run.job, Retry, Pending, run.attempt + 1, now, now + delay, None, None, None,
                           run.parent, Some(id), run.node, run.address, run.shard, run.rearm, None, [Pending])
  }

  ghost predicate HasRetryAfter(db: Db, next: Db, id: Id, now: Time, delay: Time)
    requires id in db.runs
  {
    exists x :: RetryOf(db, next, id, x, now, delay)
  }

  ghost predicate NoRetry(next: Db, id: Id) {
    forall x :: x in next.runs ==> next.runs[x].retryOf != Some(id)
  }

  /** The run has ended so, and has its retry exactly if another attempt was allowed. */
  ghost predicate FailedAs(db: Db, next: Db, id: Id, st: Status, now: Time, delay: Time, allowed: bool)
    requires id in db.runs
  {
    && id in next.runs && next.runs[id] == EndedRow(db.runs[id], st, now)
    && (if allowed then HasRetryAfter(db, next, id, now, delay) else NoRetry(next, id))
  }

  lemma FailureAnswered(db: Db, id: Id, st: Status, now: Time, retry: Option<Time>, delay: Time)
    requires Low(db) && id in db.runs && NoRetry(db, id) && (retry.Some? ==> retry.value == delay)
    ensures FailedAs(db, AfterFailure(Finish(db, id, st, now), id, db.runs[id], st, now, retry), id, st, now, delay,
                     retry.Some?)
  {
    FailureRows(db, id, st, now, retry);
    var next := AfterFailure(Finish(db, id, st, now), id, db.runs[id], st, now, retry);
    hide AfterFailure, Finish;
    if retry.Some? { assert RetryOf(db, next, id, db.unused, now, delay); }
  }

  /** An unfinished run has no retry yet. */
  lemma NotRetriedYet(db: Db, id: Id)
    requires Sound(db) && id in db.runs && Unfinished(db.runs[id].status)
    ensures NoRetry(db, id)
  {
    hide Sound;
    SoundLinks(db);
    forall x | x in db.runs ensures db.runs[x].retryOf != Some(id) { assert RunBlocks.LinkOk(db, x); }
  }

  lemma SoundLinks(db: Db)
    requires Sound(db)
    ensures RunBlocks.Links(db)
  {
  }

  // --------------------------------------------------------------- a worker's word

  /** The row still carries the token of this claim. */
  predicate Carries(db: Db, token: Id) {
    && token in db.claims && db.claims[token].id in db.runs
    && db.runs[db.claims[token].id].status.Running? && db.runs[db.claims[token].id].token == Some(token)
  }

  lemma CarriesHolds(db: Db, token: Id)
    requires Sound(db) && token in db.claims
    ensures Carries(db, token) <==> HoldsLease(db, db.claims[token])
    ensures Carries(db, token) ==> db.claims[token].run == db.runs[db.claims[token].id]
  {
    assert RunBlocks.ClaimOk(db, token);
  }

  /**
   A worker whose claim the row still carries can fail the run, and then it is retried exactly if its
   attempt is within the limit of its claim; any other worker, and any other outcome, is refused.
   */
  lemma FailuresAreAnswered(db: Db, token: Id, st: Status, now: Time, delay: Time)
    requires Sound(db)
    ensures var r := Apply(db, DoFail(token, st, now, delay));
            && (r.Ok? <==> Carries(db, token) && (st.Failed? || st.TimedOut?))
            && (r.Ok? ==> var claim := db.claims[token];
                          FailedAs(db, r.value, claim.id, st, now, delay, claim.run.attempt <= claim.maxRetries))
  {
    hide Sound, AfterFailure, Finish, FailedAs, HoldsLease;
    SoundLow(db);
    if token in db.claims { CarriesHolds(db, token); }
    if Carries(db, token) && Broken(st) {
      var claim := db.claims[token];
      NotRetriedYet(db, claim.id);
      var retry := if claim.run.attempt <= claim.maxRetries then Some(delay) else None;
      FailureAnswered(db, claim.id, st, now, retry, delay);
    }
  }

  /** The holder can prepare the dispatch, and that hands the run over to the node and its callback. */
  lemma HoldersPrepare(db: Db, token: Id, node: Node, callback: Callback)
    requires Sound(db)
    ensures var r := Apply(db, DoPrepare(token, node, callback));
            && (r.Ok? <==> Carries(db, token))
            && (r.Ok? ==> var id := db.claims[token].id; var run := db.runs[id];
                          && id in r.value.runs
                          && r.value.runs[id]
                             == run.(node := node.id, address := node.address, status := WaitingCallback,
                                     trail := run.trail + [WaitingCallback], callback := Some(callback),
                                     token := None, leaseUntil := None))
  {
    hide Sound, PrepareDispatch, HoldsLease;
    if token in db.claims {
      CarriesHolds(db, token);
      PrepareAnswers(db, db.claims[token], node, callback);
    }
  }

  lemma PrepareAnswers(db: Db, claim: Claim, node: Node, callback: Callback)
    ensures var r := PrepareDispatch(db, claim, node, callback);
            && (r.Ok? <==> HoldsLease(db, claim))
            && (r.Ok? ==> var run := db.runs[claim.id];
                          && claim.id in r.value.runs
                          && r.value.runs[claim.id]
                             == run.(node := node.id, address := node.address, status := WaitingCallback,
                                     trail := run.trail + [WaitingCallback], callback := Some(callback),
                                     token := None, leaseUntil := None))
  {
  }

  /** The holder can report a failure; then the run has failed for good, without a retry. */
  lemma HoldersComplete(db: Db, token: Id, routes: map<Id, Route>, now: Time)
    requires Sound(db)
    ensures var r := Apply(db, DoComplete(token, false, routes, now));
            && (r.Ok? <==> Carries(db, token))
            && (r.Ok? ==> FailedAs(db, r.value, db.claims[token].id, Failed, now, 0, false))
    ensures Apply(db, DoComplete(token, true, routes, now)).Ok? ==> Carries(db, token)
  {
    hide Sound, AfterFailure, Finish, FailedAs, EnqueueDependents, HoldsLease;
    SoundLow(db);
    if token in db.claims { CarriesHolds(db, token); }
    if Carries(db, token) {
      var claim := db.claims[token];
      NotRetriedYet(db, claim.id);
      FailureAnswered(db, claim.id, Failed, now, None, 0);
    }
  }

  // ---------------------------------------------------------------- a success

  predicate NodesFor(routes: map<Id, Route>) {
    forall c :: c in routes && routes[c].Broadcast? ==> routes[c].nodes != []
  }

  lemma {:induction false} ChildrenCommit(db: Db, p: Id, children: seq<Id>, routes: map<Id, Route>, now: Time)
    requires NodesFor(routes)
    ensures TriggerChildren(db, p, children, routes, now).Ok?
    decreases children
  {
    hide TriggerChild;
    if children != [] {
      if children[0] in db.jobs {
        ChildCommits(db, p, children[0], RouteOf(routes, children[0]), now);
        ChildrenCommit(TriggerChild(db, p, children[0], RouteOf(routes, children[0]), now).value, p, children[1..],
                       routes, now);
      } else {
        ChildrenCommit(db, p, children[1..], routes, now);
      }
    }
  }

  lemma ChildCommits(db: Db, p: Id, c: Id, route: Route, now: Time)
    requires c in db.jobs && (route.Broadcast? ==> route.nodes != [])
    ensures TriggerChild(db, p, c, route, now).Ok?
  {
    hide HasActive, PendingRuns, FireRun, Launch;
  }

  /** The run's own row after its success, whatever its dependents did. */
  lemma SuccessRow(db: Db, id: Id, routes: map<Id, Route>, now: Time)
    requires Sound(db) && id in db.runs && Unfinished(db.runs[id].status) && !db.runs[id].status.Pending?
    ensures NodesFor(routes) ==> Succeed(db, id, routes, now).Ok?
    ensures var r := Succeed(db, id, routes, now);
            r.Ok? ==> id in r.value.runs && r.value.runs[id] == EndedRow(db.runs[id], Succeeded, now)
  {
    hide Sound, Finish, Rearm, TriggerChildren, Untouched, Children;
    SoundLow(db);
    var i, done := db.runs[id].job, Finish(db, id, Succeeded, now);
    EndQueue(db, id, Succeeded, now, i);
    FinishRow(db, id, Succeeded, now);
    NoneYet(db, id, i);
    var kids := Children(done, i);
    KidsAre(done, i, i);
    if NodesFor(routes) { ChildrenCommit(done, id, kids, routes, now); }
    if TriggerChildren(done, id, kids, routes, now).Ok? {
      var fed := TriggerChildren(done, id, kids, routes, now).value;
      ChildrenOther(done, id, kids, routes, now, i);
      UntouchedRuns(done, fed, i);
      SameRun(done, fed, i, id);
      RearmKeeps(fed, db.runs[id], now);
    }
  }

  /** A success commits for whoever holds the run, unless a dependent has no nodes, and ends it as succeeded. */
  lemma SuccessesCommit(db: Db, token: Id, routes: map<Id, Route>, now: Time)
    requires Sound(db) && Carries(db, token)
    ensures var r := Apply(db, DoComplete(token, true, routes, now)); var id := db.claims[token].id;
            && (NodesFor(routes) ==> r.Ok?)
            && (r.Ok? ==> id in r.value.runs && r.value.runs[id] == EndedRow(db.runs[id], Succeeded, now))
  {
    hide Sound, Finish, EnqueueDependents, Rearm, HoldsLease, NodesFor;
    CarriesHolds(db, token);
    SuccessRow(db, db.claims[token].id, routes, now);
  }

  // ------------------------------------------------------------ callbacks and expiry

  /** The run waits for this callback, and its time is not over. */
  predicate Expects(db: Db, id: Id, hash: Id, now: Time) {
    && id in db.runs && db.runs[id].status.WaitingCallback? && db.runs[id].callback.Some?
    && db.runs[id].callback.value.hash == hash && now < db.runs[id].callback.value.deadline
  }

  /** A failing callback commits exactly if it is the one expected; it is retried within the job's limit. */
  lemma CallbacksAreAnswered(db: Db, id: Id, hash: Id, routes: map<Id, Route>, now: Time)
    requires Sound(db)
    ensures var r := Apply(db, DoCallback(id, hash, false, routes, now));
            && (r.Ok? <==> Expects(db, id, hash, now))
            && (r.Ok? ==> && db.runs[id].job in db.jobs
                          && FailedAs(db, r.value, id, Failed, now, CallbackRetryDelay(db.runs[id].attempt),
                                      db.runs[id].attempt <= db.jobs[db.runs[id].job].maxRetries))
    ensures Apply(db, DoCallback(id, hash, true, routes, now)).Ok? ==> Expects(db, id, hash, now)
  {
    hide Sound, AfterFailure, Finish, FailedAs, EnqueueDependents;
    SoundLow(db);
    if Expects(db, id, hash, now) {
      KnownJob(db, id);
      NotRetriedYet(db, id);
      FailureAnswered(db, id, Failed, now, CallbackRetry(db, db.runs[id]), CallbackRetryDelay(db.runs[id].attempt));
    }
  }

  /** A successful callback commits exactly if it is the one expected, unless a dependent has no nodes. */
  lemma CallbacksSucceed(db: Db, id: Id, hash: Id, routes: map<Id, Route>, now: Time)
    requires Sound(db) && Expects(db, id, hash, now)
    ensures var r := Apply(db, DoCallback(id, hash, true, routes, now));
            && (NodesFor(routes) ==> r.Ok?)
            && (r.Ok? ==> id in r.value.runs && r.value.runs[id] == EndedRow(db.runs[id], Succeeded, now))
  {
    hide Sound, Finish, EnqueueDependents, Rearm, NodesFor;
    KnownJob(db, id);
    SuccessRow(db, id, routes, now);
  }

  lemma KnownJob(db: Db, id: Id)
    requires Sound(db) && id in db.runs
    ensures db.runs[id].job in db.jobs
  {
    assert RunBlocks.PlaceOk(db.runs[id], db.jobs, db.unused);
  }

  /** The run waits, and its time is over. */
  predicate Overdue(db: Db, id: Id, now: Time) {
    && id in db.runs && db.runs[id].status.WaitingCallback? && db.runs[id].callback.Some?
    && db.runs[id].callback.value.deadline <= now && db.runs[id].job in db.jobs
  }

  /** The row and the retries of this run, and the limit of its job, are as they were. */
  ghost predicate Same(db: Db, next: Db, id: Id)
    requires id in db.runs
  {
    && id in next.runs && next.runs[id] == db.runs[id] && (NoRetry(db, id) ==> NoRetry(next, id))
    && MildJobs(db, next) && Low(next) && (forall x :: x in db.runs ==> x in next.runs)
  }

  lemma OthersExpire(db: Db, x: Id, now: Time, id: Id)
    requires Low(db) && Overdue(db, x, now) && id in db.runs && id != x
    ensures Same(db, ExpireOne(db, x, now), id)
  {
    FailureRows(db, x, TimedOut, now, CallbackRetry(db, db.runs[x]));
    hide AfterFailure, Finish;
  }

  /** A run that is listed and overdue times out, and is retried if allowed; any other is left alone. */
  ghost predicate ExpiredAs(db: Db, next: Db, rows: seq<Id>, now: Time, id: Id)
    requires id in db.runs
  {
    if id in rows && Overdue(db, id, now)
    then FailedAs(db, next, id, TimedOut, now, CallbackRetryDelay(db.runs[id].attempt),
                  db.runs[id].attempt <= db.jobs[db.runs[id].job].maxRetries)
    else id in next.runs && next.runs[id] == db.runs[id] && (NoRetry(db, id) ==> NoRetry(next, id))
  }

  lemma {:induction false} OverdueRunsTimeOut(db: Db, rows: seq<Id>, now: Time, id: Id)
    requires Low(db) && id in db.runs && NoRetry(db, id)
    ensures ExpiredAs(db, ExpireCallbacks(db, rows, now), rows, now, id)
    decreases rows
  {
    if rows != [] {
      assert id in rows <==> id == rows[0] || id in rows[1..];
      assert Expired(db, rows[0], now) <==> Overdue(db, rows[0], now);
      if Overdue(db, rows[0], now) {
        hide ExpireCallbacks;
        var mid := ExpireOne(db, rows[0], now);
        ExpireFirst(db, rows, now);
        if id == rows[0] {
          var delay := CallbackRetryDelay(db.runs[id].attempt);
          FailureAnswered(db, id, TimedOut, now, CallbackRetry(db, db.runs[id]), delay);
          EndedStays(db, mid, rows[1..], now, id);
        } else {
          OthersExpire(db, rows[0], now, id);
          OverdueRunsTimeOut(mid, rows[1..], now, id);
          ExpiredLater(db, mid, ExpireCallbacks(mid, rows[1..], now), rows, now, id);
        }
      } else {
        OverdueRunsTimeOut(db, rows[1..], now, id);
      }
    }
  }

  lemma ExpireFirst(db: Db, rows: seq<Id>, now: Time)
    requires rows != [] && Expired(db, rows[0], now)
    ensures ExpireCallbacks(db, rows, now) == ExpireCallbacks(ExpireOne(db, rows[0], now), rows[1..], now)
  {
  }

  lemma ExpiredLater(db: Db, mid: Db, next: Db, rows: seq<Id>, now: Time, id: Id)
    requires rows != [] && id in db.runs && id != rows[0] && NoRetry(db, id) && Same(db, mid, id)
    requires ExpiredAs(mid, next, rows[1..], now, id)
    ensures ExpiredAs(db, next, rows, now, id)
  {
    assert id in rows <==> id in rows[1..];
    if id in rows && Overdue(db, id, now) && db.runs[id].attempt <= db.jobs[db.runs[id].job].maxRetries {
      var delay := CallbackRetryDelay(db.runs[id].attempt);
      var x :| RetryOf(mid, next, id, x, now, delay);
      assert RetryOf(db, next, id, x, now, delay);
    }
  }

  /** A run that has timed out, and its retry, are left alone by the rest of the batch. */
  lemma EndedStays(db: Db, mid: Db, rest: seq<Id>, now: Time, id: Id)
    requires Low(db) && Overdue(db, id, now) && mid == ExpireOne(db, id, now)
    requires FailedAs(db, mid, id, TimedOut, now, CallbackRetryDelay(db.runs[id].attempt),
                      db.runs[id].attempt <= db.jobs[db.runs[id].job].maxRetries)
    ensures FailedAs(db, ExpireCallbacks(mid, rest, now), id, TimedOut, now, CallbackRetryDelay(db.runs[id].attempt),
                     db.runs[id].attempt <= db.jobs[db.runs[id].job].maxRetries)
  {
    FailureRows(db, id, TimedOut, now, CallbackRetry(db, db.runs[id]));
    hide AfterFailure, Finish;
    RestLeaves(mid, rest, now, id);
    if db.runs[id].attempt <= db.jobs[db.runs[id].job].maxRetries {
      var delay := CallbackRetryDelay(db.runs[id].attempt);
      var x :| RetryOf(db, mid, id, x, now, delay);
      RestLeaves(mid, rest, now, x);
      assert RetryOf(db, ExpireCallbacks(mid, rest, now), id, x, now, delay);
    }
  }

  /** What does not wait is not touched by an expiry, and gets no retry from it. */
  lemma {:induction false} RestLeaves(db: Db, rows: seq<Id>, now: Time, id: Id)
    requires Low(db) && id in db.runs && !db.runs[id].status.WaitingCallback?
    ensures var next := ExpireCallbacks(db, rows, now);
            id in next.runs && next.runs[id] == db.runs[id] && (NoRetry(db, id) ==> NoRetry(next, id))
    decreases rows
  {
    if rows != [] {
      if Expired(db, rows[0], now) {
        hide ExpireCallbacks;
        ExpireFirst(db, rows, now);
        OthersExpire(db, rows[0], now, id);
        RestLeaves(ExpireOne(db, rows[0], now), rows[1..], now, id);
      } else {
        RestLeaves(db, rows[1..], now, id);
      }
    }
  }

  // --------------------------------------------------------------- cancellations

  /**
   Cancelling, exactly: a run of another tenant is not found; any unfinished run, whatever it is
   doing, is cancelled; one that was cancelled before stays so; and only other ended runs are refused.
   */
  lemma CancelsExactly(db: Db, tenant: Id, id: Id, now: Time)
    requires Sound(db)
    ensures var r := Apply(db, DoCancel(tenant, id, now));
            if id !in db.runs || db.runs[id].tenant != tenant then r == Err(NotFound)
            else var st := db.runs[id].status;
              if st.Pending? || st.Running? || st.WaitingCallback? then
                && r.Ok? && r.value.runs == db.runs[id := EndedRow(db.runs[id], Cancelled, now)]
                && (db.runs[id].address != "" ==> id in r.value.commands && !r.value.commands[id].delivered
                                                  && r.value.commands[id].address == db.runs[id].address)
              else if st.Cancelled? then r.Ok? && r.value.runs == db.runs
              else r == Err(NotCancellable)
  {
    hide Sound, Finish, Rearm, EnqueueCancel;
    if id in db.runs && Unfinished(db.runs[id].status) {
      NoCommandYet(db, id);
      FinishRow(db, id, Cancelled, now);
      var done := Finish(db, id, Cancelled, now);
      var told := if db.runs[id].address != "" then EnqueueCancel(done, id, db.runs[id].address, now) else done;
      if db.runs[id].address != "" { CancelQueued(done, id, db.runs[id].address, now); }
      RearmKeeps(told, db.runs[id], now);
    } else if id in db.runs {
      CancelQueued(db, id, db.runs[id].address, now);
    }
  }

  lemma CancelQueued(db: Db, id: Id, address: string, now: Time)
    ensures var next := EnqueueCancel(db, id, address, now);
            && next.runs == db.runs && id in next.commands
            && (id !in db.commands ==> !next.commands[id].delivered && next.commands[id].address == address)
  {
  }

  lemma RearmKeeps(db: Db, run: Run, at: Time)
    ensures Rearm(db, run, at).runs == db.runs && Rearm(db, run, at).commands == db.commands
  {
  }

  lemma NoCommandYet(db: Db, id: Id)
    requires Sound(db) && id in db.runs && Unfinished(db.runs[id].status)
    ensures id !in db.commands
  {
    assert id in db.commands <==> RunBlocks.NeedsCommand(db.runs, id);
  }

  // ------------------------------------------------------------- cancel commands

  /** Waiting to be delivered, and not locked by anybody whose lock still holds. */
  predicate Deliverable(c: Command, now: Time) {
    !c.delivered && c.availableAt <= now && (c.lockedUntil.Some? ==> c.lockedUntil.value < now)
  }

  /** A claim locks exactly the listed commands that are free, for half a minute, and counts the attempt. */
  lemma {:induction false} CommandsClaimed(db: Db, owner: string, rows: seq<Id>, now: Time, id: Id)
    requires id in db.commands
    ensures var next := ClaimCommands(db, owner, rows, now); var c := db.commands[id];
            && id in next.commands
            && next.commands[id] == (if id in rows && Deliverable(c, now)
                                     then c.(lockedBy := Some(owner), lockedUntil := Some(now + 30_000_000_000),
                                             attempts := c.attempts + 1)
                                     else c)
    decreases rows
  {
    hide ClaimCommand;
    if rows != [] {
      assert id in rows <==> id == rows[0] || id in rows[1..];
      CommandClaimed(db, owner, rows[0], now, id);
      CommandsClaimed(ClaimCommand(db, owner, rows[0], now), owner, rows[1..], now, id);
    }
  }

  lemma CommandClaimed(db: Db, owner: string, row: Id, now: Time, id: Id)
    requires id in db.commands
    ensures var next := ClaimCommand(db, owner, row, now); var c := db.commands[id];
            && id in next.commands
            && next.commands[id] == (if id == row && Deliverable(c, now)
                                     then c.(lockedBy := Some(owner), lockedUntil := Some(now + 30_000_000_000),
                                             attempts := c.attempts + 1)
                                     else c)
  {
  }

  predicate LockedBy(db: Db, owner: string, id: Id, now: Time) {
    && id in db.commands && !db.commands[id].delivered && db.commands[id].lockedBy == Some(owner)
    && db.commands[id].lockedUntil.Some? && db.commands[id].lockedUntil.value >= now
  }

  /** The holder of a command, and nobody else, can mark it delivered or put it back. */
  lemma HoldersDeliver(db: Db, owner: string, id: Id, delay: Time, now: Time)
    ensures var r := Apply(db, DoCompleteCommand(owner, id, now));
            && (r.Ok? <==> LockedBy(db, owner, id, now))
            && (r.Ok? ==> id in r.value.commands && r.value.commands[id].delivered)
    ensures var r := Apply(db, DoRetryCommand(owner, id, delay, now));
            && (r.Ok? <==> LockedBy(db, owner, id, now))
            && (r.Ok? ==> id in r.value.commands && !r.value.commands[id].delivered
                          && r.value.commands[id].availableAt == now + delay
                          && r.value.commands[id].lockedBy.None? && r.value.commands[id].lockedUntil.None?)
  {
  }

  // ---------------------------------------------------------- job administration

  /** The schedule's answer: computed for the fixed kinds, an error for a period below a second, else the calendar's. */
  predicate Answers(job: Job, now: Time, calendar: Option<Time>, next: Option<Time>) {
    match job.kind
    case Cron => next == calendar
    case Once => next == calendar
    case _ => job.period >= 1 && next == Some(now + Duration(job.period))
  }

  /** A switched-on row has the next time its schedule answers, any other none. */
  predicate Scheduled(row: Job, now: Time, calendar: Option<Time>) {
    if row.enabled then Answers(row, now, calendar, row.nextRunAt) else row.nextRunAt.None?
  }

  /**
   Whoever writes a job row, to create it, to change it or to switch it, leaves it with the next time
   of its schedule exactly if it is switched on, under a version one above the one named.
   */
  lemma WrittenRowsAreScheduled(db: Db, a: Action)
    requires Apply(db, a).Ok? && (a.DoCreateJob? || a.DoUpdateJob? || a.DoSetEnabled?)
    ensures var j, next := if a.DoCreateJob? then db.unused else a.id, Apply(db, a).value;
            && j in next.jobs
            && (a.DoCreateJob? ==> next.jobs[j].version == 1 && next.jobs[j].enabled == a.job.enabled)
            && (a.DoUpdateJob? ==>
                  && j in db.jobs && db.jobs[j].version == a.job.version && next.jobs[j].enabled == a.job.enabled
                  && next.jobs[j].version == a.job.version + 1 && db.jobs[j].tenant == a.job.tenant)
            && (a.DoSetEnabled? ==>
                  && j in db.jobs && db.jobs[j].version == a.version && db.jobs[j].tenant == a.tenant
                  && next.jobs[j].enabled == a.enabled
                  && (if db.jobs[j].enabled == a.enabled then next == db else next.jobs[j].version == a.version + 1))
            && ((a.DoSetEnabled? && db.jobs[j].enabled == a.enabled) || Scheduled(next.jobs[j], a.now, a.calendar))
  {
    hide Scheduled;
    match a
    case DoCreateJob(job, now, calendar) =>
      NextRunAnswers(job, Apply(db, a).value.jobs[db.unused], now, calendar);
    case DoUpdateJob(id, job, now, calendar) => NextRunAnswers(job, Apply(db, a).value.jobs[id], now, calendar);
    case DoSetEnabled(_, id, enabled, _, now, calendar) =>
      NextRunAnswers(db.jobs[id], Apply(db, a).value.jobs[id], now, calendar);
  }

  lemma NextRunAnswers(job: Job, row: Job, now: Time, calendar: Option<Time>)
    requires row.kind == job.kind && row.period == job.period
    ensures row.enabled && NextRun(job, now, calendar) == Ok(row.nextRunAt) ==> Scheduled(row, now, calendar)
    ensures !row.enabled && row.nextRunAt.None? ==> Scheduled(row, now, calendar)
  {
  }

  /** The canonical name of a policy. */
  predicate Renamed(p: Policy, q: Policy) {
    if p.Queue? then q.Serial? else if p.Skip? then q.DiscardLater? else q == p
  }

  /** All other columns of a new row are those of the request, with defaults for missing limits. */
  lemma CreatedColumns(db: Db, job: Job, now: Time, calendar: Option<Time>)
    requires Apply(db, DoCreateJob(job, now, calendar)).Ok?
    ensures var next := Apply(db, DoCreateJob(job, now, calendar)).value;
            && next.runs == db.runs && next.jobs == db.jobs[db.unused := next.jobs[db.unused]]
            && var row := next.jobs[db.unused];
               && Renamed(job.policy, row.policy)
               && row.maxConcurrent == (if job.maxConcurrent < 1 then 1 else job.maxConcurrent)
               && row.maxQueue == (if job.maxQueue < 1 then 1000 else job.maxQueue)
               && row == job.(policy := row.policy, maxConcurrent := row.maxConcurrent, maxQueue := row.maxQueue,
                              nextRunAt := row.nextRunAt, version := row.version)
  {
  }

  lemma UpdatedColumns(db: Db, j: Id, job: Job, now: Time, calendar: Option<Time>)
    requires Apply(db, DoUpdateJob(j, job, now, calendar)).Ok?
    ensures var next := Apply(db, DoUpdateJob(j, job, now, calendar)).value;
            && j in next.jobs && next.runs == db.runs && next.jobs == db.jobs[j := next.jobs[j]]
            && var row := next.jobs[j];
               && Renamed(job.policy, row.policy)
               && row == job.(policy := row.policy, nextRunAt := row.nextRunAt, version := row.version)
  {
  }

  lemma SwitchedColumns(db: Db, tenant: Id, j: Id, enabled: bool, version: nat, now: Time, calendar: Option<Time>)
    requires Apply(db, DoSetEnabled(tenant, j, enabled, version, now, calendar)).Ok?
    ensures var next := Apply(db, DoSetEnabled(tenant, j, enabled, version, now, calendar)).value;
            && j in next.jobs && j in db.jobs && next.runs == db.runs && next.jobs.Keys == db.jobs.Keys
            && (forall i :: i in db.jobs && i != j ==> next.jobs[i] == db.jobs[i])
            && var row := next.jobs[j];
               row == db.jobs[j].(enabled := row.enabled, nextRunAt := row.nextRunAt, version := row.version)
  {
    hide NextRun;
    if db.jobs[j].enabled == enabled {
      assert Apply(db, DoSetEnabled(tenant, j, enabled, version, now, calendar)).value == db;
    }
  }

  /** Whoever names the present version is let through, if the schedule has an answer. */
  lemma PresentVersionsCommit(db: Db, a: Action)
    requires (a.DoUpdateJob? || a.DoSetEnabled?) && a.id in db.jobs
    requires var row := if a.DoUpdateJob? then a.job else db.jobs[a.id];
             row.kind.Cron? || row.kind.Once? || row.period >= 1
    requires if a.DoUpdateJob? then a.job.tenant == db.jobs[a.id].tenant && a.job.version == db.jobs[a.id].version
             else a.tenant == db.jobs[a.id].tenant && a.version == db.jobs[a.id].version
    ensures Apply(db, a).Ok?
  {
  }
}
