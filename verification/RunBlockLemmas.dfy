/** Every statement group the transactions are made of is a block. */
module RunBlockLemmas {
  import opened RunTypes
  import opened RunTransactions
  import opened RunRows
  import opened RunBlocks

  /** Nothing about runs, events, claims or commands changes; job rows may. */
  ghost predicate SameRuns(db: Db, next: Db) {
    && next.runs == db.runs && next.log == db.log && next.commands == db.commands && next.claims == db.claims
    && db.unused <= next.unused
    && JobsKept(db.jobs, next.jobs) && (forall j :: j in next.jobs ==> j < next.unused)
  }

  lemma SameRunsBlock(db: Db, next: Db)
    requires db.log.Keys == db.runs.Keys && SameRuns(db, next)
    ensures Block(db, next)
  {
    SameRunsRows(db, next);
    SameRunsLinks(db, next);
  }

  lemma SameRunsRows(db: Db, next: Db)
    requires db.log.Keys == db.runs.Keys && SameRuns(db, next)
    ensures Frame(db, next) && OldRows(db, next) && NewRows(db, next) && NewTokens(db, next) && ClaimsGrow(db, next)
  {
  }

  lemma SameRunsLinks(db: Db, next: Db)
    requires next.runs == db.runs && next.commands == db.commands
    ensures RetryRows(db, next) && BreaksAnswered(db, next) && GroupRows(db, next) && CommandRows(db, next)
  {
  }

  /** A block that rewrites one row and appends to its events. */
  ghost predicate OneRow(db: Db, next: Db, id: Id) {
    && id in db.runs && id in db.log && id in next.runs && id in next.log
    && next.runs == db.runs[id := next.runs[id]] && next.log == db.log[id := next.log[id]]
    && next.jobs == db.jobs && db.unused <= next.unused
  }

  lemma OneRowShape(db: Db, next: Db, id: Id)
    requires OneRow(db, next, id)
    requires RowStep(db.runs[id], next.runs[id], db.log[id], next.log[id])
    requires db.log.Keys == db.runs.Keys && forall j :: j in db.jobs ==> j < db.unused
    ensures Frame(db, next) && OldRows(db, next) && NewRows(db, next) && RetryRows(db, next) && GroupRows(db, next)
  {
  }

  lemma OneRowTokens(db: Db, next: Db, id: Id)
    requires OneRow(db, next, id)
    requires next.claims == db.claims && next.runs[id].token.None?
    ensures NewTokens(db, next) && ClaimsGrow(db, next)
  {
  }

  lemma OneRowCommands(db: Db, next: Db, id: Id, now: Time)
    requires Commands(db) && OneRow(db, next, id)
    requires Unfinished(db.runs[id].status)
    requires next.commands ==
      if next.runs[id].status.Cancelled? && next.runs[id].address != ""
      then db.commands[id := Command0(next.runs[id].address, now)] else db.commands
    ensures CommandRows(db, next)
  {
    assert id in db.commands <==> NeedsCommand(db.runs, id);
    assert id !in db.commands;
  }

  /** A rewritten row with its events, its token and its command accounted for is a block. */
  lemma OneRowBlock(db: Db, next: Db, id: Id, now: Time)
    requires OneRow(db, next, id) && Commands(db)
    requires Unfinished(db.runs[id].status)
    requires RowStep(db.runs[id], next.runs[id], db.log[id], next.log[id])
    requires db.log.Keys == db.runs.Keys && forall j :: j in db.jobs ==> j < db.unused
    requires next.commands ==
      if next.runs[id].status.Cancelled? && next.runs[id].address != ""
      then db.commands[id := Command0(next.runs[id].address, now)] else db.commands
    requires NewTokens(db, next) && ClaimsGrow(db, next) && BreaksAnswered(db, next)
    ensures Block(db, next)
  {
    OneRowShape(db, next, id);
    OneRowCommands(db, next, id, now);
  }

  lemma TerminalStep(run: Run, log: seq<Topic>, st: Status, now: Time, after: seq<Topic>)
    requires LifeOk(run, log) && Unfinished(run.status) && !Unfinished(st)
    requires after == log + [Entered(st)] || (Broken(st) && after == log + [Entered(st)] + [Exhausted])
    ensures RowStep(run, Terminal(run, st, now), log, after)
  {
  }

  lemma FinishShape(db: Db, id: Id, st: Status, now: Time)
    requires id in db.runs && id in db.log
    ensures Finish(db, id, st, now)
         == db.(runs := db.runs[id := Terminal(db.runs[id], st, now)], log := db.log[id := db.log[id] + [Entered(st)]])
  {
  }

  /** The state after a terminal UPDATE, its events and its command. */
  ghost predicate TerminalPost(db: Db, next: Db, id: Id, st: Status, now: Time, after: seq<Topic>)
    requires id in db.runs
  {
    && next.runs == db.runs[id := Terminal(db.runs[id], st, now)] && next.log == db.log[id := after]
    && next.jobs == db.jobs && next.claims == db.claims && next.unused == db.unused
    && next.commands == if st.Cancelled? && db.runs[id].address != ""
                        then db.commands[id := Command0(db.runs[id].address, now)] else db.commands
  }

  lemma TerminalBlock(db: Db, next: Db, id: Id, st: Status, now: Time, after: seq<Topic>)
    requires Rows(db) && Commands(db)
    requires id in db.runs && Unfinished(db.runs[id].status) && !Unfinished(st)
    requires after == db.log[id] + [Entered(st)] || (Broken(st) && after == db.log[id] + [Entered(st)] + [Exhausted])
    requires TerminalPost(db, next, id, st, now, after)
    requires BreaksAnswered(db, next)
    ensures Block(db, next)
  {
    TerminalStep(db.runs[id], db.log[id], st, now, after);
    OneRowTokens(db, next, id);
    OneRowBlock(db, next, id, now);
  }

  lemma NoBreak(db: Db, next: Db, id: Id, st: Status, now: Time)
    requires id in db.runs && !Broken(st)
    requires next.runs == db.runs[id := Terminal(db.runs[id], st, now)]
    ensures BreaksAnswered(db, next)
  {
  }

  /** The run succeeds. */
  lemma SucceedBlock(db: Db, id: Id, now: Time)
    requires Rows(db) && Commands(db)
    requires id in db.runs && Unfinished(db.runs[id].status)
    ensures Block(db, Finish(db, id, Succeeded, now))
  {
    var next := Finish(db, id, Succeeded, now);
    FinishShape(db, id, Succeeded, now);
    NoBreak(db, next, id, Succeeded, now);
    TerminalBlock(db, next, id, Succeeded, now, db.log[id] + [Entered(Succeeded)]);
  }

  /** The first half of CancelRun: the run is cancelled and its executor is told. */
  function CancelAndTell(db: Db, id: Id, now: Time): Db
    requires id in db.runs
  {
    var done := Finish(db, id, Cancelled, now);
    if db.runs[id].address != "" then EnqueueCancel(done, id, db.runs[id].address, now) else done
  }

  lemma CancelShape(db: Db, id: Id, now: Time)
    requires Commands(db)
    requires id in db.runs && id in db.log && Unfinished(db.runs[id].status)
    ensures CancelAndTell(db, id, now)
         == db.(runs := db.runs[id := Terminal(db.runs[id], Cancelled, now)],
                log := db.log[id := db.log[id] + [Entered(Cancelled)]],
                commands := if db.runs[id].address != ""
                  then db.commands[id := Command0(db.runs[id].address, now)] else db.commands)
  {
    FinishShape(db, id, Cancelled, now);
    assert id in db.commands <==> NeedsCommand(db.runs, id);
  }

  lemma CancelBlock(db: Db, id: Id, now: Time)
    requires Rows(db) && Commands(db)
    requires id in db.runs && Unfinished(db.runs[id].status)
    ensures Block(db, CancelAndTell(db, id, now))
  {
    var next := CancelAndTell(db, id, now);
    CancelShape(db, id, now);
    NoBreak(db, next, id, Cancelled, now);
    TerminalBlock(db, next, id, Cancelled, now, db.log[id] + [Entered(Cancelled)]);
  }

  lemma ExhaustShape(db: Db, id: Id, st: Status, now: Time)
    requires id in db.runs && id in db.log
    ensures Emit(Finish(db, id, st, now), id, st, Exhausted)
         == db.(runs := db.runs[id := Terminal(db.runs[id], st, now)],
                log := db.log[id := db.log[id] + [Entered(st)] + [Exhausted]])
  {
    FinishShape(db, id, st, now);
  }

  lemma ExhaustBreaks(db: Db, next: Db, id: Id, st: Status, now: Time)
    requires id in db.runs && id in db.log && LifeOk(db.runs[id], db.log[id]) && Unfinished(db.runs[id].status)
    requires next.runs == db.runs[id := Terminal(db.runs[id], st, now)]
    requires next.log == db.log[id := db.log[id] + [Entered(st)] + [Exhausted]]
    ensures BreaksAnswered(db, next)
  {
    UnfinishedFresh(db.runs[id], db.log[id], Entered(st));
    AnnouncedSnoc(db.log[id] + [Entered(st)], Exhausted);
  }

  lemma RowsKeys(db: Db)
    requires Rows(db)
    ensures db.log.Keys == db.runs.Keys && forall j :: j in db.jobs ==> j < db.unused
  {
  }

  lemma RowAlive(db: Db, id: Id)
    requires Rows(db) && id in db.runs
    ensures id in db.log && LifeOk(db.runs[id], db.log[id]) && PlaceOk(db.runs[id], db.jobs, db.unused)
  {
  }

  /** The run breaks and has no retries left. */
  lemma ExhaustBlock(db: Db, id: Id, st: Status, now: Time)
    requires Rows(db) && Commands(db)
    requires id in db.runs && Unfinished(db.runs[id].status) && Broken(st)
    ensures Block(db, Emit(Finish(db, id, st, now), id, st, Exhausted))
  {
    hide Rows, Commands, LifeOk, PlaceOk, BreaksAnswered, Block, Emit, Finish, Terminal;
    var next := Emit(Finish(db, id, st, now), id, st, Exhausted);
    RowAlive(db, id);
    ExhaustShape(db, id, st, now);
    ExhaustBreaks(db, next, id, st, now);
    TerminalBlock(db, next, id, st, now, db.log[id] + [Entered(st)] + [Exhausted]);
  }

  lemma PlusOne<V>(m: map<Id, V>, id: Id, v: V)
    ensures m + map[id := v] == m[id := v]
  {
  }

  lemma OneTopic(id: Id, row: Run)
    ensures Topics(map[id := row]) == map[id := [Entered(row.status)]]
  {
  }

  lemma AddOne(db: Db, id: Id, row: Run)
    ensures AddRuns(db, map[id := row], db.unused + 1)
         == db.(runs := db.runs[id := row], log := db.log[id := [Entered(row.status)]], unused := db.unused + 1)
  {
    hide Topics;
    OneTopic(id, row);
    PlusOne(db.runs, id, row);
    PlusOne(db.log, id, [Entered(row.status)]);
  }

  lemma RetryShape(db: Db, id: Id, copy: Run, st: Status, now: Time, delay: Time)
    requires id in db.runs && id in db.log
    ensures RetryPost(db, InsertRetry(Finish(db, id, st, now), id, copy, now, delay), id, copy, st, now, delay)
  {
    FinishShape(db, id, st, now);
    AddOne(Finish(db, id, st, now), db.unused, RetryRow(id, copy, now, delay));
  }

  ghost predicate RetryPost(db: Db, next: Db, id: Id, copy: Run, st: Status, now: Time, delay: Time)
    requires id in db.runs && id in db.log
  {
    && next.runs == db.runs[id := Terminal(db.runs[id], st, now)][db.unused := RetryRow(id, copy, now, delay)]
    && next.log == db.log[id := db.log[id] + [Entered(st)]][db.unused := [Entered(Pending)]]
    && next.jobs == db.jobs && next.claims == db.claims && next.commands == db.commands
    && next.unused == db.unused + 1
  }

  lemma RetryFrame(db: Db, next: Db, id: Id, copy: Run, st: Status, now: Time, delay: Time)
    requires db.log.Keys == db.runs.Keys && (forall j :: j in db.jobs ==> j < db.unused)
    requires id in db.runs && RetryPost(db, next, id, copy, st, now, delay)
    ensures Frame(db, next)
  {
  }

  lemma RetryOldRows(db: Db, next: Db, id: Id, copy: Run, st: Status, now: Time, delay: Time)
    requires db.log.Keys == db.runs.Keys && db.unused !in db.runs
    requires id in db.runs && LifeOk(db.runs[id], db.log[id]) && Unfinished(db.runs[id].status) && Broken(st)
    requires RetryPost(db, next, id, copy, st, now, delay)
    ensures OldRows(db, next)
  {
    hide LifeOk;
    TerminalStep(db.runs[id], db.log[id], st, now, db.log[id] + [Entered(st)]);
    hide RowStep, Terminal;
    forall x | x in db.runs ensures OldRow(db, next, x) {
      if x != id { SameRow(db.runs[x], db.log[x]); }
    }
  }

  lemma SameRow(run: Run, log: seq<Topic>)
    ensures RowStep(run, run, log, log)
  {
  }

  lemma RetryNewRow(db: Db, next: Db, id: Id, copy: Run, st: Status, now: Time, delay: Time)
    requires id in db.runs && id in db.log && PlaceOk(db.runs[id], db.jobs, db.unused) && db.runs[id].attempt >= 1
    requires SameIdentity(copy, db.runs[id]) && RetryPost(db, next, id, copy, st, now, delay)
    ensures NewRows(db, next)
  {
    forall x | x in next.runs && x !in db.runs ensures NewRow(db, next, x) {
      assert x == db.unused;
    }
  }

  lemma RetryTokens(db: Db, next: Db, id: Id, copy: Run, st: Status, now: Time, delay: Time)
    requires id in db.runs && id in db.log && db.unused !in db.runs
    requires RetryPost(db, next, id, copy, st, now, delay)
    ensures NewTokens(db, next) && ClaimsGrow(db, next)
  {
  }

  lemma OnlyNewborn(db: Db, next: Db, id: Id, copy: Run, st: Status, now: Time, delay: Time)
    requires id in db.runs && id in db.log && RetryPost(db, next, id, copy, st, now, delay)
    ensures forall n :: Newborns(db, next, n) ==> n == db.unused && next.runs[n] == RetryRow(id, copy, now, delay)
  {
  }

  lemma RetryBlockLinks(db: Db, next: Db, id: Id, copy: Run, st: Status, now: Time, delay: Time)
    requires id in db.runs && id in db.log && db.unused !in db.runs && id != db.unused
    requires Unfinished(db.runs[id].status) && Broken(st)
    requires SameIdentity(copy, db.runs[id])
    requires RetryPost(db, next, id, copy, st, now, delay)
    ensures RetryRows(db, next) && GroupRows(db, next)
  {
    OnlyNewborn(db, next, id, copy, st, now, delay);
    assert RetryLink(db, next, db.unused);
    hide RetryPost;
  }

  lemma RetryAnswers(db: Db, next: Db, id: Id, copy: Run, st: Status, now: Time, delay: Time)
    requires id in db.runs && id in db.log && db.unused !in db.runs && id != db.unused && Broken(st)
    requires RetryPost(db, next, id, copy, st, now, delay)
    ensures BreaksAnswered(db, next) && CommandRows(db, next)
  {
    assert next.runs[db.unused].retryOf == Some(id);
    assert HasRetry(next.runs, id);
  }

  /** The run breaks and a retry takes over. */
  lemma RetryBlock(db: Db, id: Id, copy: Run, st: Status, now: Time, delay: Time)
    requires Rows(db)
    requires id in db.runs && Unfinished(db.runs[id].status) && Broken(st)
    requires SameIdentity(copy, db.runs[id])
    ensures Block(db, InsertRetry(Finish(db, id, st, now), id, copy, now, delay))
  {
    hide LifeOk, PlaceOk, RetryPost, Frame, OldRows, NewRows, NewTokens, ClaimsGrow, RetryRows, BreaksAnswered;
    hide GroupRows, CommandRows;
    var next := InsertRetry(Finish(db, id, st, now), id, copy, now, delay);
    RowAlive(db, id);
    AttemptPositive(db.runs[id], db.log[id]);
    RetryShape(db, id, copy, st, now, delay);
    RetryFrame(db, next, id, copy, st, now, delay);
    RetryOldRows(db, next, id, copy, st, now, delay);
    RetryNewRow(db, next, id, copy, st, now, delay);
    RetryTokens(db, next, id, copy, st, now, delay);
    RetryBlockLinks(db, next, id, copy, st, now, delay);
    RetryAnswers(db, next, id, copy, st, now, delay);
  }

  lemma AttemptPositive(run: Run, log: seq<Topic>)
    requires LifeOk(run, log)
    ensures run.attempt >= 1
  {
  }

  lemma ClaimTokens(db: Db, id: Id, now: Time, lease: Time)
    requires Claims(db)
    requires id in db.runs && db.runs[id].job in db.jobs
    ensures NewTokens(db, ClaimOne(db, id, now, lease)) && ClaimsGrow(db, ClaimOne(db, id, now, lease))
  {
    assert forall t :: t in db.claims ==> ClaimOk(db, t) && t < db.unused;
  }

  lemma ClaimShape(db: Db, id: Id, now: Time, lease: Time)
    requires id in db.runs && id in db.log && db.runs[id].job in db.jobs
    requires LifeOk(db.runs[id], db.log[id])
    requires db.runs[id].status.Pending? || db.runs[id].status.Running?
    ensures OneRow(db, ClaimOne(db, id, now, lease), id)
    ensures var next := ClaimOne(db, id, now, lease); RowStep(db.runs[id], next.runs[id], db.log[id], next.log[id])
  {
    var next := ClaimOne(db, id, now, lease);
    assert next.log == db.log[id := next.log[id]];
    assert Climb(db.runs[id], next.runs[id]);
  }

  lemma ClaimBlock(db: Db, id: Id, now: Time, lease: Time)
    requires Rows(db) && Claims(db) && Commands(db)
    requires id in db.runs && db.runs[id].job in db.jobs && (db.runs[id].status.Pending? || db.runs[id].status.Running?)
    ensures Block(db, ClaimOne(db, id, now, lease))
  {
    hide Rows, LifeOk, PlaceOk, RowStep, Claims, Commands, BreaksAnswered, NewTokens, ClaimsGrow, Block;
    RowAlive(db, id);
    RowsKeys(db);
    var next := ClaimOne(db, id, now, lease);
    ClaimShape(db, id, now, lease);
    ClaimTokens(db, id, now, lease);
    NoNewBreak(db, next, id);
    OneRowBlock(db, next, id, now);
  }

  lemma NoNewBreak(db: Db, next: Db, id: Id)
    requires OneRow(db, next, id) && !Broken(next.runs[id].status)
    ensures BreaksAnswered(db, next)
  {
  }

  lemma PrepareShape(db: Db, claim: Claim, node: Node, callback: Callback)
    requires HoldsLease(db, claim) && claim.id in db.log && LifeOk(db.runs[claim.id], db.log[claim.id])
    ensures var next := PrepareDispatch(db, claim, node, callback).value;
            && OneRow(db, next, claim.id)
            && RowStep(db.runs[claim.id], next.runs[claim.id], db.log[claim.id], next.log[claim.id])
            && next.claims == db.claims && next.commands == db.commands && next.runs[claim.id].status.WaitingCallback?
            && next.runs[claim.id].token.None?
  {
    var next := PrepareDispatch(db, claim, node, callback).value;
    assert next.log == db.log[claim.id := next.log[claim.id]];
    assert Climb(db.runs[claim.id], next.runs[claim.id]);
  }

  lemma PrepareBlock(db: Db, claim: Claim, node: Node, callback: Callback)
    requires Rows(db) && Commands(db)
    requires HoldsLease(db, claim)
    ensures Block(db, PrepareDispatch(db, claim, node, callback).value)
  {
    var next := PrepareDispatch(db, claim, node, callback).value;
    PrepareShape(db, claim, node, callback);
    OneRowTokens(db, next, claim.id);
    NoNewBreak(db, next, claim.id);
    OneRowBlock(db, next, claim.id, 0);
  }

  /** A row that starts a new chain: no retry, first attempt, no shard yet. */
  ghost predicate Seed(db: Db, base: Run) {
    && NewbornOk(base) && PlaceOk(base, db.jobs, db.unused)
    && base.shard.None? && base.retryOf.None? && base.attempt == 1
  }

  /** What every row of one launch looks like. */
  ghost predicate Launched(db: Db, base: Run, route: Route, id: Id, row: Run) {
    && db.unused <= id < LaunchEnd(route, db.unused)
    && NewbornOk(row) && PlaceOk(row, db.jobs, LaunchEnd(route, db.unused))
    && row.retryOf.None? && row.attempt == 1 && row.job == base.job && row.rearm == base.rearm
    && row.parent == base.parent && row.tenant == base.tenant && row.status == base.status
    && (if route.Plain? then row.shard.None? && id == db.unused
        else row.shard.Some? && row.shard.value.group == db.unused + |route.nodes|)
  }

  lemma LaunchRow(db: Db, base: Run, route: Route, id: Id)
    requires Seed(db, base)
    requires id in LaunchRows(base, route, db.unused)
    ensures Launched(db, base, route, id, LaunchRows(base, route, db.unused)[id])
  {
  }

  lemma LaunchedAll(db: Db, base: Run, route: Route)
    requires Seed(db, base)
    ensures forall id :: id in LaunchRows(base, route, db.unused) ==>
              Launched(db, base, route, id, LaunchRows(base, route, db.unused)[id])
  {
    forall id | id in LaunchRows(base, route, db.unused)
      ensures Launched(db, base, route, id, LaunchRows(base, route, db.unused)[id])
    {
      LaunchRow(db, base, route, id);
    }
  }

  /** The state after a launch, as far as a block can tell. */
  ghost predicate LaunchPost(db: Db, next: Db, base: Run, route: Route) {
    && next.runs.Keys == db.runs.Keys + LaunchRows(base, route, db.unused).Keys
    && (forall id :: id in db.runs ==> id !in LaunchRows(base, route, db.unused) && next.runs[id] == db.runs[id])
    && (forall id :: id in next.runs && id !in db.runs ==> Launched(db, base, route, id, next.runs[id]))
  }

  lemma LaunchIsPost(db: Db, base: Run, route: Route)
    requires forall id :: id in db.runs ==> id < db.unused
    requires Seed(db, base)
    ensures LaunchPost(db, Launch(db, base, route), base, route)
  {
    LaunchedAll(db, base, route);
  }

  lemma LaunchFrame(db: Db, base: Run, route: Route)
    requires db.log.Keys == db.runs.Keys && (forall j :: j in db.jobs ==> j < db.unused)
    ensures Frame(db, Launch(db, base, route))
  {
  }

  lemma LaunchOldRows(db: Db, base: Run, route: Route)
    requires db.log.Keys == db.runs.Keys && (forall id :: id in db.runs ==> id !in LaunchRows(base, route, db.unused))
    ensures OldRows(db, Launch(db, base, route))
  {
    hide LaunchRows;
  }

  lemma LaunchNewRows(db: Db, base: Run, route: Route)
    requires LaunchPost(db, Launch(db, base, route), base, route)
    ensures NewRows(db, Launch(db, base, route))
  {
    hide LaunchRows;
    var next := Launch(db, base, route);
    forall id | id in next.runs && id !in db.runs ensures NewRow(db, next, id) {
      assert Launched(db, base, route, id, next.runs[id]);
    }
  }

  lemma LaunchLinks(db: Db, next: Db, base: Run, route: Route)
    requires LaunchPost(db, next, base, route)
    ensures RetryRows(db, next) && GroupRows(db, next)
  {
    forall id | Newborns(db, next, id) ensures Launched(db, base, route, id, next.runs[id]) {
    }
  }

  lemma LaunchRest(db: Db, next: Db, base: Run, route: Route)
    requires LaunchPost(db, next, base, route)
    requires next.claims == db.claims && next.commands == db.commands
    ensures NewTokens(db, next) && ClaimsGrow(db, next) && BreaksAnswered(db, next) && CommandRows(db, next)
  {
  }

  /** One trigger inserts its run, or its group of shards. */
  lemma LaunchBlock(db: Db, base: Run, route: Route)
    requires Rows(db)
    requires Seed(db, base)
    ensures Block(db, Launch(db, base, route))
  {
    LaunchIsPost(db, base, route);
    LaunchFrame(db, base, route);
    LaunchOldRows(db, base, route);
    LaunchNewRows(db, base, route);
    LaunchLinks(db, Launch(db, base, route), base, route);
    LaunchRest(db, Launch(db, base, route), base, route);
  }

  lemma CoverOldRow(db: Db, j: Id, now: Time, id: Id)
    requires id in db.runs && id in db.log && LifeOk(db.runs[id], db.log[id])
    ensures OldRow(db, Cover(db, j, now), id)
  {
    if ActiveIn(db, j, id) {
      TerminalStep(db.runs[id], db.log[id], Cancelled, now, db.log[id] + [Entered(Cancelled)]);
    }
  }

  lemma CoverOldRows(db: Db, j: Id, now: Time)
    requires Lives(db.runs, db.log, LifeOk)
    ensures OldRows(db, Cover(db, j, now))
  {
    forall id | id in db.runs ensures OldRow(db, Cover(db, j, now), id) {
      CoverOldRow(db, j, now, id);
    }
  }

  lemma CoverFrame(db: Db, j: Id, now: Time)
    requires db.log.Keys == db.runs.Keys && forall i :: i in db.jobs ==> i < db.unused
    ensures Frame(db, Cover(db, j, now)) && NewRows(db, Cover(db, j, now))
  {
    assert Cover(db, j, now).runs.Keys == db.runs.Keys;
  }

  lemma CoverLinks(db: Db, j: Id, now: Time)
    ensures RetryRows(db, Cover(db, j, now)) && GroupRows(db, Cover(db, j, now))
    ensures BreaksAnswered(db, Cover(db, j, now))
  {
    var next := Cover(db, j, now);
    assert next.runs.Keys == db.runs.Keys;
  }

  lemma CoverTokens(db: Db, j: Id, now: Time)
    ensures NewTokens(db, Cover(db, j, now)) && ClaimsGrow(db, Cover(db, j, now))
  {
  }

  lemma CoverCommands(db: Db, j: Id, now: Time)
    requires Commands(db)
    ensures CommandRows(db, Cover(db, j, now))
  {
    forall id | ActiveIn(db, j, id) ensures id !in db.commands {
      assert id in db.commands <==> NeedsCommand(db.runs, id);
    }
  }

  /** cover_early cancels every unfinished run of the job at once. */
  lemma CoverBlock(db: Db, j: Id, now: Time)
    requires Rows(db) && Commands(db)
    ensures Block(db, Cover(db, j, now))
  {
    CoverOldRows(db, j, now);
    CoverFrame(db, j, now);
    CoverLinks(db, j, now);
    CoverTokens(db, j, now);
    CoverCommands(db, j, now);
  }
}
