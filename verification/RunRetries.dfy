/** Retry lineage: every broken run is answered once, and chains of attempts are 1, 2, ..., k. */
module RunRetries {
  import opened RunTypes
  import opened RunTransactions
  import opened RunRows
  import opened RunBlocks
  import opened RunBlockLemmas
  import opened RunEvolution
  import opened RunMicro
  import opened RunParents
  import opened RunSystem
  import opened RunRefinement
  import opened RunHistory
  import opened RunGuarantees

  // ------------------------------------------------------- answered exactly once

  /** A failed or timed-out run has a retry or an `exhausted` event, and never both. */
  lemma BrokenRunsAnsweredOnce(db: Db, id: Id)
    requires Reachable(db) && id in db.runs && Broken(db.runs[id].status)
    ensures id in db.log && (HasRetry(db.runs, id) <==> Exhaustions(db.log[id]) == 0)
    ensures forall a, b ::
              a in db.runs && b in db.runs && db.runs[a].retryOf == Some(id) && db.runs[b].retryOf == Some(id) ==>
                a == b
  {
    ReachableRow(db, id);
    assert Links(db) && OneRetry(db.runs) && Answered(db) by { ReachableInv(db); }
    if HasRetry(db.runs, id) {
      var n :| n in db.runs && db.runs[n].retryOf == Some(id);
      assert LinkOk(db, n);
    }
  }

  /** Nothing else is retried, and only broken runs are exhausted. */
  lemma OnlyBrokenRunsAnswered(db: Db, id: Id)
    requires Reachable(db) && id in db.runs && !Broken(db.runs[id].status)
    ensures !HasRetry(db.runs, id) && id in db.log && Exhaustions(db.log[id]) == 0
  {
    ReachableRow(db, id);
    assert Links(db) by { ReachableInv(db); }
    forall n | n in db.runs ensures db.runs[n].retryOf != Some(id) {
      assert LinkOk(db, n);
    }
  }

  // -------------------------------------------------------------------- chains

  /** Runs linked by retry_of, from a run that retries nothing. */
  ghost predicate Chain(runs: map<Id, Run>, c: seq<Id>) {
    && |c| >= 1 && (forall i :: 0 <= i < |c| ==> c[i] in runs)
    && runs[c[0]].retryOf.None?
    && (forall i :: 0 < i < |c| ==> runs[c[i]].retryOf == Some(c[i - 1]))
  }

  /** Every run ends exactly one chain. */
  lemma {:induction false} ChainTo(db: Db, id: Id) returns (c: seq<Id>)
    requires Links(db) && id in db.runs
    ensures Chain(db.runs, c) && c[|c| - 1] == id
    decreases id
  {
    assert LinkOk(db, id);
    if db.runs[id].retryOf.None? {
      c := [id];
    } else {
      var shorter := ChainTo(db, db.runs[id].retryOf.value);
      c := shorter + [id];
    }
  }

  lemma {:induction false} ChainUnique(runs: map<Id, Run>, c: seq<Id>, d: seq<Id>)
    requires Chain(runs, c) && Chain(runs, d) && c[|c| - 1] == d[|d| - 1]
    ensures c == d
    decreases |c|
  {
    assert |c| > 1 ==> runs[c[|c| - 1]].retryOf == Some(c[|c| - 1 - 1]);
    assert |d| > 1 ==> runs[d[|d| - 1]].retryOf == Some(d[|d| - 1 - 1]);
    if |c| > 1 {
      var cs, ds := c[..|c| - 1], d[..|d| - 1];
      ChainUnique(runs, cs, ds);
      assert c == cs + [c[|c| - 1]] && d == ds + [d[|d| - 1]];
    }
  }

  /** Along a chain the attempts count up from one, and only the last run can be other than broken. */
  lemma {:induction false} ChainCounts(db: Db, c: seq<Id>)
    requires Links(db) && Chain(db.runs, c)
    ensures forall i :: 0 <= i < |c| ==> db.runs[c[i]].attempt == i + 1 && SameOrigin(db.runs[c[i]], db.runs[c[0]])
    ensures forall i :: 0 <= i < |c| - 1 ==> Broken(db.runs[c[i]].status)
    decreases |c|
  {
    assert LinkOk(db, c[|c| - 1]);
    if |c| > 1 {
      var shorter := c[..|c| - 1];
      ChainCounts(db, shorter);
      assert db.runs[c[|c| - 1]].retryOf == Some(c[|c| - 1 - 1]);
      assert forall i :: 0 <= i < |c| - 1 ==> c[i] == shorter[i];
    }
  }

  /** The lineage of a run in any reachable database. */
  lemma RetryLineage(db: Db, id: Id) returns (c: seq<Id>)
    requires Reachable(db) && id in db.runs
    ensures Chain(db.runs, c) && c[|c| - 1] == id && |c| == db.runs[id].attempt
    ensures forall i :: 0 <= i < |c| ==> db.runs[c[i]].attempt == i + 1 && db.runs[c[i]].job == db.runs[id].job
    ensures forall i :: 0 <= i < |c| - 1 ==> Broken(db.runs[c[i]].status)
    ensures forall d :: Chain(db.runs, d) && d[|d| - 1] == id ==> d == c
  {
    hide Reachable;
    assert Links(db) by { ReachableInv(db); }
    c := ChainTo(db, id);
    ChainCounts(db, c);
    forall d | Chain(db.runs, d) && d[|d| - 1] == id ensures d == c {
      ChainUnique(db.runs, d, c);
    }
  }

  // --------------------------------------------------------------------- bounds

  ghost predicate AttemptsBounded(db: Db, j: Id, m: int) {
    forall id :: id in db.runs && db.runs[id].job == j ==> db.runs[id].attempt <= m + 1
  }

  /** No worker holds a copy of the job that allows more than m retries. */
  ghost predicate ClaimsBounded(db: Db, j: Id, m: int) {
    forall t :: t in db.claims && db.claims[t].run.job == j ==> db.claims[t].maxRetries <= m
  }

  ghost predicate Bounded(db: Db, j: Id, m: int) {
    AttemptsBounded(db, j, m) && ClaimsBounded(db, j, m)
  }

  ghost predicate Limited(db: Db, j: Id, m: int) {
    j in db.jobs ==> db.jobs[j].maxRetries <= m
  }

  lemma NewAttempts(s: State, m: Micro, j: Id, limit: nat)
    requires Inv(s.db) && Bounded(s.db, j, limit) && Limited(s.db, j, limit) && Allowed(s, m)
    ensures forall id :: Newborns(s.db, Play(s, m).db, id) && Play(s, m).db.runs[id].job == j ==>
              Play(s, m).db.runs[id].attempt <= limit + 1
  {
    hide Inv;
    match m
    case MRetry(id, st, now, delay) => RetryAttempt(s.db, id, st, now, delay, j, limit);
    case MLaunch(base, route) => LaunchAttempt(s.db, base, route);
    case MDelayed(base, route) => LaunchAttempt(s.db, base, route);
    case _ => NoNewborn(s, m);
  }

  lemma LaunchAttempt(db: Db, base: Run, route: Route)
    requires Inv(db) && Seed(db, base)
    ensures forall id :: Newborns(db, Launch(db, base, route), id) ==> Launch(db, base, route).runs[id].attempt == 1
  {
    LaunchIsPost(db, base, route);
    forall id | Newborns(db, Launch(db, base, route), id) ensures Launch(db, base, route).runs[id].attempt == 1 {
      assert Launched(db, base, route, id, Launch(db, base, route).runs[id]);
    }
  }

  lemma AllowedWithin(db: Db, id: Id, j: Id, limit: nat)
    requires Claims(db) && Bounded(db, j, limit) && Limited(db, j, limit)
    requires id in db.runs && db.runs[id].job == j && RetryAllowed(db, id)
    ensures db.runs[id].attempt <= limit
  {
    if db.runs[id].token.Some? && db.runs[id].token.value in db.claims {
      assert ClaimOk(db, db.runs[id].token.value);
    }
  }

  lemma RetryAttempt(db: Db, id: Id, st: Status, now: Time, delay: Time, j: Id, limit: nat)
    requires Inv(db) && Bounded(db, j, limit) && Limited(db, j, limit)
    requires id in db.runs && RetryAllowed(db, id)
    ensures var next := InsertRetry(Finish(db, id, st, now), id, db.runs[id], now, delay);
            forall n :: Newborns(db, next, n) && next.runs[n].job == j ==> next.runs[n].attempt <= limit + 1
  {
    if db.runs[id].job == j {
      assert Claims(db);
      AllowedWithin(db, id, j, limit);
    }
    RetryRowOnly(db, id, st, now, delay);
  }

  lemma RetryRowOnly(db: Db, id: Id, st: Status, now: Time, delay: Time)
    requires id in db.runs && id in db.log
    ensures var next := InsertRetry(Finish(db, id, st, now), id, db.runs[id], now, delay);
            forall n :: Newborns(db, next, n) ==> next.runs[n] == RetryRow(id, db.runs[id], now, delay)
  {
    var next := InsertRetry(Finish(db, id, st, now), id, db.runs[id], now, delay);
    RetryShape(db, id, db.runs[id], st, now, delay);
    assert forall n :: Newborns(db, next, n) ==> n == db.unused;
  }

  lemma PlayClaims(s: State, m: Micro)
    requires Allowed(s, m) && !m.MClaim?
    ensures Play(s, m).db.claims == s.db.claims
  {
    hide Finish, Emit, CancelAndTell, Rearm, Advance, PrepareDispatch, HasActive;
    match m
    case MSucceed(id, now) => FinishRuns(s.db, id, Succeeded, now);
    case MExhaust(id, st, now) =>
      FinishRuns(s.db, id, st, now);
      EmitRuns(Finish(s.db, id, st, now), id, st, Exhausted);
    case MCancel(id, now) => TellRuns(s.db, id, now);
    case MRetry(id, st, now, delay) => FinishRuns(s.db, id, st, now);
    case MRearm(now) => RearmRuns(s.db, s.owed.value, now);
    case MAdvance(j, next) => AdvanceRuns(s.db, j, next);
    case MPrepare(token, node, callback) => PrepareRuns(s.db, s.db.claims[token], node, callback);
    case _ =>
  }

  lemma PlayBounded(s: State, m: Micro, j: Id, limit: nat)
    requires Inv(s.db) && Bounded(s.db, j, limit) && Limited(s.db, j, limit) && Allowed(s, m)
    ensures Bounded(Play(s, m).db, j, limit)
  {
    hide Inv, LaterIds, LaterLogs, LaterClaims, LaterCommands;
    var next := Play(s, m).db;
    assert LaterRows(s.db, next) by { hide Allowed, Play; PlayKept(s, m); }
    NewAttempts(s, m, j, limit);
    forall id | id in next.runs && next.runs[id].job == j ensures next.runs[id].attempt <= limit + 1 {
      if id in s.db.runs {
        assert LaterRow(s.db.runs[id], next.runs[id], s.db.unused);
      } else {
        assert Newborns(s.db, next, id);
      }
    }
    if !m.MClaim? { PlayClaims(s, m); }
  }

  lemma {:induction false} RunsBounded(a: State, ms: seq<Micro>, b: State, j: Id, limit: nat)
    requires Whole(a.db) && Bounded(a.db, j, limit) && Limited(a.db, j, limit) && Runs(a, ms, b)
    ensures Bounded(b.db, j, limit)
    decreases |ms|
  {
    hide Inv, Parents, Allowed, Play, Bounded, Evolves;
    if ms != [] {
      PlayBounded(a, ms[0], j, limit);
      PlayWhole(a, ms[0]);
      RunsBounded(Play(a, ms[0]), ms[1..], b, j, limit);
    }
  }

  lemma DoBounded(db: Db, a: Action, j: Id, limit: nat)
    requires Sound(db) && Bounded(db, j, limit) && Limited(db, j, limit)
    ensures Bounded(Do(db, a), j, limit)
  {
    hide Whole, Limited, Apply, Administered, Dependencies.Acyclic;
    if Apply(db, a).Ok? {
      var next := Apply(db, a).value;
      if Administers(a) {
        AdministerAction(db, a);
        AdministeredRuns(db, next);
      } else {
        var ms := RefineAction(db, a);
        RunsBounded(State(db, None), ms, State(next, None), j, limit);
      }
    }
  }

  /** While the job never allows more than `limit` retries, no chain has more than limit + 1 attempts. */
  lemma {:induction false} AttemptsStayBounded(actions: seq<Action>, j: Id, limit: nat)
    requires forall k :: 0 <= k <= |actions| ==> Limited(Exec(actions[..k]), j, limit)
    ensures Bounded(Exec(actions), j, limit)
    decreases |actions|
  {
    hide Sound, Limited, Do;
    if actions != [] {
      var shorter := actions[..|actions| - 1];
      assert forall k :: 0 <= k <= |shorter| ==> shorter[..k] == actions[..k];
      AttemptsStayBounded(shorter, j, limit);
      ExecSound(shorter);
      assert shorter == actions[..|shorter|];
      DoBounded(Exec(shorter), actions[|actions| - 1], j, limit);
    }
  }
}
