/** discard_later and cover_early: all unfinished runs of the job come from one trigger. */
module RunOverlap {
  import opened RunTypes
  import opened RunTransactions
  import opened RunRows
  import opened RunBlocks
  import opened RunBlockLemmas
  import opened RunEvolution
  import opened RunMicro
  import opened RunParents
  import opened RunSystem
  import opened RunRefinement
  import opened RunHistory

  /** The run a chain of retries starts from. */
  ghost function Root(runs: map<Id, Run>, id: Id): Id
    decreases id
  {
    if id in runs && runs[id].retryOf.Some? && runs[id].retryOf.value < id
      then Root(runs, runs[id].retryOf.value) else id
  }

  /** The trigger a run descends from: a broadcast group, or a single first run. */
  datatype Origin = Group(group: Id) | Solo(root: Id)

  ghost function OriginOf(runs: map<Id, Run>, id: Id): Origin
    requires id in runs
  {
    if runs[id].shard.Some? then Group(runs[id].shard.value.group) else Solo(Root(runs, id))
  }

  ghost predicate OneTrigger(db: Db, j: Id) {
    forall a, b :: ActiveIn(db, j, a) && ActiveIn(db, j, b) ==> OriginOf(db.runs, a) == OriginOf(db.runs, b)
  }

  lemma {:induction false} RootStable(db: Db, next: Db, id: Id)
    requires Links(db) && LaterRows(db, next) && id in db.runs
    ensures Root(next.runs, id) == Root(db.runs, id)
    decreases id
  {
    assert LaterRow(db.runs[id], next.runs[id], db.unused) && LinkOk(db, id);
    if db.runs[id].retryOf.Some? {
      RootStable(db, next, db.runs[id].retryOf.value);
    }
  }

  lemma OriginStable(db: Db, next: Db, id: Id)
    requires Links(db) && LaterRows(db, next) && id in db.runs
    ensures id in next.runs && OriginOf(next.runs, id) == OriginOf(db.runs, id)
  {
    RootStable(db, next, id);
    assert LaterRow(db.runs[id], next.runs[id], db.unused);
  }

  lemma RetryOrigin(db: Db, id: Id)
    requires Links(db) && id in db.runs && db.runs[id].retryOf.Some?
    ensures db.runs[id].retryOf.value in db.runs
    ensures OriginOf(db.runs, id) == OriginOf(db.runs, db.runs[id].retryOf.value)
  {
    assert LinkOk(db, id);
  }

  /** New unfinished work of the job: the retry of an unfinished run, or a first run when there is none. */
  ghost predicate NewWorkOk(db: Db, next: Db, j: Id, id: Id)
    requires id in next.runs
  {
    ActiveIn(next, j, id) ==>
      if next.runs[id].retryOf.Some? then ActiveIn(db, j, next.runs[id].retryOf.value) else !HasActive(db, j)
  }

  ghost predicate NewWork(db: Db, next: Db, j: Id) {
    forall id :: id in next.runs && id !in db.runs ==> NewWorkOk(db, next, j, id)
  }

  /** An unfinished run after the step descends from one before it, unless there was none. */
  lemma ActiveBefore(db: Db, next: Db, j: Id, id: Id) returns (was: Id)
    requires Links(db) && Links(next) && LaterRows(db, next) && NewWork(db, next, j)
    requires ActiveIn(next, j, id) && HasActive(db, j)
    ensures ActiveIn(db, j, was) && OriginOf(db.runs, was) == OriginOf(next.runs, id)
  {
    if id in db.runs {
      was := id;
      assert LaterRow(db.runs[id], next.runs[id], db.unused);
    } else {
      assert NewWorkOk(db, next, j, id);
      was := next.runs[id].retryOf.value;
      RetryOrigin(next, id);
    }
    OriginStable(db, next, was);
  }

  lemma ActiveAfresh(db: Db, next: Db, j: Id, id: Id)
    requires LaterRows(db, next) && NewWork(db, next, j)
    requires ActiveIn(next, j, id) && !HasActive(db, j)
    ensures Newborns(db, next, id) && next.runs[id].retryOf.None?
  {
    if id in db.runs {
      assert LaterRow(db.runs[id], next.runs[id], db.unused);
      assert ActiveIn(db, j, id);
    } else {
      assert NewWorkOk(db, next, j, id);
    }
  }

  lemma OneTriggerStep(db: Db, next: Db, j: Id)
    requires OneTrigger(db, j) && Links(db) && Links(next) && LaterRows(db, next)
    requires NewParents(db, next) && NewWork(db, next, j)
    ensures OneTrigger(next, j)
  {
    hide Links, LaterRows, HasActive, NewWork, LaterRow;
    forall a, b | ActiveIn(next, j, a) && ActiveIn(next, j, b)
      ensures OriginOf(next.runs, a) == OriginOf(next.runs, b)
    {
      if HasActive(db, j) {
        var x := ActiveBefore(db, next, j, a);
        var y := ActiveBefore(db, next, j, b);
      } else {
        ActiveAfresh(db, next, j, a);
        ActiveAfresh(db, next, j, b);
        assert Together(next.runs, a, b);
      }
    }
  }

  ghost predicate ExclusiveJob(db: Db, j: Id) {
    j in db.jobs ==> Exclusive(db.jobs[j].policy)
  }

  lemma LaunchWork(db: Db, next: Db, base: Run, route: Route, j: Id)
    requires Inv(db) && LaunchOk(db, base, route) && ExclusiveJob(db, j)
    requires next.runs == Launch(db, base, route).runs
    ensures NewWork(db, next, j)
  {
    hide HasActive;
    LaunchIsPost(db, base, route);
    forall id | id in next.runs && id !in db.runs ensures NewWorkOk(db, next, j, id) {
      assert Launched(db, base, route, id, next.runs[id]);
    }
  }

  lemma RetryWork(db: Db, id: Id, st: Status, now: Time, delay: Time, j: Id)
    requires id in db.runs && id in db.log && Unfinished(db.runs[id].status)
    ensures NewWork(db, InsertRetry(Finish(db, id, st, now), id, db.runs[id], now, delay), j)
  {
    var next := InsertRetry(Finish(db, id, st, now), id, db.runs[id], now, delay);
    RetryShape(db, id, db.runs[id], st, now, delay);
    assert forall n :: n in next.runs && n !in db.runs ==> n == db.unused;
  }

  lemma PlayWork(s: State, m: Micro, j: Id)
    requires Inv(s.db) && Allowed(s, m) && ExclusiveJob(s.db, j)
    ensures NewWork(s.db, Play(s, m).db, j)
  {
    hide LaunchOk, HasActive, Links, OneRetry, Answered, Groups, Claims, Commands, Places, LifeOk;
    match m
    case MRetry(id, st, now, delay) => RetryWork(s.db, id, st, now, delay, j);
    case MLaunch(base, route) => LaunchWork(s.db, Play(s, m).db, base, route, j);
    case MDelayed(base, route) => LaunchWork(s.db, Play(s, m).db, base, route, j);
    case _ => NoNewborn(s, m);
  }

  lemma PlayOneTrigger(s: State, m: Micro, j: Id)
    requires Inv(s.db) && Allowed(s, m) && ExclusiveJob(s.db, j) && OneTrigger(s.db, j)
    ensures OneTrigger(Play(s, m).db, j)
  {
    hide NewWork, NewParents, LaterRows, Links, Allowed, Play, OneTrigger, ExclusiveJob;
    PlayKept(s, m);
    PlayNewParents(s, m);
    PlayWork(s, m, j);
    OneTriggerStep(s.db, Play(s, m).db, j);
  }

  lemma {:induction false} RunsOneTrigger(a: State, ms: seq<Micro>, b: State, j: Id)
    requires Whole(a.db) && Runs(a, ms, b) && ExclusiveJob(a.db, j) && OneTrigger(a.db, j)
    ensures OneTrigger(b.db, j)
    decreases |ms|
  {
    hide Inv, Parents, Allowed, Play, OneTrigger, Evolves;
    if ms != [] {
      PlayOneTrigger(a, ms[0], j);
      PlayWhole(a, ms[0]);
      RunsOneTrigger(Play(a, ms[0]), ms[1..], b, j);
    }
  }

  lemma DoOneTrigger(db: Db, a: Action, j: Id)
    requires Sound(db) && ExclusiveJob(db, j) && OneTrigger(db, j)
    ensures OneTrigger(Do(db, a), j)
  {
    hide Whole, Apply, Administered, Dependencies.Acyclic, ExclusiveJob;
    if Apply(db, a).Ok? {
      var next := Apply(db, a).value;
      if Administers(a) {
        AdministerAction(db, a);
        AdministeredRuns(db, next);
      } else {
        var ms := RefineAction(db, a);
        hide OneTrigger;
        RunsOneTrigger(State(db, None), ms, State(next, None), j);
      }
    }
  }

  /**
   While a job's policy is discard_later or cover_early, its unfinished runs all
   descend from one trigger, however schedule, manual calls and dependencies
   interleave with claims, retries, cancellations and expiries.
   */
  lemma {:induction false} OneTriggerAtATime(actions: seq<Action>, j: Id)
    requires forall k :: 0 <= k <= |actions| ==> ExclusiveJob(Exec(actions[..k]), j)
    ensures OneTrigger(Exec(actions), j)
    decreases |actions|
  {
    hide Sound, ExclusiveJob, Do;
    if actions != [] {
      var shorter := actions[..|actions| - 1];
      assert forall k :: 0 <= k <= |shorter| ==> shorter[..k] == actions[..k];
      hide OneTrigger;
      OneTriggerAtATime(shorter, j);
      ExecSound(shorter);
      assert shorter == actions[..|shorter|];
      DoOneTrigger(Exec(shorter), actions[|actions| - 1], j);
    }
  }
}
