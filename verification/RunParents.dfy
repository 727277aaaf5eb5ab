/** Dependency triggers: which runs a succeeded run started, and that it starts each child once. */
module RunParents {
  import opened RunTypes
  import opened RunTransactions
  import opened RunBlocks
  import opened RunBlockLemmas
  import opened RunEvolution
  import opened RunMicro

  ghost predicate ParentOk(db: Db, id: Id)
    requires id in db.runs
  {
    db.runs[id].parent.Some? ==>
      var p := db.runs[id].parent.value;
      p in db.runs && p < id && db.runs[p].status.Succeeded? && (p, db.runs[id].job) in db.dispatched
  }

  ghost predicate ParentLinks(db: Db) {
    forall id :: id in db.runs ==> ParentOk(db, id)
  }

  ghost predicate Dispatches(db: Db) {
    forall k :: k in db.dispatched ==> k.0 in db.runs && db.runs[k.0].status.Succeeded?
  }

  ghost predicate Together(runs: map<Id, Run>, a: Id, b: Id)
    requires a in runs && b in runs
  {
    a == b || (runs[a].shard.Some? && runs[b].shard.Some? && runs[a].shard.value.group == runs[b].shard.value.group)
  }

  /** The first runs a parent run starts for one child job are one run or one group of shards. */
  ghost predicate OncePerChild(runs: map<Id, Run>) {
    forall a, b :: TwoFirst(runs, a, b) ==> Together(runs, a, b)
  }

  ghost predicate Parents(db: Db) {
    ParentLinks(db) && Dispatches(db) && OncePerChild(db.runs)
  }

  /** Every new row inherits its parent from a row it retries, or is the reserved work of a dispatch. */
  ghost predicate NewParent(db: Db, next: Db, id: Id)
    requires id in next.runs
  {
    match next.runs[id].retryOf
    case Some(q) =>
      q in db.runs && q < id && db.runs[q].parent == next.runs[id].parent && db.runs[q].job == next.runs[id].job
    case None =>
      next.runs[id].parent.Some? ==> id >= db.unused && ParentReady(db, next.runs[id].parent.value, next.runs[id].job)
  }

  ghost predicate NewParents(db: Db, next: Db) {
    && (forall id :: id in next.runs && id !in db.runs ==> NewParent(db, next, id))
    && (forall a, b ::
          (Newborns(db, next, a) && Newborns(db, next, b) && next.runs[a].retryOf.None? && next.runs[b].retryOf.None?)
          ==> Together(next.runs, a, b))
  }

  ghost predicate DispatchesGrow(db: Db, next: Db) {
    && (forall k :: k in db.dispatched ==> k in next.dispatched)
    && (forall k :: k in next.dispatched && k !in db.dispatched ==> k.0 in db.runs && db.runs[k.0].status.Succeeded?)
  }

  lemma ParentLinksStep(db: Db, next: Db)
    requires ParentLinks(db) && Places(db.runs, db.jobs, db.unused)
    requires LaterRows(db, next) && NewParents(db, next) && DispatchesGrow(db, next)
    ensures ParentLinks(next)
  {
    forall id | id in next.runs ensures ParentOk(next, id) {
      if id in db.runs {
        assert ParentOk(db, id) && LaterRow(db.runs[id], next.runs[id], db.unused);
        if db.runs[id].parent.Some? {
          var p := db.runs[id].parent.value;
          assert LaterRow(db.runs[p], next.runs[p], db.unused);
        }
      } else if next.runs[id].parent.Some? {
        assert NewParent(db, next, id);
        var p := next.runs[id].parent.value;
        if next.runs[id].retryOf.Some? {
          assert ParentOk(db, next.runs[id].retryOf.value);
        }
        assert LaterRow(db.runs[p], next.runs[p], db.unused);
      }
    }
  }

  lemma DispatchesStep(db: Db, next: Db)
    requires Dispatches(db)
    requires LaterRows(db, next) && DispatchesGrow(db, next)
    ensures Dispatches(next)
  {
    forall k | k in next.dispatched ensures k.0 in next.runs && next.runs[k.0].status.Succeeded? {
      assert k.0 in db.runs && LaterRow(db.runs[k.0], next.runs[k.0], db.unused);
    }
  }

  /** Two first runs of one parent for one job. */
  ghost predicate TwoFirst(runs: map<Id, Run>, a: Id, b: Id) {
    && a in runs && b in runs && runs[a].parent.Some? && runs[a].parent == runs[b].parent
    && runs[a].job == runs[b].job && runs[a].retryOf.None? && runs[b].retryOf.None?
  }

  lemma OldAndOld(db: Db, next: Db, a: Id, b: Id)
    requires OncePerChild(db.runs) && LaterRows(db, next) && TwoFirst(next.runs, a, b) && a in db.runs && b in db.runs
    ensures Together(next.runs, a, b)
  {
    assert LaterRow(db.runs[a], next.runs[a], db.unused) && LaterRow(db.runs[b], next.runs[b], db.unused);
    assert Together(db.runs, a, b);
  }

  /** Whoever starts a child's work later finds that the parent has already started it. */
  lemma NoneBefore(db: Db, next: Db, a: Id, b: Id)
    requires LaterRows(db, next) && NewParents(db, next) && TwoFirst(next.runs, a, b)
    ensures a in db.runs ==> b in db.runs
  {
    if b !in db.runs {
      assert NewParent(db, next, b);
      assert a in db.runs ==> LaterRow(db.runs[a], next.runs[a], db.unused);
    }
  }

  lemma OncePerChildStep(db: Db, next: Db)
    requires OncePerChild(db.runs)
    requires LaterRows(db, next) && NewParents(db, next)
    ensures OncePerChild(next.runs)
  {
    hide LaterRows;
    forall a, b | TwoFirst(next.runs, a, b) ensures Together(next.runs, a, b) {
      NoneBefore(db, next, a, b);
      NoneBefore(db, next, b, a);
      if a in db.runs { OldAndOld(db, next, a, b); } else { assert Newborns(db, next, a) && Newborns(db, next, b); }
    }
  }

  lemma ParentsStep(db: Db, next: Db)
    requires Parents(db) && Places(db.runs, db.jobs, db.unused)
    requires LaterRows(db, next) && NewParents(db, next) && DispatchesGrow(db, next)
    ensures Parents(next)
  {
    ParentLinksStep(db, next);
    DispatchesStep(db, next);
    OncePerChildStep(db, next);
  }

  lemma RetryNewborn(db: Db, id: Id, st: Status, now: Time, delay: Time)
    requires id in db.runs && id in db.log && id < db.unused
    ensures NewParents(db, InsertRetry(Finish(db, id, st, now), id, db.runs[id], now, delay))
  {
    var next := InsertRetry(Finish(db, id, st, now), id, db.runs[id], now, delay);
    RetryShape(db, id, db.runs[id], st, now, delay);
    assert forall n :: Newborns(db, next, n) ==> n == db.unused;
  }

  lemma LaunchNewborn(db: Db, next: Db, base: Run, route: Route)
    requires LaunchPost(db, next, base, route)
    requires base.parent.Some? ==> ParentReady(db, base.parent.value, base.job)
    ensures NewParents(db, next)
  {
    forall id | Newborns(db, next, id) ensures Launched(db, base, route, id, next.runs[id]) {
    }
  }

  /** Steps that insert no run. */
  predicate Inserts(m: Micro) {
    m.MRetry? || m.MLaunch? || m.MDelayed?
  }

  lemma NoNewborn(s: State, m: Micro)
    requires Allowed(s, m) && !Inserts(m)
    ensures Play(s, m).db.runs.Keys == s.db.runs.Keys
  {
    hide Finish, Emit, CancelAndTell, Rearm, Advance;
    match m
    case MSucceed(id, now) => FinishRuns(s.db, id, Succeeded, now);
    case MExhaust(id, st, now) =>
      FinishRuns(s.db, id, st, now);
      EmitRuns(Finish(s.db, id, st, now), id, st, Exhausted);
    case MCancel(id, now) => TellRuns(s.db, id, now);
    case MRearm(now) => RearmRuns(s.db, s.owed.value, now);
    case MAdvance(j, next) => AdvanceRuns(s.db, j, next);
    case MPrepare(token, node, callback) => PrepareRuns(s.db, s.db.claims[token], node, callback);
    case _ =>
  }

  lemma PlayDispatches(s: State, m: Micro)
    requires Allowed(s, m)
    ensures DispatchesGrow(s.db, Play(s, m).db)
  {
    hide Finish, Emit, CancelAndTell, Rearm, Cover, Advance, PrepareDispatch, HasActive;
    match m
    case MSucceed(id, now) => FinishRuns(s.db, id, Succeeded, now);
    case MExhaust(id, st, now) =>
      FinishRuns(s.db, id, st, now);
      EmitRuns(Finish(s.db, id, st, now), id, st, Exhausted);
    case MCancel(id, now) => TellRuns(s.db, id, now);
    case MRetry(id, st, now, delay) => FinishRuns(s.db, id, st, now);
    case MRearm(now) => RearmRuns(s.db, s.owed.value, now);
    case MCover(j, now) => CoverDispatched(s.db, j, now);
    case MAdvance(j, next) => AdvanceRuns(s.db, j, next);
    case MPrepare(token, node, callback) => PrepareRuns(s.db, s.db.claims[token], node, callback);
    case _ =>
  }

  lemma CoverDispatched(db: Db, j: Id, now: Time)
    ensures Cover(db, j, now).dispatched == db.dispatched
  {
  }

  lemma LaunchParents(db: Db, next: Db, base: Run, route: Route)
    requires Inv(db) && LaunchOk(db, base, route)
    requires next.runs == Launch(db, base, route).runs
    ensures NewParents(db, next)
  {
    LaunchIsPost(db, base, route);
    LaunchNewborn(db, next, base, route);
  }

  lemma RetryParents(db: Db, id: Id, st: Status, now: Time, delay: Time)
    requires Inv(db) && id in db.runs
    ensures NewParents(db, InsertRetry(Finish(db, id, st, now), id, db.runs[id], now, delay))
  {
    RetryNewborn(db, id, st, now, delay);
  }

  lemma PlayNewParents(s: State, m: Micro)
    requires Inv(s.db) && Allowed(s, m)
    ensures NewParents(s.db, Play(s, m).db)
  {
    hide Inv, LaunchOk;
    match m
    case MRetry(id, st, now, delay) => RetryParents(s.db, id, st, now, delay);
    case MLaunch(base, route) => LaunchParents(s.db, Play(s, m).db, base, route);
    case MDelayed(base, route) => LaunchParents(s.db, Play(s, m).db, base, route);
    case _ => NoNewborn(s, m);
  }

  lemma PlayParents(s: State, m: Micro)
    requires Inv(s.db) && Parents(s.db) && Allowed(s, m)
    ensures Parents(Play(s, m).db)
  {
    hide NewParents, DispatchesGrow, LaterRows, Parents, Allowed, Play;
    PlayKept(s, m);
    PlayNewParents(s, m);
    PlayDispatches(s, m);
    ParentsStep(s.db, Play(s, m).db);
  }
}
