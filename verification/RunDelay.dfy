/** Fixed-delay jobs never stall, and overlap with themselves exactly when reconfigured during a run. */
module RunDelay {
  import opened RunTypes
  import opened RunTransactions
  import opened RunRows
  import opened RunBlocks
  import opened RunBlockLemmas
  import opened RunEvolution
  import opened RunMicro
  import opened RunParents
  import opened RunSystem
  import opened RunRefinement
  import opened RunHistory

  /** An unfinished run of the job that will set its next time when it ends. */
  predicate Awaits(runs: map<Id, Run>, j: Id, id: Id) {
    id in runs && runs[id].job == j && Awaited(runs[id])
  }

  ghost predicate SomeAwaited(runs: map<Id, Run>, j: Id) {
    exists id :: Awaits(runs, j, id)
  }

  /** The rearming of this job is still to come in the current transaction. */
  predicate Owes(owed: Option<Run>, j: Id) {
    owed.Some? && owed.value.rearm && owed.value.job == j
  }

  predicate DelayJob(db: Db, j: Id) {
    j in db.jobs && db.jobs[j].kind.FixedDelay?
  }

  /** An enabled fixed-delay job has a next time, or a run that will set it. */
  ghost predicate Armed(s: State, j: Id) {
    DelayJob(s.db, j) && s.db.jobs[j].enabled ==>
      s.db.jobs[j].nextRunAt.Some? || SomeAwaited(s.db.runs, j) || Owes(s.owed, j)
  }

  predicate OneGroup(a: Run, b: Run) {
    a.shard.Some? && b.shard.Some? && a.shard.value.group == b.shard.value.group
  }

  /** No next time while a run is awaited, and the awaited runs are one run or one broadcast. */
  ghost predicate NoOverlap(db: Db, j: Id) {
    && (DelayJob(db, j) && db.jobs[j].nextRunAt.Some? ==> !SomeAwaited(db.runs, j))
    && (forall a, b :: Awaits(db.runs, j, a) && Awaits(db.runs, j, b) && a != b ==> OneGroup(db.runs[a], db.runs[b]))
  }

  /** The same within a transaction: what is still owed belongs to that run or group as well. */
  ghost predicate Single(s: State, j: Id) {
    && NoOverlap(s.db, j)
    && (Owes(s.owed, j) ==> forall a :: Awaits(s.db.runs, j, a) ==> OneGroup(s.owed.value, s.db.runs[a]))
  }

  /** The owed copy is the copy of a row. */
  ghost predicate OwedRow(s: State) {
    s.owed.Some? ==> exists id :: id in s.db.runs && SameIdentity(s.owed.value, s.db.runs[id])
  }

  /** The job never stalls and, if it was single to begin with, stays so. */
  ghost predicate DelayOk(s: State, j: Id, single: bool) {
    Armed(s, j) && (single ==> Single(s, j))
  }

  // ------------------------------------------------------ steps that are neutral

  predicate SameDelayJob(db: Db, next: Db, j: Id) {
    && (DelayJob(db, j) <==> DelayJob(next, j))
    && (DelayJob(db, j) ==>
          && next.jobs[j].nextRunAt == db.jobs[j].nextRunAt
          && next.jobs[j].enabled == db.jobs[j].enabled)
  }

  ghost predicate SameAwaited(db: Db, next: Db, j: Id) {
    && (forall id :: Awaits(db.runs, j, id) ==> Awaits(next.runs, j, id))
    && (forall id :: Awaits(next.runs, j, id) ==> Awaits(db.runs, j, id) && next.runs[id].shard == db.runs[id].shard)
  }

  lemma NeutralKeeps(s: State, t: State, j: Id, single: bool)
    requires DelayOk(s, j, single) && t.owed == s.owed
    requires SameDelayJob(s.db, t.db, j) && SameAwaited(s.db, t.db, j)
    ensures DelayOk(t, j, single)
  {
    if SomeAwaited(s.db.runs, j) {
      var id :| Awaits(s.db.runs, j, id);
      assert Awaits(t.db.runs, j, id);
    }
    if SomeAwaited(t.db.runs, j) {
      var id :| Awaits(t.db.runs, j, id);
      assert Awaits(s.db.runs, j, id);
    }
  }

  lemma LaunchNeutral(db: Db, base: Run, route: Route, j: Id)
    requires Inv(db) && LaunchOk(db, base, route) && !(base.job == j && base.rearm && base.status.Pending?)
    ensures SameAwaited(db, Launch(db, base, route), j)
  {
    LaunchIsPost(db, base, route);
    var next := Launch(db, base, route);
    forall id | id in next.runs && id !in db.runs ensures !Awaits(next.runs, j, id) {
      assert Launched(db, base, route, id, next.runs[id]);
    }
  }

  lemma RowNeutral(db: Db, next: Db, id: Id, j: Id)
    requires id in db.runs && id in next.runs && next.runs == db.runs[id := next.runs[id]]
    requires SameIdentity(db.runs[id], next.runs[id])
    requires Unfinished(db.runs[id].status) && Unfinished(next.runs[id].status)
    ensures SameAwaited(db, next, j)
  {
  }

  lemma CoverNeutral(db: Db, c: Id, now: Time, j: Id)
    requires c != j
    ensures SameAwaited(db, Cover(db, c, now), j) && SameDelayJob(db, Cover(db, c, now), j)
  {
  }

  lemma ClaimNeutral(db: Db, id: Id, now: Time, lease: Time, j: Id)
    requires id in db.runs && db.runs[id].job in db.jobs && Unfinished(db.runs[id].status)
    ensures SameAwaited(db, ClaimOne(db, id, now, lease), j)
  {
    RowNeutral(db, ClaimOne(db, id, now, lease), id, j);
  }

  lemma PrepareNeutral(db: Db, claim: Claim, node: Node, callback: Callback, j: Id)
    requires HoldsLease(db, claim)
    ensures SameAwaited(db, PrepareDispatch(db, claim, node, callback).value, j)
  {
    var next := PrepareDispatch(db, claim, node, callback).value;
    assert next.runs == db.runs[claim.id := next.runs[claim.id]];
    RowNeutral(db, next, claim.id, j);
  }

  // ----------------------------------------------------- a run that ends is owed

  /** The state after a terminal UPDATE of one row, before the rearming. */
  ghost predicate Ended(s: State, t: State, id: Id, now: Time) {
    && id in s.db.runs && s.owed.None? && t.owed == Some(s.db.runs[id])
    && id in t.db.runs && t.db.runs == s.db.runs[id := t.db.runs[id]]
    && SameIdentity(s.db.runs[id], t.db.runs[id]) && !Unfinished(t.db.runs[id].status)
    && t.db.jobs == s.db.jobs
  }

  lemma EndedArmed(s: State, t: State, id: Id, now: Time, j: Id)
    requires Ended(s, t, id, now) && Armed(s, j)
    requires Unfinished(s.db.runs[id].status)
    ensures Armed(t, j)
  {
    if SomeAwaited(s.db.runs, j) && !Owes(t.owed, j) {
      var x :| Awaits(s.db.runs, j, x);
      assert Awaits(t.db.runs, j, x);
    }
  }

  lemma EndedSingle(s: State, t: State, id: Id, now: Time, j: Id)
    requires Ended(s, t, id, now) && Single(s, j)
    requires Unfinished(s.db.runs[id].status)
    ensures Single(t, j)
  {
    assert forall x :: Awaits(t.db.runs, j, x) ==> Awaits(s.db.runs, j, x) && x != id;
    if Owes(t.owed, j) {
      assert Awaits(s.db.runs, j, id);
    }
    if SomeAwaited(t.db.runs, j) {
      var x :| Awaits(t.db.runs, j, x);
      assert Awaits(s.db.runs, j, x);
    }
  }

  lemma PlayEnds(s: State, m: Micro)
    requires Inv(s.db) && Allowed(s, m) && (m.MSucceed? || m.MExhaust? || m.MCancel?)
    ensures Ended(s, Play(s, m), m.id, m.now)
  {
    hide LifeOk, Links, OneRetry, Answered, Groups, Claims, Places;
    match m
    case MSucceed(id, now) => FinishShape(s.db, id, Succeeded, now);
    case MExhaust(id, st, now) => ExhaustShape(s.db, id, st, now);
    case MCancel(id, now) => CancelShape(s.db, id, now);
  }

  lemma EndsKeeps(s: State, m: Micro, j: Id, single: bool)
    requires Inv(s.db) && Allowed(s, m) && (m.MSucceed? || m.MExhaust? || m.MCancel?) && DelayOk(s, j, single)
    ensures DelayOk(Play(s, m), j, single)
  {
    hide Inv, Armed, Single, Ended, Play;
    PlayEnds(s, m);
    EndedArmed(s, Play(s, m), m.id, m.now, j);
    if single { EndedSingle(s, Play(s, m), m.id, m.now, j); }
  }

  // -------------------------------------------------------- a retry takes over

  ghost predicate Retried(db: Db, next: Db, id: Id) {
    && id in db.runs && id != db.unused && db.unused !in db.runs && id in next.runs && db.unused in next.runs
    && next.runs == db.runs[id := next.runs[id]][db.unused := next.runs[db.unused]]
    && SameIdentity(db.runs[id], next.runs[id]) && !Unfinished(next.runs[id].status)
    && SameOrigin(next.runs[db.unused], db.runs[id]) && next.runs[db.unused].status.Pending?
    && next.jobs == db.jobs
  }

  lemma PostRetried(db: Db, next: Db, id: Id, st: Status, now: Time, delay: Time)
    requires id in db.runs && id in db.log && id != db.unused && db.unused !in db.runs && Broken(st)
    requires RetryPost(db, next, id, db.runs[id], st, now, delay)
    ensures Retried(db, next, id)
  {
  }

  lemma PlayRetried(s: State, id: Id, st: Status, now: Time, delay: Time)
    requires Inv(s.db) && Allowed(s, MRetry(id, st, now, delay))
    ensures Retried(s.db, Play(s, MRetry(id, st, now, delay)).db, id)
  {
    hide LifeOk, Links, OneRetry, Answered, Groups, Claims, Commands, RetryPost, Retried;
    RetryShape(s.db, id, s.db.runs[id], st, now, delay);
    PostRetried(s.db, Play(s, MRetry(id, st, now, delay)).db, id, st, now, delay);
  }

  /** Who is awaited afterwards: the retry in place of the run it retries. */
  lemma RetriedAwaits(db: Db, next: Db, id: Id, j: Id, x: Id)
    requires Retried(db, next, id) && Unfinished(db.runs[id].status)
    ensures Awaits(db.runs, j, x) ==> Awaits(next.runs, j, if x == id then db.unused else x)
    ensures Awaits(next.runs, j, x) ==>
              Awaits(db.runs, j, if x == db.unused then id else x)
              && next.runs[x].shard == db.runs[if x == db.unused then id else x].shard
  {
  }

  lemma RetriedArmed(s: State, t: State, id: Id, j: Id)
    requires Retried(s.db, t.db, id) && Unfinished(s.db.runs[id].status) && s.owed.None? && t.owed.None? && Armed(s, j)
    ensures Armed(t, j)
  {
    if SomeAwaited(s.db.runs, j) {
      var x :| Awaits(s.db.runs, j, x);
      RetriedAwaits(s.db, t.db, id, j, x);
    }
  }

  lemma RetriedSingle(s: State, t: State, id: Id, j: Id)
    requires Retried(s.db, t.db, id) && Unfinished(s.db.runs[id].status) && s.owed.None? && t.owed.None? && Single(s, j)
    ensures Single(t, j)
  {
    forall x ensures Awaits(t.db.runs, j, x) ==>
        Awaits(s.db.runs, j, if x == s.db.unused then id else x)
        && t.db.runs[x].shard == s.db.runs[if x == s.db.unused then id else x].shard
    {
      RetriedAwaits(s.db, t.db, id, j, x);
    }
    if SomeAwaited(t.db.runs, j) {
      var x :| Awaits(t.db.runs, j, x);
      assert Awaits(s.db.runs, j, if x == s.db.unused then id else x);
    }
  }

  lemma RetriedKeeps(s: State, t: State, id: Id, j: Id, single: bool)
    requires Retried(s.db, t.db, id) && Unfinished(s.db.runs[id].status) && s.owed.None? && t.owed.None?
    requires DelayOk(s, j, single)
    ensures DelayOk(t, j, single)
  {
    hide Armed, Single;
    RetriedArmed(s, t, id, j);
    if single { RetriedSingle(s, t, id, j); }
  }

  // ------------------------------------------------------------------ rearming

  lemma RearmArmed(s: State, at: Time, j: Id)
    requires s.owed.Some? && OwedRow(s) && Groups(s.db.runs) && Armed(s, j)
    ensures Armed(State(Rearm(s.db, s.owed.value, at), None), j)
  {
    var run := s.owed.value;
    if Owes(s.owed, j) && run.shard.Some? && GroupAwaited(s.db, run.shard.value.group) {
      SiblingAwaited(s, j);
    }
  }

  /** A sibling that is still awaited belongs to the same job. */
  lemma SiblingAwaited(s: State, j: Id)
    requires OwedRow(s) && Groups(s.db.runs) && Owes(s.owed, j)
    requires s.owed.value.shard.Some? && GroupAwaited(s.db, s.owed.value.shard.value.group)
    ensures SomeAwaited(s.db.runs, j)
  {
    var id :| id in s.db.runs && SameIdentity(s.owed.value, s.db.runs[id]);
    var x :| x in s.db.runs && s.db.runs[x].shard.Some?
             && s.db.runs[x].shard.value.group == s.owed.value.shard.value.group && Awaited(s.db.runs[x]);
    assert Awaits(s.db.runs, j, x);
  }

  lemma RearmSingle(s: State, at: Time, j: Id)
    requires s.owed.Some? && Single(s, j)
    ensures Single(State(Rearm(s.db, s.owed.value, at), None), j)
  {
    var run := s.owed.value;
    var next := Rearm(s.db, run, at);
    assert next.runs == s.db.runs;
    if next != s.db && run.job == j && SomeAwaited(s.db.runs, j) {
      AwaitedSibling(s, j);
    }
  }

  /** If a run of the job is still awaited, it is a sibling, so the job is not rearmed yet. */
  lemma AwaitedSibling(s: State, j: Id)
    requires Single(s, j) && Owes(s.owed, j) && SomeAwaited(s.db.runs, j)
    ensures s.owed.value.shard.Some? && GroupAwaited(s.db, s.owed.value.shard.value.group)
  {
    var x :| Awaits(s.db.runs, j, x);
    assert OneGroup(s.owed.value, s.db.runs[x]);
  }

  // ------------------------------------------------------------------ covering

  lemma CoverKeeps(s: State, j: Id, now: Time, single: bool)
    requires DelayOk(s, j, single)
    ensures DelayOk(s.(db := Cover(s.db, j, now)), j, single)
  {
    var next := Cover(s.db, j, now);
    assert forall x :: !Awaits(next.runs, j, x);
    if SomeAwaited(s.db.runs, j) {
      var x :| Awaits(s.db.runs, j, x);
      assert ActiveIn(s.db, j, x) && s.db.runs[x].rearm;
      assert CoversAwaited(s.db, j);
    }
  }

  // ------------------------------------------------------------------ enqueuing

  lemma DelayedRows(db: Db, base: Run, route: Route)
    requires Inv(db) && LaunchOk(db, base, route) && base.rearm && base.status.Pending?
    ensures var next := Launch(db, base, route);
            && Awaits(next.runs, base.job, db.unused)
            && (forall a :: Awaits(next.runs, base.job, a) && a !in db.runs ==> Newborns(db, next, a))
            && (forall a, b :: Newborns(db, next, a) && Newborns(db, next, b) && a != b ==>
                  OneGroup(next.runs[a], next.runs[b]))
            && (forall a :: a in db.runs ==> a in next.runs && next.runs[a] == db.runs[a])
  {
    LaunchIsPost(db, base, route);
    var next := Launch(db, base, route);
    forall a, b | Newborns(db, next, a) && Newborns(db, next, b) && a != b
      ensures OneGroup(next.runs[a], next.runs[b])
    {
      assert Launched(db, base, route, a, next.runs[a]) && Launched(db, base, route, b, next.runs[b]);
    }
  }

  lemma LaunchJobKnown(db: Db, base: Run, route: Route)
    requires LaunchOk(db, base, route)
    ensures base.job in db.jobs
  {
  }

  lemma DelayedKeeps(s: State, base: Run, route: Route, single: bool)
    requires Inv(s.db) && Allowed(s, MDelayed(base, route)) && DelayOk(s, base.job, single)
    ensures DelayOk(Play(s, MDelayed(base, route)), base.job, single)
  {
    hide Inv, LaunchOk, Launch;
    var mid := Launch(s.db, base, route);
    var t := Play(s, MDelayed(base, route));
    DelayedRows(s.db, base, route);
    LaunchJobs(s.db, base, route);
    assert base.job in s.db.jobs by { LaunchJobKnown(s.db, base, route); }
    assert t.db.runs == mid.runs && Awaits(t.db.runs, base.job, s.db.unused);
    if single {
      forall a | a in s.db.runs ensures !Awaits(t.db.runs, base.job, a) {
        assert Awaits(t.db.runs, base.job, a) ==> Awaits(s.db.runs, base.job, a);
      }
    }
  }

  lemma AdvanceKeeps(s: State, j: Id, next: Option<Time>, i: Id, single: bool)
    requires Allowed(s, MAdvance(i, next)) && DelayOk(s, j, single)
    ensures DelayOk(Play(s, MAdvance(i, next)), j, single)
  {
  }

  // ------------------------------------------------------------------ every step

  lemma PlayNeutral(s: State, m: Micro, j: Id, single: bool)
    requires Inv(s.db) && Allowed(s, m) && DelayOk(s, j, single)
    requires m.MLaunch? || m.MClaim? || m.MPrepare? || m.MReserve? || m.MKey?
    ensures DelayOk(Play(s, m), j, single)
  {
    hide Inv, DelayOk, LaunchOk, Launch, ClaimOne, PrepareDispatch, SameAwaited;
    PlayJobs(s, m);
    var t := Play(s, m);
    match m {
      case MLaunch(base, route) => LaunchNeutral(s.db, base, route, j);
      case MClaim(id, now, lease) =>
        if s.db.runs[id].job in s.db.jobs {
          ClaimNeutral(s.db, id, now, lease, j);
        } else {
          SameRowsAwaited(s.db, t.db, j);
        }
      case MPrepare(token, node, callback) => PrepareNeutral(s.db, s.db.claims[token], node, callback, j);
      case MReserve(_, _) => SameRowsAwaited(s.db, t.db, j);
      case MKey(_, _) => SameRowsAwaited(s.db, t.db, j);
    }
    NeutralKeeps(s, t, j, single);
  }

  lemma SameRowsAwaited(db: Db, next: Db, j: Id)
    requires next.runs == db.runs
    ensures SameAwaited(db, next, j)
  {
  }

  lemma PlayDelayed(s: State, base: Run, route: Route, j: Id, single: bool)
    requires Inv(s.db) && Allowed(s, MDelayed(base, route)) && DelayOk(s, j, single)
    ensures DelayOk(Play(s, MDelayed(base, route)), j, single)
  {
    hide Inv, DelayOk, LaunchOk, Launch, SameAwaited;
    var t := Play(s, MDelayed(base, route));
    if base.job == j {
      DelayedKeeps(s, base, route, single);
    } else {
      LaunchNeutral(s.db, base, route, j);
      LaunchJobs(s.db, base, route);
      AwaitedOfRuns(s.db, Launch(s.db, base, route), t.db, j);
      NeutralKeeps(s, t, j, single);
    }
  }

  lemma AwaitedOfRuns(db: Db, mid: Db, next: Db, j: Id)
    requires SameAwaited(db, mid, j) && next.runs == mid.runs
    ensures SameAwaited(db, next, j)
  {
  }

  lemma PlayDelay(s: State, m: Micro, j: Id, single: bool)
    requires Inv(s.db) && OwedRow(s) && Allowed(s, m) && DelayOk(s, j, single)
    ensures DelayOk(Play(s, m), j, single)
  {
    hide DelayOk, OwedRow, Rearm, Cover, LaunchOk, Rows, Links, OneRetry, Answered, Claims, Commands, HasActive;
    match m
    case MRetry(id, st, now, delay) =>
      PlayRetried(s, id, st, now, delay);
      RetriedKeeps(s, Play(s, m), id, j, single);
    case MRearm(now) =>
      RearmKeeps(s, now, j, single);
    case MCover(c, now) =>
      if c == j {
        CoverKeeps(s, j, now, single);
      } else {
        CoverNeutral(s.db, c, now, j);
        NeutralKeeps(s, Play(s, m), j, single);
      }
    case MDelayed(base, route) => PlayDelayed(s, base, route, j, single);
    case MAdvance(i, next) => AdvanceKeeps(s, j, next, i, single);
    case MSucceed(_, _) => EndsKeeps(s, m, j, single);
    case MExhaust(_, _, _) => EndsKeeps(s, m, j, single);
    case MCancel(_, _) => EndsKeeps(s, m, j, single);
    case _ => PlayNeutral(s, m, j, single);
  }

  lemma RearmKeeps(s: State, at: Time, j: Id, single: bool)
    requires s.owed.Some? && OwedRow(s) && Groups(s.db.runs) && DelayOk(s, j, single)
    ensures DelayOk(State(Rearm(s.db, s.owed.value, at), None), j, single)
  {
    hide Armed, Single;
    RearmArmed(s, at, j);
    if single { RearmSingle(s, at, j); }
  }

  lemma PlayOwed(s: State, m: Micro)
    requires Inv(s.db) && OwedRow(s) && Allowed(s, m)
    ensures OwedRow(Play(s, m))
  {
    hide Inv, LaterIds, LaterLogs, LaterClaims, LaterCommands;
    var t := Play(s, m);
    assert LaterRows(s.db, t.db) by { PlayKept(s, m); }
    if t.owed.Some? {
      var id := OwedIs(s, m);
      assert LaterRow(s.db.runs[id], t.db.runs[id], s.db.unused);
    }
  }

  lemma OwedIs(s: State, m: Micro) returns (id: Id)
    requires OwedRow(s) && Allowed(s, m) && Play(s, m).owed.Some?
    ensures id in s.db.runs && SameIdentity(Play(s, m).owed.value, s.db.runs[id])
  {
    if m.MSucceed? || m.MExhaust? || m.MCancel? {
      id := m.id;
    } else {
      id :| id in s.db.runs && SameIdentity(s.owed.value, s.db.runs[id]);
    }
  }

  lemma {:induction false} RunsDelay(a: State, ms: seq<Micro>, b: State, j: Id, single: bool)
    requires Whole(a.db) && OwedRow(a) && DelayOk(a, j, single) && Runs(a, ms, b)
    ensures DelayOk(b, j, single)
    decreases |ms|
  {
    hide Inv, Parents, Allowed, Play, DelayOk, Evolves, OwedRow, SameSettings;
    if ms != [] {
      PlayDelay(a, ms[0], j, single);
      PlayOwed(a, ms[0]);
      PlayWhole(a, ms[0]);
      RunsDelay(Play(a, ms[0]), ms[1..], b, j, single);
    }
  }

  // -------------------------------------------------------------- administration

  /** Administration does not stall a job. */
  lemma AdministeredArmed(db: Db, next: Db, j: Id)
    requires Administered(db, next) && Armed(State(db, None), j)
    ensures Armed(State(next, None), j)
  {
    hide Dependencies.Acyclic, JobsKept, LaterCommands;
    AdministeredRuns(db, next);
    if !JobsAdministered(db, next) {
      assert next.jobs == db.jobs;
    }
  }

  lemma NewJobIsSingle(db: Db, next: Db, j: Id)
    requires Places(db.runs, db.jobs, db.unused) && next.runs == db.runs && j !in db.jobs
    ensures Single(State(next, None), j)
  {
    forall id ensures !Awaits(next.runs, j, id) {
      if id in db.runs { assert PlaceOk(db.runs[id], db.jobs, db.unused); }
    }
  }

  /** A reconfiguration that commits and gives the fixed-delay job a next time: an update, or switching it on. */
  ghost predicate StartsCycle(db: Db, a: Action, j: Id) {
    && j in db.jobs && Apply(db, a).Ok?
    && match a
       case DoUpdateJob(id, job, _, _) => id == j && job.kind.FixedDelay? && job.enabled
       case DoSetEnabled(_, id, enabled, _, _, _) =>
         id == j && enabled && !db.jobs[j].enabled && db.jobs[j].kind.FixedDelay?
       case _ => false
  }

  /** Nothing else that administers gives an existing job a next time. */
  lemma OnlyCyclesSetTimes(db: Db, a: Action, j: Id)
    requires Administers(a) && Apply(db, a).Ok? && j in db.jobs && db.unused !in db.jobs && !StartsCycle(db, a, j)
    requires DelayJob(Apply(db, a).value, j) && Apply(db, a).value.jobs[j].nextRunAt.Some?
    ensures DelayJob(db, j) && db.jobs[j].nextRunAt.Some?
  {
    if a.DoClaimCommands? { ClaimCommandsTouched(db, a.owner, a.rows, a.now); }
  }

  lemma AdministeredSingle(db: Db, a: Action, j: Id)
    requires Sound(db) && Administers(a) && Apply(db, a).Ok? && Single(State(db, None), j)
    requires StartsCycle(db, a, j) ==> !SomeAwaited(db.runs, j)
    ensures Single(State(Apply(db, a).value, None), j)
  {
    hide Apply, Administered, Dependencies.Acyclic, LifeOk, Links, OneRetry, Answered, Groups, Claims, Commands;
    hide Parents;
    var next := Apply(db, a).value;
    AdministerAction(db, a);
    AdministeredRuns(db, next);
    if j !in db.jobs {
      NewJobIsSingle(db, next, j);
    } else if !StartsCycle(db, a, j) && DelayJob(next, j) && next.jobs[j].nextRunAt.Some? {
      OnlyCyclesSetTimes(db, a, j);
    }
  }

  /** The exact step: whoever starts a cycle leaves a next time beside an awaited run, unless none is awaited. */
  lemma CycleOverlapsExactly(db: Db, a: Action, j: Id)
    requires StartsCycle(db, a, j)
    ensures var next := Apply(db, a).value;
            && DelayJob(next, j)
            && ((next.jobs[j].nextRunAt.Some? ==> !SomeAwaited(next.runs, j)) <==> !SomeAwaited(db.runs, j))
  {
    assert Apply(db, a).value.runs == db.runs;
  }

  lemma DoDelay(db: Db, a: Action, j: Id, single: bool)
    requires Sound(db) && DelayOk(State(db, None), j, single)
    requires single && StartsCycle(db, a, j) ==> !SomeAwaited(db.runs, j)
    ensures DelayOk(State(Do(db, a), None), j, single)
  {
    hide Inv, Parents, Apply, Administered, Dependencies.Acyclic, Armed, Single, StartsCycle;
    if Apply(db, a).Ok? {
      var next := Apply(db, a).value;
      if Administers(a) {
        AdministerAction(db, a);
        AdministeredArmed(db, next, j);
        if single { AdministeredSingle(db, a, j); }
      } else {
        var ms := RefineAction(db, a);
        RunsDelay(State(db, None), ms, State(next, None), j, single);
      }
    }
  }

  // ------------------------------------------------------------- whole histories

  /** Every reconfiguration of j that set a next time found none of its runs awaited. */
  ghost predicate Undisturbed(actions: seq<Action>, j: Id) {
    forall k :: 0 <= k < |actions| ==>
      (StartsCycle(Exec(actions[..k]), actions[k], j) ==> !SomeAwaited(Exec(actions[..k]).runs, j))
  }

  lemma {:induction false} DelayInvariant(actions: seq<Action>, j: Id, single: bool)
    requires single ==> Undisturbed(actions, j)
    ensures DelayOk(State(Exec(actions), None), j, single)
    decreases |actions|
  {
    hide Sound, Do, StartsCycle;
    if actions != [] {
      hide DelayOk;
      var shorter := actions[..|actions| - 1];
      assert forall k :: 0 <= k < |shorter| ==> shorter[..k] == actions[..k];
      DelayInvariant(shorter, j, single);
      ExecSound(shorter);
      DoDelay(Exec(shorter), actions[|actions| - 1], j, single);
    }
  }

  /** In every run of the system an enabled fixed-delay job has a next time or an unfinished run that will set it. */
  lemma DelayJobsNeverStall(actions: seq<Action>, j: Id)
    requires DelayJob(Exec(actions), j) && Exec(actions).jobs[j].enabled
    ensures Exec(actions).jobs[j].nextRunAt.Some? || SomeAwaited(Exec(actions).runs, j)
  {
    hide Exec;
    DelayInvariant(actions, j, false);
  }

  /** An enabled job that was never reconfigured during a run has exactly one of the two. */
  lemma DelayJobsNeverOverlap(actions: seq<Action>, j: Id)
    requires Undisturbed(actions, j)
    ensures NoOverlap(Exec(actions), j)
    ensures DelayJob(Exec(actions), j) && Exec(actions).jobs[j].enabled ==>
              (Exec(actions).jobs[j].nextRunAt.Some? <==> !SomeAwaited(Exec(actions).runs, j))
  {
    hide Exec;
    DelayInvariant(actions, j, true);
  }

  lemma UndisturbedPrefix(actions: seq<Action>, j: Id, k: nat)
    requires k <= |actions| && Undisturbed(actions, j)
    ensures Undisturbed(actions[..k], j)
  {
    hide StartsCycle, Exec;
    assert forall i :: 0 <= i < k ==> actions[..k][..i] == actions[..i];
  }

  /** And this is the only way to overlap: a history is free of it throughout if and only if it is undisturbed. */
  lemma OverlapsExactlyWhenDisturbed(actions: seq<Action>, j: Id)
    ensures (forall k :: 0 <= k <= |actions| ==> NoOverlap(Exec(actions[..k]), j)) <==> Undisturbed(actions, j)
  {
    hide StartsCycle, NoOverlap, Do;
    if Undisturbed(actions, j) {
      forall k | 0 <= k <= |actions| ensures NoOverlap(Exec(actions[..k]), j) {
        UndisturbedPrefix(actions, j, k);
        DelayJobsNeverOverlap(actions[..k], j);
      }
    } else {
      var k :| 0 <= k < |actions| && StartsCycle(Exec(actions[..k]), actions[k], j)
               && SomeAwaited(Exec(actions[..k]).runs, j);
      assert actions[..k + 1][..k] == actions[..k];
      CycleDuringRun(Exec(actions[..k]), actions[k], j);
      assert !NoOverlap(Exec(actions[..k + 1]), j);
    }
  }

  lemma CycleDuringRun(db: Db, a: Action, j: Id)
    requires StartsCycle(db, a, j) && SomeAwaited(db.runs, j)
    ensures !NoOverlap(Do(db, a), j)
  {
    CycleOverlapsExactly(db, a, j);
  }

  // ------------------------------------------------------ both ways of overlapping

  const EVERY_SECOND: Job := Job(0, FixedDelay, 1, Parallel, FireOnce, 0, 1000, 1, None, 60, true, None, 1)

  /** The job is created at 0 and its run is enqueued when it is due. */
  const FIRST_TURN: seq<Action> :=
    [DoCreateJob(EVERY_SECOND, 0, None), DoEnqueueDue([DueItem(0, Plan([], None), Plain)], SECOND)]

  lemma FirstTurn()
    ensures Awaits(Exec(FIRST_TURN).runs, 0, 1) && Exec(FIRST_TURN).jobs == map[0 := EVERY_SECOND]
  {
    hide Apply;
    var create, enqueue := FIRST_TURN[0], FIRST_TURN[1];
    var created := EMPTY.(jobs := map[0 := EVERY_SECOND.(nextRunAt := Some(SECOND))], unused := 1);
    assert Apply(EMPTY, create) == Ok(created) by { Created(); }
    Enqueued(created);
    ExecSnoc([], create);
    ExecSnoc([create], enqueue);
    assert FIRST_TURN == [create] + [enqueue] && [create] == [] + [create];
  }

  lemma Created()
    ensures Apply(EMPTY, FIRST_TURN[0])
              == Ok(EMPTY.(jobs := map[0 := EVERY_SECOND.(nextRunAt := Some(SECOND))], unused := 1))
  {
  }

  lemma Enqueued(db: Db)
    requires db.jobs == map[0 := EVERY_SECOND.(nextRunAt := Some(SECOND))] && db.unused == 1
    ensures var r := Apply(db, FIRST_TURN[1]);
            r.Ok? && Awaits(r.value.runs, 0, 1) && r.value.jobs == map[0 := EVERY_SECOND]
  {
    hide EnqueueJob;
    var item := DueItem(0, Plan([], None), Plain);
    assert [item][1..] == [];
    Turn(db, item);
    assert EnqueuePass(db, [item], SECOND, false) == Ok(db);
  }

  lemma Turn(db: Db, item: DueItem)
    requires db.jobs == map[0 := EVERY_SECOND.(nextRunAt := Some(SECOND))] && db.unused == 1
    requires item == DueItem(0, Plan([], None), Plain)
    ensures var r := EnqueueJob(db, item, SECOND);
            r.Ok? && Awaits(r.value.runs, 0, 1) && r.value.jobs == map[0 := EVERY_SECOND]
  {
    assert [SECOND][1..] == [];
    var launched := Launch(db, NewRun(db.jobs[0], 0, BySchedule, Pending, SECOND, SECOND, None, true), Plain);
    assert EnqueueTimes(db, 0, [SECOND], Plain, SECOND, false) == Ok((launched, false));
  }

  /** A saved edit while the run is unfinished, and switching the job off and on again. */
  lemma ReconfigurationStartsASecondCycle()
    ensures !NoOverlap(Exec(FIRST_TURN + [DoUpdateJob(0, EVERY_SECOND, SECOND, None)]), 0)
    ensures !NoOverlap(Exec(FIRST_TURN + [DoSetEnabled(0, 0, false, 1, SECOND, None)]
                                       + [DoSetEnabled(0, 0, true, 2, SECOND, None)]), 0)
  {
    FirstTurn();
    var db := Exec(FIRST_TURN);
    var edit := DoUpdateJob(0, EVERY_SECOND, SECOND, None);
    ExecSnoc(FIRST_TURN, edit);
    CycleDuringRun(db, edit, 0);
    var off, on := DoSetEnabled(0, 0, false, 1, SECOND, None), DoSetEnabled(0, 0, true, 2, SECOND, None);
    ExecSnoc(FIRST_TURN, off);
    ExecSnoc(FIRST_TURN + [off], on);
    assert Awaits(Do(db, off).runs, 0, 1);
    CycleDuringRun(Do(db, off), on, 0);
  }
}
