/**
 The steps the transactions on runs are made of, as a machine of their own: a
 database and, between the statement that ends a run and the rearming of its
 fixed-delay job, the copy of the row that is still owed that rearming.
 */
module RunMicro {
  import opened RunTypes
  import opened RunTransactions
  import opened RunBlocks
  import opened RunBlockLemmas
  import opened RunEvolution
  import opened RunSafety

  datatype State = State(db: Db, owed: Option<Run>)

  datatype Micro =
    | MSucceed(id: Id, now: Time)
    | MExhaust(id: Id, st: Status, now: Time)
    | MCancel(id: Id, now: Time)
    | MRetry(id: Id, st: Status, now: Time, delay: Time)
    | MRearm(now: Time)
    | MCover(job: Id, now: Time)
    | MLaunch(base: Run, route: Route)
    | MDelayed(base: Run, route: Route)
    | MAdvance(job: Id, next: Option<Time>)
    | MClaim(id: Id, now: Time, lease: Time)
    | MPrepare(token: Id, node: Node, callback: Callback)
    | MReserve(parent: Id, child: Id)
    | MKey(job: Id, key: string)

  /** Policies under which a job has at most one trigger's work unfinished. */
  predicate Exclusive(p: Policy) {
    CanonicalPolicy(p).DiscardLater? || CanonicalPolicy(p).CoverEarly?
  }

  /** The worker's copy of the retry limit, or the job's own, allows one more attempt. */
  ghost predicate RetryAllowed(db: Db, id: Id)
    requires id in db.runs
  {
    var run := db.runs[id];
    || (run.job in db.jobs && ShouldRetry(run.attempt, db.jobs[run.job].maxRetries))
    || (run.token.Some? && run.token.value in db.claims
          && ShouldRetry(run.attempt, db.claims[run.token.value].maxRetries))
  }

  /** The dispatch row of a dependency trigger is reserved for the very rows about to be inserted. */
  ghost predicate ParentReady(db: Db, p: Id, c: Id) {
    && p in db.runs && db.runs[p].status.Succeeded? && (db.runs[p].job, c) in db.edges
    && (p, c) in db.dispatched && db.dispatched[(p, c)] == db.unused
    && (forall id :: id in db.runs ==> !(db.runs[id].parent == Some(p) && db.runs[id].job == c))
  }

  ghost predicate LaunchOk(db: Db, base: Run, route: Route) {
    && Seed(db, base)
    && (base.status.Pending? && Exclusive(db.jobs[base.job].policy) ==> !HasActive(db, base.job))
    && (base.status.Pending? && route.Broadcast? ==> |route.nodes| > 0)
    && (base.status.Skipped? ==> route.Plain?)
    && (base.parent.Some? ==> ParentReady(db, base.parent.value, base.job))
  }

  ghost predicate CanEnd(s: State, id: Id) {
    s.owed.None? && id in s.db.runs && Unfinished(s.db.runs[id].status)
  }

  ghost predicate Allowed(s: State, m: Micro) {
    match m
    case MSucceed(id, now) => CanEnd(s, id)
    case MExhaust(id, st, now) => CanEnd(s, id) && Broken(st)
    case MCancel(id, now) => CanEnd(s, id)
    case MRetry(id, st, now, delay) => CanEnd(s, id) && Broken(st) && RetryAllowed(s.db, id)
    case MRearm(now) => s.owed.Some?
    case MCover(j, now) => true
    case MLaunch(base, route) => LaunchOk(s.db, base, route) && !(base.rearm && base.status.Pending?)
    case MDelayed(base, route) =>
      && s.owed.None? && LaunchOk(s.db, base, route) && base.rearm && base.status.Pending? && base.parent.None?
      && s.db.jobs[base.job].kind.FixedDelay? && s.db.jobs[base.job].nextRunAt.Some?
    case MAdvance(j, next) =>
      s.owed.None? && j in s.db.jobs && (s.db.jobs[j].kind.FixedDelay? ==> s.db.jobs[j].nextRunAt.Some? && next.Some?)
    case MClaim(id, now, lease) => id in s.db.runs && Claimable(s.db.runs[id], now)
    case MPrepare(token, node, callback) => token in s.db.claims && HoldsLease(s.db, s.db.claims[token])
    case MReserve(p, c) =>
      c in s.db.jobs && (p, c) !in s.db.dispatched && p in s.db.runs && s.db.runs[p].status.Succeeded?
    case MKey(j, key) => (j, key) !in s.db.keys
  }

  /** A launch by schedule that takes the job's next time away in the same breath. */
  function LaunchAndClear(db: Db, base: Run, route: Route): Db
    requires base.job in db.jobs
  {
    var next := Launch(db, base, route);
    next.(jobs := next.jobs[base.job := next.jobs[base.job].(nextRunAt := None)])
  }

  ghost function Play(s: State, m: Micro): State
    requires Allowed(s, m)
  {
    match m
    case MSucceed(id, now) => State(Finish(s.db, id, Succeeded, now), Some(s.db.runs[id]))
    case MExhaust(id, st, now) => State(Emit(Finish(s.db, id, st, now), id, st, Exhausted), Some(s.db.runs[id]))
    case MCancel(id, now) => State(CancelAndTell(s.db, id, now), Some(s.db.runs[id]))
    case MRetry(id, st, now, delay) =>
      State(InsertRetry(Finish(s.db, id, st, now), id, s.db.runs[id], now, delay), None)
    case MRearm(now) => State(Rearm(s.db, s.owed.value, now), None)
    case MCover(j, now) => s.(db := Cover(s.db, j, now))
    case MLaunch(base, route) => s.(db := Launch(s.db, base, route))
    case MDelayed(base, route) => s.(db := LaunchAndClear(s.db, base, route))
    case MAdvance(j, next) => s.(db := Advance(s.db, j, next))
    case MClaim(id, now, lease) =>
      s.(db := if s.db.runs[id].job in s.db.jobs then ClaimOne(s.db, id, now, lease) else s.db)
    case MPrepare(token, node, callback) => s.(db := PrepareDispatch(s.db, s.db.claims[token], node, callback).value)
    case MReserve(p, c) => s.(db := s.db.(dispatched := s.db.dispatched[(p, c) := s.db.unused]))
    case MKey(j, key) => s.(db := s.db.(keys := s.db.keys[(j, key) := s.db.unused]))
  }

  /** ms leads from a to b. */
  ghost predicate Runs(a: State, ms: seq<Micro>, b: State)
    decreases |ms|
  {
    if ms == [] then a == b
    else Allowed(a, ms[0]) && Runs(Play(a, ms[0]), ms[1..], b)
  }

  lemma {:induction false} RunsJoin(a: State, xs: seq<Micro>, b: State, ys: seq<Micro>, c: State)
    requires Runs(a, xs, b) && Runs(b, ys, c)
    ensures Runs(a, xs + ys, c)
    decreases |xs|
  {
    if xs == [] {
      assert xs + ys == ys;
    } else {
      RunsJoin(Play(a, xs[0]), xs[1..], b, ys, c);
      assert (xs + ys)[0] == xs[0] && (xs + ys)[1..] == xs[1..] + ys;
    }
  }

  lemma RunsOne(a: State, m: Micro)
    requires Allowed(a, m)
    ensures Runs(a, [m], Play(a, m))
  {
    assert [m][1..] == [];
  }

  // ---------------------------------------------------- what every step keeps

  lemma DelayedKept(db: Db, base: Run, route: Route)
    requires Inv(db) && Seed(db, base)
    ensures Kept(db, LaunchAndClear(db, base, route))
  {
    hide Inv, Evolves;
    LaunchKept(db, base, route);
    UntouchedKept(Launch(db, base, route), LaunchAndClear(db, base, route));
    Then(db, Launch(db, base, route), LaunchAndClear(db, base, route));
  }

  lemma PlayKept(s: State, m: Micro)
    requires Inv(s.db) && Allowed(s, m)
    ensures Kept(s.db, Play(s, m).db)
  {
    hide Inv, Evolves;
    match m
    case MSucceed(id, now) => FinishKept(s.db, id, now);
    case MExhaust(id, st, now) => ExhaustKept(s.db, id, st, now);
    case MCancel(id, now) => TellKept(s.db, id, now);
    case MRetry(id, st, now, delay) => RetryKept(s.db, id, s.db.runs[id], st, now, delay);
    case MRearm(now) => RearmKept(s.db, s.owed.value, now);
    case MCover(j, now) => CoverKept(s.db, j, now);
    case MLaunch(base, route) => LaunchKept(s.db, base, route);
    case MDelayed(base, route) => DelayedKept(s.db, base, route);
    case MAdvance(j, next) => UntouchedKept(s.db, Play(s, m).db);
    case MClaim(id, now, lease) => ClaimOneKept(s.db, id, now, lease);
    case MPrepare(token, node, callback) => PrepareKept(s.db, s.db.claims[token], node, callback);
    case MReserve(p, c) => UntouchedKept(s.db, Play(s, m).db);
    case MKey(j, key) => UntouchedKept(s.db, Play(s, m).db);
  }

  // ------------------------------------------------------- what no step changes

  lemma FinishRuns(db: Db, id: Id, st: Status, now: Time)
    requires id in db.runs
    ensures var next := Finish(db, id, st, now); next == db.(runs := next.runs, log := next.log)
    ensures Finish(db, id, st, now).runs.Keys == db.runs.Keys
  {
  }

  lemma EmitRuns(db: Db, id: Id, st: Status, topic: Topic)
    ensures Emit(db, id, st, topic) == db.(log := Emit(db, id, st, topic).log)
  {
  }

  lemma TellRuns(db: Db, id: Id, now: Time)
    requires id in db.runs
    ensures var next := CancelAndTell(db, id, now);
            next == db.(runs := next.runs, log := next.log, commands := next.commands) && next.runs.Keys == db.runs.Keys
  {
    hide Finish;
    FinishRuns(db, id, Cancelled, now);
  }

  lemma RearmRuns(db: Db, run: Run, at: Time)
    ensures Rearm(db, run, at) == db.(jobs := Rearm(db, run, at).jobs)
  {
  }

  lemma AdvanceRuns(db: Db, j: Id, next: Option<Time>)
    ensures Advance(db, j, next) == db.(jobs := Advance(db, j, next).jobs)
  {
  }

  lemma PrepareRuns(db: Db, claim: Claim, node: Node, callback: Callback)
    requires HoldsLease(db, claim)
    ensures var next := PrepareDispatch(db, claim, node, callback).value;
            next == db.(runs := next.runs, log := next.log) && next.runs.Keys == db.runs.Keys
  {
  }

  /** What only job administration may change. */
  ghost predicate SameSettings(db: Db, next: Db) {
    && next.edges == db.edges && next.jobs.Keys == db.jobs.Keys
    && (forall j :: j in db.jobs ==> SameJob(db.jobs[j], next.jobs[j]))
    && KeepsCommands(db.commands, next.commands) && KeepsKeys(db.keys, next.keys)
  }

  /** An idempotency key, once taken, stays with its run. */
  ghost predicate KeepsKeys(before: map<(Id, string), Id>, after: map<(Id, string), Id>) {
    forall k :: k in before ==> k in after && after[k] == before[k]
  }

  /** Existing commands are left alone, and new ones wait for delivery. */
  ghost predicate KeepsCommands(before: map<Id, Command>, after: map<Id, Command>) {
    && (forall id :: id in before ==> id in after && after[id] == before[id])
    && (forall id :: id in after && id !in before ==> !after[id].delivered)
  }

  /** Up to the two columns that running the job updates. */
  predicate SameJob(a: Job, b: Job) {
    b == a.(nextRunAt := b.nextRunAt, enabled := b.enabled) && (a.kind.FixedDelay? ==> b.enabled == a.enabled)
  }

  lemma RearmSettings(db: Db, run: Run, at: Time)
    ensures SameSettings(db, Rearm(db, run, at))
  {
  }

  lemma CoverSettings(db: Db, j: Id, now: Time)
    ensures SameSettings(db, Cover(db, j, now))
  {
  }

  lemma AdvanceSettings(db: Db, j: Id, next: Option<Time>)
    requires j in db.jobs && (db.jobs[j].kind.FixedDelay? ==> next.Some?)
    ensures SameSettings(db, Advance(db, j, next))
  {
    var after := Advance(db, j, next);
    assert after.commands == db.commands && SameJob(db.jobs[j], after.jobs[j]);
    assert forall i :: i in db.jobs && i != j ==> after.jobs[i] == db.jobs[i];
  }

  lemma DelayedSettings(db: Db, base: Run, route: Route)
    requires base.job in db.jobs
    ensures SameSettings(db, LaunchAndClear(db, base, route))
  {
  }

  /** The steps that write no job row. */
  lemma PlayJobs(s: State, m: Micro)
    requires Allowed(s, m) && !m.MRearm? && !m.MCover? && !m.MDelayed? && !m.MAdvance?
    ensures Play(s, m).db.jobs == s.db.jobs && Play(s, m).db.edges == s.db.edges
    ensures !m.MCancel? ==> Play(s, m).db.commands == s.db.commands
    ensures KeepsKeys(s.db.keys, Play(s, m).db.keys)
  {
    hide Finish, Emit, CancelAndTell, PrepareDispatch, LaunchOk;
    match m
    case MSucceed(id, now) => FinishRuns(s.db, id, Succeeded, now);
    case MExhaust(id, st, now) =>
      FinishRuns(s.db, id, st, now);
      EmitRuns(Finish(s.db, id, st, now), id, st, Exhausted);
    case MCancel(id, now) => TellRuns(s.db, id, now);
    case MRetry(id, st, now, delay) => FinishRuns(s.db, id, st, now);
    case MPrepare(token, node, callback) => PrepareRuns(s.db, s.db.claims[token], node, callback);
    case _ =>
  }

  lemma TellCommands(db: Db, id: Id, now: Time)
    requires id in db.runs
    ensures KeepsCommands(db.commands, CancelAndTell(db, id, now).commands)
  {
  }

  lemma SameSettingsIf(db: Db, next: Db)
    requires next.jobs == db.jobs && next.edges == db.edges && KeepsCommands(db.commands, next.commands)
    requires KeepsKeys(db.keys, next.keys)
    ensures SameSettings(db, next)
  {
  }

  lemma PlaySettings(s: State, m: Micro)
    requires Allowed(s, m)
    ensures SameSettings(s.db, Play(s, m).db)
  {
    hide Rearm, Cover, HasActive, Advance, LaunchAndClear, Finish, Launch, InsertRetry, CancelAndTell;
    hide PrepareDispatch, ClaimOne, SameSettings;
    match m
    case MRearm(now) => RearmSettings(s.db, s.owed.value, now);
    case MCover(j, now) => CoverSettings(s.db, j, now);
    case MDelayed(base, route) => DelayedSettings(s.db, base, route);
    case MAdvance(j, next) => AdvanceSettings(s.db, j, next);
    case MCancel(id, now) =>
      PlayJobs(s, m);
      TellCommands(s.db, id, now);
      SameSettingsIf(s.db, Play(s, m).db);
    case _ =>
      PlayJobs(s, m);
      SameSettingsIf(s.db, Play(s, m).db);
  }
}
