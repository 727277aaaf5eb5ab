/** Every statement group keeps the invariants of RunBlocks and only moves forward. */
module RunSafety {
  import opened RunTypes
  import opened RunTransactions
  import opened RunRows
  import opened RunBlocks
  import opened RunBlockLemmas
  import opened RunEvolution

  ghost predicate Kept(db: Db, next: Db) {
    Inv(next) && Evolves(db, next)
  }

  lemma ByBlock(db: Db, next: Db)
    requires Inv(db) && Block(db, next)
    ensures Kept(db, next)
  {
    BlockInv(db, next);
    BlockEvolves(db, next);
  }

  lemma Then(a: Db, b: Db, c: Db)
    requires Kept(a, b) && Kept(b, c)
    ensures Kept(a, c)
  {
    hide Inv;
    EvolvesTrans(a, b, c);
  }

  /** Runs, events, claims and commands stay; job rows may change but none comes or goes. */
  ghost predicate RunsUntouched(db: Db, next: Db) {
    && next.runs == db.runs && next.log == db.log && next.commands == db.commands && next.claims == db.claims
    && next.unused == db.unused
    && next.jobs.Keys == db.jobs.Keys && JobsKept(db.jobs, next.jobs)
  }

  lemma UntouchedKept(db: Db, next: Db)
    requires Inv(db) && RunsUntouched(db, next)
    ensures Kept(db, next)
  {
    hide Block, Evolves;
    SameRunsBlock(db, next);
    ByBlock(db, next);
  }

  lemma RearmKept(db: Db, run: Run, at: Time)
    requires Inv(db)
    ensures Kept(db, Rearm(db, run, at))
  {
    hide Inv, Evolves;
    UntouchedKept(db, Rearm(db, run, at));
  }

  // ------------------------------------------------------- one block at a time

  lemma FinishKept(db: Db, id: Id, now: Time)
    requires Inv(db)
    requires id in db.runs && Unfinished(db.runs[id].status)
    ensures Kept(db, Finish(db, id, Succeeded, now))
  {
    hide Block, Evolves;
    SucceedBlock(db, id, now);
    ByBlock(db, Finish(db, id, Succeeded, now));
  }

  lemma ExhaustKept(db: Db, id: Id, st: Status, now: Time)
    requires Inv(db)
    requires id in db.runs && Unfinished(db.runs[id].status) && Broken(st)
    ensures Kept(db, Emit(Finish(db, id, st, now), id, st, Exhausted))
  {
    hide Block, Evolves;
    ExhaustBlock(db, id, st, now);
    ByBlock(db, Emit(Finish(db, id, st, now), id, st, Exhausted));
  }

  lemma RetryKept(db: Db, id: Id, copy: Run, st: Status, now: Time, delay: Time)
    requires Inv(db)
    requires id in db.runs && Unfinished(db.runs[id].status) && Broken(st)
    requires SameIdentity(copy, db.runs[id])
    ensures Kept(db, InsertRetry(Finish(db, id, st, now), id, copy, now, delay))
  {
    hide Block, Evolves;
    RetryBlock(db, id, copy, st, now, delay);
    ByBlock(db, InsertRetry(Finish(db, id, st, now), id, copy, now, delay));
  }

  lemma TellKept(db: Db, id: Id, now: Time)
    requires Inv(db)
    requires id in db.runs && Unfinished(db.runs[id].status)
    ensures Kept(db, CancelAndTell(db, id, now))
  {
    hide Block, Evolves;
    CancelBlock(db, id, now);
    ByBlock(db, CancelAndTell(db, id, now));
  }

  lemma CoverKept(db: Db, j: Id, now: Time)
    requires Inv(db)
    ensures Kept(db, Cover(db, j, now))
  {
    hide Block, Evolves;
    CoverBlock(db, j, now);
    ByBlock(db, Cover(db, j, now));
  }

  lemma LaunchKept(db: Db, base: Run, route: Route)
    requires Inv(db) && Seed(db, base)
    ensures Kept(db, Launch(db, base, route))
  {
    hide Block, Evolves;
    LaunchBlock(db, base, route);
    ByBlock(db, Launch(db, base, route));
  }

  lemma ClaimOneKept(db: Db, id: Id, now: Time, lease: Time)
    requires Inv(db)
    requires id in db.runs && (db.runs[id].status.Pending? || db.runs[id].status.Running?)
    ensures db.runs[id].job in db.jobs
    ensures Kept(db, ClaimOne(db, id, now, lease))
  {
    hide Block, Evolves;
    assert PlaceOk(db.runs[id], db.jobs, db.unused);
    ClaimBlock(db, id, now, lease);
    ByBlock(db, ClaimOne(db, id, now, lease));
  }

  lemma PrepareKept(db: Db, claim: Claim, node: Node, callback: Callback)
    requires Inv(db) && HoldsLease(db, claim)
    ensures Kept(db, PrepareDispatch(db, claim, node, callback).value)
  {
    hide Block, Evolves;
    PrepareBlock(db, claim, node, callback);
    ByBlock(db, PrepareDispatch(db, claim, node, callback).value);
  }

  /** Commands are rewritten but none appears or disappears, and a delivered one is left alone. */
  ghost predicate CommandsTouched(db: Db, next: Db) {
    && next == db.(commands := next.commands)
    && next.commands.Keys == db.commands.Keys
    && LaterCommands(db, next)
  }

  lemma TouchedInv(db: Db, next: Db)
    requires Inv(db) && CommandsTouched(db, next)
    ensures Inv(next)
  {
    SameFields(db, next);
    assert forall id :: id in db.commands <==> id in next.commands;
  }

  lemma SameFields(db: Db, next: Db)
    requires next == db.(commands := next.commands)
    ensures Rows(db) ==> Rows(next)
    ensures Links(db) ==> Links(next)
    ensures Answered(db) ==> Answered(next)
    ensures Claims(db) ==> Claims(next)
  {
  }

  lemma TouchedEvolves(db: Db, next: Db)
    requires CommandsTouched(db, next)
    ensures Evolves(db, next)
  {
  }

  lemma TouchedKept(db: Db, next: Db)
    requires Inv(db) && CommandsTouched(db, next)
    ensures Kept(db, next)
  {
    hide Inv, Evolves;
    TouchedInv(db, next);
    TouchedEvolves(db, next);
  }

  lemma EmptyInv()
    ensures Inv(EMPTY)
  {
  }
}
