/**
 What one statement group of a transaction may do to the database. Every
 transaction on runs is a sequence of such blocks, so an invariant kept by every
 block is kept by every transaction.
 */
module RunBlocks {
  import opened RunTypes
  import opened RunRows

  /** The row's references point at rows that exist and identifiers that were handed out. */
  ghost predicate PlaceOk(run: Run, jobs: map<Id, Job>, unused: Id) {
    && run.job in jobs
    && run.tenant == jobs[run.job].tenant
    && (run.token.Some? ==> run.token.value < unused)
    && (run.shard.Some? ==> run.shard.value.group < unused)
  }

  ghost predicate Lives(runs: map<Id, Run>, log: map<Id, seq<Topic>>, life: (Run, seq<Topic>) -> bool) {
    && log.Keys == runs.Keys
    && (forall id :: id in runs ==> life(runs[id], log[id]))
  }

  ghost predicate Places(runs: map<Id, Run>, jobs: map<Id, Job>, unused: Id) {
    && (forall j :: j in jobs ==> j < unused)
    && (forall id :: id in runs ==> id < unused)
    && (forall id :: id in runs ==> PlaceOk(runs[id], jobs, unused))
  }

  /** Job rows may change as long as none disappears and tenants stay. */
  ghost predicate JobsKept(before: map<Id, Job>, after: map<Id, Job>) {
    forall j :: j in before ==> j in after && after[j].tenant == before[j].tenant
  }

  /** The same-origin part of a row: what a retry and the shards of one group share. */
  ghost predicate SameOrigin(a: Run, b: Run) {
    a.tenant == b.tenant && a.job == b.job && a.shard == b.shard && a.rearm == b.rearm && a.parent == b.parent
  }

  // ------------------------------------------------------------ parts of a block

  ghost predicate OldRow(db: Db, next: Db, id: Id)
    requires id in db.runs
  {
    && id in next.runs && id in db.log && id in next.log
    && RowStep(db.runs[id], next.runs[id], db.log[id], next.log[id])
  }

  ghost predicate OldRows(db: Db, next: Db) {
    forall id :: id in db.runs ==> OldRow(db, next, id)
  }

  ghost predicate NewRow(db: Db, next: Db, id: Id)
    requires id in next.runs
  {
    && db.unused <= id < next.unused
    && id in next.log && next.log[id] == [Entered(next.runs[id].status)]
    && NewbornOk(next.runs[id])
    && PlaceOk(next.runs[id], next.jobs, next.unused)
  }

  ghost predicate NewRows(db: Db, next: Db) {
    forall id :: id in next.runs && id !in db.runs ==> NewRow(db, next, id)
  }

  ghost predicate Frame(db: Db, next: Db) {
    && db.unused <= next.unused
    && next.log.Keys == next.runs.Keys
    && JobsKept(db.jobs, next.jobs)
    && (forall j :: j in next.jobs ==> j < next.unused)
  }

  /** A lease token that appears is unused until now, and the claim that carries it is recorded. */
  ghost predicate TokenFrom(db: Db, next: Db, id: Id)
    requires id in db.runs && id in next.runs && next.runs[id].token.Some?
  {
    var t := next.runs[id].token.value;
    || next.runs[id] == db.runs[id]
    || (db.unused <= t < next.unused && t in next.claims && next.claims[t].id == id)
  }

  ghost predicate NewTokens(db: Db, next: Db) {
    forall id :: id in db.runs && id in next.runs && next.runs[id].token.Some? ==> TokenFrom(db, next, id)
  }

  ghost predicate ClaimsGrow(db: Db, next: Db) {
    && (forall t :: t in db.claims ==> t in next.claims && next.claims[t] == db.claims[t])
    && (forall t :: t in next.claims && t !in db.claims ==>
          && db.unused <= t < next.unused
          && next.claims[t].id in next.runs
          && next.claims[t].run == next.runs[next.claims[t].id]
          && next.claims[t].run.token == Some(t))
  }

  /** A retry row continues a run that breaks in the same block without being exhausted. */
  ghost predicate RetryLink(db: Db, next: Db, id: Id)
    requires id in next.runs && next.runs[id].retryOf.Some?
  {
    var p := next.runs[id].retryOf.value;
    && p in db.runs && p in next.runs && p in db.log && p in next.log
    && Unfinished(db.runs[p].status) && Broken(next.runs[p].status)
    && next.log[p] == db.log[p] + [Entered(next.runs[p].status)]
    && next.runs[id].attempt == db.runs[p].attempt + 1
    && SameOrigin(next.runs[id], db.runs[p])
  }

  ghost predicate Newborns(db: Db, next: Db, id: Id) {
    id in next.runs && id !in db.runs
  }

  ghost predicate RetryRows(db: Db, next: Db) {
    && (forall id :: Newborns(db, next, id) && next.runs[id].retryOf.Some? ==> RetryLink(db, next, id))
    && (forall id :: Newborns(db, next, id) && next.runs[id].retryOf.None? ==> next.runs[id].attempt == 1)
    && (forall a, b ::
          (Newborns(db, next, a) && Newborns(db, next, b) && next.runs[a].retryOf.Some?
           && next.runs[a].retryOf == next.runs[b].retryOf) ==> a == b)
  }

  ghost predicate HasRetry(runs: map<Id, Run>, id: Id) {
    exists n :: n in runs && runs[n].retryOf == Some(id)
  }

  /** A run that breaks is exhausted or retried in the same block. */
  ghost predicate BreaksAnswered(db: Db, next: Db) {
    forall id :: id in db.runs && id in next.runs && Unfinished(db.runs[id].status) && Broken(next.runs[id].status) ==>
      Exhaustions(Log(next, id)) == 1 || HasRetry(next.runs, id)
  }

  /** New rows share a shard group only with rows of one trigger, or with the run they retry. */
  ghost predicate GroupRows(db: Db, next: Db) {
    && (forall a :: Newborns(db, next, a) && next.runs[a].retryOf.None? && next.runs[a].shard.Some? ==>
          next.runs[a].shard.value.group >= db.unused)
    && (forall a, b :: Newborns(db, next, a) && Newborns(db, next, b)
                       && next.runs[a].retryOf.None? && next.runs[b].retryOf.None? ==>
          next.runs[a].job == next.runs[b].job && next.runs[a].rearm == next.runs[b].rearm
          && next.runs[a].parent == next.runs[b].parent && next.runs[a].tenant == next.runs[b].tenant
          && (a == b || (next.runs[a].shard.Some? && next.runs[b].shard.Some?
                         && next.runs[a].shard.value.group == next.runs[b].shard.value.group)))
  }

  ghost predicate BecomesCancelled(db: Db, next: Db, id: Id) {
    id in db.runs && id in next.runs && Unfinished(db.runs[id].status) && next.runs[id].status.Cancelled?
  }

  /** A cancel command appears exactly for the runs the block cancels on a known executor. */
  ghost predicate CommandRows(db: Db, next: Db) {
    && (forall id :: id in db.commands ==> id in next.commands && next.commands[id] == db.commands[id])
    && (forall id :: id in next.commands && id !in db.commands ==>
          && BecomesCancelled(db, next, id) && next.runs[id].address != ""
          && !next.commands[id].delivered && next.commands[id].address == next.runs[id].address)
    && (forall id :: BecomesCancelled(db, next, id) && next.runs[id].address != "" ==> id in next.commands)
  }

  ghost predicate Block(db: Db, next: Db) {
    && Frame(db, next) && OldRows(db, next) && NewRows(db, next)
    && NewTokens(db, next) && ClaimsGrow(db, next)
    && RetryRows(db, next) && BreaksAnswered(db, next) && GroupRows(db, next)
    && CommandRows(db, next)
  }

  // ------------------------------------------------------- invariants of a block

  ghost predicate Rows(db: Db) {
    Lives(db.runs, db.log, LifeOk) && Places(db.runs, db.jobs, db.unused)
  }

  lemma BlockLives(db: Db, next: Db)
    requires Lives(db.runs, db.log, LifeOk)
    requires Frame(db, next) && OldRows(db, next) && NewRows(db, next)
    ensures Lives(next.runs, next.log, LifeOk)
  {
    forall id | id in next.runs ensures LifeOk(next.runs[id], next.log[id]) {
      if id in db.runs {
        assert OldRow(db, next, id);
        RowStepLife(db.runs[id], next.runs[id], db.log[id], next.log[id]);
      } else {
        assert NewRow(db, next, id);
        NewbornLife(next.runs[id]);
      }
    }
  }

  lemma BlockPlaces(db: Db, next: Db)
    requires Places(db.runs, db.jobs, db.unused)
    requires Frame(db, next) && OldRows(db, next) && NewRows(db, next) && NewTokens(db, next)
    ensures Places(next.runs, next.jobs, next.unused)
  {
    forall id | id in next.runs ensures id < next.unused && PlaceOk(next.runs[id], next.jobs, next.unused) {
      if id in db.runs {
        assert OldRow(db, next, id);
        assert PlaceOk(db.runs[id], db.jobs, db.unused);
        if next.runs[id].token.Some? {
          assert TokenFrom(db, next, id);
        }
      } else {
        assert NewRow(db, next, id);
      }
    }
  }

  // -- retry lineage

  ghost predicate LinkOk(db: Db, id: Id)
    requires id in db.runs
  {
    match db.runs[id].retryOf
    case None => db.runs[id].attempt == 1
    case Some(p) =>
      && p < id && p in db.runs && p in db.log
      && Broken(db.runs[p].status) && Exhaustions(db.log[p]) == 0
      && db.runs[id].attempt == db.runs[p].attempt + 1
      && SameOrigin(db.runs[id], db.runs[p])
  }

  ghost predicate Links(db: Db) {
    forall id :: id in db.runs ==> LinkOk(db, id)
  }

  ghost predicate OneRetry(runs: map<Id, Run>) {
    forall a, b :: a in runs && b in runs && runs[a].retryOf.Some? && runs[a].retryOf == runs[b].retryOf ==> a == b
  }

  ghost predicate Answered(db: Db) {
    forall id :: id in db.runs && Broken(db.runs[id].status) ==>
      Exhaustions(Log(db, id)) == 1 || HasRetry(db.runs, id)
  }

  lemma OldLink(db: Db, next: Db, id: Id)
    requires Links(db)
    requires OldRows(db, next)
    requires id in db.runs && id in next.runs
    ensures LinkOk(next, id)
  {
    assert OldRow(db, next, id) && LinkOk(db, id);
    if db.runs[id].retryOf.Some? {
      assert OldRow(db, next, db.runs[id].retryOf.value);
    }
  }

  lemma NewLink(db: Db, next: Db, id: Id)
    requires Places(db.runs, db.jobs, db.unused) && Lives(db.runs, db.log, LifeOk)
    requires OldRows(db, next) && NewRows(db, next) && RetryRows(db, next)
    requires id in next.runs && id !in db.runs
    ensures LinkOk(next, id)
  {
    assert Newborns(db, next, id);
    if next.runs[id].retryOf.Some? {
      var p := next.runs[id].retryOf.value;
      assert RetryLink(db, next, id);
      assert SameIdentity(db.runs[p], next.runs[p]) by { assert OldRow(db, next, p); }
      assert p < id by { assert NewRow(db, next, id); }
      UnfinishedFresh(db.runs[p], db.log[p], Entered(next.runs[p].status));
    }
  }

  lemma UnfinishedFresh(run: Run, log: seq<Topic>, topic: Topic)
    requires LifeOk(run, log) && Unfinished(run.status) && topic.Entered?
    ensures Exhaustions(log + [topic]) == 0
  {
    AnnouncedSnoc(log, topic);
  }

  lemma BlockLinks(db: Db, next: Db)
    requires Rows(db) && Links(db)
    requires Frame(db, next) && OldRows(db, next) && NewRows(db, next) && RetryRows(db, next)
    ensures Links(next)
  {
    forall id | id in next.runs ensures LinkOk(next, id) {
      if id in db.runs {
        OldLink(db, next, id);
      } else {
        NewLink(db, next, id);
      }
    }
  }

  lemma BlockOneRetry(db: Db, next: Db)
    requires Links(db) && OneRetry(db.runs)
    requires OldRows(db, next) && RetryRows(db, next)
    ensures OneRetry(next.runs)
  {
    hide OldRows, RetryRows, Links, Broken, Unfinished;
    forall a, b | a in next.runs && b in next.runs && next.runs[a].retryOf.Some?
                  && next.runs[a].retryOf == next.runs[b].retryOf
      ensures a == b
    {
      if a in db.runs { OldRetry(db, next, a); } else { NewRetry(db, next, a); }
      if b in db.runs { OldRetry(db, next, b); } else { NewRetry(db, next, b); }
      if a !in db.runs && b !in db.runs { TwoNewRetries(db, next, a, b); }
    }
  }

  /** A run that was retried before was broken before. */
  lemma OldRetry(db: Db, next: Db, a: Id)
    requires Links(db) && OldRows(db, next) && a in db.runs && a in next.runs && next.runs[a].retryOf.Some?
    ensures var p := next.runs[a].retryOf.value;
            db.runs[a].retryOf == Some(p) && p in db.runs && !Unfinished(db.runs[p].status)
  {
    assert OldRow(db, next, a) && LinkOk(db, a);
  }

  /** A run that is retried now was unfinished before. */
  lemma NewRetry(db: Db, next: Db, a: Id)
    requires RetryRows(db, next) && Newborns(db, next, a) && next.runs[a].retryOf.Some?
    ensures var p := next.runs[a].retryOf.value; p in db.runs && Unfinished(db.runs[p].status)
  {
    assert RetryLink(db, next, a);
  }

  lemma TwoNewRetries(db: Db, next: Db, a: Id, b: Id)
    requires RetryRows(db, next) && Newborns(db, next, a) && Newborns(db, next, b)
    requires next.runs[a].retryOf.Some? && next.runs[a].retryOf == next.runs[b].retryOf
    ensures a == b
  {
  }

  lemma RetryStays(db: Db, next: Db, id: Id)
    requires OldRows(db, next) && HasRetry(db.runs, id)
    ensures HasRetry(next.runs, id)
  {
    var n :| n in db.runs && db.runs[n].retryOf == Some(id);
    assert OldRow(db, next, n);
    assert next.runs[n].retryOf == Some(id);
  }

  lemma BlockAnswered(db: Db, next: Db)
    requires Answered(db)
    requires OldRows(db, next) && NewRows(db, next) && BreaksAnswered(db, next)
    ensures Answered(next)
  {
    hide HasRetry;
    forall id | id in next.runs
      ensures Broken(next.runs[id].status) ==> Exhaustions(Log(next, id)) == 1 || HasRetry(next.runs, id)
    {
      if id in db.runs {
        assert OldRow(db, next, id);
        if HasRetry(db.runs, id) { RetryStays(db, next, id); }
      } else {
        assert NewRow(db, next, id);
      }
    }
  }

  // -- shard groups

  ghost predicate Groups(runs: map<Id, Run>) {
    forall a, b :: a in runs && b in runs && SameGroup(runs, a, b) ==> Siblings(runs[a], runs[b])
  }

  /** Where a row of the next state gets its group from: itself, or the row it retries. */
  ghost function Source(db: Db, next: Db, id: Id): Id
    requires id in next.runs
  {
    if id !in db.runs && next.runs[id].retryOf.Some? then next.runs[id].retryOf.value else id
  }

  lemma SourceOk(db: Db, next: Db, id: Id)
    requires OldRows(db, next) && RetryRows(db, next)
    requires id in next.runs
    ensures var s := Source(db, next, id);
            && s in next.runs && (s in db.runs || next.runs[s].retryOf.None?)
            && SameOrigin(next.runs[s], next.runs[id])
  {
    if id !in db.runs && next.runs[id].retryOf.Some? {
      assert Newborns(db, next, id) && RetryLink(db, next, id);
      assert OldRow(db, next, next.runs[id].retryOf.value);
    }
  }

  ghost predicate SameGroup(runs: map<Id, Run>, a: Id, b: Id)
    requires a in runs && b in runs
  {
    runs[a].shard.Some? && runs[b].shard.Some? && runs[a].shard.value.group == runs[b].shard.value.group
  }

  ghost predicate Siblings(a: Run, b: Run) {
    a.job == b.job && a.rearm == b.rearm && a.parent == b.parent
  }

  lemma OldGroup(db: Db, next: Db, s: Id)
    requires Places(db.runs, db.jobs, db.unused) && OldRows(db, next) && s in db.runs
    ensures s in next.runs && next.runs[s].shard == db.runs[s].shard && Siblings(db.runs[s], next.runs[s])
    ensures db.runs[s].shard.Some? ==> db.runs[s].shard.value.group < db.unused
  {
    assert OldRow(db, next, s) && PlaceOk(db.runs[s], db.jobs, db.unused);
  }

  lemma NewGroup(db: Db, next: Db, s: Id)
    requires GroupRows(db, next) && Newborns(db, next, s) && next.runs[s].retryOf.None? && next.runs[s].shard.Some?
    ensures next.runs[s].shard.value.group >= db.unused
  {
  }

  lemma NewSiblings(db: Db, next: Db, s: Id, t: Id)
    requires GroupRows(db, next) && Newborns(db, next, s) && Newborns(db, next, t)
    requires next.runs[s].retryOf.None? && next.runs[t].retryOf.None?
    ensures Siblings(next.runs[s], next.runs[t])
  {
  }

  /** Rows that are not new retries: old ones agree by the invariant, new ones by their trigger. */
  lemma GroupSources(db: Db, next: Db, s: Id, t: Id)
    requires Places(db.runs, db.jobs, db.unused) && Groups(db.runs)
    requires OldRows(db, next) && GroupRows(db, next)
    requires s in next.runs && (s in db.runs || next.runs[s].retryOf.None?)
    requires t in next.runs && (t in db.runs || next.runs[t].retryOf.None?)
    requires SameGroup(next.runs, s, t)
    ensures Siblings(next.runs[s], next.runs[t])
  {
    hide Places, OldRows, GroupRows;
    if s in db.runs { OldGroup(db, next, s); } else { NewGroup(db, next, s); }
    if t in db.runs { OldGroup(db, next, t); } else { NewGroup(db, next, t); }
    if s !in db.runs && t !in db.runs { NewSiblings(db, next, s, t); }
  }

  lemma BlockGroups(db: Db, next: Db)
    requires Places(db.runs, db.jobs, db.unused) && Groups(db.runs)
    requires OldRows(db, next) && RetryRows(db, next) && GroupRows(db, next)
    ensures Groups(next.runs)
  {
    hide Places, OldRows, RetryRows, GroupRows;
    forall a, b | a in next.runs && b in next.runs && SameGroup(next.runs, a, b)
      ensures Siblings(next.runs[a], next.runs[b])
    {
      SourceOk(db, next, a);
      SourceOk(db, next, b);
      GroupSources(db, next, Source(db, next, a), Source(db, next, b));
    }
  }

  // -- claims

  ghost predicate ClaimOk(db: Db, t: Id)
    requires t in db.claims
  {
    var c := db.claims[t];
    && t < db.unused && c.run.token == Some(t) && c.id in db.runs
    && SameIdentity(c.run, db.runs[c.id])
    && (db.runs[c.id].token == Some(t) ==> c.run == db.runs[c.id])
  }

  ghost predicate Claims(db: Db) {
    && (forall t :: t in db.claims ==> ClaimOk(db, t))
    && (forall id :: id in db.runs && db.runs[id].token.Some? ==>
          db.runs[id].token.value in db.claims && db.claims[db.runs[id].token.value].id == id)
  }

  lemma BlockClaims(db: Db, next: Db)
    requires Claims(db)
    requires Frame(db, next) && OldRows(db, next) && NewRows(db, next) && NewTokens(db, next) && ClaimsGrow(db, next)
    ensures Claims(next)
  {
    forall t | t in next.claims ensures ClaimOk(next, t) {
      if t in db.claims {
        assert ClaimOk(db, t);
        var id := db.claims[t].id;
        assert OldRow(db, next, id);
        if next.runs[id].token == Some(t) {
          assert TokenFrom(db, next, id);
        }
      }
    }
    forall id | id in next.runs
      ensures next.runs[id].token.Some? ==>
                next.runs[id].token.value in next.claims && next.claims[next.runs[id].token.value].id == id
    {
      if id in db.runs {
        if next.runs[id].token.Some? { assert TokenFrom(db, next, id); }
      } else {
        assert NewRow(db, next, id);
      }
    }
  }

  // -- cancel commands

  ghost predicate NeedsCommand(runs: map<Id, Run>, id: Id) {
    id in runs && runs[id].status.Cancelled? && runs[id].address != ""
  }

  /** The commands are for exactly the runs that need one, each to the executor of its run. */
  ghost predicate Commands(db: Db) {
    && (forall id :: id in db.commands <==> NeedsCommand(db.runs, id))
    && (forall id :: id in db.commands && id in db.runs ==> db.commands[id].address == db.runs[id].address)
  }

  lemma BlockCommands(db: Db, next: Db)
    requires Commands(db)
    requires OldRows(db, next) && NewRows(db, next) && CommandRows(db, next)
    ensures Commands(next)
  {
    forall id ensures id in next.commands <==> NeedsCommand(next.runs, id) {
      if id in db.runs {
        assert OldRow(db, next, id);
      } else if id in next.runs {
        assert NewRow(db, next, id);
      }
      assert id in db.commands <==> NeedsCommand(db.runs, id);
      if id in next.commands && id !in db.commands {
        assert BecomesCancelled(db, next, id);
      }
      if NeedsCommand(next.runs, id) && id !in db.commands {
        assert BecomesCancelled(db, next, id);
      }
    }
    forall id | id in next.commands && id in next.runs ensures next.commands[id].address == next.runs[id].address {
      if id in db.commands { assert NeedsCommand(db.runs, id) && OldRow(db, next, id); }
    }
  }

  // -- all of them

  ghost predicate Inv(db: Db) {
    && Rows(db) && Links(db) && OneRetry(db.runs) && Answered(db)
    && Groups(db.runs) && Claims(db) && Commands(db)
  }

  lemma BlockInv(db: Db, next: Db)
    requires Inv(db) && Block(db, next)
    ensures Inv(next)
  {
    BlockLives(db, next);
    BlockPlaces(db, next);
    BlockLinks(db, next);
    BlockOneRetry(db, next);
    BlockAnswered(db, next);
    BlockGroups(db, next);
    BlockClaims(db, next);
    BlockCommands(db, next);
  }
}
