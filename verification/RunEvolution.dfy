/** What one database state says about all later ones: the basis of lease fencing. */
module RunEvolution {
  import opened RunTypes
  import opened RunRows
  import opened RunBlocks

  /** How a row may look at any later time, if identifiers from `unused` on were free before. */
  ghost predicate LaterRow(a: Run, b: Run, unused: Id) {
    && SameIdentity(a, b)
    && a.trail <= b.trail
    && (a == b || (Unfinished(a.status)
          && (Rank(a.status) < Rank(b.status) || (a.status.Running? && b.status.Running?))))
    && (b.token == a.token || b.token.None? || b.token.value >= unused)
    && (Rank(a.status) >= 2 ==> b.address == a.address)
  }

  ghost predicate LaterRows(db: Db, next: Db) {
    forall id :: id in db.runs ==> id in next.runs && LaterRow(db.runs[id], next.runs[id], db.unused)
  }

  ghost predicate LaterIds(db: Db, next: Db) {
    && db.unused <= next.unused
    && (forall id :: id in next.runs && id !in db.runs ==> id >= db.unused)
  }

  ghost predicate LaterLogs(db: Db, next: Db) {
    forall id :: id in db.log ==> id in next.log && db.log[id] <= next.log[id]
  }

  ghost predicate LaterClaims(db: Db, next: Db) {
    forall t :: t in db.claims ==> t in next.claims && next.claims[t] == db.claims[t]
  }

  /** Commands are never lost and a delivered one stays delivered. */
  ghost predicate LaterCommands(db: Db, next: Db) {
    forall id :: id in db.commands ==>
      id in next.commands && (db.commands[id].delivered ==> next.commands[id] == db.commands[id])
      && next.commands[id].address == db.commands[id].address
  }

  ghost predicate Evolves(db: Db, next: Db) {
    LaterRows(db, next) && LaterIds(db, next) && LaterLogs(db, next) && LaterClaims(db, next) && LaterCommands(db, next)
  }

  lemma EvolvesTrans(a: Db, b: Db, c: Db)
    requires Evolves(a, b) && Evolves(b, c)
    ensures Evolves(a, c)
  {
    forall id | id in a.runs ensures id in c.runs && LaterRow(a.runs[id], c.runs[id], a.unused) {
      assert LaterRow(a.runs[id], b.runs[id], a.unused) && LaterRow(b.runs[id], c.runs[id], b.unused);
    }
  }

  lemma StepLater(a: Run, b: Run, before: seq<Topic>, after: seq<Topic>, unused: Id)
    requires RowStep(a, b, before, after)
    requires b.token.Some? ==> b == a || b.token.value >= unused
    ensures LaterRow(a, b, unused) && before <= after
  {
  }

  lemma BlockEvolves(db: Db, next: Db)
    requires db.log.Keys == db.runs.Keys
    requires Frame(db, next) && OldRows(db, next) && NewRows(db, next) && NewTokens(db, next)
    requires ClaimsGrow(db, next) && CommandRows(db, next)
    ensures Evolves(db, next)
  {
    forall id | id in db.runs
      ensures id in next.runs && id in next.log && LaterRow(db.runs[id], next.runs[id], db.unused)
      ensures db.log[id] <= next.log[id]
    {
      assert OldRow(db, next, id);
      if next.runs[id].token.Some? { assert TokenFrom(db, next, id); }
      StepLater(db.runs[id], next.runs[id], db.log[id], next.log[id], db.unused);
    }
    forall id | id in next.runs && id !in db.runs ensures id >= db.unused {
      assert NewRow(db, next, id);
    }
  }
}
