/** cover_early row by row: after each covered run the tables are where the closed form says. */
module RunCover {
  import opened RunTypes
  import opened RunTransactions
  import opened RunBlocks

  ghost predicate CoveredRearm(db: Db, j: Id, todo: set<Id>) {
    exists id :: id in db.runs && ActiveIn(db, j, id) && id !in todo && db.runs[id].rearm
  }

  ghost function CoveredLog(db: Db, j: Id, todo: set<Id>): map<Id, seq<Topic>> {
    map id | id in db.log ::
      if ActiveIn(db, j, id) && id !in todo then db.log[id] + [Entered(Cancelled)] else db.log[id]
  }

  ghost function CoveredCommands(db: Db, j: Id, now: Time, todo: set<Id>): map<Id, Command> {
    db.commands + map id | id in db.runs && ActiveIn(db, j, id) && db.runs[id].address != ""
                           && id !in db.commands && id !in todo ::
      Command0(db.runs[id].address, now)
  }

  ghost function CoveredJobs(db: Db, j: Id, now: Time, todo: set<Id>): map<Id, Job> {
    if CoveredRearm(db, j, todo) && WantsRearm(db, j)
    then db.jobs[j := db.jobs[j].(nextRunAt := Some(NextDelay(db.jobs[j], now)))] else db.jobs
  }

  function CoveredRuns(db: Db, j: Id, now: Time): map<Id, Run> {
    map id | id in db.runs :: if ActiveIn(db, j, id) then Terminal(db.runs[id], Cancelled, now) else db.runs[id]
  }

  /** All rows are cancelled, and the runs outside `todo` have been told and rearmed. */
  ghost function Covered(db: Db, j: Id, now: Time, todo: set<Id>): Db {
    db.(runs := CoveredRuns(db, j, now), log := CoveredLog(db, j, todo),
        commands := CoveredCommands(db, j, now, todo), jobs := CoveredJobs(db, j, now, todo))
  }

  function Active(db: Db, j: Id): set<Id> {
    set id | id in db.runs && ActiveIn(db, j, id)
  }

  lemma CoveredStart(db: Db, j: Id, now: Time)
    ensures Covered(db, j, now, Active(db, j)) == db.(runs := CoveredRuns(db, j, now))
  {
    assert CoveredLog(db, j, Active(db, j)) == db.log;
    assert CoveredCommands(db, j, now, Active(db, j)) == db.commands;
  }

  lemma AllLog(db: Db, j: Id, now: Time)
    ensures CoveredLog(db, j, {}) == Cover(db, j, now).log
  {
  }

  lemma AllCommands(db: Db, j: Id, now: Time)
    ensures CoveredCommands(db, j, now, {}) == Cover(db, j, now).commands
  {
  }

  lemma AllRuns(db: Db, j: Id, now: Time)
    ensures CoveredRuns(db, j, now) == Cover(db, j, now).runs
  {
  }

  lemma CoveredEnd(db: Db, j: Id, now: Time)
    ensures Covered(db, j, now, {}) == Cover(db, j, now)
  {
    AllRuns(db, j, now);
    AllLog(db, j, now);
    AllCommands(db, j, now);
    assert CoveredRearm(db, j, {}) <==> CoversAwaited(db, j);
    hide CoveredLog, CoveredCommands, CoveredRuns;
  }

  /** After the UPDATE no run of the job's groups is awaited any more. */
  lemma NoSiblingLeft(db: Db, j: Id, now: Time, todo: set<Id>, id: Id)
    requires Groups(db.runs) && ActiveIn(db, j, id) && db.runs[id].shard.Some?
    ensures !GroupAwaited(Covered(db, j, now, todo), db.runs[id].shard.value.group)
  {
  }

  lemma StepLog(db: Db, j: Id, todo: set<Id>, id: Id)
    requires id in todo && ActiveIn(db, j, id) && id in db.log
    ensures CoveredLog(db, j, todo)[id := CoveredLog(db, j, todo)[id] + [Entered(Cancelled)]]
            == CoveredLog(db, j, todo - {id})
  {
  }

  lemma StepCommands(db: Db, j: Id, now: Time, todo: set<Id>, id: Id)
    requires id in todo && ActiveIn(db, j, id)
    ensures var before, after := CoveredCommands(db, j, now, todo), CoveredCommands(db, j, now, todo - {id});
            after == if db.runs[id].address != "" && id !in before
              then before[id := Command0(db.runs[id].address, now)] else before
  {
  }

  lemma StepJobs(db: Db, j: Id, now: Time, todo: set<Id>, id: Id)
    requires id in todo && ActiveIn(db, j, id)
    ensures CoveredRearm(db, j, todo - {id}) <==> CoveredRearm(db, j, todo) || db.runs[id].rearm
  {
  }

  /** One round of the loop over covered runs. */
  ghost function Tell(db: Db, id: Id, run: Run, now: Time): Db {
    var told := Emit(db, id, Cancelled, Entered(Cancelled));
    Rearm(if run.address != "" then EnqueueCancel(told, id, run.address, now) else told, run, now)
  }

  lemma CoveredStep(db: Db, j: Id, now: Time, todo: set<Id>, id: Id)
    requires Groups(db.runs) && id in todo && ActiveIn(db, j, id) && id in db.log
    ensures Tell(Covered(db, j, now, todo), id, db.runs[id], now) == Covered(db, j, now, todo - {id})
  {
    hide CoveredLog, CoveredCommands, CoveredRearm, GroupAwaited;
    var before := Covered(db, j, now, todo);
    StepLog(db, j, todo, id);
    StepCommands(db, j, now, todo, id);
    StepJobs(db, j, now, todo, id);
    var told := Emit(before, id, Cancelled, Entered(Cancelled));
    LogDomain(db, j, todo, id);
    assert told == before.(log := CoveredLog(db, j, todo - {id}));
    var queued := if db.runs[id].address != "" then EnqueueCancel(told, id, db.runs[id].address, now) else told;
    assert queued == told.(commands := CoveredCommands(db, j, now, todo - {id}));
    if db.runs[id].shard.Some? {
      NoSiblingLeft(db, j, now, todo, id);
      SameSiblings(before, queued, db.runs[id].shard.value.group);
    }
  }

  lemma LogDomain(db: Db, j: Id, todo: set<Id>, id: Id)
    requires id in db.log
    ensures id in CoveredLog(db, j, todo)
  {
  }

  lemma SameSiblings(a: Db, b: Db, group: Id)
    requires a.runs == b.runs
    ensures GroupAwaited(a, group) == GroupAwaited(b, group)
  {
  }
}
