/** Leases, events, cancellation and retries, over every run of the system. */
module RunGuarantees {
  import opened RunTypes
  import opened RunTransactions
  import opened RunRows
  import opened RunBlocks
  import opened RunEvolution
  import opened RunMicro
  import opened RunParents
  import opened RunSystem
  import opened RunRefinement
  import opened RunHistory
  import Dependencies

  ghost predicate Reachable(db: Db) {
    exists actions :: db == Exec(actions)
  }

  lemma ReachableInv(db: Db)
    requires Reachable(db)
    ensures Inv(db) && Parents(db)
  {
    var actions :| db == Exec(actions);
    ExecSound(actions);
  }

  lemma ReachableRow(db: Db, id: Id)
    requires Reachable(db) && id in db.runs
    ensures id in db.log && LifeOk(db.runs[id], db.log[id])
  {
    ReachableInv(db);
  }

  lemma ReachableClaim(db: Db, token: Id)
    requires Reachable(db) && token in db.claims
    ensures ClaimOk(db, token)
  {
    ReachableInv(db);
  }

  lemma ReachableCommands(db: Db)
    requires Reachable(db)
    ensures Commands(db)
  {
    ReachableInv(db);
  }

  lemma ExecReachable(actions: seq<Action>)
    ensures Reachable(Exec(actions))
  {
  }

  lemma RowLater(actions: seq<Action>, k: nat, id: Id)
    requires k <= |actions| && id in Exec(actions[..k]).runs
    ensures id in Exec(actions).runs
    ensures LaterRow(Exec(actions[..k]).runs[id], Exec(actions).runs[id], Exec(actions[..k]).unused)
  {
    hide Exec;
    ExecEvolves(actions, k);
  }

  // ------------------------------------------------------------------- leases

  /** A run carries a lease token, and a lease end, exactly while it is running. */
  lemma LeaseExactlyWhileRunning(db: Db, id: Id)
    requires Reachable(db) && id in db.runs
    ensures db.runs[id].token.Some? <==> db.runs[id].status.Running?
    ensures db.runs[id].leaseUntil.Some? <==> db.runs[id].status.Running?
    ensures db.runs[id].callback.Some? <==> db.runs[id].status.WaitingCallback?
  {
    hide Reachable;
    ReachableRow(db, id);
  }

  /** The writes a worker makes under its claim. */
  predicate WorkerWrite(a: Action, token: Id) {
    match a
    case DoPrepare(t, _, _) => t == token
    case DoFail(t, _, _, _) => t == token
    case DoComplete(t, _, _, _) => t == token
    case _ => false
  }

  /** Once a claim has lost its lease, it never holds one again. */
  lemma LostLeaseStaysLost(actions: seq<Action>, k: nat, token: Id)
    requires k <= |actions| && token in Exec(actions[..k]).claims
    requires !HoldsLease(Exec(actions[..k]), Exec(actions[..k]).claims[token])
    ensures token in Exec(actions).claims && !HoldsLease(Exec(actions), Exec(actions).claims[token])
  {
    hide Reachable, Exec;
    var early := Exec(actions[..k]);
    ExecEvolves(actions, k);
    ExecReachable(actions[..k]);
    ReachableClaim(early, token);
    RowLater(actions, k, early.claims[token].id);
    ReachableRow(early, early.claims[token].id);
  }

  /** Fencing: once a lease is lost, no write under it ever changes anything again. */
  lemma StaleWorkersChangeNothing(actions: seq<Action>, k: nat, token: Id, a: Action)
    requires k <= |actions| && token in Exec(actions[..k]).claims
    requires !HoldsLease(Exec(actions[..k]), Exec(actions[..k]).claims[token])
    requires WorkerWrite(a, token)
    ensures Apply(Exec(actions), a).Err? && Do(Exec(actions), a) == Exec(actions)
  {
    hide Exec;
    LostLeaseStaysLost(actions, k, token);
  }

  lemma TwoHolders(db: Db, s: Id, t: Id)
    requires Reachable(db) && s in db.claims && t in db.claims
    requires HoldsLease(db, db.claims[s]) && HoldsLease(db, db.claims[t])
    requires db.claims[s].id == db.claims[t].id
    ensures s == t
  {
    hide Reachable;
    ReachableClaim(db, s);
    ReachableClaim(db, t);
  }

  /** Claiming a run, again or for the first time, takes the lease away from everyone else. */
  lemma ReclaimFences(db: Db, id: Id, now: Time, lease: Time, token: Id)
    requires Reachable(db) && id in db.runs && db.runs[id].job in db.jobs
    requires token in db.claims && db.claims[token].id == id
    ensures !HoldsLease(ClaimOne(db, id, now, lease), db.claims[token])
  {
    hide Reachable;
    ReachableClaim(db, token);
  }

  /** A terminal row never changes again, in any column. */
  lemma TerminalIsAbsorbing(actions: seq<Action>, k: nat, id: Id)
    requires k <= |actions| && id in Exec(actions[..k]).runs && !Unfinished(Exec(actions[..k]).runs[id].status)
    ensures id in Exec(actions).runs && Exec(actions).runs[id] == Exec(actions[..k]).runs[id]
  {
    hide Exec;
    RowLater(actions, k, id);
  }

  /** Statuses only climb, so a run that waits for its callback is never claimed again. */
  lemma StatusesClimb(actions: seq<Action>, k: nat, id: Id)
    requires k <= |actions| && id in Exec(actions[..k]).runs
    ensures id in Exec(actions).runs
    ensures var early, late := Exec(actions[..k]).runs[id], Exec(actions).runs[id];
            && Rank(early.status) <= Rank(late.status)
            && (early.status.WaitingCallback? && Unfinished(late.status) ==> late == early)
  {
    hide Exec;
    RowLater(actions, k, id);
  }

  ghost predicate PreparesRun(db: Db, a: Action, id: Id) {
    a.DoPrepare? && a.token in db.claims && db.claims[a.token].id == id && Apply(db, a).Ok?
  }

  /** A run is prepared, and therefore dispatched, at most once in its life, by whichever worker. */
  lemma PreparedAtMostOnce(actions: seq<Action>, i: nat, k: nat, id: Id)
    requires i < k < |actions|
    requires PreparesRun(Exec(actions[..i]), actions[i], id)
    ensures !PreparesRun(Exec(actions[..k]), actions[k], id)
  {
    var before, after := Exec(actions[..i]), Exec(actions[..i + 1]);
    assert actions[..i + 1][..i] == actions[..i] && actions[..i + 1][i] == actions[i];
    assert after == Do(before, actions[i]);
    assert after.runs[id].status.WaitingCallback? by {
      PrepareWaits(before, before.claims[actions[i].token], actions[i].node, actions[i].callback);
    }
    assert actions[..k][..i + 1] == actions[..i + 1];
    StatusesClimb(actions[..k], i + 1, id);
  }

  lemma PrepareWaits(db: Db, claim: Claim, node: Node, callback: Callback)
    requires HoldsLease(db, claim)
    ensures PrepareDispatch(db, claim, node, callback).value.runs[claim.id].status.WaitingCallback?
  {
  }

  // ------------------------------------------------------------------- events

  /**
   The run's events, leaving `exhausted` out, are exactly the statuses it entered, in
   order and once each: the trail without repetitions, which climbs from its first
   status, pending or skipped, to the one in the row. `exhausted` comes at most once.
   */
  lemma EventsSpellTheTrail(db: Db, id: Id)
    requires Reachable(db) && id in db.runs
    ensures id in db.log && Announced(db.log[id]) == Distinct(db.runs[id].trail)
    ensures var events := Announced(db.log[id]);
            && |events| > 0 && (events[0].Pending? || events[0].Skipped?)
            && events[|events| - 1] == db.runs[id].status
            && (forall i, k :: 0 <= i < k < |events| ==> Rank(events[i]) < Rank(events[k]))
    ensures Exhaustions(db.log[id]) <= 1
  {
    hide Reachable;
    ReachableRow(db, id);
    DistinctClimbs(db.runs[id].trail);
    DistinctHead(db.runs[id].trail);
    RanksClimb(Distinct(db.runs[id].trail));
  }

  lemma {:induction false} DistinctHead(trail: seq<Status>)
    requires |trail| > 0
    ensures |Distinct(trail)| > 0 && Distinct(trail)[0] == trail[0]
  {
    if |trail| > 1 {
      DistinctHead(trail[..|trail| - 1]);
    }
  }

  lemma {:induction false} RanksClimb(s: seq<Status>)
    requires forall i :: 0 < i < |s| ==> Rank(s[i - 1]) < Rank(s[i])
    ensures forall i, k :: 0 <= i < k < |s| ==> Rank(s[i]) < Rank(s[k])
  {
    if |s| > 1 {
      var shorter := s[..|s| - 1];
      RanksClimb(shorter);
      forall i | 0 <= i < |s| - 1 ensures Rank(s[i]) < Rank(s[|s| - 1]) {
        assert s[i] == shorter[i] && s[|s| - 2] == shorter[|s| - 2];
        assert Rank(s[|s| - 1 - 1]) < Rank(s[|s| - 1]);
      }
      assert forall i :: 0 <= i < |s| - 1 ==> s[i] == shorter[i];
    }
  }

  /** Events are never taken back. */
  lemma EventsOnlyGrow(actions: seq<Action>, k: nat, id: Id)
    requires k <= |actions| && id in Exec(actions[..k]).log
    ensures id in Exec(actions).log && Exec(actions[..k]).log[id] <= Exec(actions).log[id]
  {
    hide Exec;
    ExecEvolves(actions, k);
  }

  // ------------------------------------------------------------- cancellation

  /** A cancel command exists exactly for the cancelled runs whose executor is known, and goes to that executor. */
  lemma CancelCommandsExact(db: Db, id: Id)
    requires Reachable(db)
    ensures id in db.commands <==> id in db.runs && db.runs[id].status.Cancelled? && db.runs[id].address != ""
    ensures id in db.commands ==> db.commands[id].address == db.runs[id].address
  {
    hide Reachable;
    ReachableCommands(db);
    assert id in db.commands <==> NeedsCommand(db.runs, id);
  }

  lemma AddressStays(actions: seq<Action>, k: nat, id: Id)
    requires k <= |actions| && id in Exec(actions[..k]).runs && Exec(actions[..k]).runs[id].status.WaitingCallback?
    ensures id in Exec(actions).runs && Exec(actions).runs[id].address == Exec(actions[..k]).runs[id].address
  {
    hide Exec;
    RowLater(actions, k, id);
  }

  /** A run that was prepared on a node and is cancelled later has a command to that very address, if it is one. */
  lemma PreparedThenCancelled(actions: seq<Action>, i: nat, id: Id)
    requires i < |actions|
    requires PreparesRun(Exec(actions[..i]), actions[i], id)
    ensures var late, address := Exec(actions), actions[i].node.address;
            && id in late.runs && late.runs[id].address == address
            && (late.runs[id].status.Cancelled? && address != "" <==> id in late.commands)
            && (id in late.commands ==> late.commands[id].address == address)
  {
    PreparedAddress(actions, i, id);
    hide Exec, PreparesRun, Reachable;
    AddressStays(actions, i + 1, id);
    ExecReachable(actions);
    CancelCommandsExact(Exec(actions), id);
  }

  lemma PreparedAddress(actions: seq<Action>, i: nat, id: Id)
    requires i < |actions| && PreparesRun(Exec(actions[..i]), actions[i], id)
    ensures var after := Exec(actions[..i + 1]);
            && id in after.runs && after.runs[id].status.WaitingCallback?
            && after.runs[id].address == actions[i].node.address
  {
    hide Exec, PrepareDispatch;
    var before := Exec(actions[..i]);
    assert actions[..i + 1] == actions[..i] + [actions[i]];
    ExecSnoc(actions[..i], actions[i]);
    HeldToPrepare(before, before.claims[actions[i].token], actions[i].node, actions[i].callback);
    PrepareAddress(before, before.claims[actions[i].token], actions[i].node, actions[i].callback);
  }

  lemma HeldToPrepare(db: Db, claim: Claim, node: Node, callback: Callback)
    requires PrepareDispatch(db, claim, node, callback).Ok?
    ensures HoldsLease(db, claim)
  {
  }

  lemma PrepareAddress(db: Db, claim: Claim, node: Node, callback: Callback)
    requires HoldsLease(db, claim)
    ensures var next := PrepareDispatch(db, claim, node, callback).value;
            && claim.id in next.runs && next.runs[claim.id].status.WaitingCallback?
            && next.runs[claim.id].address == node.address
  {
  }

  lemma WorkKeepsCommands(db: Db, a: Action)
    requires Whole(db) && !Administers(a) && Apply(db, a).Ok?
    ensures KeepsCommands(db.commands, Apply(db, a).value.commands)
  {
    hide Whole, Runs, Apply;
    var ms := RefineAction(db, a);
    RunsWhole(State(db, None), ms, State(Apply(db, a).value, None));
  }

  lemma ClaimingDeliversNone(db: Db, owner: string, rows: seq<Id>, now: Time, id: Id)
    requires id in db.commands && !db.commands[id].delivered
    ensures var next := ClaimCommands(db, owner, rows, now); id in next.commands && !next.commands[id].delivered
    decreases rows
  {
  }

  lemma ReachableWhole(db: Db)
    requires Reachable(db)
    ensures Whole(db)
  {
    ReachableInv(db);
  }

  lemma AdministrationDelivers(db: Db, a: Action, id: Id)
    requires id in db.commands && !db.commands[id].delivered
    requires Administers(a) || Apply(db, a).Err?
    ensures id in Do(db, a).commands
    ensures Do(db, a).commands[id].delivered ==>
              a.DoCompleteCommand? && a.id == id && CommandHeld(db.commands[id], a.owner, a.now)
  {
    if a.DoClaimCommands? {
      ClaimingDeliversNone(db, a.owner, a.rows, a.now, id);
    }
  }

  /** Commands are never dropped; only the live holder of its lock marks one delivered. */
  lemma CommandsStayUntilDelivered(db: Db, a: Action, id: Id)
    requires Reachable(db) && id in db.commands && !db.commands[id].delivered
    ensures id in Do(db, a).commands
    ensures Do(db, a).commands[id].delivered ==>
              a.DoCompleteCommand? && a.id == id && CommandHeld(db.commands[id], a.owner, a.now)
  {
    hide Whole, Reachable, Exec, Runs;
    if Apply(db, a).Ok? && !Administers(a) {
      assert Whole(db) by { ReachableWhole(db); }
      hide Apply;
      WorkKeepsCommands(db, a);
    } else {
      AdministrationDelivers(db, a, id);
    }
  }

  lemma DeliveredStays(actions: seq<Action>, k: nat, id: Id)
    requires k <= |actions| && id in Exec(actions[..k]).commands && Exec(actions[..k]).commands[id].delivered
    ensures id in Exec(actions).commands && Exec(actions).commands[id] == Exec(actions[..k]).commands[id]
  {
    hide Exec;
    ExecEvolves(actions, k);
  }

  /** Cancelling twice is cancelling once. */
  lemma CancelIsIdempotent(db: Db, tenant: Id, id: Id, now: Time, later: Time)
    requires Reachable(db) && CancelRun(db, tenant, id, now).Ok?
    ensures var next := CancelRun(db, tenant, id, now).value; CancelRun(next, tenant, id, later) == Ok(next)
  {
    hide Reachable, Rearm;
    ReachableCommands(db);
    assert id in db.commands <==> NeedsCommand(db.runs, id);
    var done := Finish(db, id, Cancelled, now);
    var told := if db.runs[id].address != "" then EnqueueCancel(done, id, db.runs[id].address, now) else done;
    RearmRuns(told, db.runs[id], now);
  }

  // ------------------------------------------------------------- idempotency keys

  lemma WorkKeepsKeys(db: Db, a: Action)
    requires Sound(db)
    ensures KeepsKeys(db.keys, Do(db, a).keys)
  {
    hide Whole, Runs, Apply, Administered, Dependencies.Acyclic;
    if Apply(db, a).Ok? {
      if Administers(a) {
        AdministerAction(db, a);
        AdministeredKeys(db, Apply(db, a).value);
      } else {
        var ms := RefineAction(db, a);
        RunsWhole(State(db, None), ms, State(Apply(db, a).value, None));
      }
    }
  }

  lemma AdministeredKeys(db: Db, next: Db)
    requires Administered(db, next)
    ensures next.keys == db.keys
  {
    hide Dependencies.Acyclic, RowsWritten, LaterCommands;
    if JobsAdministered(db, next) {
    } else if EdgesAdministered(db, next) {
    }
  }

  lemma {:induction false} KeysStay(actions: seq<Action>, k: nat)
    requires k <= |actions|
    ensures KeepsKeys(Exec(actions[..k]).keys, Exec(actions).keys)
    decreases |actions|
  {
    hide Sound, Do;
    if k == |actions| {
      assert actions[..k] == actions;
    } else {
      var shorter := actions[..|actions| - 1];
      KeysStay(shorter, k);
      assert shorter[..k] == actions[..k];
      ExecSound(shorter);
      WorkKeepsKeys(Exec(shorter), actions[|actions| - 1]);
    }
  }

  lemma TriggerRecordsKey(db: Db, tenant: Id, j: Id, key: string, route: Route, now: Time)
    requires key != "" && TriggerJob(db, tenant, j, key, route, now).Ok?
    ensures var (next, id) := TriggerJob(db, tenant, j, key, route, now).value;
            (j, key) in next.keys && next.keys[(j, key)] == id
  {
    hide Cover, Decide;
    var keyed := db.(keys := db.keys[(j, key) := db.unused]);
    CoverEdges(keyed, j, now);
  }

  /** A trigger answers with a new manual run of its job, unless its key is known; what happens then is said below. */
  lemma TriggerAnswersARun(db: Db, tenant: Id, j: Id, key: string, route: Route, now: Time)
    requires Reachable(db)
    requires TriggerJob(db, tenant, j, key, route, now).Ok? && !(key != "" && (j, key) in db.keys)
    ensures var (next, id) := TriggerJob(db, tenant, j, key, route, now).value;
            id !in db.runs && id in next.runs && next.runs[id].job == j && next.runs[id].trigger.Manual?
  {
    hide Reachable, TriggerJob;
    ReachableFresh(db);
    TriggerInserts(db, tenant, j, key, route, now);
  }

  lemma TriggerInserts(db: Db, tenant: Id, j: Id, key: string, route: Route, now: Time)
    requires TriggerJob(db, tenant, j, key, route, now).Ok? && !(key != "" && (j, key) in db.keys)
    ensures var (next, id) := TriggerJob(db, tenant, j, key, route, now).value;
            id == db.unused && id in next.runs && next.runs[id].job == j && next.runs[id].trigger.Manual?
  {
    hide FireRun, Decide, Launch;
    var keyed := if key == "" then db else db.(keys := db.keys[(j, key) := db.unused]);
    var base := NewRun(db.jobs[j], j, Manual, Pending, now, now, None, false);
    match Decide(db, j, route)
    case Fire(cover) =>
      FiresOnNodes(db, j, route);
      FiresFirst(keyed, j, base, route, cover, now);
    case Drop =>
      LaunchesFirst(keyed, NewRun(db.jobs[j], j, Manual, RunTypes.Skipped, now, now, None, false), Plain);
  }

  lemma FiresOnNodes(db: Db, j: Id, route: Route)
    requires j in db.jobs && Decide(db, j, route).Fire?
    ensures route.Broadcast? ==> |route.nodes| > 0
  {
    hide HasActive, PendingRuns;
  }

  lemma FiresFirst(db: Db, j: Id, base: Run, route: Route, cover: bool, now: Time)
    requires route.Broadcast? ==> |route.nodes| > 0
    ensures var next := FireRun(db, j, base, route, cover, now);
            && db.unused in next.runs
            && next.runs[db.unused].job == base.job && next.runs[db.unused].trigger == base.trigger
  {
    hide Cover, Launch;
    CoverEdges(db, j, now);
    LaunchesFirst(if cover then Cover(db, j, now) else db, base, route);
  }

  lemma ReachableFresh(db: Db)
    requires Reachable(db)
    ensures db.unused !in db.runs
  {
    ReachableInv(db);
  }

  lemma LaunchesFirst(db: Db, base: Run, route: Route)
    requires route.Broadcast? ==> |route.nodes| > 0
    ensures var next := Launch(db, base, route);
            db.unused in next.runs && next.runs[db.unused].job == base.job
              && next.runs[db.unused].trigger == base.trigger
  {
    assert db.unused in LaunchRows(base, route, db.unused);
  }

  /** A trigger with a key is done once: whenever it is repeated, the same run comes back and nothing changes. */
  lemma KeyedTriggersRunOnce(actions: seq<Action>, i: nat, a: Action)
    requires i < |actions| && actions[i].DoTrigger? && a.DoTrigger?
    requires a.id == actions[i].id && a.key == actions[i].key != "" && a.tenant == actions[i].tenant
    requires TriggerJob(Exec(actions[..i]), a.tenant, a.id, a.key, actions[i].route, actions[i].now).Ok?
    ensures var b := actions[i];
            var first := TriggerJob(Exec(actions[..i]), a.tenant, a.id, a.key, b.route, b.now).value.1;
            TriggerJob(Exec(actions), a.tenant, a.id, a.key, a.route, a.now) == Ok((Exec(actions), first))
    ensures Do(Exec(actions), a) == Exec(actions)
  {
    hide Exec, TriggerJob;
    KeyIsRecorded(actions, i);
    KeysStay(actions, i + 1);
    TriggeredJobKnown(Exec(actions[..i]), actions[i]);
    JobStays(actions, i, a.id);
    KnownKeyAnswers(Exec(actions), a);
  }

  lemma KeyIsRecorded(actions: seq<Action>, i: nat)
    requires i < |actions| && actions[i].DoTrigger? && actions[i].key != ""
    requires var a := actions[i]; TriggerJob(Exec(actions[..i]), a.tenant, a.id, a.key, a.route, a.now).Ok?
    ensures var a := actions[i]; var keys := Exec(actions[..i + 1]).keys;
            && (a.id, a.key) in keys
            && keys[(a.id, a.key)] == TriggerJob(Exec(actions[..i]), a.tenant, a.id, a.key, a.route, a.now).value.1
  {
    hide Exec, TriggerJob;
    var a := actions[i];
    assert actions[..i + 1] == actions[..i] + [a];
    ExecSnoc(actions[..i], a);
    TriggerRecordsKey(Exec(actions[..i]), a.tenant, a.id, a.key, a.route, a.now);
  }

  lemma TriggeredJobKnown(db: Db, a: Action)
    requires a.DoTrigger? && TriggerJob(db, a.tenant, a.id, a.key, a.route, a.now).Ok?
    ensures a.id in db.jobs && db.jobs[a.id].tenant == a.tenant
  {
  }

  lemma KnownKeyAnswers(db: Db, a: Action)
    requires a.DoTrigger? && a.id in db.jobs && db.jobs[a.id].tenant == a.tenant
    requires a.key != "" && (a.id, a.key) in db.keys
    ensures TriggerJob(db, a.tenant, a.id, a.key, a.route, a.now) == Ok((db, db.keys[(a.id, a.key)]))
    ensures Do(db, a) == db
  {
  }

  lemma JobStays(actions: seq<Action>, i: nat, j: Id)
    requires i <= |actions| && j in Exec(actions[..i]).jobs
    ensures j in Exec(actions).jobs && Exec(actions).jobs[j].tenant == Exec(actions[..i]).jobs[j].tenant
  {
    JobsStay(actions, i);
  }

  lemma {:induction false} JobsStay(actions: seq<Action>, k: nat)
    requires k <= |actions|
    ensures JobsKept(Exec(actions[..k]).jobs, Exec(actions).jobs)
    decreases |actions|
  {
    hide Sound, Do;
    if k == |actions| {
      assert actions[..k] == actions;
    } else {
      var shorter := actions[..|actions| - 1];
      JobsStay(shorter, k);
      assert shorter[..k] == actions[..k];
      ExecSound(shorter);
      DoKeepsJobs(Exec(shorter), actions[|actions| - 1]);
    }
  }

  lemma DoKeepsJobs(db: Db, a: Action)
    requires Sound(db)
    ensures JobsKept(db.jobs, Do(db, a).jobs)
  {
    hide Whole, Runs, Apply, Dependencies.Acyclic;
    if Apply(db, a).Ok? {
      if Administers(a) {
        AdministerAction(db, a);
      } else {
        var ms := RefineAction(db, a);
        RunsWhole(State(db, None), ms, State(Apply(db, a).value, None));
      }
    }
  }
}
