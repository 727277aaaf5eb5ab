/**
 What the executor takes on, until when, and what it reports: on the columns of the request
 and the directory, without the functions that compute them.
 */
module ExecutorDispatch {
  import opened ExecutorTypes
  import opened ExecutorMachine
  import opened ExecutorSlots

  // ---------------------------------------------------------------- what is taken

  /** There is room for it: Kubernetes work needs none, the rest a slot of its kind. */
  predicate Room(s: State, q: Request) {
    match q.language
    case Kubernetes => true
    case Docker => Used(s.slots, DockerPool) < Used(s.capacity, DockerPool)
    case Script =>
      if q.http || q.handler == "__http__" then Used(s.slots, HttpPool) < Used(s.capacity, HttpPool)
      else Used(s.slots, ScriptPool) < Used(s.capacity, ScriptPool)
  }

  lemma RoomIsNotFull(s: State, q: Request)
    ensures Room(s, q) <==> !Full(s, q)
  {
    assert forall p :: p in PoolOf(q) ==> p == DockerPool || p == HttpPool || p == ScriptPool;
  }

  /** A new run is taken exactly if its request is sound and the server is open, with room in pool and directory. */
  lemma TakenExactly(s: State, q: Request, known: bool, fault: Fault)
    requires q.run !in s.disk.executions
    ensures Judge(s, q, false, known, fault).Taken? <==>
              && q.complete && 1 <= q.timeout <= 86400 && known && !s.flags.draining && !s.flags.failed
              && q.run !in Prune(s.mem, s.clock).runs && Room(s, q)
              && s.disk.counted < s.disk.maxExecutions && fault.NoFault?
  {
    hide Prune, Full, Room;
    RoomIsNotFull(s, q);
  }

  // ------------------------------------------------------------------ until when

  lemma SavedIsOnDisk(d: Disk, q: Request, fault: Fault)
    requires SaveExecution(d, q, fault).1
    ensures q.run in SaveExecution(d, q, fault).0.executions && SaveExecution(d, q, fault).0.executions[q.run] == q
  {
  }

  /**
   A dispatch that is taken is on disk, and in the hands of its handler, with its deadline: so
   many seconds after the clock as its timeout says, or the one it had when it is resumed.
   */
  lemma TakenUntil(s: State, q: Request, recovered: bool, known: bool, fault: Fault)
    requires MayDispatch(s, q, recovered) && Judge(s, q, recovered, known, fault).Taken?
    ensures var t := Next(s, Dispatch(q, recovered, known, fault));
            var until := if recovered && q.deadline != 0 then q.deadline else s.clock + 1000 * q.timeout;
            && q.run in t.disk.executions && t.disk.executions[q.run] == q.(deadline := until)
            && s.unused in t.threads && t.threads[s.unused] == Thread(q.(deadline := until), Executing)
  {
    hide Prune, Full, SaveExecution, MemAfter, PastAfter, FlagsAfter, RecoveryAfter, SlotsAfter, CallsAfter;
    hide DeliveriesAfter;
    var until := if recovered && q.deadline != 0 then q.deadline else s.clock + 1000 * q.timeout;
    assert WithDeadline(q, recovered, s.clock) == q.(deadline := until);
    SavedIsOnDisk(s.disk, q.(deadline := until), fault);
  }

  // --------------------------------------------------- the deadline is kept for good

  predicate FreshDispatch(step: Step, run: RunId) {
    || (step.Dispatch? && step.request.run == run && !step.recovered)
    || (step.CrashInDispatch? && step.request.run == run && !step.recovered)
  }

  /** If the run still has a record, it is this one. */
  ghost predicate Keeps(d: Disk, q: Request) {
    q.run in d.executions ==> d.executions[q.run] == q
  }

  lemma SaveExecutionKeeps(d: Disk, r: Request, now: Time, fault: Fault, recovered: bool, q: Request)
    requires Keeps(d, q) && q.deadline != 0
    requires r.run != q.run || (recovered && r.run in d.executions && d.executions[r.run] == r)
    ensures Keeps(SaveExecution(d, WithDeadline(r, recovered, now), fault).0, q)
  {
  }

  lemma OtherOperationsKeep(d: Disk, record: Record, run: RunId, fault: Fault, q: Request)
    requires Keeps(d, q)
    ensures Keeps(Save(d, record, fault).0, q) && Keeps(DeleteExecution(d, run, fault).0, q)
    ensures Keeps(RemoveExecution(d, run), q) && Keeps(RemoveCompletion(d, run), q) && Keeps(Reopened(d), q)
  {
  }

  lemma DispatchKeeps(s: State, step: Step, q: Request)
    requires Enabled(s, step) && (step.Dispatch? || step.CrashInDispatch?) && !FreshDispatch(step, q.run)
    requires Keeps(s.disk, q) && q.deadline != 0
    ensures Keeps(DiskAfter(s, step), q)
  {
    hide Prune, Full, SaveExecution, WithDeadline, Keeps;
    SaveExecutionKeeps(s.disk, step.request, s.clock, step.fault, step.recovered, q);
  }

  lemma StepKeeps(s: State, step: Step, q: Request)
    requires Enabled(s, step) && !FreshDispatch(step, q.run) && Keeps(s.disk, q) && q.deadline != 0
    ensures Keeps(DiskAfter(s, step), q)
  {
    hide Keeps, Judge, Save, SaveExecution, DeleteExecution, RemoveExecution, RemoveCompletion, Reopened;
    var none := Record(0, "", false);
    match step
    case Dispatch(_, _, _, _) => DispatchKeeps(s, step, q);
    case CrashInDispatch(_, _, _) => DispatchKeeps(s, step, q);
    case Unlist(t, fault) => OtherOperationsKeep(s.disk, none, s.threads[t].request.run, fault, q);
    case SaveRecord(t, fault) => OtherOperationsKeep(s.disk, s.threads[t].stage.record, 0, fault, q);
    case Clear(t, fault) => OtherOperationsKeep(s.disk, none, s.threads[t].request.run, fault, q);
    case CancelErase(k, fault) => OtherOperationsKeep(s.disk, none, s.calls[k].run, fault, q);
    case DeliverExecution(k, fault) => OtherOperationsKeep(s.disk, none, s.deliveries[k].run, fault, q);
    case DeliverCompletion(k, fault) => OtherOperationsKeep(s.disk, none, s.deliveries[k].run, fault, q);
    case Restart => OtherOperationsKeep(s.disk, none, 0, NoFault, q);
    case RecoverSave(run, fault) => OtherOperationsKeep(s.disk, FailedRecord(s.disk.executions[run]), 0, fault, q);
    case RecoverClear(run, fault) => OtherOperationsKeep(s.disk, none, run, fault, q);
    case _ =>
  }

  lemma {:induction false} RunKeeps(s: State, steps: seq<Step>, t: State, q: Request)
    requires Leads(s, steps, t) && Keeps(s.disk, q) && q.deadline != 0
    requires forall i :: 0 <= i < |steps| ==> !FreshDispatch(steps[i], q.run)
    ensures Keeps(t.disk, q)
    decreases |steps|
  {
    hide Enabled, Keeps, FreshDispatch, DiskAfter, MemAfter, PastAfter, FlagsAfter, RecoveryAfter, SlotsAfter;
    hide ThreadsAfter, CallsAfter, DeliveriesAfter;
    if steps != [] {
      StepKeeps(s, steps[0], q);
      RunKeeps(Next(s, steps[0]), steps[1..], t, q);
    }
  }

  /**
   Through whatever comes after, crashes and restarts included, as long as the run is not
   dispatched anew: no recovery fails external work before its timeout has passed since it
   was taken. Whenever one may, it is a local script or HTTP call, or the time is over.
   */
  lemma NotFailedBeforeItsTime(s: State, q: Request, known: bool, fault: Fault, steps: seq<Step>, t: State, f: Fault)
    requires MayDispatch(s, q, false) && Judge(s, q, false, known, fault).Taken? && s.clock >= 0
    requires Leads(Next(s, Dispatch(q, false, known, fault)), steps, t)
    requires forall i :: 0 <= i < |steps| ==> !FreshDispatch(steps[i], q.run)
    requires Enabled(t, RecoverSave(q.run, f))
    ensures q.language.Script? || t.clock >= s.clock + 1000 * q.timeout
  {
    assert Enabled(s, Dispatch(q, false, known, fault));
    hide Enabled, Leads, Judge, Next, FreshDispatch, MayDispatch;
    var dated := q.(deadline := s.clock + 1000 * q.timeout);
    TakenUntil(s, q, false, known, fault);
    TakenIsSound(s, q, known, fault);
    RunKeeps(Next(s, Dispatch(q, false, known, fault)), steps, t, dated);
    RecoverableOnDisk(t, q.run, f);
  }

  lemma RecoverableOnDisk(t: State, run: RunId, f: Fault)
    requires Enabled(t, RecoverSave(run, f))
    ensures run in t.disk.executions
    ensures var q := t.disk.executions[run];
            q.language.Script? || (q.deadline != 0 && q.deadline <= t.clock)
  {
  }

  lemma TakenIsSound(s: State, q: Request, known: bool, fault: Fault)
    requires Judge(s, q, false, known, fault).Taken?
    ensures q.complete && 1 <= q.timeout <= 86400
  {
    hide Prune, Full, SaveExecution;
  }

  // ------------------------------------------------------------- what is reported

  /** The handler carries the outcome it returned, under the token of its dispatch, as long as it goes on. */
  ghost predicate Carries(s: State, t: nat, q: Request, succeeded: bool) {
    t in s.threads ==>
      && s.threads[t].request == q
      && match s.threads[t].stage
         case Checking(r) => r == Record(q.run, q.token, succeeded)
         case Saving(r) => r == Record(q.run, q.token, succeeded)
         case Clearing(r) => r == Record(q.run, q.token, succeeded)
         case Settling(r, _) => r == Record(q.run, q.token, succeeded)
         case Reporting(r) => r == Record(q.run, q.token, succeeded)
         case _ => false
  }

  lemma StepCarries(s: State, step: Step, t: nat, q: Request, succeeded: bool)
    requires Enabled(s, step) && Carries(s, t, q, succeeded) && t < s.unused
    ensures Carries(Next(s, step), t, q, succeeded)
  {
    hide DiskAfter, MemAfter, PastAfter, FlagsAfter, RecoveryAfter, SlotsAfter, CallsAfter, DeliveriesAfter, Judge;
    hide Save, RunningIn;
  }

  lemma {:induction false} RunCarries(s: State, steps: seq<Step>, u: State, t: nat, q: Request, succeeded: bool)
    requires Leads(s, steps, u) && Carries(s, t, q, succeeded) && t < s.unused
    ensures Carries(u, t, q, succeeded)
    decreases |steps|
  {
    hide Enabled, Carries, DiskAfter, MemAfter, PastAfter, FlagsAfter, RecoveryAfter, SlotsAfter, ThreadsAfter;
    hide CallsAfter, DeliveriesAfter;
    if steps != [] {
      StepCarries(s, steps[0], t, q, succeeded);
      RunCarries(Next(s, steps[0]), steps[1..], u, t, q, succeeded);
    }
  }

  /** What a handler returned is what is saved for its run, whenever it gets to save it. */
  lemma SavedAsReturned(first: State, before: seq<Step>, s: State, t: nat, succeeded: bool, steps: seq<Step>, u: State)
    requires Fresh(first) && Leads(first, before, s) && Enabled(s, Return(t, Finished(succeeded)))
    requires Leads(Next(s, Return(t, Finished(succeeded))), steps, u) && Enabled(u, SaveRecord(t, NoFault))
    requires u.disk.pending < u.disk.max
    ensures var q := s.threads[t].request; var after := Next(u, SaveRecord(t, NoFault)).disk;
            q.run !in u.disk.completions ==>
              q.run in after.completions && after.completions[q.run] == Record(q.run, q.token, succeeded)
  {
    assert t in s.threads;
    hide Enabled, Leads, Next, Carries;
    FreshOrderly(first);
    RunOrderly(first, before, s);
    ReturnCarries(s, t, succeeded);
    RunCarries(Next(s, Return(t, Finished(succeeded))), steps, u, t, s.threads[t].request, succeeded);
    CarriedIsSaved(u, t, s.threads[t].request, succeeded);
  }

  lemma CarriedIsSaved(u: State, t: nat, q: Request, succeeded: bool)
    requires Enabled(u, SaveRecord(t, NoFault)) && Carries(u, t, q, succeeded) && u.disk.pending < u.disk.max
    ensures var after := Next(u, SaveRecord(t, NoFault)).disk;
            q.run !in u.disk.completions ==>
              q.run in after.completions && after.completions[q.run] == Record(q.run, q.token, succeeded)
  {
    hide MemAfter, PastAfter, FlagsAfter, RecoveryAfter, SlotsAfter, ThreadsAfter, CallsAfter, DeliveriesAfter;
  }

  lemma ReturnCarries(s: State, t: nat, succeeded: bool)
    requires Enabled(s, Return(t, Finished(succeeded))) && t < s.unused
    ensures var next := Next(s, Return(t, Finished(succeeded)));
            Carries(next, t, s.threads[t].request, succeeded) && t < next.unused
  {
    hide DiskAfter, MemAfter, PastAfter, FlagsAfter, RecoveryAfter, SlotsAfter, CallsAfter, DeliveriesAfter;
  }

  // ----------------------------------------------------- undisturbed, from end to end

  /** A handler returns while its entry runs, and nothing goes wrong. */
  predicate CanFinish(s: State, t: nat) {
    && t in s.threads && s.threads[t].stage.Executing? && RunningIn(s.mem, s.threads[t].request.run)
    && s.threads[t].request.run !in s.disk.completions && s.disk.pending < s.disk.max
  }

  lemma ReturnsToCheck(s: State, t: nat, succeeded: bool)
    requires CanFinish(s, t)
    ensures Enabled(s, Return(t, Finished(succeeded)))
    ensures var n, q := Next(s, Return(t, Finished(succeeded))), s.threads[t].request;
            && n.disk == s.disk && n.mem == s.mem && n.clock == s.clock
            && t in n.threads && n.threads[t] == Thread(q, Checking(Record(q.run, q.token, succeeded)))
  {
    hide PastAfter, FlagsAfter, RecoveryAfter, SlotsAfter, CallsAfter, DeliveriesAfter;
  }

  lemma ChecksToSave(s: State, t: nat, q: Request, record: Record)
    requires t in s.threads && s.threads[t] == Thread(q, Checking(record)) && RunningIn(s.mem, q.run)
    ensures Enabled(s, Check(t))
    ensures var n := Next(s, Check(t));
            && n.disk == s.disk && n.mem == s.mem && n.clock == s.clock
            && t in n.threads && n.threads[t] == Thread(q, Saving(record))
  {
    hide PastAfter, FlagsAfter, RecoveryAfter, SlotsAfter, CallsAfter, DeliveriesAfter;
  }

  lemma SavesToClear(s: State, t: nat, q: Request, record: Record)
    requires t in s.threads && s.threads[t] == Thread(q, Saving(record)) && record.run == q.run
    requires q.run !in s.disk.completions && s.disk.pending < s.disk.max
    ensures Enabled(s, SaveRecord(t, NoFault))
    ensures var n := Next(s, SaveRecord(t, NoFault));
            && n.disk.completions == s.disk.completions[q.run := record] && n.disk.executions == s.disk.executions
            && n.mem == s.mem && n.clock == s.clock
            && t in n.threads && n.threads[t] == Thread(q, Clearing(record))
  {
    hide PastAfter, FlagsAfter, RecoveryAfter, SlotsAfter, CallsAfter, DeliveriesAfter;
  }

  lemma ClearsToSettle(s: State, t: nat, q: Request, record: Record)
    requires t in s.threads && s.threads[t] == Thread(q, Clearing(record))
    ensures Enabled(s, Clear(t, NoFault))
    ensures var n := Next(s, Clear(t, NoFault));
            && n.disk.completions == s.disk.completions && n.disk.executions == s.disk.executions - {q.run}
            && n.mem == s.mem && n.clock == s.clock
            && t in n.threads && n.threads[t] == Thread(q, Settling(record, true))
  {
    hide PastAfter, FlagsAfter, RecoveryAfter, SlotsAfter, CallsAfter, DeliveriesAfter;
    var d := s.disk;
    assert q.run !in d.executions ==> d.executions - {q.run} == d.executions;
  }

  lemma SettlesAndEnds(s: State, t: nat, q: Request, record: Record)
    requires t in s.threads && s.threads[t] == Thread(q, Settling(record, true))
    ensures Enabled(s, SettleRun(t))
    ensures var n := Next(s, SettleRun(t));
            && n.disk == s.disk && t !in n.threads && !RunningIn(n.mem, q.run)
  {
    hide PastAfter, FlagsAfter, RecoveryAfter, SlotsAfter, CallsAfter, DeliveriesAfter, Prune;
    SettledDoesNotRun(s.mem, q.run, EndState(record.succeeded), s.clock);
  }

  lemma SettledDoesNotRun(mem: Memory, run: RunId, st: EntryState, now: Time)
    requires Terminal(st)
    ensures !RunningIn(Settle(mem, run, st, now), run)
  {
    hide Prune;
    if RunningIn(mem, run) {
      var ended := mem.(runs := mem.runs[run := Entry(st, Some(now))], completed := mem.completed + [Item(run, now)]);
      if run in Prune(ended, now).runs { PruneLeaves(ended, now, run); }
    }
  }

  /**
   A handler that returns while its run has not been cancelled, undisturbed to the end: its outcome
   is the completion on disk, the execution record is gone, and the entry does not run any more.
   */
  lemma FinishesInFiveSteps(s: State, t: nat, succeeded: bool) returns (steps: seq<Step>, u: State)
    requires CanFinish(s, t)
    ensures Leads(s, steps, u) && |steps| == 5
    ensures var q := s.threads[t].request;
            && u.disk.completions == s.disk.completions[q.run := Record(q.run, q.token, succeeded)]
            && u.disk.executions == s.disk.executions - {q.run}
            && t !in u.threads && !RunningIn(u.mem, q.run)
  {
    hide Enabled, Next;
    var q := s.threads[t].request;
    var record := Record(q.run, q.token, succeeded);
    ReturnsToCheck(s, t, succeeded);
    var a := Next(s, Return(t, Finished(succeeded)));
    ChecksToSave(a, t, q, record);
    var b := Next(a, Check(t));
    SavesToClear(b, t, q, record);
    var c := Next(b, SaveRecord(t, NoFault));
    ClearsToSettle(c, t, q, record);
    var d := Next(c, Clear(t, NoFault));
    SettlesAndEnds(d, t, q, record);
    u := Next(d, SettleRun(t));
    steps := [SettleRun(t)];
    LeadsOne(d, SettleRun(t), [], u);
    LeadsOne(c, Clear(t, NoFault), [SettleRun(t)], u);
    LeadsOne(b, SaveRecord(t, NoFault), [Clear(t, NoFault), SettleRun(t)], u);
    LeadsOne(a, Check(t), [SaveRecord(t, NoFault), Clear(t, NoFault), SettleRun(t)], u);
    LeadsOne(s, Return(t, Finished(succeeded)), [Check(t), SaveRecord(t, NoFault), Clear(t, NoFault), SettleRun(t)], u);
    steps := [Return(t, Finished(succeeded)), Check(t), SaveRecord(t, NoFault), Clear(t, NoFault), SettleRun(t)];
  }

  lemma LeadsOne(s: State, step: Step, rest: seq<Step>, u: State)
    requires Enabled(s, step) && Leads(Next(s, step), rest, u)
    ensures Leads(s, [step] + rest, u)
  {
    assert ([step] + rest)[0] == step && ([step] + rest)[1..] == rest;
  }
}
