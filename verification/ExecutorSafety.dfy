/** No accepted run is lost, at whatever point the executor crashes. */
module ExecutorSafety {
  import opened ExecutorTypes
  import opened ExecutorMachine

  // ------------------------------------------------------------ nothing is lost

  /** A run that may be forgotten, or has a record on disk. */
  ghost predicate Safe(s: State, run: RunId) {
    || run in s.past.cancelled || run in s.past.awaiting || run in s.past.accepted
    || run in s.disk.executions || run in s.disk.completions
  }

  ghost predicate Covered(s: State) {
    && (forall run :: run in s.past.acked ==> Safe(s, run))
    && (forall run :: run in s.mem.runs ==> Safe(s, run))
  }

  /** What a goroutine has already seen to before its next step. */
  ghost predicate StageOk(s: State, thread: Thread) {
    var run := thread.request.run;
    match thread.stage
    case Executing => true
    case Marking => run in s.past.awaiting
    case Unlisting => run in s.past.awaiting
    case Checking(r) => r.run == run
    case Saving(r) => r.run == run
    case Clearing(r) => r.run == run && (run in s.disk.completions || run in s.past.accepted)
    case Settling(r, persisted) => r.run == run && (persisted ==> run in s.disk.completions || run in s.past.accepted)
    case Reporting(r) => r.run == run
  }

  ghost predicate ThreadsOk(s: State) {
    forall t :: t in s.threads ==> StageOk(s, s.threads[t])
  }

  ghost predicate DeliveriesOk(s: State) {
    forall k :: k in s.deliveries && !s.deliveries[k].stage.Asking? ==> s.deliveries[k].run in s.past.accepted
  }

  ghost predicate NotLost(s: State) {
    Covered(s) && ThreadsOk(s) && DeliveriesOk(s) && FilesOk(s.disk)
  }

  /** A record disappears only when the run is cancelled, awaits its callback, was accepted, or has a completion. */
  ghost predicate NothingLost(s: State, t: State) {
    && PastAtLeast(s.past, t.past)
    && (forall run :: run in s.disk.executions && run !in t.disk.executions ==>
          run in t.past.cancelled || run in t.past.awaiting || run in t.past.accepted || run in t.disk.completions)
    && (forall run :: run in s.disk.completions && run !in t.disk.completions ==> run in t.past.accepted)
  }

  lemma StaysSafe(s: State, t: State, run: RunId)
    requires NothingLost(s, t) && Safe(s, run)
    ensures Safe(t, run)
  {
  }

  lemma PastGrows(s: State, step: Step)
    requires Enabled(s, step)
    ensures PastAtLeast(s.past, PastAfter(s, step))
  {
  }

  ghost predicate PastAtLeast(p: Past, q: Past) {
    p.acked <= q.acked && p.cancelled <= q.cancelled && p.awaiting <= q.awaiting && p.accepted <= q.accepted
  }

  ghost predicate DiskGrows(d: Disk, e: Disk) {
    d.executions.Keys <= e.executions.Keys && d.completions.Keys <= e.completions.Keys
  }

  /** At most this run's execution record is removed. */
  ghost predicate DropsExecution(d: Disk, e: Disk, run: RunId) {
    e.completions == d.completions && forall r :: r in d.executions && r != run ==> r in e.executions
  }

  lemma GrowsIsSafe(s: State, t: State)
    requires DiskGrows(s.disk, t.disk) && PastAtLeast(s.past, t.past)
    ensures NothingLost(s, t)
  {
  }

  lemma DropIsSafe(s: State, t: State, run: RunId)
    requires DropsExecution(s.disk, t.disk, run) && PastAtLeast(s.past, t.past)
    requires MayDrop(s, t, run)
    ensures NothingLost(s, t)
  {
  }

  lemma SaveGrows(d: Disk, record: Record, fault: Fault)
    ensures DiskGrows(d, Save(d, record, fault).0)
  {
  }

  lemma SaveExecutionGrows(d: Disk, q: Request, fault: Fault)
    ensures DiskGrows(d, SaveExecution(d, q, fault).0)
  {
  }

  lemma DeleteDrops(d: Disk, run: RunId, fault: Fault)
    ensures DropsExecution(d, DeleteExecution(d, run, fault).0, run) && DropsExecution(d, RemoveExecution(d, run), run)
  {
  }

  lemma DispatchGrows(s: State, q: Request, recovered: bool, known: bool, fault: Fault)
    requires Enabled(s, Dispatch(q, recovered, known, fault))
    ensures DiskGrows(s.disk, DiskAfter(s, Dispatch(q, recovered, known, fault)))
  {
    hide Prune, SaveExecution, PoolOf, Full;
    SaveExecutionGrows(s.disk, WithDeadline(q, recovered, s.clock), fault);
  }

  /** Why the execution record this step deletes may go. */
  ghost predicate MayDrop(s: State, t: State, run: RunId) {
    run in t.past.cancelled || run in t.past.awaiting || run in t.past.accepted || run in s.disk.completions
  }

  lemma DeliveryLosesNothing(s: State, step: Step)
    requires Enabled(s, step) && DeliveriesOk(s) && (step.DeliverExecution? || step.DeliverCompletion?)
    ensures NothingLost(s, Next(s, step))
  {
    hide MemAfter, FlagsAfter, RecoveryAfter, SlotsAfter, ThreadsAfter, CallsAfter, DeliveriesAfter;
  }

  /** The steps that remove an execution record each have their reason. */
  lemma DropLosesNothing(s: State, step: Step)
    requires Enabled(s, step) && ThreadsOk(s)
    requires step.Unlist? || step.Clear? || step.CancelErase? || step.RecoverClear?
    ensures NothingLost(s, Next(s, step))
  {
    hide NothingLost, DropsExecution, Judge, DeleteExecution, DeliveriesOk;
    hide MemAfter, FlagsAfter, RecoveryAfter, SlotsAfter, ThreadsAfter, CallsAfter, DeliveriesAfter;
    PastGrows(s, step);
    if step.Unlist? || step.Clear? { assert StageOk(s, s.threads[step.t]); }
    var run := if step.CancelErase? then s.calls[step.k].run
               else if step.RecoverClear? then step.run else s.threads[step.t].request.run;
    DeleteDrops(s.disk, run, step.fault);
    DropIsSafe(s, Next(s, step), run);
  }

  /** The other steps, but for deliveries, only add records. */
  lemma StepGrows(s: State, step: Step)
    requires Enabled(s, step) && !step.Unlist? && !step.Clear? && !step.CancelErase? && !step.RecoverClear?
    requires !step.DeliverExecution? && !step.DeliverCompletion?
    ensures DiskGrows(s.disk, DiskAfter(s, step))
  {
    hide DiskGrows, Judge, Save, SaveExecution;
    match step
    case Dispatch(q, recovered, known, fault) => DispatchGrows(s, q, recovered, known, fault);
    case CrashInDispatch(q, recovered, fault) =>
      SaveExecutionGrows(s.disk, WithDeadline(q, recovered, s.clock), fault);
    case SaveRecord(t, fault) => SaveGrows(s.disk, s.threads[t].stage.record, fault);
    case RecoverSave(run, fault) => SaveGrows(s.disk, FailedRecord(s.disk.executions[run]), fault);
    case Restart => ReopenedGrows(s.disk);
    case _ => SameDiskGrows(s.disk);
  }

  lemma StepLosesNothing(s: State, step: Step)
    requires Enabled(s, step) && ThreadsOk(s) && DeliveriesOk(s)
    ensures NothingLost(s, Next(s, step))
  {
    if step.Unlist? || step.Clear? || step.CancelErase? || step.RecoverClear? {
      DropLosesNothing(s, step);
    } else if step.DeliverExecution? || step.DeliverCompletion? {
      DeliveryLosesNothing(s, step);
    } else {
      hide Enabled, ThreadsOk, DeliveriesOk, NothingLost, DiskGrows, DiskAfter, PastAfter;
      hide MemAfter, FlagsAfter, RecoveryAfter, SlotsAfter, ThreadsAfter, CallsAfter, DeliveriesAfter;
      StepGrows(s, step);
      PastGrows(s, step);
      GrowsIsSafe(s, Next(s, step));
    }
  }

  lemma SameCompletions(d: Disk, e: Disk, run: RunId)
    requires DropsExecution(d, e, run)
    ensures e.completions == d.completions
  {
  }

  lemma ReopenedGrows(d: Disk)
    ensures DiskGrows(d, Reopened(d)) && (FilesOk(d) ==> FilesOk(Reopened(d)))
  {
  }

  lemma SameDiskGrows(d: Disk)
    ensures DiskGrows(d, d)
  {
  }

  /** Which runs are new to memory or to the acknowledged set. */
  lemma StepKnows(s: State, step: Step, run: RunId)
    requires Enabled(s, step)
    requires run in PastAfter(s, step).acked || run in MemAfter(s, step).runs
    ensures run in s.past.acked || run in s.mem.runs || run in DiskAfter(s, step).executions
  {
    hide Judge, Prune, Settle, MarkWaiting, SaveExecution, Save, DeleteExecution, RemoveExecution, RemoveCompletion;
    match step
    case Dispatch(q, recovered, known, fault) => DispatchKnows(s, q, recovered, known, fault, run);
    case Mark(t) => MarkNew(s.mem, s.threads[t].request.run);
    case SettleRun(t) =>
      SettleNew(s.mem, s.threads[t].request.run, EndState(s.threads[t].stage.record.succeeded), s.clock);
    case CancelBegin(r, _, _, _) => SettleNew(s.mem, r, Cancelled, s.clock);
    case _ =>
  }

  lemma MarkNew(mem: Memory, r: RunId)
    ensures MarkWaiting(mem, r).runs.Keys == mem.runs.Keys
  {
  }

  lemma {:induction false} PruneNew(mem: Memory, now: Time, run: RunId)
    requires run in Prune(mem, now).runs
    ensures run in mem.runs
    decreases |mem.completed|
  {
    if mem.completed != [] && Overdue(mem, now) {
      PruneNew(DropOldest(mem), now, run);
    }
  }

  lemma SettleNew(mem: Memory, r: RunId, st: EntryState, now: Time)
    ensures Settle(mem, r, st, now).runs.Keys <= mem.runs.Keys
  {
    hide Prune;
    forall run | run in Settle(mem, r, st, now).runs ensures run in mem.runs {
      if RunningIn(mem, r) {
        PruneNew(mem.(runs := mem.runs[r := Entry(st, Some(now))], completed := mem.completed + [Item(r, now)]), now,
          run);
      }
    }
  }

  lemma SavedExecution(d: Disk, q: Request, fault: Fault)
    requires SaveExecution(d, q, fault).1
    ensures q.run in SaveExecution(d, q, fault).0.executions
  {
  }

  lemma DispatchKnows(s: State, q: Request, recovered: bool, known: bool, fault: Fault, run: RunId)
    requires Enabled(s, Dispatch(q, recovered, known, fault))
    requires var step := Dispatch(q, recovered, known, fault);
             run in PastAfter(s, step).acked || run in MemAfter(s, step).runs
    ensures run in s.past.acked || run in s.mem.runs
            || run in DiskAfter(s, Dispatch(q, recovered, known, fault)).executions
  {
    hide Prune, SaveExecution, Full, PoolOf;
    var saved := SaveExecution(s.disk, WithDeadline(q, recovered, s.clock), fault);
    if saved.1 { SavedExecution(s.disk, WithDeadline(q, recovered, s.clock), fault); }
    if run in Prune(s.mem, s.clock).runs { PruneNew(s.mem, s.clock, run); }
    if q.run in Prune(s.mem, s.clock).runs { PruneNew(s.mem, s.clock, q.run); }
  }

  lemma StepCovers(s: State, step: Step)
    requires Enabled(s, step) && NotLost(s)
    ensures Covered(Next(s, step))
  {
    hide Enabled, Safe, NothingLost, StageOk, DiskAfter, MemAfter, PastAfter, FlagsAfter, RecoveryAfter, SlotsAfter;
    hide ThreadsAfter;
    hide CallsAfter, DeliveriesAfter;
    var t := Next(s, step);
    StepLosesNothing(s, step);
    forall run | run in t.past.acked || run in t.mem.runs ensures Safe(t, run) {
      StepKnows(s, step, run);
      if run in s.past.acked || run in s.mem.runs { StaysSafe(s, t, run); } else { SafeOnDisk(t, run); }
    }
  }

  lemma SafeOnDisk(s: State, run: RunId)
    requires run in s.disk.executions
    ensures Safe(s, run)
  {
  }

  /** A goroutine that does not move keeps what it has seen to. */
  lemma StageStays(s: State, t: State, thread: Thread)
    requires StageOk(s, thread) && NothingLost(s, t)
    ensures StageOk(t, thread)
  {
  }

  /** What the goroutine that moves has seen to, in its new stage. */
  lemma MovesOk(s: State, step: Step)
    requires Enabled(s, step) && ThreadsOk(s) && Moves(step) && StageAfter(s, step, step.t).Some?
    ensures StageOk(Next(s, step), s.threads[step.t].(stage := StageAfter(s, step, step.t).value))
  {
    hide MemAfter, FlagsAfter, RecoveryAfter, SlotsAfter, ThreadsAfter, CallsAfter, DeliveriesAfter, DeleteExecution;
    assert StageOk(s, s.threads[step.t]);
    match step
    case Clear(t, fault) =>
      DeleteDrops(s.disk, s.threads[t].request.run, fault);
      SameCompletions(s.disk, DiskAfter(s, step), s.threads[t].request.run);
    case _ =>
  }

  lemma StepThreads(s: State, step: Step)
    requires Enabled(s, step) && ThreadsOk(s) && DeliveriesOk(s)
    ensures ThreadsOk(Next(s, step))
  {
    hide Enabled, NothingLost, StageOk, DeliveriesOk, DiskAfter, MemAfter, PastAfter, FlagsAfter, RecoveryAfter;
    hide SlotsAfter;
    hide CallsAfter, DeliveriesAfter, StageAfter, Judge;
    var next := Next(s, step);
    StepLosesNothing(s, step);
    forall t | t in next.threads ensures StageOk(next, next.threads[t]) {
      if t in s.threads && next.threads[t] == s.threads[t] {
        StageStays(s, next, s.threads[t]);
      } else if Moves(step) {
        MovesOk(s, step);
      } else {
        ExecutingOk(next, next.threads[t]);
      }
    }
  }

  lemma ExecutingOk(s: State, thread: Thread)
    requires thread.stage.Executing?
    ensures StageOk(s, thread)
  {
  }

  lemma StepDeliveries(s: State, step: Step)
    requires Enabled(s, step) && DeliveriesOk(s)
    ensures DeliveriesOk(Next(s, step))
  {
    hide DiskAfter, MemAfter, FlagsAfter, RecoveryAfter, SlotsAfter, ThreadsAfter, CallsAfter;
    PastGrows(s, step);
    hide PastAfter;
    if step.DeliverAsk? && step.ok {
      AskedAccepted(s, step);
    }
  }

  lemma AskedAccepted(s: State, step: Step)
    requires Enabled(s, step) && step.DeliverAsk? && step.ok
    ensures s.deliveries[step.k].run in PastAfter(s, step).accepted
  {
  }

  lemma DispatchFiles(s: State, q: Request, recovered: bool, known: bool, fault: Fault)
    requires FilesOk(s.disk) && Enabled(s, Dispatch(q, recovered, known, fault))
    ensures FilesOk(DiskAfter(s, Dispatch(q, recovered, known, fault)))
  {
    hide Prune, SaveExecution, PoolOf, Full, FilesOk;
    SaveExecutionFiles(s.disk, WithDeadline(q, recovered, s.clock), fault);
  }

  lemma SaveExecutionFiles(d: Disk, q: Request, fault: Fault)
    requires FilesOk(d)
    ensures FilesOk(SaveExecution(d, q, fault).0)
  {
  }

  lemma SaveFiles(d: Disk, record: Record, fault: Fault)
    requires FilesOk(d)
    ensures FilesOk(Save(d, record, fault).0)
  {
  }

  lemma RemoveFiles(d: Disk, run: RunId, fault: Fault)
    requires FilesOk(d)
    ensures FilesOk(DeleteExecution(d, run, fault).0) && FilesOk(RemoveExecution(d, run))
    ensures FilesOk(RemoveCompletion(d, run))
  {
  }

  lemma StepFiles(s: State, step: Step)
    requires Enabled(s, step) && FilesOk(s.disk)
    ensures FilesOk(DiskAfter(s, step))
  {
    hide FilesOk, Judge, Save, SaveExecution, DeleteExecution, RemoveExecution, RemoveCompletion;
    match step
    case Dispatch(q, recovered, known, fault) => DispatchFiles(s, q, recovered, known, fault);
    case CrashInDispatch(q, recovered, fault) => SaveExecutionFiles(s.disk, WithDeadline(q, recovered, s.clock), fault);
    case Unlist(t, fault) => RemoveFiles(s.disk, s.threads[t].request.run, fault);
    case SaveRecord(t, fault) => SaveFiles(s.disk, s.threads[t].stage.record, fault);
    case Clear(t, fault) => RemoveFiles(s.disk, s.threads[t].request.run, fault);
    case CancelErase(k, fault) => RemoveFiles(s.disk, s.calls[k].run, fault);
    case DeliverExecution(k, fault) => RemoveFiles(s.disk, s.deliveries[k].run, fault);
    case DeliverCompletion(k, fault) => RemoveFiles(s.disk, s.deliveries[k].run, fault);
    case RecoverSave(run, fault) => SaveFiles(s.disk, FailedRecord(s.disk.executions[run]), fault);
    case RecoverClear(run, fault) => RemoveFiles(s.disk, run, fault);
    case Restart => ReopenedGrows(s.disk);
    case _ =>
  }

  lemma StepNotLost(s: State, step: Step)
    requires Enabled(s, step) && NotLost(s)
    ensures NotLost(Next(s, step))
  {
    hide Enabled, Covered, ThreadsOk, DeliveriesOk, FilesOk, DiskAfter, MemAfter, PastAfter, FlagsAfter;
    hide RecoveryAfter, SlotsAfter;
    hide ThreadsAfter, CallsAfter, DeliveriesAfter;
    StepCovers(s, step);
    StepThreads(s, step);
    StepDeliveries(s, step);
    StepFiles(s, step);
  }

  lemma {:induction false} RunNotLost(s: State, steps: seq<Step>, t: State)
    requires NotLost(s) && Leads(s, steps, t)
    ensures NotLost(t)
    decreases |steps|
  {
    hide Enabled, Next, NotLost;
    if steps != [] {
      StepNotLost(s, steps[0]);
      RunNotLost(Next(s, steps[0]), steps[1..], t);
    }
  }

  /**
   In every state of every run, whatever crashed and restarted in between: a run whose
   dispatch was acknowledged is cancelled, awaits its callback, was accepted by Core,
   or has an execution or completion record on disk.
   */
  lemma AcknowledgedRunsAreNeverLost(s: State, steps: seq<Step>, t: State, run: RunId)
    requires Fresh(s) && Leads(s, steps, t) && run in t.past.acked
    ensures || run in t.past.cancelled || run in t.past.awaiting || run in t.past.accepted
            || run in t.disk.executions || run in t.disk.completions
  {
    hide Leads;
    RunNotLost(s, steps, t);
    assert Safe(t, run);
  }
}
