/**
 Crashes and restarts over whole runs of the executor: what any number of interrupted
 recoveries keeps, also while resumed handlers finish beside them, and why an executor
 can always open its own directory again.
 */
module ExecutorRestarts {
  import opened ExecutorTypes
  import opened ExecutorMachine
  import opened ExecutorRecovery
  import opened ExecutorSafety

  // ------------------------------------------------------ recovery on its own

  /** The steps of recoveries and of what interrupts them. */
  predicate Recovers(step: Step) {
    || step.Tick? || step.Crash? || step.Restart? || step.RecoverSave? || step.RecoverClear?
    || (step.Dispatch? && step.recovered) || (step.CrashInDispatch? && step.recovered)
  }

  lemma ResumeStep(d: Disk, s: State, step: Step)
    requires Enabled(s, step) && (step.Dispatch? || step.CrashInDispatch?) && step.recovered
    requires Reconciled(d, s.disk)
    ensures Reconciled(d, DiskAfter(s, step))
  {
    hide Reconciled, SaveExecution, Prune, Full, WithDeadline;
    ResumeOk(d, s.disk, step.request, s.clock, step.fault);
  }

  lemma ReopenedOk(d: Disk, e: Disk)
    requires Reconciled(d, e)
    ensures Reconciled(d, Reopened(e))
  {
  }

  lemma RecoveryStep(d: Disk, s: State, step: Step)
    requires Enabled(s, step) && Recovers(step) && FilesOk(s.disk) && Reconciled(d, s.disk)
    ensures Reconciled(d, DiskAfter(s, step))
  {
    hide Reconciled, Judge, Save, SaveExecution, DeleteExecution, Reopened;
    match step
    case RecoverSave(run, fault) => FailOk(d, s.disk, run, fault);
    case RecoverClear(run, fault) => ForgetOk(d, s.disk, run, fault);
    case Dispatch(_, _, _, _) => ResumeStep(d, s, step);
    case CrashInDispatch(_, _, _) => ResumeStep(d, s, step);
    case Restart => ReopenedOk(d, s.disk);
    case _ =>
  }

  lemma {:induction false} RecoveriesFrom(d: Disk, s: State, steps: seq<Step>, t: State)
    requires FilesOk(s.disk) && Reconciled(d, s.disk) && Leads(s, steps, t)
    requires forall i :: 0 <= i < |steps| ==> Recovers(steps[i])
    ensures Reconciled(d, t.disk)
    decreases |steps|
  {
    hide Enabled, Recovers, Reconciled, FilesOk;
    if steps != [] {
      RecoveryStep(d, s, steps[0]);
      StepFiles(s, steps[0]);
      RecoveriesFrom(d, Next(s, steps[0]), steps[1..], t);
    }
  }

  /**
   Recovery, interrupted by crashes at any point and started again any number of times,
   keeps the set of known runs, every completion and every deadline that is set; the only
   new completions are failures of runs that were on disk.
   */
  lemma InterruptedRecoveries(first: State, before: seq<Step>, s: State, steps: seq<Step>, t: State)
    requires Fresh(first) && Leads(first, before, s) && Leads(s, steps, t)
    requires forall i :: 0 <= i < |steps| ==> Recovers(steps[i])
    ensures Reconciled(s.disk, t.disk)
  {
    hide Leads, Recovers;
    RunNotLost(first, before, s);
    RecoveriesFrom(s.disk, s, steps, t);
  }

  // ---------------------------------------------- recovery beside resumed handlers

  /** A completion for work that was on disk, under the token of its dispatch. */
  predicate RecordOf(record: Record, q: Request) {
    record.run == q.run && record.token == q.token
  }

  /** What a resumed handler carries: work that was on disk, and a record of that work. */
  ghost predicate Resumed(d: Disk, s: State, thread: Thread) {
    var q := thread.request;
    && q.run in d.executions && SameWork(d.executions[q.run], q)
    && match thread.stage
       case Executing => true
       case Marking => q.run in s.past.awaiting
       case Unlisting => q.run in s.past.awaiting
       case Checking(r) => RecordOf(r, q)
       case Saving(r) => RecordOf(r, q)
       case Clearing(r) => RecordOf(r, q) && q.run in s.disk.completions
       case Settling(r, _) => RecordOf(r, q)
       case Reporting(r) => RecordOf(r, q)
  }

  /** Completions only come, and only for work that was on disk. */
  ghost predicate CompletionsCome(d: Disk, e: Disk) {
    && (forall run :: run in d.completions ==> run in e.completions && e.completions[run] == d.completions[run])
    && (forall run :: run in e.completions && run !in d.completions ==>
          run in d.executions && RecordOf(e.completions[run], d.executions[run]))
  }

  /** A run is forgotten only when its handler waits for a callback. */
  ghost predicate ForgetsAwaiting(d: Disk, e: Disk, past: Past) {
    Known(e) <= Known(d) && forall run :: run in Known(d) && run !in Known(e) ==> run in past.awaiting
  }

  ghost predicate Beside(d: Disk, e: Disk, past: Past) {
    CompletionsCome(d, e) && KeepsExecutions(d, e) && ForgetsAwaiting(d, e, past)
  }

  ghost predicate HandlersOk(d: Disk, s: State) {
    forall t :: t in s.threads ==> Resumed(d, s, s.threads[t])
  }

  lemma SaveBeside(d: Disk, e: Disk, past: Past, record: Record, fault: Fault)
    requires Beside(d, e, past) && record.run in d.executions && RecordOf(record, d.executions[record.run])
    ensures Beside(d, Save(e, record, fault).0, past)
  {
  }

  lemma DeleteBeside(d: Disk, e: Disk, past: Past, run: RunId, fault: Fault)
    requires Beside(d, e, past) && (run in e.completions || run in past.awaiting)
    ensures Beside(d, DeleteExecution(e, run, fault).0, past)
  {
  }

  lemma ResumeBeside(d: Disk, e: Disk, past: Past, q: Request, now: Time, fault: Fault)
    requires Beside(d, e, past) && q.run in e.executions && e.executions[q.run] == q
    ensures Beside(d, SaveExecution(e, WithDeadline(q, true, now), fault).0, past)
  {
    hide SaveExecution, WithDeadline;
    ResumeShape(e, q, now, fault);
  }

  lemma BesideLater(d: Disk, e: Disk, past: Past, later: Past)
    requires Beside(d, e, past) && past.awaiting <= later.awaiting
    ensures Beside(d, e, later) && Beside(d, Reopened(e), later)
  {
  }

  /** With the handlers' own steps. */
  predicate RecoversBeside(step: Step) {
    Recovers(step) || Moves(step)
  }

  lemma ResumeBesideStep(d: Disk, s: State, step: Step)
    requires Enabled(s, step) && (step.Dispatch? || step.CrashInDispatch?) && step.recovered
    requires Beside(d, s.disk, s.past)
    ensures Beside(d, DiskAfter(s, step), s.past)
  {
    hide Beside, SaveExecution, Prune, Full, WithDeadline;
    ResumeBeside(d, s.disk, s.past, step.request, s.clock, step.fault);
  }

  lemma BesideStep(d: Disk, s: State, step: Step)
    requires Enabled(s, step) && RecoversBeside(step) && FilesOk(s.disk) && FilesOk(d)
    requires Beside(d, s.disk, s.past) && HandlersOk(d, s)
    ensures Beside(d, DiskAfter(s, step), PastAfter(s, step))
  {
    hide Beside, Judge, Save, SaveExecution, DeleteExecution, Reopened, PastAfter, FilesOk, HandlersOk;
    PastGrows(s, step);
    match step {
      case RecoverSave(run, fault) =>
        WorkOnDisk(d, s, run);
        SaveBeside(d, s.disk, s.past, FailedRecord(s.disk.executions[run]), fault);
      case RecoverClear(run, fault) => DeleteBeside(d, s.disk, s.past, run, fault);
      case Dispatch(_, _, _, _) => ResumeBesideStep(d, s, step);
      case CrashInDispatch(_, _, _) => ResumeBesideStep(d, s, step);
      case Unlist(t, fault) =>
        assert Resumed(d, s, s.threads[t]) by { HandlerOk(d, s, t); }
        DeleteBeside(d, s.disk, s.past, s.threads[t].request.run, fault);
      case SaveRecord(t, fault) =>
        assert Resumed(d, s, s.threads[t]) by { HandlerOk(d, s, t); }
        NamedAfterRun(d, s.threads[t].request.run);
        SaveBeside(d, s.disk, s.past, s.threads[t].stage.record, fault);
      case Clear(t, fault) =>
        assert Resumed(d, s, s.threads[t]) by { HandlerOk(d, s, t); }
        DeleteBeside(d, s.disk, s.past, s.threads[t].request.run, fault);
      case _ =>
    }
    BesideAgain(d, s, step);
  }

  lemma BesideAgain(d: Disk, s: State, step: Step)
    requires Enabled(s, step) && PastAtLeast(s.past, PastAfter(s, step))
    requires Beside(d, if step.Restart? then s.disk else DiskAfter(s, step), s.past)
    ensures Beside(d, DiskAfter(s, step), PastAfter(s, step))
  {
    hide Beside, PastAfter;
    BesideLater(d, if step.Restart? then s.disk else DiskAfter(s, step), s.past, PastAfter(s, step));
  }

  lemma HandlerOk(d: Disk, s: State, t: nat)
    requires HandlersOk(d, s) && t in s.threads
    ensures Resumed(d, s, s.threads[t])
  {
  }

  lemma NamedAfterRun(d: Disk, run: RunId)
    requires FilesOk(d) && run in d.executions
    ensures d.executions[run].run == run
  {
  }

  lemma WorkOnDisk(d: Disk, s: State, run: RunId)
    requires Beside(d, s.disk, s.past) && FilesOk(s.disk) && FilesOk(d) && run in s.disk.executions
    ensures run in d.executions && s.disk.executions[run].run == run
    ensures RecordOf(FailedRecord(s.disk.executions[run]), d.executions[run])
  {
  }

  /** A handler that does not move carries what it carried. */
  lemma ResumedStays(d: Disk, s: State, t: State, thread: Thread)
    requires Resumed(d, s, thread) && PastAtLeast(s.past, t.past) && s.disk.completions.Keys <= t.disk.completions.Keys
    ensures Resumed(d, t, thread)
  {
  }

  /** No step of a recovery or a handler takes a completion away. */
  lemma CompletionsStay(s: State, step: Step)
    requires Enabled(s, step) && RecoversBeside(step)
    ensures s.disk.completions.Keys <= DiskAfter(s, step).completions.Keys
  {
    hide Prune, Full, PoolOf, WithDeadline;
  }

  lemma MovedOk(d: Disk, s: State, step: Step)
    requires Enabled(s, step) && Moves(step) && HandlersOk(d, s) && StageAfter(s, step, step.t).Some?
    ensures Resumed(d, Next(s, step), s.threads[step.t].(stage := StageAfter(s, step, step.t).value))
  {
    hide DiskAfter, MemAfter, PastAfter, FlagsAfter, RecoveryAfter, SlotsAfter, ThreadsAfter, CallsAfter;
    hide DeliveriesAfter, Save;
    HandlerOk(d, s, step.t);
    CompletionsStay(s, step);
    PastGrows(s, step);
    if step.Return? && step.outcome.AwaitsCallback? {
      ReturnNoted(s, step);
    } else if step.SaveRecord? && Save(s.disk, s.threads[step.t].stage.record, step.fault).1 {
      SavedNoted(s, step);
    }
  }

  lemma ReturnNoted(s: State, step: Step)
    requires Enabled(s, step) && step.Return? && step.outcome.AwaitsCallback?
    ensures s.threads[step.t].request.run in PastAfter(s, step).awaiting
  {
  }

  lemma SavedNoted(s: State, step: Step)
    requires Enabled(s, step) && step.SaveRecord? && Save(s.disk, s.threads[step.t].stage.record, step.fault).1
    ensures s.threads[step.t].stage.record.run in DiskAfter(s, step).completions
  {
  }

  /** The new handler resumes work that was on disk. */
  lemma StartedOk(d: Disk, s: State, step: Step)
    requires Enabled(s, step) && step.Dispatch? && step.recovered && Beside(d, s.disk, s.past)
    requires Judge(s, step.request, step.recovered, step.known, step.fault).Taken?
    ensures var q := Judge(s, step.request, step.recovered, step.known, step.fault).request;
            q.run in d.executions && SameWork(d.executions[q.run], q)
  {
    hide Prune, Full, SaveExecution;
    ResumeShape(s.disk, step.request, s.clock, step.fault);
  }

  lemma HandlersStep(d: Disk, s: State, step: Step)
    requires Enabled(s, step) && RecoversBeside(step) && Beside(d, s.disk, s.past) && HandlersOk(d, s)
    ensures HandlersOk(d, Next(s, step))
  {
    hide Enabled, Beside, Resumed, DiskAfter, MemAfter, PastAfter, FlagsAfter, RecoveryAfter, SlotsAfter, CallsAfter;
    hide DeliveriesAfter;
    hide StageAfter, Judge;
    var next := Next(s, step);
    PastGrows(s, step);
    CompletionsStay(s, step);
    forall t | t in next.threads ensures Resumed(d, next, next.threads[t]) {
      if t in s.threads && next.threads[t] == s.threads[t] {
        ResumedStays(d, s, next, s.threads[t]);
      } else if Moves(step) {
        MovedOk(d, s, step);
      } else {
        StartedOk(d, s, step);
        StartedResumed(d, next, next.threads[t]);
      }
    }
  }

  lemma StartedResumed(d: Disk, s: State, thread: Thread)
    requires thread.stage.Executing? && thread.request.run in d.executions
    requires SameWork(d.executions[thread.request.run], thread.request)
    ensures Resumed(d, s, thread)
  {
  }

  lemma {:induction false} BesideFrom(d: Disk, s: State, steps: seq<Step>, t: State)
    requires FilesOk(d) && FilesOk(s.disk) && Beside(d, s.disk, s.past) && HandlersOk(d, s) && Leads(s, steps, t)
    requires forall i :: 0 <= i < |steps| ==> RecoversBeside(steps[i])
    ensures Beside(d, t.disk, t.past)
    decreases |steps|
  {
    hide Enabled, RecoversBeside, Beside, HandlersOk, FilesOk;
    if steps != [] {
      BesideStep(d, s, steps[0]);
      HandlersStep(d, s, steps[0]);
      StepFiles(s, steps[0]);
      BesideFrom(d, Next(s, steps[0]), steps[1..], t);
    }
  }

  /**
   The handlers that a recovery resumes run beside it, and finish or not before the next
   crash. From a crash on, through any number of restarts: every completion stays, new ones
   belong to work that was on disk and carry its token, no execution record appears and
   none changes but to gain a deadline, and a run is forgotten only when its handler
   waits for a callback.
   */
  lemma RecoveriesBesideHandlers(first: State, before: seq<Step>, s: State, steps: seq<Step>, t: State)
    requires Fresh(first) && Leads(first, before, s) && s.flags.mode.Down? && Leads(s, steps, t)
    requires forall i :: 0 <= i < |steps| ==> RecoversBeside(steps[i])
    ensures CompletionsCome(s.disk, t.disk) && KeepsExecutions(s.disk, t.disk)
    ensures Known(t.disk) <= Known(s.disk) && Known(s.disk) - Known(t.disk) <= t.past.awaiting
  {
    hide Leads, RecoversBeside;
    RunNotLost(first, before, s);
    RunDown(first, before, s);
    BesideFrom(s.disk, s, steps, t);
  }

  /** A process that is down runs nothing and remembers nothing. */
  lemma {:induction false} RunDown(s: State, steps: seq<Step>, t: State)
    requires (s.flags.mode.Down? ==> s.threads == map[] && s.mem.runs == map[]) && Leads(s, steps, t)
    ensures t.flags.mode.Down? ==> t.threads == map[] && t.mem.runs == map[]
    decreases |steps|
  {
    hide Enabled, Next;
    if steps != [] {
      StepDown(s, steps[0]);
      RunDown(Next(s, steps[0]), steps[1..], t);
    }
  }

  lemma StepDown(s: State, step: Step)
    requires Enabled(s, step) && (s.flags.mode.Down? ==> s.threads == map[] && s.mem.runs == map[])
    ensures var t := Next(s, step); t.flags.mode.Down? ==> t.threads == map[] && t.mem.runs == map[]
  {
    hide DiskAfter, PastAfter, RecoveryAfter, SlotsAfter, CallsAfter, DeliveriesAfter, Judge, StageAfter, Prune;
  }

  // ---------------------------------------------------- a recovery that succeeds

  /** The steps of one recovery and of the handlers it resumes. */
  predicate Proceeds(step: Step) {
    step.Tick? || step.RecoverSave? || step.RecoverClear? || (step.Dispatch? && step.recovered) || Moves(step)
  }

  /** The run's completion is the one that was there, or the failure of work that could not go on. */
  ghost predicate Concluded(d: Disk, s: State, run: RunId)
    requires run in d.executions
  {
    && run in s.disk.completions
    && if run in d.completions then s.disk.completions[run] == d.completions[run]
       else s.disk.completions[run] == FailedRecord(d.executions[run]) && Interrupted(d.executions[run], s.clock)
  }

  /** How far the recovery has got with one of the runs it listed. */
  ghost predicate ListedOk(d: Disk, s: State, run: RunId)
    requires run in d.executions
  {
    if run in s.recovery.resumed then
      && run !in s.recovery.todo && run !in d.completions && run in s.past.acked
      && !Interrupted(d.executions[run], s.recovery.since)
    else
      && (run in s.disk.executions ==> s.disk.executions[run] == d.executions[run])
      && (run in s.disk.completions || run in d.completions ==> Concluded(d, s, run))
      && (run !in s.recovery.todo ==> Concluded(d, s, run) && run !in s.disk.executions)
  }

  ghost predicate Resumes(s: State) {
    && (forall t :: t in s.threads ==> s.threads[t].request.run in s.recovery.resumed)
    && (forall run :: run in s.mem.runs ==> run in s.recovery.resumed)
  }

  ghost predicate Progress(d: Disk, s: State) {
    && s.recovery.todo <= d.executions.Keys
    && (s.recovery.aborted || (Resumes(s) && forall run :: run in d.executions ==> ListedOk(d, s, run)))
  }

  /** The records of this run are as they were. */
  ghost predicate SameRecords(d: Disk, e: Disk, run: RunId) {
    && (run in e.executions <==> run in d.executions)
    && (run in e.executions ==> e.executions[run] == d.executions[run])
    && (run in e.completions <==> run in d.completions)
    && (run in e.completions ==> e.completions[run] == d.completions[run])
  }

  lemma OtherRecords(d: Disk, record: Record, other: RunId, fault: Fault, run: RunId)
    ensures record.run != run ==> SameRecords(d, Save(d, record, fault).0, run)
    ensures other != run ==> SameRecords(d, DeleteExecution(d, other, fault).0, run)
  {
  }

  /** What a step leaves alone of a run that it is not about. */
  ghost predicate Aside(s: State, t: State, run: RunId) {
    && SameRecords(s.disk, t.disk, run)
    && (run in t.recovery.todo <==> run in s.recovery.todo)
    && (run in t.recovery.resumed <==> run in s.recovery.resumed)
    && t.recovery.since == s.recovery.since && s.clock <= t.clock && s.past.acked <= t.past.acked
  }

  lemma AsideStays(d: Disk, s: State, t: State, run: RunId)
    requires run in d.executions && ListedOk(d, s, run) && Aside(s, t, run)
    ensures ListedOk(d, t, run)
  {
  }

  /** A resumed run stays so, whatever its handler does to its records. */
  lemma ResumedListed(d: Disk, s: State, t: State, run: RunId)
    requires run in d.executions && ListedOk(d, s, run) && run in s.recovery.resumed && s.past.acked <= t.past.acked
    requires run in t.recovery.resumed && run !in t.recovery.todo && t.recovery.since == s.recovery.since
    ensures ListedOk(d, t, run)
  {
  }

  /** The run a step is about. */
  ghost function Subject(s: State, step: Step): RunId
    requires Enabled(s, step) && Proceeds(step) && !step.Tick?
  {
    if step.Dispatch? then step.request.run
    else if step.RecoverSave? || step.RecoverClear? then step.run
    else s.threads[step.t].request.run
  }

  lemma MovesAside(s: State, step: Step, run: RunId)
    requires Enabled(s, step) && Moves(step) && ThreadsOk(s) && s.threads[step.t].request.run != run
    ensures Aside(s, Next(s, step), run)
  {
    hide DiskAfter, MemAfter, PastAfter, FlagsAfter, RecoveryAfter, SlotsAfter, ThreadsAfter, CallsAfter;
    hide DeliveriesAfter, SameRecords;
    MovesRecords(s, step, run);
    PastGrows(s, step);
    MovesRecovery(s, step);
  }

  lemma MovesRecords(s: State, step: Step, run: RunId)
    requires Enabled(s, step) && Moves(step) && ThreadsOk(s) && s.threads[step.t].request.run != run
    ensures SameRecords(s.disk, DiskAfter(s, step), run)
  {
    hide Save, DeleteExecution;
    var thread := s.threads[step.t];
    assert StageOk(s, thread);
    if step.Unlist? || step.Clear? || step.SaveRecord? {
      var record := if step.SaveRecord? then thread.stage.record else FailedRecord(thread.request);
      OtherRecords(s.disk, record, thread.request.run, step.fault, run);
    }
  }

  lemma MovesRecovery(s: State, step: Step)
    requires Enabled(s, step) && Moves(step)
    ensures RecoveryAfter(s, step) == s.recovery
  {
  }

  lemma DispatchAside(s: State, step: Step, run: RunId)
    requires Enabled(s, step) && step.Dispatch? && step.recovered && step.request.run != run
    ensures Aside(s, Next(s, step), run)
  {
    hide MemAfter, FlagsAfter, SlotsAfter, ThreadsAfter, CallsAfter, DeliveriesAfter, Prune, Full;
  }

  lemma RecoverAside(s: State, step: Step, run: RunId)
    requires Enabled(s, step) && (step.RecoverSave? || step.RecoverClear?) && step.run != run && FilesOk(s.disk)
    ensures Aside(s, Next(s, step), run)
  {
    hide MemAfter, FlagsAfter, SlotsAfter, ThreadsAfter, CallsAfter, DeliveriesAfter;
  }

  lemma TickAside(s: State, step: Step, run: RunId)
    requires Enabled(s, step) && step.Tick?
    ensures Aside(s, Next(s, step), run)
  {
    hide MemAfter, FlagsAfter, SlotsAfter, ThreadsAfter, CallsAfter, DeliveriesAfter;
  }

  /** A listed run that the recovery itself deals with: failed, cleared or resumed. */
  lemma SubjectOk(d: Disk, s: State, step: Step)
    requires Enabled(s, step) && Proceeds(step) && !step.Tick? && !Moves(step) && FilesOk(s.disk)
    requires Subject(s, step) in d.executions && ListedOk(d, s, Subject(s, step)) && Resumes(s)
    requires !RecoveryAfter(s, step).aborted
    ensures ListedOk(d, Next(s, step), Subject(s, step))
  {
    hide MemAfter, FlagsAfter, SlotsAfter, ThreadsAfter, CallsAfter, DeliveriesAfter, Prune, Full, SaveExecution;
    if step.Dispatch? {
      NotRemembered(s, step.request.run);
    }
  }

  /** A run that is still to be dealt with is not in memory, so its dispatch is no duplicate. */
  lemma NotRemembered(s: State, run: RunId)
    requires Resumes(s) && run !in s.recovery.resumed
    ensures run !in Prune(s.mem, s.clock).runs
  {
    if run in Prune(s.mem, s.clock).runs { PruneNew(s.mem, s.clock, run); }
  }

  lemma StepResumes(s: State, step: Step)
    requires Enabled(s, step) && Proceeds(step) && Resumes(s)
    ensures Resumes(Next(s, step))
  {
    hide Enabled, Proceeds, DiskAfter, MemAfter, PastAfter, FlagsAfter, RecoveryAfter, SlotsAfter, ThreadsAfter;
    hide CallsAfter, DeliveriesAfter;
    var next := Next(s, step);
    ResumedGrow(s, step);
    forall run | run in next.mem.runs ensures run in next.recovery.resumed { RememberedRuns(s, step, run); }
    forall t | t in next.threads ensures next.threads[t].request.run in next.recovery.resumed {
      HandledRuns(s, step, t);
    }
  }

  lemma ResumedGrow(s: State, step: Step)
    requires Enabled(s, step) && Proceeds(step)
    ensures s.recovery.resumed <= RecoveryAfter(s, step).resumed
  {
    hide Judge, Save, DeleteExecution;
  }

  lemma HandledRuns(s: State, step: Step, t: nat)
    requires Enabled(s, step) && Proceeds(step) && t in ThreadsAfter(s, step)
    ensures || (t in s.threads && ThreadsAfter(s, step)[t].request == s.threads[t].request)
            || ThreadsAfter(s, step)[t].request.run in RecoveryAfter(s, step).resumed
  {
    hide StageAfter, Prune, Full, SaveExecution;
  }

  lemma RememberedRuns(s: State, step: Step, run: RunId)
    requires Enabled(s, step) && Proceeds(step) && run in MemAfter(s, step).runs
    ensures || run in s.mem.runs
            || (step.Dispatch? && run in RecoveryAfter(s, step).resumed)
  {
    hide Judge, Prune, Settle;
    match step
    case Dispatch(q, recovered, known, fault) => if run in Prune(s.mem, s.clock).runs { PruneNew(s.mem, s.clock, run); }
    case SettleRun(t) =>
      SettleNew(s.mem, s.threads[t].request.run, EndState(s.threads[t].stage.record.succeeded), s.clock);
    case _ =>
  }

  lemma StepListed(d: Disk, s: State, step: Step, run: RunId)
    requires Enabled(s, step) && Proceeds(step) && ThreadsOk(s) && FilesOk(s.disk) && Progress(d, s)
    requires !RecoveryAfter(s, step).aborted && !s.recovery.aborted && run in d.executions
    ensures ListedOk(d, Next(s, step), run)
  {
    hide ListedOk, Aside, FilesOk, DiskAfter, MemAfter, PastAfter, FlagsAfter, RecoveryAfter, SlotsAfter;
    hide ThreadsAfter, CallsAfter, DeliveriesAfter;
    assert ListedOk(d, s, run);
    if step.Tick? {
      TickAside(s, step, run);
      AsideStays(d, s, Next(s, step), run);
    } else if Subject(s, step) != run {
      if Moves(step) { MovesAside(s, step, run); }
      else if step.Dispatch? { DispatchAside(s, step, run); }
      else { RecoverAside(s, step, run); }
      AsideStays(d, s, Next(s, step), run);
    } else if Moves(step) {
      MovingListed(d, s, step);
    } else {
      SubjectOk(d, s, step);
    }
  }

  lemma MovingListed(d: Disk, s: State, step: Step)
    requires Enabled(s, step) && Moves(step) && Resumes(s)
    requires var run := s.threads[step.t].request.run; run in d.executions && ListedOk(d, s, run)
    ensures ListedOk(d, Next(s, step), s.threads[step.t].request.run)
  {
    hide DiskAfter, MemAfter, FlagsAfter, SlotsAfter, ThreadsAfter, CallsAfter, DeliveriesAfter;
    ResumedListed(d, s, Next(s, step), s.threads[step.t].request.run);
  }

  lemma StepProgress(d: Disk, s: State, step: Step)
    requires Enabled(s, step) && Proceeds(step) && ThreadsOk(s) && FilesOk(s.disk) && Progress(d, s)
    ensures Progress(d, Next(s, step))
  {
    StepTodo(s, step);
    hide ListedOk, Resumes, FilesOk, ThreadsOk, DiskAfter, MemAfter, PastAfter, FlagsAfter, RecoveryAfter, SlotsAfter;
    hide ThreadsAfter, CallsAfter, DeliveriesAfter, Enabled, Proceeds;
    if !RecoveryAfter(s, step).aborted {
      StepResumes(s, step);
      forall run | run in d.executions ensures ListedOk(d, Next(s, step), run) { StepListed(d, s, step, run); }
    }
  }

  /** Nothing is listed later, and an aborted recovery stays so. */
  lemma StepTodo(s: State, step: Step)
    requires Enabled(s, step) && Proceeds(step)
    ensures RecoveryAfter(s, step).todo <= s.recovery.todo
    ensures s.recovery.aborted ==> RecoveryAfter(s, step).aborted
  {
    hide Judge, Save, DeleteExecution;
  }

  lemma {:induction false} ProgressFrom(d: Disk, s: State, steps: seq<Step>, t: State)
    requires NotLost(s) && Progress(d, s) && Leads(s, steps, t)
    requires forall i :: 0 <= i < |steps| ==> Proceeds(steps[i])
    ensures Progress(d, t)
    decreases |steps|
  {
    hide Enabled, Proceeds, Progress, Covered, ThreadsOk, DeliveriesOk, FilesOk, Next;
    if steps != [] {
      StepProgress(d, s, steps[0]);
      StepNotLost(s, steps[0]);
      ProgressFrom(d, Next(s, steps[0]), steps[1..], t);
    }
  }

  lemma ProgressStarts(s: State)
    requires Enabled(s, Restart) && s.threads == map[] && s.mem.runs == map[]
    ensures Progress(s.disk, Next(s, Restart))
  {
    var next := Next(s, Restart);
    forall run | run in s.disk.executions ensures ListedOk(s.disk, next, run) { }
  }

  lemma {:induction false} SinceStays(s: State, steps: seq<Step>, t: State)
    requires Leads(s, steps, t) && forall i :: 0 <= i < |steps| ==> Proceeds(steps[i])
    ensures t.recovery.since == s.recovery.since
    decreases |steps|
  {
    hide Enabled, DiskAfter, MemAfter, PastAfter, FlagsAfter, RecoveryAfter, SlotsAfter, ThreadsAfter, CallsAfter;
    hide DeliveriesAfter, Proceeds;
    if steps != [] {
      SinceStep(s, steps[0]);
      SinceStays(Next(s, steps[0]), steps[1..], t);
    }
  }

  lemma SinceStep(s: State, step: Step)
    requires Enabled(s, step) && Proceeds(step)
    ensures RecoveryAfter(s, step).since == s.recovery.since
  {
    hide Judge, Save, DeleteExecution;
  }

  /** Its record has given way to a failed completion, under its token. */
  ghost predicate FailedInstead(q: Request, t: State, run: RunId) {
    && run !in t.recovery.resumed && run !in t.disk.executions
    && run in t.disk.completions && t.disk.completions[run] == Record(run, q.token, false)
  }

  /** Work that cannot go on: local, or past its deadline. */
  predicate CannotGoOn(q: Request, now: Time) {
    q.language.Script? || (q.deadline != 0 && q.deadline <= now)
  }

  /** What a recovery from s that ends in t owes to a run whose record it found. */
  ghost predicate DealtWith(s: State, t: State, run: RunId)
    requires run in s.disk.executions
  {
    var q := s.disk.executions[run];
    if run in s.disk.completions then
      && run !in t.recovery.resumed && run !in t.disk.executions
      && run in t.disk.completions && t.disk.completions[run] == s.disk.completions[run]
    else if CannotGoOn(q, s.clock) then FailedInstead(q, t, run)
    else (run in t.recovery.resumed && run in t.past.acked) || (FailedInstead(q, t, run) && CannotGoOn(q, t.clock))
  }

  /**
   When a recovery ends without an error, whatever the handlers it resumed have done in the
   meantime, each run that it found accepted has been dealt with: one with a completion keeps
   it; one that is local, or had expired, has a failed completion instead of its record; and
   one that can go on has been resumed, unless it expired before its turn and failed so.
   */
  lemma FinishedRecovery(first: State, before: seq<Step>, s: State, steps: seq<Step>, t: State, run: RunId)
    requires Fresh(first) && Leads(first, before, s) && Enabled(s, Restart)
    requires Leads(Next(s, Restart), steps, t) && (forall i :: 0 <= i < |steps| ==> Proceeds(steps[i]))
    requires Enabled(t, RecoverDone) && run in s.disk.executions
    ensures DealtWith(s, t, run)
  {
    hide Enabled, Leads, Proceeds, NotLost, Next, Progress, DealtWith;
    AtRestart(s);
    AtDone(t);
    FreshRun(first, before, s);
    StepNotLost(s, Restart);
    ProgressStarts(s);
    ProgressFrom(s.disk, Next(s, Restart), steps, t);
    SinceStays(Next(s, Restart), steps, t);
    NamedRun(s, run);
    DoneListed(s, t, run);
  }

  lemma AtRestart(s: State)
    requires Enabled(s, Restart)
    ensures s.flags.mode.Down? && Next(s, Restart).recovery.since == s.clock
  {
    hide DiskAfter, MemAfter, PastAfter, FlagsAfter, SlotsAfter, ThreadsAfter, CallsAfter, DeliveriesAfter;
  }

  lemma AtDone(t: State)
    requires Enabled(t, RecoverDone)
    ensures t.recovery.todo == {} && !t.recovery.aborted
  {
  }

  lemma FreshRun(s: State, steps: seq<Step>, t: State)
    requires Fresh(s) && Leads(s, steps, t)
    ensures NotLost(t) && (t.flags.mode.Down? ==> t.threads == map[] && t.mem.runs == map[])
  {
    hide Leads;
    RunNotLost(s, steps, t);
    RunDown(s, steps, t);
  }

  lemma NamedRun(s: State, run: RunId)
    requires NotLost(s) && run in s.disk.executions
    ensures s.disk.executions[run].run == run
  {
  }

  lemma DoneListed(s: State, t: State, run: RunId)
    requires Progress(s.disk, t) && t.recovery.todo == {} && !t.recovery.aborted && t.recovery.since == s.clock
    requires run in s.disk.executions && s.disk.executions[run].run == run
    ensures DealtWith(s, t, run)
  {
    assert ListedOk(s.disk, t, run);
  }

  // ------------------------------------------------------------------- the limits

  /** The counter lags behind the directory by at most one, and only in a server that has failed or is down. */
  ghost predicate Within(s: State) {
    && Counted(s.disk) && |s.disk.executions| <= s.disk.maxExecutions && |s.disk.executions| <= s.disk.counted + 1
    && (s.flags.mode.Down? || s.flags.failed || s.disk.counted == |s.disk.executions|)
  }

  lemma SaveWithin(d: Disk, q: Request, fault: Fault)
    requires Exact(d)
    ensures var (e, ok) := SaveExecution(d, q, fault);
            && Counted(e) && |e.executions| <= e.maxExecutions && |e.executions| <= e.counted + 1
            && (ok ==> e.counted == |e.executions|)
  {
    SaveExecutionCounted(d, q, fault);
    Added(d.executions, q.run, q);
  }

  /** Removals keep the lag, and exactness. */
  ghost predicate NoWorse(d: Disk, e: Disk) {
    && Counted(e) && e.maxExecutions == d.maxExecutions && |e.executions| <= |d.executions|
    && (|d.executions| <= d.counted + 1 ==> |e.executions| <= e.counted + 1)
    && (d.counted == |d.executions| ==> e.counted == |e.executions|)
  }

  lemma RemoveNoWorse(d: Disk, run: RunId, fault: Fault)
    requires Counted(d)
    ensures NoWorse(d, RemoveExecution(d, run)) && NoWorse(d, DeleteExecution(d, run, fault).0)
    ensures NoWorse(d, RemoveCompletion(d, run))
  {
    RemoveCounted(d, run, fault);
    if run in d.executions { Removed(d.executions, run); }
  }

  lemma SaveNoWorse(d: Disk, record: Record, fault: Fault)
    requires Counted(d)
    ensures NoWorse(d, Save(d, record, fault).0)
  {
    SaveCounted(d, record, fault);
  }

  lemma NoWorseWithin(s: State, t: State)
    requires Within(s) && NoWorse(s.disk, t.disk)
    requires t.flags.mode == s.flags.mode || t.flags.mode.Down? || (t.flags.mode.Serving? && s.flags.mode.Recovering?)
    requires s.flags.failed && !t.flags.mode.Down? ==> t.flags.failed
    ensures Within(t)
  {
  }

  /** Once failed, a server stays so until it is down. */
  lemma FailedStays(s: State, step: Step)
    requires Enabled(s, step) && !step.Restart?
    ensures var f := FlagsAfter(s, step);
            && (f.mode == s.flags.mode || f.mode.Down? || (f.mode.Serving? && s.flags.mode.Recovering?))
            && (s.flags.failed && !f.mode.Down? ==> f.failed)
  {
    hide Judge, DeleteExecution;
  }

  lemma DispatchWithin(s: State, step: Step)
    requires Enabled(s, step) && (step.Dispatch? || step.CrashInDispatch?) && Within(s)
    ensures Within(Next(s, step))
  {
    hide MemAfter, PastAfter, SlotsAfter, ThreadsAfter, CallsAfter, DeliveriesAfter, SaveExecution, Prune, Full;
    var known := if step.Dispatch? then step.known else true;
    if Publishes(Judge(s, step.request, step.recovered, known, step.fault)) {
      SaveWithin(s.disk, WithDeadline(step.request, step.recovered, s.clock), step.fault);
    }
  }

  lemma StepWithin(s: State, step: Step)
    requires Enabled(s, step) && Within(s)
    ensures Within(Next(s, step))
  {
    hide MemAfter, PastAfter, SlotsAfter, ThreadsAfter, CallsAfter, DeliveriesAfter, FlagsAfter, RecoveryAfter;
    hide Judge, Save, SaveExecution, DeleteExecution, RemoveExecution, RemoveCompletion, NoWorse;
    if step.Dispatch? || step.CrashInDispatch? {
      DispatchWithin(s, step);
    } else if !step.Restart? {
      StepNoWorse(s, step);
      FailedStays(s, step);
      NoWorseWithin(s, Next(s, step));
    }
  }

  lemma StepNoWorse(s: State, step: Step)
    requires Enabled(s, step) && Within(s) && !step.Dispatch? && !step.CrashInDispatch? && !step.Restart?
    ensures NoWorse(s.disk, DiskAfter(s, step))
  {
    hide Save, DeleteExecution, RemoveExecution, RemoveCompletion, NoWorse;
    match step
    case Unlist(t, fault) => RemoveNoWorse(s.disk, s.threads[t].request.run, fault);
    case SaveRecord(t, fault) => SaveNoWorse(s.disk, s.threads[t].stage.record, fault);
    case Clear(t, fault) => RemoveNoWorse(s.disk, s.threads[t].request.run, fault);
    case CancelErase(k, fault) => RemoveNoWorse(s.disk, s.calls[k].run, fault);
    case DeliverExecution(k, fault) =>
      RemoveNoWorse(s.disk, s.deliveries[k].run, fault);
      SameNoWorse(s.disk);
    case DeliverCompletion(k, fault) =>
      RemoveNoWorse(s.disk, s.deliveries[k].run, fault);
      SameNoWorse(s.disk);
    case RecoverSave(run, fault) => SaveNoWorse(s.disk, FailedRecord(s.disk.executions[run]), fault);
    case RecoverClear(run, fault) => RemoveNoWorse(s.disk, run, fault);
    case _ => SameNoWorse(s.disk);
  }

  lemma SameNoWorse(d: Disk)
    requires Counted(d)
    ensures NoWorse(d, d)
  {
  }

  lemma {:induction false} RunWithin(s: State, steps: seq<Step>, t: State)
    requires Within(s) && Leads(s, steps, t)
    ensures Within(t)
    decreases |steps|
  {
    hide Enabled, Next, Within;
    if steps != [] {
      StepWithin(s, steps[0]);
      RunWithin(Next(s, steps[0]), steps[1..], t);
    }
  }

  /**
   In every state of every run the directory is within both limits, although the counter may
   lag behind it; so an executor that is down can always open its own directory again.
   */
  lemma DirectoryAlwaysReopens(s: State, steps: seq<Step>, t: State)
    requires Fresh(s) && Leads(s, steps, t)
    ensures |t.disk.completions| <= t.disk.max && |t.disk.executions| <= t.disk.maxExecutions
    ensures t.disk.counted <= |t.disk.executions| <= t.disk.counted + 1
    ensures t.flags.mode.Down? ==> Enabled(t, Restart)
    ensures !t.flags.mode.Down? && !t.flags.failed ==> Exact(t.disk)
  {
    hide Leads;
    RunWithin(s, steps, t);
  }

  /** The one way to fall behind: a dispatch gets to write a new execution record, and its directory sync fails. */
  predicate Drifts(s: State, step: Step) {
    && (step.Dispatch? || step.CrashInDispatch?) && step.fault.AfterChange?
    && Publishes(Judge(s, step.request, step.recovered, step.CrashInDispatch? || step.known, step.fault))
    && step.request.run !in s.disk.executions && s.disk.counted < s.disk.maxExecutions
  }

  lemma DispatchDrifts(s: State, step: Step)
    requires Enabled(s, step) && (step.Dispatch? || step.CrashInDispatch?) && Exact(s.disk)
    ensures Exact(DiskAfter(s, step)) <==> !Drifts(s, step)
  {
    hide Prune, Full, Exact;
    CounterStaysExact(s.disk, WithDeadline(step.request, step.recovered, s.clock), step.fault);
  }

  lemma DriftsExactly(s: State, step: Step)
    requires Enabled(s, step) && Exact(s.disk)
    ensures Exact(DiskAfter(s, step)) <==> !Drifts(s, step)
  {
    hide Judge, Save, SaveExecution, DeleteExecution, RemoveExecution, RemoveCompletion, NoWorse, Exact;
    if step.Dispatch? || step.CrashInDispatch? {
      DispatchDrifts(s, step);
    } else if step.Restart? {
      ReopenedExact(s.disk);
    } else {
      OthersStayExact(s, step);
    }
  }

  lemma ReopenedExact(d: Disk)
    requires Opens(d)
    ensures Exact(Reopened(d))
  {
  }

  lemma OthersStayExact(s: State, step: Step)
    requires Enabled(s, step) && Exact(s.disk) && !step.Dispatch? && !step.CrashInDispatch? && !step.Restart?
    ensures Exact(DiskAfter(s, step))
  {
    hide Save, DeleteExecution, RemoveExecution, RemoveCompletion, Exact;
    match step
    case Unlist(t, fault) => RemovalStaysExact(s.disk, s.threads[t].request.run, fault);
    case SaveRecord(t, fault) => OtherOperationsStayExact(s.disk, s.threads[t].stage.record, 0, fault);
    case Clear(t, fault) => RemovalStaysExact(s.disk, s.threads[t].request.run, fault);
    case CancelErase(k, fault) => RemovalStaysExact(s.disk, s.calls[k].run, fault);
    case DeliverExecution(k, fault) => RemovalStaysExact(s.disk, s.deliveries[k].run, fault);
    case DeliverCompletion(k, fault) => RemovalStaysExact(s.disk, s.deliveries[k].run, fault);
    case RecoverSave(run, fault) => OtherOperationsStayExact(s.disk, FailedRecord(s.disk.executions[run]), 0, fault);
    case RecoverClear(run, fault) => RemovalStaysExact(s.disk, run, fault);
    case _ =>
  }

  lemma RemovalStaysExact(d: Disk, run: RunId, fault: Fault)
    requires Exact(d)
    ensures Exact(DeleteExecution(d, run, fault).0) && Exact(RemoveExecution(d, run)) && Exact(RemoveCompletion(d, run))
  {
    OtherOperationsStayExact(d, Record(run, "", false), run, fault);
    OtherOperationsStayExact(d, Record(run, "", false), run, NoFault);
  }

  ghost predicate NeverDrifts(s: State, steps: seq<Step>)
    decreases |steps|
  {
    steps == [] || (Enabled(s, steps[0]) && !Drifts(s, steps[0]) && NeverDrifts(Next(s, steps[0]), steps[1..]))
  }

  lemma {:induction false} ExactFrom(s: State, steps: seq<Step>, t: State)
    requires Exact(s.disk) && Leads(s, steps, t) && NeverDrifts(s, steps)
    ensures Exact(t.disk)
    decreases |steps|
  {
    hide Enabled, Drifts, Exact;
    if steps != [] {
      DriftsExactly(s, steps[0]);
      ExactFrom(Next(s, steps[0]), steps[1..], t);
    }
  }

  /** From any opening of the directory on, the counters are exact until such a sync fails. */
  lemma CountersExactSinceOpening(s: State, steps: seq<Step>, t: State)
    requires Enabled(s, Restart) && Leads(Next(s, Restart), steps, t) && NeverDrifts(Next(s, Restart), steps)
    ensures Exact(t.disk)
  {
    hide Leads, NeverDrifts;
    ReopenedExact(s.disk);
    ExactFrom(Next(s, Restart), steps, t);
  }
}
