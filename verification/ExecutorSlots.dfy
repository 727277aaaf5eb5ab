/** Concurrency slots count the handlers that have not returned, and the history stays in order. */
module ExecutorSlots {
  import opened ExecutorTypes
  import opened ExecutorHistory
  import opened ExecutorMachine

  /** The handlers of a pool that have not returned. */
  ghost function HandlersIn(threads: map<nat, Thread>, p: Pool): set<nat> {
    set t | t in threads && threads[t].stage.Executing? && p in PoolOf(threads[t].request)
  }

  ghost predicate SlotOk(s: State, p: Pool) {
    Used(s.slots, p) == |HandlersIn(s.threads, p)| <= Used(s.capacity, p)
  }

  ghost predicate SlotsOk(s: State) {
    && (forall p :: SlotOk(s, p))
    && (forall t :: t in s.threads ==> t < s.unused)
  }

  lemma AcquireUsed(slots: map<Pool, nat>, pools: set<Pool>, p: Pool)
    ensures Used(Acquire(slots, pools), p) == Used(slots, p) + (if p in pools then 1 else 0)
    ensures Used(Release(slots, pools), p) == (if p in pools then Less(Used(slots, p)) else Used(slots, p))
  {
  }

  lemma TakenFits(s: State, q: Request, recovered: bool, known: bool, fault: Fault, p: Pool)
    requires Judge(s, q, recovered, known, fault).Taken?
    ensures PoolOf(Judge(s, q, recovered, known, fault).request) == PoolOf(q)
    ensures p in PoolOf(q) ==> Used(s.slots, p) < Used(s.capacity, p)
  {
    hide Prune, SaveExecution;
  }

  lemma HandlerAdded(threads: map<nat, Thread>, t: nat, q: Request, p: Pool)
    requires t !in threads
    ensures |HandlersIn(threads[t := Thread(q, Executing)], p)|
            == |HandlersIn(threads, p)| + (if p in PoolOf(q) then 1 else 0)
  {
    hide PoolOf;
    var before, after := HandlersIn(threads, p), HandlersIn(threads[t := Thread(q, Executing)], p);
    assert after == if p in PoolOf(q) then before + {t} else before;
  }

  lemma TakeSlot(s: State, step: Step, p: Pool)
    requires Enabled(s, step) && step.Dispatch? && SlotsOk(s)
    ensures SlotOk(Next(s, step), p)
  {
    hide DiskAfter, MemAfter, PastAfter, FlagsAfter, RecoveryAfter, CallsAfter, DeliveriesAfter, Judge, Acquire;
    hide PoolOf, HandlersIn;
    assert SlotOk(s, p);
    var verdict := Judge(s, step.request, step.recovered, step.known, step.fault);
    if verdict.Taken? {
      TakenFits(s, step.request, step.recovered, step.known, step.fault, p);
      AcquireUsed(s.slots, PoolOf(step.request), p);
      HandlerAdded(s.threads, s.unused, verdict.request, p);
    }
  }

  lemma FreeSlot(s: State, step: Step, p: Pool)
    requires Enabled(s, step) && step.Return? && SlotsOk(s)
    ensures SlotOk(Next(s, step), p)
  {
    hide DiskAfter, MemAfter, PastAfter, FlagsAfter, RecoveryAfter, CallsAfter, DeliveriesAfter, Release, PoolOf;
    assert SlotOk(s, p);
    var q := s.threads[step.t].request;
    AcquireUsed(s.slots, PoolOf(q), p);
    var before, after := HandlersIn(s.threads, p), HandlersIn(ThreadsAfter(s, step), p);
    assert p in PoolOf(q) ==> step.t in before;
    assert after == before - {step.t};
    if p !in PoolOf(q) { assert step.t !in before; }
  }

  /** Only an accepted dispatch, a return and a crash move slots. */
  lemma SameHandlers(s: State, step: Step, p: Pool)
    requires Enabled(s, step) && !step.Dispatch? && !step.Return? && !step.Crash? && !step.CrashInDispatch?
    ensures SlotsAfter(s, step) == s.slots && HandlersIn(ThreadsAfter(s, step), p) == HandlersIn(s.threads, p)
  {
    hide PoolOf, RunningIn, Save;
    var after := ThreadsAfter(s, step);
    if Moves(step) {
      assert !s.threads[step.t].stage.Executing?;
      assert step.t in after ==> !after[step.t].stage.Executing?;
    }
  }

  lemma StepSlot(s: State, step: Step, p: Pool)
    requires Enabled(s, step) && SlotsOk(s)
    ensures SlotOk(Next(s, step), p)
  {
    hide DiskAfter, MemAfter, PastAfter, FlagsAfter, RecoveryAfter, CallsAfter, DeliveriesAfter, PoolOf, StageAfter;
    hide Judge;
    if step.Dispatch? {
      TakeSlot(s, step, p);
    } else if step.Return? {
      FreeSlot(s, step, p);
    } else if step.Crash? || step.CrashInDispatch? {
      assert HandlersIn(ThreadsAfter(s, step), p) == {};
    } else {
      SameHandlers(s, step, p);
      assert SlotOk(s, p);
    }
  }

  lemma StepSlots(s: State, step: Step)
    requires Enabled(s, step) && SlotsOk(s)
    ensures SlotsOk(Next(s, step))
  {
    forall p ensures SlotOk(Next(s, step), p) {
      StepSlot(s, step, p);
    }
    StepIds(s, step);
  }

  lemma StepIds(s: State, step: Step)
    requires Enabled(s, step) && forall t :: t in s.threads ==> t < s.unused
    ensures forall t :: t in ThreadsAfter(s, step) ==> t < s.unused + 1
  {
    hide StageAfter, Judge;
  }

  // --------------------------------------------------------------------- history

  ghost predicate MemoryOk(mem: Memory, clock: Time) {
    HistoryOk(mem) && Chronological(mem.completed) && NotAfter(mem.completed, clock)
  }

  lemma PruneOk(mem: Memory, now: Time, clock: Time)
    requires MemoryOk(mem, clock)
    ensures MemoryOk(Prune(mem, now), clock)
  {
    var k := PruneKeepsTheNewest(mem, now);
  }

  lemma EntryAdded(mem: Memory, run: RunId, clock: Time)
    requires MemoryOk(mem, clock) && run !in mem.runs
    ensures MemoryOk(mem.(runs := mem.runs[run := Entry(Running, None)]), clock)
  {
    var next := mem.(runs := mem.runs[run := Entry(Running, None)]);
    forall i | 0 <= i < |next.completed| ensures ItemOk(next, i) { assert ItemOk(mem, i); }
    forall r | r in next.runs && Terminal(next.runs[r].state) ensures Listed(next, r) { assert Listed(mem, r); }
  }

  lemma StepMemory(s: State, step: Step)
    requires Enabled(s, step) && MemoryOk(s.mem, s.clock)
    ensures MemoryOk(MemAfter(s, step), s.clock)
  {
    hide MemoryOk, Prune, Settle, MarkWaiting, SaveExecution;
    match step
    case Dispatch(q, recovered, known, fault) =>
      PruneOk(s.mem, s.clock, s.clock);
      if Judge(s, q, recovered, known, fault).Taken? { EntryAdded(Prune(s.mem, s.clock), q.run, s.clock); }
    case Mark(t) => MarkKeeps(s.mem, s.threads[t].request.run, s.clock);
    case SettleRun(t) =>
      SettleKeeps(s.mem, s.threads[t].request.run, EndState(s.threads[t].stage.record.succeeded), s.clock);
    case CancelBegin(run, _, _, _) => SettleKeeps(s.mem, run, Cancelled, s.clock);
    case Crash => ClearedOk(s.mem, s.clock);
    case CrashInDispatch(_, _, _) => ClearedOk(s.mem, s.clock);
    case _ =>
  }

  lemma MarkKeeps(mem: Memory, run: RunId, clock: Time)
    requires MemoryOk(mem, clock)
    ensures MemoryOk(MarkWaiting(mem, run), clock)
  {
    MarkOk(mem, run);
  }

  lemma SettleKeeps(mem: Memory, run: RunId, st: EntryState, clock: Time)
    requires MemoryOk(mem, clock) && Terminal(st)
    ensures MemoryOk(Settle(mem, run, st, clock), clock)
  {
    SettleOk(mem, run, st, clock);
  }

  lemma ClearedOk(mem: Memory, clock: Time)
    ensures MemoryOk(mem.(runs := map[], completed := []), clock)
  {
  }

  ghost predicate Orderly(s: State) {
    SlotsOk(s) && MemoryOk(s.mem, s.clock)
  }

  lemma LaterMemory(mem: Memory, clock: Time, later: Time)
    requires MemoryOk(mem, clock) && clock <= later
    ensures MemoryOk(mem, later)
  {
  }

  lemma {:induction false} RunOrderly(s: State, steps: seq<Step>, t: State)
    requires Orderly(s) && Leads(s, steps, t)
    ensures Orderly(t)
    decreases |steps|
  {
    hide SlotsOk, MemoryOk, DiskAfter, MemAfter, PastAfter, FlagsAfter, RecoveryAfter, SlotsAfter, ThreadsAfter;
    hide CallsAfter;
    hide DeliveriesAfter;
    if steps != [] {
      StepSlots(s, steps[0]);
      StepMemory(s, steps[0]);
      LaterMemory(MemAfter(s, steps[0]), s.clock, Next(s, steps[0]).clock);
      RunOrderly(Next(s, steps[0]), steps[1..], t);
    }
  }

  lemma FreshOrderly(s: State)
    requires Fresh(s)
    ensures Orderly(s)
  {
    forall p ensures SlotOk(s, p) {
      assert HandlersIn(s.threads, p) == {};
    }
  }

  /** In every state of every run, a pool's occupied slots are its handlers not yet returned, within capacity. */
  lemma SlotsCountHandlers(s: State, steps: seq<Step>, t: State, p: Pool)
    requires Fresh(s) && Leads(s, steps, t)
    ensures Used(t.slots, p) == |HandlersIn(t.threads, p)| <= Used(t.capacity, p)
  {
    hide Leads;
    FreshOrderly(s);
    RunOrderly(s, steps, t);
    assert SlotOk(t, p);
  }

  /** A server that drains, or whose directory has failed, takes on nothing more until it is started again. */
  lemma ClosedServersTakeNothing(s: State, step: Step)
    requires Enabled(s, step) && (s.flags.draining || s.flags.failed)
    ensures step.Dispatch? ==>
              Next(s, step).threads == s.threads && Next(s, step).past == s.past && Next(s, step).disk == s.disk
    ensures FlagsAfter(s, step).draining || FlagsAfter(s, step).failed || step.Crash? || step.CrashInDispatch?
  {
    hide Prune, SaveExecution, DeleteExecution;
  }

  // --------------------------------------------------- entries over whole runs

  lemma {:induction false} PruneLeaves(mem: Memory, now: Time, run: RunId)
    requires run in Prune(mem, now).runs
    ensures run in mem.runs && Prune(mem, now).runs[run] == mem.runs[run]
    decreases |mem.completed|
  {
    if mem.completed != [] && Overdue(mem, now) { PruneLeaves(DropOldest(mem), now, run); }
  }

  lemma SettleLeaves(mem: Memory, r: RunId, st: EntryState, now: Time, run: RunId)
    requires Terminal(st) && run in Settle(mem, r, st, now).runs
    ensures run in mem.runs
    ensures Settle(mem, r, st, now).runs[run] == mem.runs[run]
            || (RunningIn(mem, run) && Terminal(Settle(mem, r, st, now).runs[run].state))
  {
    hide Prune;
    if RunningIn(mem, r) {
      var ended := mem.(runs := mem.runs[r := Entry(st, Some(now))], completed := mem.completed + [Item(r, now)]);
      PruneLeaves(ended, now, run);
    }
  }

  predicate DispatchesRun(step: Step, run: RunId) {
    step.Dispatch? && step.request.run == run
  }

  /** But for a dispatch of its own run, a step makes no entry and changes none but a running one, which it ends. */
  lemma StepEntry(s: State, step: Step, run: RunId)
    requires Enabled(s, step) && !DispatchesRun(step, run) && run in MemAfter(s, step).runs
    ensures run in s.mem.runs
    ensures MemAfter(s, step).runs[run] == s.mem.runs[run]
            || (RunningIn(s.mem, run) && !RunningIn(MemAfter(s, step), run))
  {
    hide Prune, Settle, Judge;
    match step
    case Dispatch(q, recovered, known, fault) =>
      if run in Prune(s.mem, s.clock).runs { PruneLeaves(s.mem, s.clock, run); }
    case SettleRun(t) =>
      var st := EndState(s.threads[t].stage.record.succeeded);
      SettleLeaves(s.mem, s.threads[t].request.run, st, s.clock, run);
    case CancelBegin(r, _, _, _) => SettleLeaves(s.mem, r, Cancelled, s.clock, run);
    case _ =>
  }

  /** How often the run's entry leaves `running`. */
  ghost function Departures(s: State, steps: seq<Step>, run: RunId): nat
    decreases |steps|
  {
    if steps == [] || !Enabled(s, steps[0]) then 0
    else
      (if RunningIn(s.mem, run) && !RunningIn(MemAfter(s, steps[0]), run) then 1 else 0)
      + Departures(Next(s, steps[0]), steps[1..], run)
  }

  /**
   Between two dispatches of a run its entry leaves `running` at most once, by whichever of
   the handler, a cancellation and a crash comes first; from then on it stays as it is until
   it is forgotten, and does not come back.
   */
  lemma {:induction false} EntriesEndOnce(s: State, steps: seq<Step>, t: State, run: RunId)
    requires Leads(s, steps, t) && forall i :: 0 <= i < |steps| ==> !DispatchesRun(steps[i], run)
    ensures Departures(s, steps, run) <= if RunningIn(s.mem, run) then 1 else 0
    ensures RunningIn(t.mem, run) ==> RunningIn(s.mem, run) && Departures(s, steps, run) == 0
    ensures run in t.mem.runs ==>
              run in s.mem.runs && (t.mem.runs[run] == s.mem.runs[run] || RunningIn(s.mem, run))
    decreases |steps|
  {
    hide Enabled, DiskAfter, MemAfter, PastAfter, FlagsAfter, RecoveryAfter, SlotsAfter, ThreadsAfter, CallsAfter;
    hide DeliveriesAfter;
    if steps != [] {
      if run in MemAfter(s, steps[0]).runs { StepEntry(s, steps[0], run); }
      EntriesEndOnce(Next(s, steps[0]), steps[1..], t, run);
    }
  }

  /** The step starts a handler for the run. */
  predicate Starts(s: State, step: Step, run: RunId) {
    DispatchesRun(step, run) && Judge(s, step.request, step.recovered, step.known, step.fault).Taken?
  }

  /** The step drops the run's entry, be it that it makes a new one right away. */
  predicate Forgets(s: State, step: Step, run: RunId)
    requires Enabled(s, step)
  {
    run in s.mem.runs && (run !in MemAfter(s, step).runs || Starts(s, step, run))
  }

  ghost function TimesStarted(s: State, steps: seq<Step>, run: RunId): nat
    decreases |steps|
  {
    if steps == [] || !Enabled(s, steps[0]) then 0
    else (if Starts(s, steps[0], run) then 1 else 0) + TimesStarted(Next(s, steps[0]), steps[1..], run)
  }

  ghost function TimesForgotten(s: State, steps: seq<Step>, run: RunId): nat
    decreases |steps|
  {
    if steps == [] || !Enabled(s, steps[0]) then 0
    else (if Forgets(s, steps[0], run) then 1 else 0) + TimesForgotten(Next(s, steps[0]), steps[1..], run)
  }

  function Known(mem: Memory, run: RunId): nat {
    if run in mem.runs then 1 else 0
  }

  lemma StepBalance(s: State, step: Step, run: RunId)
    requires Enabled(s, step)
    ensures Known(s.mem, run) + (if Starts(s, step, run) then 1 else 0)
            == Known(MemAfter(s, step), run) + (if Forgets(s, step, run) then 1 else 0)
  {
    hide Prune, Judge, Enabled;
    if DispatchesRun(step, run) {
      DispatchEntry(s, step);
    } else if run in MemAfter(s, step).runs {
      StepEntry(s, step, run);
    }
  }

  lemma DispatchEntry(s: State, step: Step)
    requires Enabled(s, step) && step.Dispatch?
    ensures step.request.run in MemAfter(s, step).runs ==>
              step.request.run in s.mem.runs || Starts(s, step, step.request.run)
    ensures Starts(s, step, step.request.run) ==> step.request.run in MemAfter(s, step).runs
  {
    hide Prune, Judge;
    var run := step.request.run;
    if run in Prune(s.mem, s.clock).runs { PruneLeaves(s.mem, s.clock, run); }
  }

  lemma {:induction false} Balance(s: State, steps: seq<Step>, t: State, run: RunId)
    requires Leads(s, steps, t)
    ensures Known(s.mem, run) + TimesStarted(s, steps, run) == Known(t.mem, run) + TimesForgotten(s, steps, run)
    decreases |steps|
  {
    hide Enabled, DiskAfter, MemAfter, PastAfter, FlagsAfter, RecoveryAfter, SlotsAfter, ThreadsAfter, CallsAfter;
    hide DeliveriesAfter;
    hide Starts, Forgets;
    if steps != [] {
      StepBalance(s, steps[0], run);
      Balance(Next(s, steps[0]), steps[1..], t, run);
    }
  }

  /**
   However often a run is dispatched, a handler for it is started once, and once more for
   every time the process forgot the run.
   */
  lemma HandlersStartOncePerEntry(s: State, steps: seq<Step>, t: State, run: RunId)
    requires Fresh(s) && Leads(s, steps, t)
    ensures TimesStarted(s, steps, run) == TimesForgotten(s, steps, run) + (if run in t.mem.runs then 1 else 0)
  {
    hide Leads, TimesStarted, TimesForgotten;
    Balance(s, steps, t, run);
  }

  /** The step ends the run's entry. */
  predicate Settles(s: State, step: Step, run: RunId)
    requires Enabled(s, step)
  {
    (step.SettleRun? && s.threads[step.t].request.run == run) || (step.CancelBegin? && step.run == run)
  }

  /** And it forgets a run only in a crash, or when its entry has ended: a running or waiting one stays. */
  lemma OnlyEndedEntriesAreForgotten(s: State, before: seq<Step>, t: State, step: Step, run: RunId)
    requires Fresh(s) && Leads(s, before, t) && Enabled(t, step) && Forgets(t, step, run)
    ensures || step.Crash? || step.CrashInDispatch? || Terminal(t.mem.runs[run].state)
            || (RunningIn(t.mem, run) && Settles(t, step, run))
  {
    assert run in t.mem.runs;
    hide Enabled, Leads, Forgets, MemAfter, MemoryOk, SlotsOk;
    FreshOrderly(s);
    RunOrderly(s, before, t);
    if !step.Crash? && !step.CrashInDispatch? && !Terminal(t.mem.runs[run].state) {
      ForgottenEntry(t, step, run);
    }
  }

  lemma ForgottenEntry(s: State, step: Step, run: RunId)
    requires Enabled(s, step) && MemoryOk(s.mem, s.clock) && Forgets(s, step, run)
    requires !step.Crash? && !step.CrashInDispatch? && !Terminal(s.mem.runs[run].state)
    ensures RunningIn(s.mem, run) && Settles(s, step, run)
  {
    hide Settle, HistoryOk, Chronological, NotAfter, SaveExecution, Full, Prune;
    match step
    case Dispatch(q, recovered, known, fault) => var k := PruneKeepsTheNewest(s.mem, s.clock);
    case SettleRun(t) =>
      var st := EndState(s.threads[t].stage.record.succeeded);
      SettleOk(s.mem, s.threads[t].request.run, st, s.clock);
      UnsettledStays(s.mem, s.threads[t].request.run, st, s.clock);
    case CancelBegin(r, _, _, _) =>
      SettleOk(s.mem, r, Cancelled, s.clock);
      UnsettledStays(s.mem, r, Cancelled, s.clock);
    case _ =>
  }

  lemma UnsettledStays(mem: Memory, run: RunId, st: EntryState, now: Time)
    ensures !RunningIn(mem, run) ==> Settle(mem, run, st, now) == mem
  {
  }
}
