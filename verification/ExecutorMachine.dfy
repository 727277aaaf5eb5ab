/**
 The executor as a machine of atomic steps: every critical section under the
 server's mutex, every file operation, every answer from Core, and a crash
 between any two of them. Crashes clear the process's memory and keep the disk.
 */
module ExecutorMachine {
  import opened ExecutorTypes

  /** What a handler goroutine does next. */
  datatype Stage =
    | Executing
    | Marking
    | Unlisting
    | Checking(record: Record)
    | Saving(record: Record)
    | Clearing(record: Record)
    | Settling(record: Record, persisted: bool)
    | Reporting(record: Record)

  datatype Thread = Thread(request: Request, stage: Stage)

  /** A Cancel call that will delete the execution record, once the external canceller agreed. */
  datatype Call = Call(run: RunId, external: bool)

  datatype DeliveryStage = Asking | DroppingExecution | DroppingCompletion

  datatype Delivery = Delivery(run: RunId, stage: DeliveryStage)

  datatype Mode = Down | Recovering | Serving

  /** History: dispatches acknowledged, and the reasons why a run may have no record. */
  datatype Past = Past(acked: set<RunId>, cancelled: set<RunId>, awaiting: set<RunId>, accepted: set<RunId>)

  /**
   A recovery: the listed runs it has still to deal with, those it has resumed, when it
   listed them, and whether an error has ended it, after which the process can only stop.
   */
  datatype Recovery = Recovery(todo: set<RunId>, resumed: set<RunId>, since: Time, aborted: bool)

  datatype Flags = Flags(mode: Mode, draining: bool, failed: bool)

  datatype State = State(
    disk: Disk,
    mem: Memory,
    past: Past,
    flags: Flags,
    recovery: Recovery,
    slots: map<Pool, nat>,
    threads: map<nat, Thread>,
    calls: map<nat, Call>,
    deliveries: map<nat, Delivery>,
    clock: Time,
    unused: nat,
    capacity: map<Pool, nat>)

  function Used(slots: map<Pool, nat>, p: Pool): nat {
    if p in slots then slots[p] else 0
  }

  predicate Full(s: State, q: Request) {
    exists p :: p in PoolOf(q) && Used(s.slots, p) >= Used(s.capacity, p)
  }

  function Acquire(slots: map<Pool, nat>, pools: set<Pool>): map<Pool, nat> {
    slots + map p | p in pools :: Used(slots, p) + 1
  }

  function Release(slots: map<Pool, nat>, pools: set<Pool>): map<Pool, nat> {
    slots + map p | p in pools :: Less(Used(slots, p))
  }

  datatype Outcome = Finished(succeeded: bool) | AwaitsCallback

  datatype Step =
    | Tick(to: Time)
    | Dispatch(request: Request, recovered: bool, known: bool, fault: Fault)
    | CrashInDispatch(request: Request, recovered: bool, fault: Fault)
    | Return(t: nat, outcome: Outcome)
    | Mark(t: nat)
    | Unlist(t: nat, fault: Fault)
    | Check(t: nat)
    | SaveRecord(t: nat, fault: Fault)
    | Clear(t: nat, fault: Fault)
    | SettleRun(t: nat)
    | Report(t: nat, ok: bool)
    | CancelBegin(run: RunId, complete: bool, canceller: bool, external: bool)
    | CancelExternal(k: nat, ok: bool)
    | CancelErase(k: nat, fault: Fault)
    | DeliverBegin(run: RunId)
    | DeliverAsk(k: nat, ok: bool)
    | DeliverExecution(k: nat, fault: Fault)
    | DeliverCompletion(k: nat, fault: Fault)
    | Drain
    | Crash
    | Restart
    | RecoverSave(run: RunId, fault: Fault)
    | RecoverClear(run: RunId, fault: Fault)
    | RecoverDone

  predicate Expired(q: Request, now: Time) {
    q.deadline != 0 && q.deadline <= now
  }

  /** May a recovery turn this record into a failed completion? */
  predicate Interrupted(q: Request, now: Time) {
    !Recoverable(q) || Expired(q, now)
  }

  /** The recovery that is under way has this listed run still to deal with. */
  predicate Handles(s: State, run: RunId) {
    s.flags.mode.Recovering? && !s.recovery.aborted && run in s.recovery.todo
  }

  /**
   Requests come from Core while serving, and from the directory while recovering; what had
   expired when the recovery began is not resumed.
   */
  predicate MayDispatch(s: State, q: Request, recovered: bool) {
    if recovered then
      Handles(s, q.run) && q.run in s.disk.executions && s.disk.executions[q.run] == q
      && q.run !in s.disk.completions && !Interrupted(q, s.recovery.since)
    else s.flags.mode.Serving?
  }

  /** How Server.dispatch ends. */
  datatype Verdict =
    | Refused
    | Duplicate
    | Busy
    | Unsaved(disk: Disk)
    | Taken(disk: Disk, request: Request)

  /** Its checks in order, under the server's mutex, up to the acknowledgement. */
  function Judge(s: State, q: Request, recovered: bool, known: bool, fault: Fault): Verdict {
    if !ValidRequest(q) || !known || s.flags.draining || s.flags.failed then Refused
    else if q.run in Prune(s.mem, s.clock).runs then Duplicate
    else if Full(s, q) then Busy
    else
      var dated := WithDeadline(q, recovered, s.clock);
      var (disk, ok) := SaveExecution(s.disk, dated, fault);
      if ok then Taken(disk, dated) else Unsaved(disk)
  }

  /** The dispatch got as far as writing its record. */
  predicate Publishes(verdict: Verdict) {
    verdict.Unsaved? || verdict.Taken?
  }

  predicate Enabled(s: State, step: Step) {
    match step
    case Tick(to) => s.clock <= to
    case Dispatch(q, recovered, _, _) => MayDispatch(s, q, recovered)
    case CrashInDispatch(q, recovered, fault) =>
      MayDispatch(s, q, recovered) && Publishes(Judge(s, q, recovered, true, fault))
    case Return(t, _) => t in s.threads && s.threads[t].stage.Executing?
    case Mark(t) => t in s.threads && s.threads[t].stage.Marking?
    case Unlist(t, _) => t in s.threads && s.threads[t].stage.Unlisting?
    case Check(t) => t in s.threads && s.threads[t].stage.Checking?
    case SaveRecord(t, _) => t in s.threads && s.threads[t].stage.Saving?
    case Clear(t, _) => t in s.threads && s.threads[t].stage.Clearing?
    case SettleRun(t) => t in s.threads && s.threads[t].stage.Settling?
    case Report(t, _) => t in s.threads && s.threads[t].stage.Reporting?
    case CancelBegin(_, _, _, _) => s.flags.mode.Serving?
    case CancelExternal(k, _) => k in s.calls && s.calls[k].external
    case CancelErase(k, _) => k in s.calls && !s.calls[k].external
    case DeliverBegin(run) => s.flags.mode.Serving? && run in s.disk.completions
    case DeliverAsk(k, _) => k in s.deliveries && s.deliveries[k].stage.Asking?
    case DeliverExecution(k, _) => k in s.deliveries && s.deliveries[k].stage.DroppingExecution?
    case DeliverCompletion(k, _) => k in s.deliveries && s.deliveries[k].stage.DroppingCompletion?
    case Drain => s.flags.mode.Serving?
    case Crash => true
    case Restart => s.flags.mode.Down? && Opens(s.disk)
    case RecoverSave(run, _) =>
      Handles(s, run) && run in s.disk.executions && run !in s.disk.completions
        && Interrupted(s.disk.executions[run], s.clock)
    case RecoverClear(run, _) => Handles(s, run) && run in s.disk.completions
    case RecoverDone => s.flags.mode.Recovering? && !s.recovery.aborted && s.recovery.todo == {}
  }

  /** Does this Cancel call go on to delete the execution record? */
  predicate Erases(s: State, run: RunId, complete: bool, canceller: bool, external: bool) {
    if !complete then run in s.mem.runs && (s.mem.runs[run].state.Running? || s.mem.runs[run].state.Cancelled?)
    else canceller || !external
  }

  // ------------------------------------------- what a step does to each part of the state

  /** The state directory. */
  function DiskAfter(s: State, step: Step): Disk
    requires Enabled(s, step)
  {
    match step
    case Dispatch(q, recovered, known, fault) =>
      (match Judge(s, q, recovered, known, fault)
       case Unsaved(disk) => disk
       case Taken(disk, _) => disk
       case _ => s.disk)
    case CrashInDispatch(q, recovered, fault) => SaveExecution(s.disk, WithDeadline(q, recovered, s.clock), fault).0
    case Unlist(t, fault) => DeleteExecution(s.disk, s.threads[t].request.run, fault).0
    case SaveRecord(t, fault) => Save(s.disk, s.threads[t].stage.record, fault).0
    case Clear(t, fault) => DeleteExecution(s.disk, s.threads[t].request.run, fault).0
    case CancelErase(k, fault) => DeleteExecution(s.disk, s.calls[k].run, fault).0
    case DeliverExecution(k, fault) =>
      if fault.BeforeChange? then s.disk else RemoveExecution(s.disk, s.deliveries[k].run)
    case DeliverCompletion(k, fault) =>
      if fault.BeforeChange? then s.disk else RemoveCompletion(s.disk, s.deliveries[k].run)
    case Restart => Reopened(s.disk)
    case RecoverSave(run, fault) => Save(s.disk, FailedRecord(s.disk.executions[run]), fault).0
    case RecoverClear(run, fault) => DeleteExecution(s.disk, run, fault).0
    case _ => s.disk
  }

  /** The entries in memory; a crash clears them. */
  function MemAfter(s: State, step: Step): Memory
    requires Enabled(s, step)
  {
    match step
    case Dispatch(q, recovered, known, fault) =>
      (match Judge(s, q, recovered, known, fault)
       case Refused => s.mem
       case Taken(_, _) => Prune(s.mem, s.clock).(runs := Prune(s.mem, s.clock).runs[q.run := Entry(Running, None)])
       case _ => Prune(s.mem, s.clock))
    case Mark(t) => MarkWaiting(s.mem, s.threads[t].request.run)
    case SettleRun(t) =>
      Settle(s.mem, s.threads[t].request.run, EndState(s.threads[t].stage.record.succeeded), s.clock)
    case CancelBegin(run, _, _, _) => Settle(s.mem, run, Cancelled, s.clock)
    case Crash => s.mem.(runs := map[], completed := [])
    case CrashInDispatch(_, _, _) => s.mem.(runs := map[], completed := [])
    case _ => s.mem
  }

  function PastAfter(s: State, step: Step): Past
    requires Enabled(s, step)
  {
    match step
    case Dispatch(q, recovered, known, fault) =>
      var verdict := Judge(s, q, recovered, known, fault);
      if verdict.Duplicate? || verdict.Taken? then s.past.(acked := s.past.acked + {q.run}) else s.past
    case Return(t, outcome) =>
      if outcome.AwaitsCallback? then s.past.(awaiting := s.past.awaiting + {s.threads[t].request.run}) else s.past
    case Report(t, ok) => if ok then s.past.(accepted := s.past.accepted + {s.threads[t].request.run}) else s.past
    case CancelErase(k, _) => s.past.(cancelled := s.past.cancelled + {s.calls[k].run})
    case DeliverAsk(k, ok) => if ok then s.past.(accepted := s.past.accepted + {s.deliveries[k].run}) else s.past
    case _ => s.past
  }

  function FlagsAfter(s: State, step: Step): Flags
    requires Enabled(s, step)
  {
    var f := s.flags;
    match step
    case Dispatch(q, recovered, known, fault) =>
      if Judge(s, q, recovered, known, fault).Unsaved? then f.(failed := true) else f
    case Clear(t, fault) => f.(failed := f.failed || !DeleteExecution(s.disk, s.threads[t].request.run, fault).1)
    case SettleRun(t) => f.(failed := f.failed || !s.threads[t].stage.persisted)
    case CancelErase(k, fault) => f.(failed := f.failed || !DeleteExecution(s.disk, s.calls[k].run, fault).1)
    case Drain => f.(draining := true)
    case Crash => Flags(Down, false, false)
    case CrashInDispatch(_, _, _) => Flags(Down, false, false)
    case Restart => f.(mode := Recovering)
    case RecoverDone => f.(mode := Serving)
    case _ => f
  }

  /** A recovery lists the execution records, and deals with them one by one until something fails. */
  function RecoveryAfter(s: State, step: Step): Recovery
    requires Enabled(s, step)
  {
    var r := s.recovery;
    match step
    case Dispatch(q, recovered, known, fault) =>
      if !recovered then r
      else (match Judge(s, q, recovered, known, fault)
            case Taken(_, _) => r.(todo := r.todo - {q.run}, resumed := r.resumed + {q.run})
            case Duplicate => r.(todo := r.todo - {q.run})
            case _ => r.(aborted := true))
    case RecoverSave(run, fault) =>
      r.(aborted := !Save(s.disk, FailedRecord(s.disk.executions[run]), fault).1)
    case RecoverClear(run, fault) =>
      if DeleteExecution(s.disk, run, fault).1 then r.(todo := r.todo - {run}) else r.(aborted := true)
    case Restart => Recovery(s.disk.executions.Keys, {}, s.clock, false)
    case _ => r
  }

  /** Slots are taken by an accepted dispatch and freed when its handler returns. */
  function SlotsAfter(s: State, step: Step): map<Pool, nat>
    requires Enabled(s, step)
  {
    match step
    case Dispatch(q, recovered, known, fault) =>
      if Judge(s, q, recovered, known, fault).Taken? then Acquire(s.slots, PoolOf(q)) else s.slots
    case Return(t, _) => Release(s.slots, PoolOf(s.threads[t].request))
    case Crash => map[]
    case CrashInDispatch(_, _, _) => map[]
    case _ => s.slots
  }

  /** The stage a handler goroutine moves to, if it goes on. */
  function StageAfter(s: State, step: Step, t: nat): Option<Stage>
    requires Enabled(s, step) && t in s.threads
  {
    var thread := s.threads[t];
    match step
    case Return(_, outcome) =>
      Some(if outcome.AwaitsCallback? then Marking
           else Checking(Record(thread.request.run, thread.request.token, outcome.succeeded)))
    case Mark(_) => Some(Unlisting)
    case Check(_) =>
      if RunningIn(s.mem, thread.request.run) && thread.stage.Checking? then Some(Saving(thread.stage.record)) else None
    case SaveRecord(_, fault) =>
      if !thread.stage.Saving? then None
      else if Save(s.disk, thread.stage.record, fault).1 then Some(Clearing(thread.stage.record))
      else Some(Settling(thread.stage.record, false))
    case Clear(_, _) => if thread.stage.Clearing? then Some(Settling(thread.stage.record, true)) else None
    case SettleRun(_) =>
      if thread.stage.Settling? && RunningIn(s.mem, thread.request.run) && !thread.stage.persisted
      then Some(Reporting(thread.stage.record)) else None
    case _ => None
  }

  /** Steps of one handler goroutine. */
  predicate Moves(step: Step) {
    || step.Return? || step.Mark? || step.Unlist? || step.Check? || step.SaveRecord? || step.Clear?
    || step.SettleRun? || step.Report?
  }

  function ThreadsAfter(s: State, step: Step): map<nat, Thread>
    requires Enabled(s, step)
  {
    if step.Dispatch? then
      var verdict := Judge(s, step.request, step.recovered, step.known, step.fault);
      if verdict.Taken? then s.threads[s.unused := Thread(verdict.request, Executing)] else s.threads
    else if step.Crash? || step.CrashInDispatch? then map[]
    else if Moves(step) then
      var stage := StageAfter(s, step, step.t);
      if stage.Some? then s.threads[step.t := s.threads[step.t].(stage := stage.value)] else s.threads - {step.t}
    else s.threads
  }

  function CallsAfter(s: State, step: Step): map<nat, Call>
    requires Enabled(s, step)
  {
    match step
    case CancelBegin(run, complete, canceller, external) =>
      if Erases(s, run, complete, canceller, external)
      then s.calls[s.unused := Call(run, complete && canceller)]
      else s.calls
    case CancelExternal(k, ok) => if ok then s.calls[k := s.calls[k].(external := false)] else s.calls - {k}
    case CancelErase(k, _) => s.calls - {k}
    case Crash => map[]
    case CrashInDispatch(_, _, _) => map[]
    case _ => s.calls
  }

  /** Deliver a completion: ask Core, then drop the execution record, then the completion. */
  function DeliveriesAfter(s: State, step: Step): map<nat, Delivery>
    requires Enabled(s, step)
  {
    match step
    case DeliverBegin(run) => s.deliveries[s.unused := Delivery(run, Asking)]
    case DeliverAsk(k, ok) =>
      if ok then s.deliveries[k := s.deliveries[k].(stage := DroppingExecution)] else s.deliveries - {k}
    case DeliverExecution(k, fault) =>
      if fault.BeforeChange? then s.deliveries - {k}
      else s.deliveries[k := s.deliveries[k].(stage := DroppingCompletion)]
    case DeliverCompletion(k, _) => s.deliveries - {k}
    case Crash => map[]
    case CrashInDispatch(_, _, _) => map[]
    case _ => s.deliveries
  }

  function Next(s: State, step: Step): State
    requires Enabled(s, step)
  {
    State(DiskAfter(s, step), MemAfter(s, step), PastAfter(s, step), FlagsAfter(s, step), RecoveryAfter(s, step),
          SlotsAfter(s, step), ThreadsAfter(s, step), CallsAfter(s, step), DeliveriesAfter(s, step),
          if step.Tick? then step.to else s.clock, s.unused + 1, s.capacity)
  }

  /** A process that was never started, on an empty directory. */
  ghost predicate Fresh(s: State) {
    && s.disk.executions == map[] && s.disk.completions == map[] && s.disk.pending == 0 && s.disk.counted == 0
    && s.mem.runs == map[] && s.mem.completed == [] && s.past == Past({}, {}, {}, {})
    && s.flags.mode.Down? && s.slots == map[] && s.threads == map[] && s.calls == map[] && s.deliveries == map[]
  }

  /** The sequence of steps leads from s to t. */
  ghost predicate Leads(s: State, steps: seq<Step>, t: State)
    decreases |steps|
  {
    if steps == [] then s == t
    else Enabled(s, steps[0]) && Leads(Next(s, steps[0]), steps[1..], t)
  }
}
