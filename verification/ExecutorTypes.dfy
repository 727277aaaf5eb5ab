/**
 The executor's state: the directory of accepted executions and completions that
 survives a crash, and the memory of the process that does not.
 */
module ExecutorTypes {

  type RunId = nat

  /** Milliseconds. */
  type Time = int

  datatype Language = Script | Docker | Kubernetes

  datatype Pool = ScriptPool | HttpPool | DockerPool

  /** A dispatch request; `complete` says that none of its required strings is empty. */
  datatype Request = Request(
    run: RunId,
    complete: bool,
    handler: string,
    token: string,
    timeout: int,
    deadline: Time,
    language: Language,
    http: bool)

  datatype Record = Record(run: RunId, token: string, succeeded: bool)

  /** The state directory: `.execution.pb` and `.json` files by run, and the store's two counters. */
  datatype Disk = Disk(
    executions: map<RunId, Request>,
    completions: map<RunId, Record>,
    pending: nat,
    counted: nat,
    max: nat,
    maxExecutions: nat)

  /** Where a file operation stops: not at all, before the rename or removal, or after it. */
  datatype Fault = NoFault | BeforeChange | AfterChange

  // ------------------------------------------------------------- the state directory

  /** Save: the counter moves with the rename, so a failed directory sync leaves both. */
  function Save(d: Disk, record: Record, fault: Fault): (Disk, bool) {
    if d.pending >= d.max || record.run in d.completions || fault.BeforeChange? then (d, false)
    else (d.(completions := d.completions[record.run := record], pending := d.pending + 1), fault.NoFault?)
  }

  /** SaveExecution: the same request again is fine, and one without a deadline may gain it. */
  function SaveExecution(d: Disk, q: Request, fault: Fault): (Disk, bool) {
    if q.run in d.executions then
      var existing := d.executions[q.run];
      if existing == q then (d, !fault.BeforeChange?)
      else if existing.deadline == 0 && existing == q.(deadline := 0) && !fault.BeforeChange?
      then (d.(executions := d.executions[q.run := q]), fault.NoFault?)
      else (d, false)
    else if d.counted >= d.maxExecutions || fault.BeforeChange? then (d, false)
    else if fault.AfterChange? then (d.(executions := d.executions[q.run := q]), false)
    else (d.(executions := d.executions[q.run := q], counted := d.counted + 1), true)
  }

  function Less(n: nat): nat {
    if n > 0 then n - 1 else 0
  }

  function RemoveExecution(d: Disk, run: RunId): Disk {
    if run in d.executions then d.(executions := d.executions - {run}, counted := Less(d.counted)) else d
  }

  function RemoveCompletion(d: Disk, run: RunId): Disk {
    if run in d.completions then d.(completions := d.completions - {run}, pending := Less(d.pending)) else d
  }

  function DeleteExecution(d: Disk, run: RunId, fault: Fault): (Disk, bool) {
    if fault.BeforeChange? then (d, false) else (RemoveExecution(d, run), fault.NoFault?)
  }

  /** NewFileCompletionStore refuses a directory with more files than it is configured for. */
  predicate Opens(d: Disk) {
    |d.completions| <= d.max && |d.executions| <= d.maxExecutions
  }

  /** Otherwise it counts them. */
  function Reopened(d: Disk): Disk {
    d.(pending := |d.completions|, counted := |d.executions|)
  }

  /** What recovery writes for a run that cannot go on. */
  function FailedRecord(q: Request): Record {
    Record(q.run, q.token, false)
  }

  /** Files are named after the run inside them. */
  ghost predicate FilesOk(d: Disk) {
    && (forall run :: run in d.executions ==> d.executions[run].run == run)
    && (forall run :: run in d.completions ==> d.completions[run].run == run)
  }

  // --------------------------------------------------------------------- requests

  predicate Recoverable(q: Request) {
    q.language.Docker? || q.language.Kubernetes?
  }

  /** slotsFor: Kubernetes work occupies no slot. */
  function PoolOf(q: Request): set<Pool> {
    if q.language.Kubernetes? then {}
    else if q.language.Docker? then {DockerPool}
    else if q.http || q.handler == "__http__" then {HttpPool}
    else {ScriptPool}
  }

  predicate ValidRequest(q: Request) {
    q.complete && 1 <= q.timeout <= 86400
  }

  /** The deadline is fixed on the first dispatch and kept by a recovered one. */
  function WithDeadline(q: Request, recovered: bool, now: Time): Request {
    if !recovered || q.deadline == 0 then q.(deadline := now + q.timeout * 1000) else q
  }

  // ----------------------------------------------------------------------- memory

  datatype EntryState = Running | WaitingCallback | Succeeded | Failed | Cancelled

  predicate Terminal(st: EntryState) {
    st.Succeeded? || st.Failed? || st.Cancelled?
  }

  /** The state a handler's outcome leaves behind. */
  function EndState(succeeded: bool): EntryState {
    if succeeded then Succeeded else Failed
  }

  datatype Option<+T> = None | Some(value: T)

  datatype Entry = Entry(state: EntryState, finishedAt: Option<Time>)

  datatype Item = Item(run: RunId, finishedAt: Time)

  /** The runs the process knows, and its completed ones in the order they ended. */
  datatype Memory = Memory(runs: map<RunId, Entry>, completed: seq<Item>, limit: int, retention: int)

  predicate Overdue(mem: Memory, now: Time)
    requires mem.completed != []
  {
    || (mem.limit >= 0 && |mem.completed| > mem.limit)
    || (mem.retention > 0 && now - mem.completed[0].finishedAt >= mem.retention)
  }

  function DropOldest(mem: Memory): Memory
    requires mem.completed != []
  {
    var oldest := mem.completed[0];
    var matches := oldest.run in mem.runs && !mem.runs[oldest.run].state.Running?
                   && mem.runs[oldest.run].finishedAt == Some(oldest.finishedAt);
    mem.(runs := if matches then mem.runs - {oldest.run} else mem.runs, completed := mem.completed[1..])
  }

  /** pruneExecutionHistoryLocked. */
  function Prune(mem: Memory, now: Time): Memory
    decreases |mem.completed|
  {
    if mem.completed != [] && Overdue(mem, now) then Prune(DropOldest(mem), now) else mem
  }

  predicate RunningIn(mem: Memory, run: RunId) {
    run in mem.runs && mem.runs[run].state.Running?
  }

  /** The terminal transition finish and Cancel share: only a running entry takes it. */
  function Settle(mem: Memory, run: RunId, st: EntryState, now: Time): Memory {
    if RunningIn(mem, run)
    then Prune(mem.(runs := mem.runs[run := Entry(st, Some(now))], completed := mem.completed + [Item(run, now)]), now)
    else mem
  }

  /** A handler that awaits a callback leaves its entry without a finishing time. */
  function MarkWaiting(mem: Memory, run: RunId): Memory {
    if RunningIn(mem, run) then mem.(runs := mem.runs[run := Entry(WaitingCallback, None)]) else mem
  }
}
