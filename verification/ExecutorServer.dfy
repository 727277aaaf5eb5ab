/** The state directory and the server as objects: dispatch, pruning and recovery as they run. */
module ExecutorServer {
  import opened ExecutorTypes
  import opened ExecutorRecovery
  import M = ExecutorMachine
  import R = RunTypes

  lemma DatedRequest(q: Request, recovered: bool, now: Time)
    ensures WithDeadline(q, recovered, now)
            == q.(deadline := if recovered && q.deadline != 0 then q.deadline else now + 1000 * q.timeout)
  {
  }

  lemma SavedRequest(d: Disk, q: Request, fault: Fault)
    ensures var (e, ok) := ExecutorTypes.SaveExecution(d, q, fault);
            ok ==> q.run in e.executions && e.executions[q.run] == q
  {
  }

  lemma SaveExecutionKeeps(d: Disk, q: Request, fault: Fault)
    requires Counted(d) && FilesOk(d)
    ensures Counted(ExecutorTypes.SaveExecution(d, q, fault).0) && FilesOk(ExecutorTypes.SaveExecution(d, q, fault).0)
  {
    SaveExecutionCounted(d, q, fault);
  }

  /** FileCompletionStore; a fault says where the file system stops an operation. */
  class FileStore {
    var executions: map<RunId, Request>
    var completions: map<RunId, Record>
    var pending: nat
    var counted: nat
    const max: nat
    const maxExecutions: nat

    function Value(): Disk
      reads this
    {
      Disk(executions, completions, pending, counted, max, maxExecutions)
    }

    ghost predicate Valid()
      reads this
    {
      Counted(Value()) && FilesOk(Value())
    }

    /** Opens a directory that is within the configured limits, and counts what is in it. */
    constructor (executions: map<RunId, Request>, completions: map<RunId, Record>, max: nat, maxExecutions: nat)
      requires Opens(Disk(executions, completions, 0, 0, max, maxExecutions))
      requires FilesOk(Disk(executions, completions, 0, 0, max, maxExecutions))
      ensures Valid() && Exact(Value()) && Value() == Reopened(Disk(executions, completions, 0, 0, max, maxExecutions))
    {
      this.executions, this.completions := executions, completions;
      this.max, this.maxExecutions := max, maxExecutions;
      pending, counted := |completions|, |executions|;
    }

    method Save(record: Record, fault: Fault) returns (ok: bool)
      requires Valid()
      modifies this
      ensures Valid() && (Value(), ok) == ExecutorTypes.Save(old(Value()), record, fault)
    {
      SaveCounted(Value(), record, fault);
      if pending >= max || record.run in completions || fault.BeforeChange? {
        return false;
      }
      completions := completions[record.run := record];
      pending := pending + 1;
      ok := fault.NoFault?;
    }

    method SaveExecution(q: Request, fault: Fault) returns (ok: bool)
      requires Valid()
      modifies this
      ensures Valid() && (Value(), ok) == ExecutorTypes.SaveExecution(old(Value()), q, fault)
    {
      SaveExecutionKeeps(Value(), q, fault);
      hide Counted, FilesOk;
      if q.run in executions {
        if executions[q.run] == q {
          return !fault.BeforeChange?;
        }
        if executions[q.run].deadline == 0 && executions[q.run] == q.(deadline := 0) && !fault.BeforeChange? {
          executions := executions[q.run := q];
          return fault.NoFault?;
        }
        return false;
      }
      if counted >= maxExecutions || fault.BeforeChange? {
        return false;
      }
      executions := executions[q.run := q];
      if fault.AfterChange? {
        return false;
      }
      counted := counted + 1;
      ok := true;
    }

    method RemoveExecution(run: RunId)
      requires Valid()
      modifies this
      ensures Valid() && Value() == ExecutorTypes.RemoveExecution(old(Value()), run)
    {
      RemoveCounted(Value(), run, NoFault);
      if run in executions {
        executions := executions - {run};
        if counted > 0 {
          counted := counted - 1;
        }
      }
    }

    method DeleteExecution(run: RunId, fault: Fault) returns (ok: bool)
      requires Valid()
      modifies this
      ensures Valid() && (Value(), ok) == ExecutorTypes.DeleteExecution(old(Value()), run, fault)
    {
      if fault.BeforeChange? {
        return false;
      }
      RemoveExecution(run);
      ok := fault.NoFault?;
    }

    /** Delete: the execution record goes first, so that a crash in between cannot resurrect the run. */
    method Delete(run: RunId, first: Fault, second: Fault) returns (ok: bool)
      requires Valid()
      modifies this
      ensures Valid()
      ensures Value() == if first.BeforeChange? then old(Value())
                         else if second.BeforeChange? then ExecutorTypes.RemoveExecution(old(Value()), run)
                         else RemoveCompletion(ExecutorTypes.RemoveExecution(old(Value()), run), run)
      ensures ok ==> run !in executions && run !in completions
    {
      if first.BeforeChange? {
        return false;
      }
      RemoveExecution(run);
      if second.BeforeChange? {
        return false;
      }
      RemoveCounted(Value(), run, NoFault);
      if run in completions {
        completions := completions - {run};
        if pending > 0 {
          pending := pending - 1;
        }
      }
      ok := second.NoFault?;
    }
  }

  // -------------------------------------------------------------------- recovery

  /** What is to become of an accepted execution when its executor starts again. */
  datatype Fate = AlreadyDone | Fails | Resumes

  function FateOf(d: Disk, run: RunId, now: Time): Fate
    requires run in d.executions
  {
    if run in d.completions then AlreadyDone
    else if Recoverable(d.executions[run]) && !M.Expired(d.executions[run], now) then Resumes
    else Fails
  }

  /** What the first pass leaves of one execution record. */
  ghost predicate Handled(d: Disk, e: Disk, run: RunId, now: Time)
    requires run in d.executions
  {
    match FateOf(d, run, now)
    case AlreadyDone => run !in e.executions && run in e.completions
    case Fails => run !in e.executions && run in e.completions && e.completions[run] == FailedRecord(d.executions[run])
    case Resumes => run in e.executions && e.executions[run] == d.executions[run] && run !in e.completions
  }

  /** Nothing is different about these runs. */
  ghost predicate SameFor(d: Disk, e: Disk, run: RunId) {
    && (run in d.executions <==> run in e.executions) && (run in d.completions <==> run in e.completions)
    && (run in d.executions ==> e.executions[run] == d.executions[run])
    && (run in d.completions ==> e.completions[run] == d.completions[run])
  }

  ghost predicate SameForOthers(d: Disk, e: Disk, run: RunId) {
    forall r :: r != run ==> SameFor(d, e, r)
  }

  lemma SameForSelf(d: Disk, run: RunId)
    ensures SameForOthers(d, d, run) && Reconciled(d, d)
  {
  }

  lemma SameForThen(a: Disk, b: Disk, c: Disk, run: RunId)
    requires SameForOthers(a, b, run) && SameForOthers(b, c, run)
    ensures SameForOthers(a, c, run)
  {
    forall r | r != run ensures SameFor(a, c, r) {
      assert SameFor(a, b, r) && SameFor(b, c, r);
    }
  }

  lemma FailFacts(d: Disk, q: Request, fault: Fault)
    requires q.run in d.executions && d.executions[q.run] == q && q.run !in d.completions
    ensures var (e, ok) := Save(d, FailedRecord(q), fault);
            && Reconciled(d, e) && SameForOthers(d, e, q.run)
            && (ok ==> q.run in e.completions && e.completions[q.run] == FailedRecord(q))
  {
    FailOk(d, d, q.run, fault);
  }

  lemma ForgetFacts(d: Disk, e: Disk, run: RunId, fault: Fault)
    requires Reconciled(d, e) && run in e.completions
    ensures var (f, ok) := DeleteExecution(e, run, fault);
            Reconciled(d, f) && SameForOthers(e, f, run) && f.completions == e.completions
              && (ok ==> run !in f.executions)
  {
    ForgetOk(d, e, run, fault);
  }

  /** What Cancel answers. */
  datatype Answer = Accepted | Refused | Unavailable

  lemma SaveTouchesOne(d: Disk, record: Record, fault: Fault)
    ensures var (e, ok) := Save(d, record, fault);
            && SameForOthers(d, e, record.run) && e.executions == d.executions
            && (ok ==> record.run in e.completions && e.completions[record.run] == record)
  {
  }

  lemma DeleteTouchesOne(d: Disk, run: RunId, fault: Fault)
    ensures var (e, ok) := DeleteExecution(d, run, fault);
            SameForOthers(d, e, run) && e.completions == d.completions && (ok ==> run !in e.executions)
  {
  }

  lemma DropTouchesOne(d: Disk, run: RunId)
    ensures SameForOthers(d, RemoveExecution(d, run), run)
    ensures SameForOthers(d, RemoveCompletion(RemoveExecution(d, run), run), run)
    ensures SameForOthers(d, d, run)
  {
  }

  lemma {:induction false} PruneNeverRuns(mem: Memory, run: RunId, now: Time)
    requires !RunningIn(mem, run)
    ensures !RunningIn(Prune(mem, now), run)
    decreases |mem.completed|
  {
    if mem.completed != [] && Overdue(mem, now) {
      PruneNeverRuns(DropOldest(mem), run, now);
    }
  }

  lemma SettledIsNotRunning(mem: Memory, run: RunId, st: EntryState, now: Time)
    requires Terminal(st)
    ensures !RunningIn(ExecutorTypes.Settle(mem, run, st, now), run)
  {
    hide Prune;
    if RunningIn(mem, run) {
      PruneNeverRuns(mem.(runs := mem.runs[run := Entry(st, Some(now))],
        completed := mem.completed + [Item(run, now)]), run, now);
    }
  }

  lemma HandledFrom(d: Disk, e: Disk, f: Disk, run: RunId, now: Time)
    requires run in d.executions && SameFor(d, e, run) && Handled(e, f, run, now)
    ensures FateOf(e, run, now) == FateOf(d, run, now) && Handled(d, f, run, now)
  {
  }

  lemma HandledStays(d: Disk, e: Disk, f: Disk, run: RunId, now: Time)
    requires run in d.executions && Handled(d, e, run, now) && SameFor(e, f, run)
    ensures Handled(d, f, run, now)
  {
  }

  /** The requests ListExecutions returns: one per record, sorted by run. */
  ghost predicate Lists(order: seq<RunId>, d: Disk) {
    && (forall run :: run in order <==> run in d.executions)
    && (forall i, k :: 0 <= i < k < |order| ==> order[i] != order[k])
  }

  lemma JudgeDisk(s: M.State, q: Request, recovered: bool, known: bool, fault: Fault)
    ensures var saved := SaveExecution(s.disk, WithDeadline(q, recovered, s.clock), fault).0;
            match M.Judge(s, q, recovered, known, fault)
            case Unsaved(disk) => disk == saved
            case Taken(disk, _) => disk == saved
            case _ => true
  {
    hide Prune, SaveExecution, M.Full;
  }

  /** Re-dispatching one recovered request touches its own record only, and no completion. */
  ghost predicate Resumed(d: Disk, e: Disk, run: RunId) {
    && e.executions.Keys == d.executions.Keys && e.completions == d.completions
    && (forall r :: r in d.executions && r != run ==> e.executions[r] == d.executions[r])
  }

  class Server {
    const store: FileStore
    const capacity: map<Pool, nat>
    const limit: int
    const retention: int
    var runs: map<RunId, Entry>
    var completed: seq<Item>
    var draining: bool
    var failed: bool
    var slots: map<Pool, nat>

    constructor (store: FileStore, capacity: map<Pool, nat>, limit: int, retention: int)
      ensures this.store == store && runs == map[] && completed == [] && slots == map[] && !draining && !failed
    {
      this.store, this.capacity, this.limit, this.retention := store, capacity, limit, retention;
      runs, completed, draining, failed, slots := map[], [], false, false, map[];
    }

    function Mem(): Memory
      reads this
    {
      Memory(runs, completed, limit, retention)
    }

    /** The parts of the machine's state that dispatch looks at. */
    ghost function Seen(now: Time): M.State
      reads this, store
    {
      M.State(store.Value(), Mem(), M.Past({}, {}, {}, {}), M.Flags(M.Serving, draining, failed),
        M.Recovery({}, {}, now, false), slots, map[], map[], map[], now, 0, capacity)
    }

    /** pruneExecutionHistoryLocked. */
    method Prune(now: Time)
      modifies this`runs, this`completed
      ensures Mem() == ExecutorTypes.Prune(old(Mem()), now)
    {
      ghost var before := Mem();
      while completed != []
        invariant ExecutorTypes.Prune(Mem(), now) == ExecutorTypes.Prune(before, now)
        decreases |completed|
      {
        if !Overdue(Mem(), now) {
          break;
        }
        var oldest := completed[0];
        if oldest.run in runs && !runs[oldest.run].state.Running?
          && runs[oldest.run].finishedAt == Some(oldest.finishedAt) {
          runs := runs - {oldest.run};
        }
        completed := completed[1..];
      }
    }

    /** The terminal transition of finish and of Cancel. */
    method Settle(run: RunId, st: EntryState, now: Time) returns (transitioned: bool)
      modifies this`runs, this`completed
      ensures Mem() == ExecutorTypes.Settle(old(Mem()), run, st, now) && transitioned == RunningIn(old(Mem()), run)
    {
      transitioned := RunningIn(Mem(), run);
      if transitioned {
        runs := runs[run := Entry(st, Some(now))];
        completed := completed + [Item(run, now)];
        Prune(now);
      }
    }

    method Dispatch(q: Request, recovered: bool, known: bool, now: Time, fault: Fault) returns (accepted: bool)
      requires store.Valid()
      modifies this, store
      ensures store.Valid()
      ensures var verdict := M.Judge(old(Seen(now)), q, recovered, known, fault);
              && accepted == (verdict.Duplicate? || verdict.Taken?)
              && store.Value() == (match verdict
                                   case Unsaved(disk) => disk
                                   case Taken(disk, _) => disk
                                   case _ => old(store.Value()))
              && slots == (if verdict.Taken? then M.Acquire(old(slots), PoolOf(q)) else old(slots))
              && failed == (old(failed) || verdict.Unsaved?) && draining == old(draining)
              && runs == (if verdict.Refused? then old(runs)
                          else if verdict.Taken?
                          then ExecutorTypes.Prune(old(Mem()), now).runs[q.run := Entry(Running, None)]
                          else ExecutorTypes.Prune(old(Mem()), now).runs)
      ensures accepted && q.run !in ExecutorTypes.Prune(old(Mem()), now).runs ==>
                && q.run in store.executions
                && store.executions[q.run]
                   == q.(deadline := if recovered && q.deadline != 0 then q.deadline else now + 1000 * q.timeout)
    {
      DatedRequest(q, recovered, now);
      hide ExecutorTypes.Prune, ExecutorTypes.SaveExecution, PoolOf, M.Acquire, M.Used, Counted, FilesOk;
      hide WithDeadline, ValidRequest;
      accepted := false;
      if !ValidRequest(q) || !known || draining || failed {
        return;
      }
      var request := WithDeadline(q, recovered, now);
      Prune(now);
      if q.run in runs {
        return true;
      }
      if exists p :: p in PoolOf(q) && M.Used(slots, p) >= M.Used(capacity, p) {
        return;
      }
      SavedRequest(store.Value(), request, fault);
      var saved := store.SaveExecution(request, fault);
      if !saved {
        failed := true;
        return;
      }
      slots := M.Acquire(slots, PoolOf(q));
      runs := runs[q.run := Entry(Running, None)];
      accepted := true;
    }

    /**
     finish, as one goroutine goes through it: a handler that awaits a callback only drops its
     record; any other outcome is saved before the execution record goes, and then settled.
     The result says whether Core has to be told directly, because nothing could be saved.
     */
    method Finish(q: Request, outcome: M.Outcome, now: Time, faults: (Fault, Fault)) returns (reports: bool)
      requires store.Valid()
      modifies this, store
      ensures store.Valid() && draining == old(draining) && slots == old(slots)
      ensures outcome.AwaitsCallback? ==>
                && !reports && failed == old(failed) && Mem() == MarkWaiting(old(Mem()), q.run)
                && store.Value() == DeleteExecution(old(store.Value()), q.run, faults.0).0
      ensures outcome.Finished? && !RunningIn(old(Mem()), q.run) ==>
                !reports && failed == old(failed) && Mem() == old(Mem()) && store.Value() == old(store.Value())
      ensures outcome.Finished? && RunningIn(old(Mem()), q.run) ==>
                var record := Record(q.run, q.token, outcome.succeeded);
                && Mem() == ExecutorTypes.Settle(old(Mem()), q.run, EndState(outcome.succeeded), now)
                && (reports <==> !ExecutorTypes.Save(old(store.Value()), record, faults.0).1) && (reports ==> failed)
                && (!reports ==> q.run in store.completions && store.completions[q.run] == record)
                && (q.run in old(store.executions) ==> q.run in store.executions || q.run in store.completions)
                && SameForOthers(old(store.Value()), store.Value(), q.run)
    {
      hide ExecutorTypes.Prune, Counted, FilesOk, SameForOthers;
      ghost var before := store.Value();
      SameForSelf(before, q.run);
      reports := false;
      if outcome.AwaitsCallback? {
        if RunningIn(Mem(), q.run) {
          runs := runs[q.run := Entry(WaitingCallback, None)];
        }
        var _ := store.DeleteExecution(q.run, faults.0);
        return;
      }
      if !RunningIn(Mem(), q.run) {
        return;
      }
      var record := Record(q.run, q.token, outcome.succeeded);
      SaveTouchesOne(before, record, faults.0);
      var persisted := store.Save(record, faults.0);
      if persisted {
        ghost var saved := store.Value();
        DeleteTouchesOne(saved, q.run, faults.1);
        var cleaned := store.DeleteExecution(q.run, faults.1);
        SameForThen(before, saved, store.Value(), q.run);
        failed := failed || !cleaned;
      }
      failed := failed || !persisted;
      var _ := Settle(q.run, EndState(outcome.succeeded), now);
      reports := !persisted;
    }

    /** Cancel; `agreed` is the external canceller's answer, if there is one for the language. */
    method Cancel(run: RunId, complete: bool, canceller: bool, external: bool, agreed: bool, now: Time, fault: Fault)
      returns (answer: Answer)
      requires store.Valid()
      modifies this, store
      ensures store.Valid() && Mem() == ExecutorTypes.Settle(old(Mem()), run, Cancelled, now)
      ensures SameForOthers(old(store.Value()), store.Value(), run) && store.completions == old(store.completions)
      ensures answer.Accepted? ==> run !in store.executions && !RunningIn(Mem(), run)
      ensures run in old(store.executions) && run !in store.executions ==>
                (complete && canceller ==> agreed) && (complete && external ==> canceller)
                && (!complete ==>
                      run in old(runs) && (old(runs)[run].state.Running? || old(runs)[run].state.Cancelled?))
      ensures answer.Refused? ==> store.Value() == old(store.Value()) && failed == old(failed)
      ensures answer.Refused? <==>
                if complete then !canceller && external
                else !(run in old(runs) && (old(runs)[run].state.Running? || old(runs)[run].state.Cancelled?))
      ensures answer.Accepted? <==> !answer.Refused? && fault.NoFault? && (complete && canceller ==> agreed)
    {
      hide ExecutorTypes.Prune, Counted, FilesOk, SameForOthers;
      ghost var before := store.Value();
      SameForSelf(before, run);
      var inMemory := run in runs && (runs[run].state.Running? || runs[run].state.Cancelled?);
      SettledIsNotRunning(Mem(), run, Cancelled, now);
      var _ := Settle(run, Cancelled, now);
      if !complete && !inMemory {
        return Refused;
      }
      if complete && !canceller && external {
        return Refused;
      }
      if complete && canceller && !agreed {
        return Unavailable;
      }
      DeleteTouchesOne(before, run, fault);
      var erased := store.DeleteExecution(run, fault);
      if !erased {
        failed := true;
        return Unavailable;
      }
      answer := Accepted;
    }

    /** deliverPersistedCompletions over the listed records; what Core does not accept stays as it is. */
    method DeliverCompletions(order: seq<RunId>, accepts: RunId -> bool, faults: RunId -> (Fault, Fault))
      requires store.Valid() && (forall i, k :: 0 <= i < k < |order| ==> order[i] != order[k])
      modifies store
      ensures store.Valid()
      ensures forall run :: run !in order || !accepts(run) ==> SameFor(old(store.Value()), store.Value(), run)
      ensures forall run :: run in order && accepts(run) && faults(run) == (NoFault, NoFault) ==>
                run !in store.executions && run !in store.completions
    {
      hide Counted, FilesOk;
      ghost var before := store.Value();
      var i := 0;
      while i < |order|
        invariant 0 <= i <= |order| && store.Valid()
        invariant forall run :: run !in order[..i] || !accepts(run) ==> SameFor(before, store.Value(), run)
        invariant forall k :: 0 <= k < i && accepts(order[k]) && faults(order[k]) == (NoFault, NoFault) ==>
                    order[k] !in store.executions && order[k] !in store.completions
      {
        var run := order[i];
        assert order[..i + 1] == order[..i] + [run];
        if accepts(run) {
          ghost var mid := store.Value();
          var _ := store.Delete(run, faults(run).0, faults(run).1);
          DropTouchesOne(mid, run);
          forall r | r != run ensures SameFor(mid, store.Value(), r) {
          }
        }
        i := i + 1;
      }
      assert order[..|order|] == order;
    }

    /** One turn of the first recovery loop; `stopped` is the external canceller's answer. */
    method Reconcile(q: Request, done: bool, stopped: bool, now: Time, faults: (Fault, Fault))
      returns (ok: bool, failedNow: bool)
      requires store.Valid() && q.run in store.executions && store.executions[q.run] == q
               && (done <==> q.run in store.completions)
      modifies store
      ensures store.Valid() && Reconciled(old(store.Value()), store.Value())
      ensures ok ==> Handled(old(store.Value()), store.Value(), q.run, now)
      ensures ok ==> failedNow == FateOf(old(store.Value()), q.run, now).Fails?
      ensures SameForOthers(old(store.Value()), store.Value(), q.run)
    {
      hide ExecutorTypes.Save, ExecutorTypes.DeleteExecution, Reconciled, SameForOthers, Counted, FilesOk;
      ghost var before := store.Value();
      SameForSelf(before, q.run);
      failedNow := false;
      if !done {
        if Recoverable(q) {
          if q.deadline == 0 || now < q.deadline {
            return true, false;
          }
          if !stopped {
            return false, false;
          }
        }
        FailFacts(before, q, faults.0);
        ok := store.Save(FailedRecord(q), faults.0);
        if !ok {
          return;
        }
        failedNow := true;
      }
      ghost var saved := store.Value();
      ForgetFacts(before, saved, q.run, faults.1);
      ok := store.DeleteExecution(q.run, faults.1);
      SameForThen(before, saved, store.Value(), q.run);
    }

    /** The first recovery loop: what ended becomes a completion, what can go on is left alone. */
    method FirstPass(order: seq<RunId>, clock: RunId -> Time, stopped: RunId -> bool, faults: RunId -> (Fault, Fault))
      returns (ok: bool, done: set<RunId>)
      requires store.Valid() && Lists(order, store.Value())
      modifies store
      ensures store.Valid() && Reconciled(old(store.Value()), store.Value())
      ensures ok ==> forall run :: run in old(store.executions) ==>
                && Handled(old(store.Value()), store.Value(), run, clock(run))
                && (FateOf(old(store.Value()), run, clock(run)).Resumes? <==>
                      run !in done && Recoverable(old(store.executions)[run]))
    {
      hide Reconciled, SameForOthers, Counted, FilesOk, Handled;
      ghost var before := store.Value();
      SameForSelf(before, 0);
      done := store.completions.Keys;
      var i := 0;
      while i < |order|
        invariant 0 <= i <= |order| && store.Valid() && Reconciled(before, store.Value())
        invariant forall k :: 0 <= k < i ==> Handled(before, store.Value(), order[k], clock(order[k]))
        invariant forall k :: 0 <= k < i ==>
                    (FateOf(before, order[k], clock(order[k])).Resumes? <==>
                      order[k] !in done && Recoverable(before.executions[order[k]]))
        invariant forall k :: i <= k < |order| ==> SameFor(before, store.Value(), order[k])
        invariant forall k :: i <= k < |order| ==> (order[k] in done <==> order[k] in before.completions)
      {
        var run := order[i];
        assert run in order;
        var q := store.executions[run];
        ghost var mid := store.Value();
        NamedAfterRun(mid, run);
        var handled, failedNow := Reconcile(q, run in done, stopped(run), clock(run), faults(run));
        ReconciledThen(before, mid, store.Value());
        if !handled {
          return false, done;
        }
        HandledFrom(before, mid, store.Value(), run, clock(run));
        OthersFollow(before, mid, store.Value(), order, i, clock);
        if failedNow && Recoverable(q) {
          done := done + {run};
        }
        i := i + 1;
      }
      ok := true;
      forall run | run in before.executions
        ensures && Handled(before, store.Value(), run, clock(run))
                && (FateOf(before, run, clock(run)).Resumes? <==> run !in done && Recoverable(before.executions[run]))
      {
        assert run in order;
      }
    }

    /** One re-dispatch of the second loop. */
    method Resume(q: Request, known: bool, now: Time, fault: Fault) returns (accepted: bool)
      requires store.Valid() && q.run in store.executions && store.executions[q.run] == q
      modifies this, store
      ensures store.Valid() && Reconciled(old(store.Value()), store.Value())
      ensures Resumed(old(store.Value()), store.Value(), q.run)
    {
      hide M.Judge, ExecutorTypes.SaveExecution, Reconciled;
      SameForSelf(store.Value(), 0);
      JudgeDisk(Seen(now), q, true, known, fault);
      ResumeOk(store.Value(), store.Value(), q, now, fault);
      accepted := Dispatch(q, true, known, now, fault);
    }

    /** The second recovery loop. */
    method SecondPass(order: seq<RunId>, todo: map<RunId, Request>, known: string -> bool,
                      later: RunId -> (Time, Fault))
      returns (ok: bool, resumed: set<RunId>)
      requires store.Valid() && (forall i, k :: 0 <= i < k < |order| ==> order[i] != order[k])
      requires forall run :: run in todo ==> run in store.executions && todo[run] == store.executions[run]
      modifies this, store
      ensures store.Valid() && Reconciled(old(store.Value()), store.Value())
      ensures store.completions == old(store.completions) && store.executions.Keys == old(store.executions.Keys)
      ensures resumed <= todo.Keys
      ensures ok ==> forall run :: run in todo && run in order ==> run in resumed
    {
      hide Reconciled, Counted, FilesOk;
      ghost var before := store.Value();
      SameForSelf(before, 0);
      resumed := {};
      var i := 0;
      while i < |order|
        invariant 0 <= i <= |order| && store.Valid() && Reconciled(before, store.Value())
        invariant store.completions == before.completions && store.executions.Keys == before.executions.Keys
        invariant forall k :: i <= k < |order| && order[k] in todo ==>
            order[k] in store.executions && store.executions[order[k]] == todo[order[k]]
        invariant resumed <= todo.Keys && forall k :: 0 <= k < i && order[k] in todo ==> order[k] in resumed
      {
        var run := order[i];
        if run in todo {
          ghost var mid := store.Value();
          NamedAfterRun(mid, run);
          var accepted := Resume(todo[run], known(todo[run].handler), later(run).0, later(run).1);
          ReconciledThen(before, mid, store.Value());
          if !accepted {
            return false, resumed;
          }
          resumed := resumed + {run};
        }
        i := i + 1;
      }
      ok := true;
    }

    /**
     RecoverExecutions. The clock, the file system and the external cancellers are the
     environment's; stopping at any of them leaves the directory as described by Reconciled.
     */
    method RecoverExecutions(clock: RunId -> Time, stopped: RunId -> bool, known: string -> bool,
                             faults: RunId -> (Fault, Fault), later: RunId -> (Time, Fault))
      returns (ok: bool, resumed: set<RunId>)
      requires store.Valid()
      modifies this, store
      ensures store.Valid() && Reconciled(old(store.Value()), store.Value())
      ensures forall run :: run in resumed ==>
                run in old(store.executions) && run !in old(store.completions) && run !in store.completions
                && Recoverable(old(store.executions)[run]) && !M.Expired(old(store.executions)[run], clock(run))
      ensures ok ==> forall run :: run in old(store.executions) ==>
                (match FateOf(old(store.Value()), run, clock(run))
                 case AlreadyDone => run !in store.executions && run in store.completions
                 case Fails => run !in store.executions && run in store.completions
                               && store.completions[run] == FailedRecord(old(store.executions)[run])
                 case Resumes => run in store.executions && run !in store.completions && run in resumed)
    {
      hide Reconciled, Counted, FilesOk;
      ghost var before := store.Value();
      var snapshot := store.executions;
      var order := R.SortIds(snapshot.Keys);
      resumed := {};
      var done;
      ok, done := FirstPass(order, clock, stopped, faults);
      if !ok {
        return;
      }
      ghost var mid := store.Value();
      var todo := map run | run in snapshot && run !in done && Recoverable(snapshot[run]) :: snapshot[run];
      forall run | run in todo
        ensures FateOf(before, run, clock(run)).Resumes? && run in mid.executions && todo[run] == mid.executions[run]
        ensures run !in mid.completions
      {
        assert Handled(before, mid, run, clock(run));
      }
      ok, resumed := SecondPass(order, todo, known, later);
      ReconciledThen(before, mid, store.Value());
      forall run | run in before.executions
        ensures Handled(before, mid, run, clock(run))
                && (FateOf(before, run, clock(run)).Resumes? <==> run in todo) && run in order
      {
      }
    }
  }

  lemma NamedAfterRun(d: Disk, run: RunId)
    requires FilesOk(d) && run in d.executions
    ensures d.executions[run].run == run
  {
  }

  lemma OthersFollow(d: Disk, e: Disk, f: Disk, order: seq<RunId>, i: nat, clock: RunId -> Time)
    requires i < |order| && Lists(order, d) && SameForOthers(e, f, order[i])
    requires forall k :: 0 <= k < i ==> Handled(d, e, order[k], clock(order[k]))
    requires forall k :: i <= k < |order| ==> SameFor(d, e, order[k])
    ensures forall k :: 0 <= k < i ==> Handled(d, f, order[k], clock(order[k]))
    ensures forall k :: i < k < |order| ==> SameFor(d, f, order[k])
  {
    forall k | 0 <= k < i ensures Handled(d, f, order[k], clock(order[k])) {
      assert order[k] in order && order[k] != order[i] && SameFor(e, f, order[k]);
      HandledStays(d, e, f, order[k], clock(order[k]));
    }
    forall k | i < k < |order| ensures SameFor(d, f, order[k]) {
      assert order[k] != order[i] && SameFor(e, f, order[k]);
    }
  }
}
