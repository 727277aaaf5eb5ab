/** What recovery may do to the state directory, however often it is interrupted and started again. */
module ExecutorRecovery {
  import opened ExecutorTypes

  ghost function Known(d: Disk): set<RunId> {
    d.executions.Keys + d.completions.Keys
  }

  /** The same request, except that one without a deadline may have gained it. */
  predicate SameWork(a: Request, b: Request) {
    b == a || (a.deadline == 0 && b == a.(deadline := b.deadline))
  }

  ghost predicate KeepsCompletions(d: Disk, e: Disk) {
    && (forall run :: run in d.completions ==> run in e.completions && e.completions[run] == d.completions[run])
    && (forall run :: run in e.completions && run !in d.completions ==>
          run in d.executions && e.completions[run] == FailedRecord(d.executions[run]))
  }

  ghost predicate KeepsExecutions(d: Disk, e: Disk) {
    forall run :: run in e.executions ==> run in d.executions && SameWork(d.executions[run], e.executions[run])
  }

  /** No run is forgotten, completions only come, and a deadline that is set does not move. */
  ghost predicate Reconciled(d: Disk, e: Disk) {
    Known(e) == Known(d) && KeepsCompletions(d, e) && KeepsExecutions(d, e)
  }

  lemma ReconciledThen(a: Disk, b: Disk, c: Disk)
    requires Reconciled(a, b) && Reconciled(b, c)
    ensures Reconciled(a, c)
  {
  }

  // ------------------------------------------------------------ one file operation

  lemma FailOk(d: Disk, e: Disk, run: RunId, fault: Fault)
    requires Reconciled(d, e) && run in e.executions && run !in e.completions && e.executions[run].run == run
    ensures Reconciled(d, Save(e, FailedRecord(e.executions[run]), fault).0)
    ensures Save(e, FailedRecord(e.executions[run]), fault).0.executions == e.executions
  {
  }

  lemma ForgetOk(d: Disk, e: Disk, run: RunId, fault: Fault)
    requires Reconciled(d, e) && run in e.completions
    ensures Reconciled(d, DeleteExecution(e, run, fault).0)
    ensures DeleteExecution(e, run, fault).0.completions == e.completions
    ensures DeleteExecution(e, run, fault).1 ==> DeleteExecution(e, run, fault).0.executions == e.executions - {run}
  {
    assert e.executions - {run} == if run in e.executions then e.executions - {run} else e.executions;
  }

  lemma ResumeShape(e: Disk, q: Request, now: Time, fault: Fault)
    requires q.run in e.executions && e.executions[q.run] == q
    ensures var dated, next := WithDeadline(q, true, now), SaveExecution(e, WithDeadline(q, true, now), fault).0;
            && SameWork(q, dated) && dated.run == q.run && next.completions == e.completions
            && (next.executions == e.executions || next.executions == e.executions[q.run := dated])
  {
  }

  lemma ResumeOk(d: Disk, e: Disk, q: Request, now: Time, fault: Fault)
    requires Reconciled(d, e) && q.run in e.executions && e.executions[q.run] == q
    ensures var r := SaveExecution(e, WithDeadline(q, true, now), fault);
            Reconciled(d, r.0) && r.0.executions.Keys == e.executions.Keys && r.0.completions == e.completions
            && (forall run :: run in e.executions && run != q.run ==> r.0.executions[run] == e.executions[run])
  {
    hide SaveExecution, WithDeadline;
    ResumeShape(e, q, now, fault);
  }

  // -------------------------------------------------------------------- counters

  /** The counters never exceed what is on disk or what is allowed. */
  ghost predicate Counted(d: Disk) {
    && d.pending == |d.completions| <= d.max
    && d.counted <= |d.executions| && d.counted <= d.maxExecutions
  }

  /** The execution counter agrees with the directory. */
  ghost predicate Exact(d: Disk) {
    Counted(d) && d.counted == |d.executions|
  }

  lemma Removed<V>(m: map<RunId, V>, run: RunId)
    requires run in m
    ensures |m - {run}| == |m| - 1
  {
    assert (m - {run}).Keys == m.Keys - {run};
  }

  lemma Added<V>(m: map<RunId, V>, run: RunId, v: V)
    ensures |m[run := v]| == |m| + (if run in m then 0 else 1)
  {
    assert m[run := v].Keys == m.Keys + {run};
  }

  lemma SaveCounted(d: Disk, record: Record, fault: Fault)
    requires Counted(d)
    ensures Counted(Save(d, record, fault).0)
  {
    Added(d.completions, record.run, record);
  }

  lemma SaveExecutionCounted(d: Disk, q: Request, fault: Fault)
    requires Counted(d)
    ensures Counted(SaveExecution(d, q, fault).0)
  {
    Added(d.executions, q.run, q);
  }

  lemma RemoveCounted(d: Disk, run: RunId, fault: Fault)
    requires Counted(d)
    ensures Counted(RemoveExecution(d, run)) && Counted(DeleteExecution(d, run, fault).0)
    ensures Counted(RemoveCompletion(d, run))
  {
    if run in d.executions { Removed(d.executions, run); }
    if run in d.completions { Removed(d.completions, run); }
  }

  /** The counter is exact until the directory sync of a new execution record fails, and only then. */
  lemma CounterStaysExact(d: Disk, q: Request, fault: Fault)
    requires Exact(d)
    ensures Exact(SaveExecution(d, q, fault).0) <==>
              !(q.run !in d.executions && d.counted < d.maxExecutions && fault.AfterChange?)
  {
    SaveExecutionCounted(d, q, fault);
    Added(d.executions, q.run, q);
  }

  lemma OtherOperationsStayExact(d: Disk, record: Record, run: RunId, fault: Fault)
    requires Exact(d)
    ensures Exact(Save(d, record, fault).0) && Exact(DeleteExecution(d, run, fault).0)
    ensures Exact(RemoveCompletion(d, run))
  {
    SaveCounted(d, record, fault);
    RemoveCounted(d, run, fault);
    if run in d.executions { Removed(d.executions, run); }
  }
}
