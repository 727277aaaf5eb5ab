/**
 The rows of the scheduler's database that the run lifecycle reads and writes,
 as plain values: jobs, runs, the run events in the outbox, the cancel commands
 waiting for executors, the dependency edges and the idempotency keys.
 */
module RunTypes {

  /** Identifiers (UUIDs) and lease tokens: a counter hands out values that were never in use. */
  type Id = nat

  /** Instants and durations, in nanoseconds. */
  type Time = int

  /** The optimistic lock of a job row; a row that was never reconfigured has version 1. */
  type Version = v: int | v >= 1 witness 1

  const SECOND: Time := 1_000_000_000

  const TWO63: int := 0x8000_0000_0000_0000

  /** Two's complement arithmetic of an int64. */
  function Wrap64(x: int): (r: int)
    ensures -TWO63 <= r < TWO63
  {
    (x + TWO63) % (2 * TWO63) - TWO63
  }

  /** A number of seconds as a time.Duration. */
  function Duration(seconds: int): Time {
    Wrap64(seconds * SECOND)
  }

  datatype Option<+T> = None | Some(value: T)

  datatype Error =
    | NotFound | Conflict | QueueFull | NotCancellable
    | DependencyCycle | NoExecutors | InvalidState | InvalidSchedule

  datatype Result<+T> = Ok(value: T) | Err(error: Error) {
    predicate IsFailure() { Err? }

    function PropagateFailure<U>(): Result<U>
      requires Err?
    {
      Err(error)
    }

    function Extract(): T
      requires Ok?
    {
      value
    }
  }

  datatype Status =
    | Pending | Running | WaitingCallback
    | Succeeded | Failed | TimedOut | Cancelled | Skipped

  predicate Unfinished(s: Status) {
    s.Pending? || s.Running? || s.WaitingCallback?
  }

  predicate Broken(s: Status) {
    s.Failed? || s.TimedOut?
  }

  /** Every write of a status moves up in this order, except a repeated claim, which stays. */
  function Rank(s: Status): nat {
    match s
    case Pending => 0
    case Running => 1
    case WaitingCallback => 2
    case _ => 3
  }

  datatype Trigger = BySchedule | Manual | Dependency | Retry

  /** The topic of a run event: entering a status, or giving up on retries. */
  datatype Topic = Entered(status: Status) | Exhausted

  datatype Callback = Callback(hash: Id, deadline: Time)

  datatype Shard = Shard(group: Id, index: nat, total: nat)

  /**
   A row of job_runs. `trail` is a history variable: every statement that sets
   the status column appends the value it wrote, also when it does not change.
   */
  datatype Run = Run(
    tenant: Id,
    job: Id,
    trigger: Trigger,
    status: Status,
    attempt: int,
    scheduledAt: Time,
    availableAt: Time,
    token: Option<Id>,
    leaseUntil: Option<Time>,
    callback: Option<Callback>,
    parent: Option<Id>,
    retryOf: Option<Id>,
    node: string,
    address: string,
    shard: Option<Shard>,
    rearm: bool,
    finishedAt: Option<Time>,
    trail: seq<Status>)

  datatype Kind = Cron | Once | FixedInterval | FixedRate | FixedDelay

  datatype Misfire = MisfireSkip | FireOnce | CatchUp

  /** Overlap policies, with the two legacy names the store still accepts. */
  datatype Policy = Queue | Skip | Serial | DiscardLater | CoverEarly | Parallel

  datatype Job = Job(
    tenant: Id,
    kind: Kind,
    period: int,
    policy: Policy,
    misfire: Misfire,
    maxRetries: int,
    maxQueue: int,
    maxConcurrent: int,
    cluster: Option<Id>,
    timeout: int,
    enabled: bool,
    nextRunAt: Option<Time>,
    version: Version)

  /** A row of executor_commands; the only command type is cancel, one row per run. */
  datatype Command = Command(
    address: string,
    delivered: bool,
    attempts: nat,
    availableAt: Time,
    lockedBy: Option<string>,
    lockedUntil: Option<Time>)

  /** What a claim hands to a worker: its own copy of the row and of the job's retry limit. */
  datatype Claim = Claim(id: Id, run: Run, maxRetries: int)

  datatype Node = Node(id: string, address: string)

  /** The routing of a job at trigger time: one run, or one shard per live node. */
  datatype Route = Plain | Broadcast(nodes: seq<Node>)

  /** The database, plus every claim ever handed out, keyed by its lease token. */
  datatype Db = Db(
    jobs: map<Id, Job>,
    runs: map<Id, Run>,
    log: map<Id, seq<Topic>>,
    commands: map<Id, Command>,
    edges: set<(Id, Id)>,
    dispatched: map<(Id, Id), Id>,
    keys: map<(Id, string), Id>,
    claims: map<Id, Claim>,
    unused: Id)

  const EMPTY: Db := Db(map[], map[], map[], map[], {}, map[], map[], map[], 0)

  /** The n identifiers that start at first. */
  function Span(first: Id, n: nat): (r: set<Id>)
    ensures forall id :: id in r <==> first <= id < first + n
  {
    if n == 0 then {} else Span(first, n - 1) + {first + n - 1}
  }

  function Log(db: Db, id: Id): seq<Topic> {
    if id in db.log then db.log[id] else []
  }

  /** The members of a finite set of naturals in increasing order. */
  ghost function Ascending(s: set<nat>): (r: seq<nat>)
    ensures forall x :: x in r <==> x in s
    ensures forall i, j :: 0 <= i < j < |r| ==> r[i] < r[j]
  {
    if s == {} then []
    else
      assert exists m :: IsLeast(s, m) by { var m := Least(s); }
      var m :| IsLeast(s, m);
      [m] + Ascending(s - {m})
  }

  predicate IsLeast(s: set<nat>, m: nat) {
    m in s && forall x :: x in s ==> m <= x
  }

  lemma {:induction false} Least(s: set<nat>) returns (m: nat)
    requires s != {}
    ensures IsLeast(s, m)
    decreases |s|
  {
    var a :| a in s;
    var rest := s - {a};
    assert s == rest + {a};
    if rest == {} {
      m := a;
    } else {
      var least := Least(rest);
      m := if a <= least then a else least;
    }
  }

  lemma AscendingFirst(s: set<Id>, m: Id)
    requires IsLeast(s, m)
    ensures Ascending(s) == [m] + Ascending(s - {m})
  {
    assert IsLeast(s, Ascending(s)[0]);
  }

  /** ORDER BY id. */
  method SortIds(s: set<Id>) returns (r: seq<Id>)
    ensures r == Ascending(s)
  {
    hide Ascending, IsLeast;
    r := [];
    var rest := s;
    while rest != {}
      invariant r + Ascending(rest) == Ascending(s)
      decreases |rest|
    {
      ghost var least := Least(rest);
      LeastIsMember(rest, least);
      var m :| m in rest && IsLeast(rest, m);
      AscendingNext(r, rest, m, s);
      r := r + [m];
      rest := rest - {m};
    }
    AscendingEmpty();
  }

  lemma LeastIsMember(s: set<Id>, m: Id)
    requires IsLeast(s, m)
    ensures m in s
  {
  }

  /** The least of what is left comes next. */
  lemma AscendingNext(r: seq<Id>, rest: set<Id>, m: Id, s: set<Id>)
    requires IsLeast(rest, m) && r + Ascending(rest) == Ascending(s)
    ensures r + [m] + Ascending(rest - {m}) == Ascending(s)
  {
    hide Ascending;
    AscendingFirst(rest, m);
    assert r + ([m] + Ascending(rest - {m})) == r + [m] + Ascending(rest - {m});
  }

  lemma AscendingEmpty()
    ensures Ascending({}) == []
  {
  }
}
