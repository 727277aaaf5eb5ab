/**
 What holds of every row of job_runs on its own: the lease columns are set exactly
 while the run is running, the callback columns exactly while it waits, the status
 only ever climbs, and the run's events in the outbox spell out the statuses it
 entered, once each and in order.
 */
module RunRows {
  import opened RunTypes

  /** The statuses announced by a run's events, in order; `exhausted` announces none. */
  function Announced(log: seq<Topic>): seq<Status> {
    if log == [] then []
    else
      var rest := Announced(log[..|log| - 1]);
      match log[|log| - 1]
      case Entered(s) => rest + [s]
      case Exhausted => rest
  }

  /** The statuses of a trail without immediate repetitions. */
  function Distinct(trail: seq<Status>): seq<Status> {
    if |trail| <= 1 then trail
    else
      var rest := Distinct(trail[..|trail| - 1]);
      if trail[|trail| - 1] == trail[|trail| - 2] then rest else rest + [trail[|trail| - 1]]
  }

  function Exhaustions(log: seq<Topic>): nat {
    if log == [] then 0
    else Exhaustions(log[..|log| - 1]) + if log[|log| - 1].Exhausted? then 1 else 0
  }

  lemma AnnouncedSnoc(log: seq<Topic>, topic: Topic)
    ensures Announced(log + [topic]) == Announced(log) + (if topic.Entered? then [topic.status] else [])
    ensures Exhaustions(log + [topic]) == Exhaustions(log) + (if topic.Exhausted? then 1 else 0)
  {
    assert (log + [topic])[..|log|] == log;
  }

  lemma DistinctSnoc(trail: seq<Status>, s: Status)
    requires |trail| > 0
    ensures Distinct(trail + [s]) == Distinct(trail) + (if trail[|trail| - 1] == s then [] else [s])
  {
    assert (trail + [s])[..|trail|] == trail;
  }

  ghost predicate Climbs(trail: seq<Status>) {
    forall i :: 0 < i < |trail| ==>
      Rank(trail[i - 1]) < Rank(trail[i]) || (trail[i - 1].Running? && trail[i].Running?)
  }

  ghost predicate TrailOk(run: Run) {
    && |run.trail| > 0
    && (run.trail[0].Pending? || run.trail[0].Skipped?)
    && run.trail[|run.trail| - 1] == run.status
    && Climbs(run.trail)
  }

  ghost predicate ColumnsOk(run: Run) {
    && (run.token.Some? <==> run.status.Running?)
    && (run.leaseUntil.Some? <==> run.status.Running?)
    && (run.callback.Some? <==> run.status.WaitingCallback?)
    && (run.finishedAt.Some? <==> !Unfinished(run.status))
    && run.attempt >= 1
  }

  /** The row and its events agree, whatever the rest of the database holds. */
  ghost predicate LifeOk(run: Run, log: seq<Topic>) {
    && ColumnsOk(run)
    && TrailOk(run)
    && Announced(log) == Distinct(run.trail)
    && Exhaustions(log) <= 1
    && (Exhaustions(log) == 1 ==> Broken(run.status))
  }

  /** The columns no transaction ever rewrites. */
  ghost predicate SameIdentity(a: Run, b: Run) {
    && a.tenant == b.tenant && a.job == b.job && a.trigger == b.trigger && a.attempt == b.attempt
    && a.scheduledAt == b.scheduledAt && a.availableAt == b.availableAt
    && a.parent == b.parent && a.retryOf == b.retryOf && a.shard == b.shard && a.rearm == b.rearm
  }

  /** A status write: up in rank, or running again under a new lease. */
  ghost predicate Climb(a: Run, b: Run) {
    && SameIdentity(a, b)
    && Unfinished(a.status)
    && (Rank(a.status) < Rank(b.status) || (a.status.Running? && b.status.Running?))
    && b.trail == a.trail + [b.status]
    && ColumnsOk(b)
    && (!b.status.WaitingCallback? ==> b.node == a.node && b.address == a.address)
  }

  /** The events that go with a status write. */
  ghost predicate Tells(a: Run, b: Run, before: seq<Topic>, after: seq<Topic>) {
    if a.status == b.status then after == before
    else
      || after == before + [Entered(b.status)]
      || (Broken(b.status) && after == before + [Entered(b.status)] + [Exhausted])
  }

  ghost predicate RowStep(a: Run, b: Run, before: seq<Topic>, after: seq<Topic>) {
    (a == b && before == after) || (Climb(a, b) && Tells(a, b, before, after))
  }

  lemma RowStepLife(a: Run, b: Run, before: seq<Topic>, after: seq<Topic>)
    requires LifeOk(a, before)
    requires RowStep(a, b, before, after)
    ensures LifeOk(b, after)
  {
    if a != b {
      DistinctSnoc(a.trail, b.status);
      AnnouncedSnoc(before, Entered(b.status));
      AnnouncedSnoc(before + [Entered(b.status)], Exhausted);
    }
  }

  /** A row fit to be inserted: pending or skipped, with no lease and no callback. */
  ghost predicate NewbornOk(run: Run) {
    && (run.status.Pending? || run.status.Skipped?)
    && run.trail == [run.status]
    && ColumnsOk(run)
  }

  lemma NewbornLife(run: Run)
    requires NewbornOk(run)
    ensures LifeOk(run, [Entered(run.status)])
  {
    AnnouncedSnoc([], Entered(run.status));
    assert [] + [Entered(run.status)] == [Entered(run.status)];
  }

  /** The events of a run name distinct statuses, each above the one before. */
  lemma {:induction false} DistinctClimbs(trail: seq<Status>)
    requires |trail| > 0 && Climbs(trail)
    ensures |Distinct(trail)| > 0
    ensures Distinct(trail)[|Distinct(trail)| - 1] == trail[|trail| - 1]
    ensures forall i :: 0 < i < |Distinct(trail)| ==> Rank(Distinct(trail)[i - 1]) < Rank(Distinct(trail)[i])
  {
    if |trail| > 1 {
      var shorter := trail[..|trail| - 1];
      DistinctClimbs(shorter);
      DistinctSnoc(shorter, trail[|trail| - 1]);
      assert shorter + [trail[|trail| - 1]] == trail;
    }
  }
}
