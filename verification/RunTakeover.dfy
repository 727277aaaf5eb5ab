/** Exactly which runs a claim takes, read off the columns of the tables, and what it makes of them. */
module RunTakeover {
  import opened RunTypes
  import opened RunTransactions
  import opened RunSystem
  import opened RunRefinement
  import opened RunClaims

  // --------------------------------------------------------------- on the columns

  /** Pending and available, or running under a lease that has ended: its worker is taken for dead. */
  predicate Ready(run: Run, now: Time) {
    || (run.status.Pending? && run.availableAt <= now)
    || (run.status.Running? && run.leaseUntil.Some? && run.leaseUntil.value < now)
  }

  /** At work: running under a lease that has not ended, or waiting for a callback. */
  predicate Live(run: Run, now: Time) {
    || (run.status.Running? && run.leaseUntil.Some? && run.leaseUntil.value >= now)
    || run.status.WaitingCallback?
  }

  /** Earlier in line: available earlier, or at the same time with the smaller identifier. */
  predicate Ahead(db: Db, a: Id, b: Id)
    requires a in db.runs && b in db.runs
  {
    || db.runs[a].availableAt < db.runs[b].availableAt
    || (db.runs[a].availableAt == db.runs[b].availableAt && a < b)
  }

  /** Two runs that count against the same cap. */
  predicate SameScope(db: Db, scope: Scope, id: Id)
    requires id in db.runs
  {
    match scope
    case OfJob(j) => db.runs[id].job == j
    case OfTenant(t) => db.runs[id].tenant == t
    case OfCluster(c) => db.runs[id].job in db.jobs && db.jobs[db.runs[id].job].cluster == Some(c)
  }

  function LiveIn(db: Db, scope: Scope, now: Time): set<Id> {
    set q | q in db.runs && SameScope(db, scope, q) && Live(db.runs[q], now)
  }

  /** The runs of the scope that could be claimed and stand in line up to this one. */
  function LineUpTo(db: Db, caps: Caps, scope: Scope, id: Id, now: Time): set<Id>
    requires id in db.runs
  {
    set q | q in db.runs && SameScope(db, scope, q) && Ready(db.runs[q], now) && (q == id || Ahead(db, q, id))
            && db.runs[q].job in db.jobs && db.runs[q].tenant in caps.tenants
  }

  predicate Fits(db: Db, caps: Caps, scope: Scope, cap: int, id: Id, now: Time)
    requires id in db.runs
  {
    |LiveIn(db, scope, now)| + |LineUpTo(db, caps, scope, id, now)| <= cap
  }

  /** Ready, and with those ahead of it within the caps of its job, its tenant and its cluster. */
  predicate Admissible(db: Db, caps: Caps, id: Id, now: Time) {
    && id in db.runs && Ready(db.runs[id], now)
    && db.runs[id].job in db.jobs && db.runs[id].tenant in caps.tenants
    && var run, job := db.runs[id], db.jobs[db.runs[id].job];
       var wide := if run.shard.Some? && run.shard.value.total > job.maxConcurrent then run.shard.value.total
                   else job.maxConcurrent;
       && Fits(db, caps, OfJob(run.job), wide, id, now)
       && Fits(db, caps, OfTenant(run.tenant), caps.tenants[run.tenant], id, now)
       && (job.cluster.Some? ==>
             var c := job.cluster.value;
             Fits(db, caps, OfCluster(c), if c in caps.clusters then caps.clusters[c] else 1, id, now))
  }

  /** The admissible runs ahead of it that nobody else has locked. */
  function Sooner(db: Db, caps: Caps, locked: set<Id>, id: Id, now: Time): set<Id>
    requires id in db.runs
  {
    set q | q in db.runs && q !in locked && Admissible(db, caps, q, now) && Ahead(db, q, id)
  }

  predicate Takes(db: Db, caps: Caps, limit: nat, locked: set<Id>, now: Time, id: Id) {
    id !in locked && Admissible(db, caps, id, now) && |Sooner(db, caps, locked, id, now)| < limit
  }

  // ------------------------------------------------------------- the query says so

  lemma ScopeAgrees(db: Db, caps: Caps, scope: Scope, cap: int, id: Id, now: Time)
    requires Candidate(db, caps, id, now) && InScope(db, id, scope)
    ensures WithinCap(db, caps, scope, cap, id, now) <==> Fits(db, caps, scope, cap, id, now)
  {
    assert ActiveRuns(db, scope, now) == LiveIn(db, scope, now);
    var line, upTo := LineUpTo(db, caps, scope, id, now), UpTo(db, caps, scope, id, now);
    forall q ensures q in line <==> q in upTo { }
    assert line == upTo && id in line;
    hide LineUpTo, UpTo, LiveIn, ActiveRuns;
  }

  lemma QueryAgrees(db: Db, caps: Caps, id: Id, now: Time)
    ensures Eligible(db, caps, id, now) <==> Admissible(db, caps, id, now)
  {
    assert Candidate(db, caps, id, now) <==>
        id in db.runs && Ready(db.runs[id], now) && db.runs[id].job in db.jobs && db.runs[id].tenant in caps.tenants;
    hide WithinCap, Fits, Ready, Claimable;
    if Candidate(db, caps, id, now) {
      var run, job := db.runs[id], db.jobs[db.runs[id].job];
      ScopeAgrees(db, caps, OfJob(run.job), JobCap(db, id), id, now);
      ScopeAgrees(db, caps, OfTenant(run.tenant), caps.tenants[run.tenant], id, now);
      if job.cluster.Some? {
        ScopeAgrees(db, caps, OfCluster(job.cluster.value), ClusterCap(caps, job.cluster.value), id, now);
      }
    }
  }

  /** LIMIT over an ordered pool: the members with fewer than that many ahead of them. */
  lemma PickedByRank(db: Db, pool: set<Id>, limit: nat, id: Id)
    requires pool <= db.runs.Keys && id in pool
    ensures id in Pick(db, pool, limit) <==> |AheadIn(db, pool, id)| < limit
  {
    var p, ahead := Pick(db, pool, limit), AheadIn(db, pool, id);
    PickIsPrefix(db, pool, limit);
    PickDistinct(db, pool, limit);
    hide Pick;
    DistinctCount(p);
    var members := Members(p);
    if id in p {
      forall q | q in ahead ensures q in members && q != id { AheadIsPicked(db, pool, p, id, q); }
      Smaller(ahead, members - {id});
    } else {
      forall q | q in members ensures q in ahead { PickedIsAhead(db, pool, p, id, q); }
      Smaller(members, ahead);
      Smaller(members, pool - {id});
    }
  }

  function AheadIn(db: Db, pool: set<Id>, id: Id): set<Id>
    requires pool <= db.runs.Keys && id in db.runs
  {
    set q | q in pool && Before(db, q, id)
  }

  function Members(p: seq<Id>): set<Id> {
    set q | q in p
  }

  lemma AheadIsPicked(db: Db, pool: set<Id>, p: seq<Id>, id: Id, q: Id)
    requires pool <= db.runs.Keys && id in pool && q in pool && Before(db, q, id) && id in p
    requires forall i :: 0 <= i < |p| ==> p[i] in pool
    requires forall i, x :: 0 <= i < |p| && x in pool && x !in p ==> Before(db, p[i], x)
    ensures q in p && q != id
  {
    var i :| 0 <= i < |p| && p[i] == id;
    assert q in p || Before(db, p[i], q);
  }

  lemma PickedIsAhead(db: Db, pool: set<Id>, p: seq<Id>, id: Id, q: Id)
    requires pool <= db.runs.Keys && id in pool && q in p && id !in p
    requires forall i :: 0 <= i < |p| ==> p[i] in pool
    requires forall i, x :: 0 <= i < |p| && x in pool && x !in p ==> Before(db, p[i], x)
    ensures q in pool && Before(db, q, id)
  {
    var i :| 0 <= i < |p| && p[i] == q;
    assert Before(db, p[i], id);
  }

  lemma PickDistinct(db: Db, pool: set<Id>, limit: nat)
    requires pool <= db.runs.Keys
    ensures var p := Pick(db, pool, limit); forall i, k :: 0 <= i < k < |p| ==> p[i] != p[k]
  {
    PickFacts(db, pool, limit);
  }

  lemma {:induction false} DistinctCount(p: seq<Id>)
    requires forall i, k :: 0 <= i < k < |p| ==> p[i] != p[k]
    ensures |Members(p)| == |p|
  {
    if p == [] {
      assert Members(p) == {};
    } else {
      var shorter := p[..|p| - 1];
      DistinctCount(shorter);
      assert forall i :: 0 <= i < |shorter| ==> shorter[i] == p[i] && p[i] != p[|p| - 1];
      assert p[|p| - 1] !in shorter;
      assert Members(p) == Members(shorter) + {p[|p| - 1]};
    }
  }

  lemma TakesAgrees(db: Db, caps: Caps, limit: nat, locked: set<Id>, now: Time, id: Id)
    ensures Takes(db, caps, limit, locked, now, id) <==> id in Picked(db, caps, limit, locked, now)
  {
    var pool := EligibleRuns(db, caps, now) - locked;
    forall q ensures q in pool <==> q in db.runs && q !in locked && Admissible(db, caps, q, now) {
      QueryAgrees(db, caps, q, now);
    }
    hide Eligible, Admissible, EligibleRuns, Pick;
    if id in pool {
      PickedByRank(db, pool, limit, id);
      assert AheadIn(db, pool, id) == Sooner(db, caps, locked, id, now);
    } else {
      PickFacts(db, pool, limit);
    }
  }

  // ------------------------------------------------------------- what becomes of them

  /** The row, the claim and the events of a run that was taken. */
  ghost predicate TakenOver(db: Db, next: Db, id: Id, lease: Time, now: Time)
    requires id in db.runs && db.runs[id].job in db.jobs
  {
    var run, job := db.runs[id], db.jobs[db.runs[id].job];
    var timeout := (job.timeout + 30) * SECOND;
    && id in next.runs && next.runs[id].token.Some?
    && var token := next.runs[id].token.value;
       && db.unused <= token < next.unused
       && next.runs[id] == run.(status := Running, trail := run.trail + [Running], token := Some(token),
                                leaseUntil := Some(now + if timeout > lease then timeout else lease))
       && token in next.claims && next.claims[token] == Claim(id, next.runs[id], job.maxRetries)
       && Log(next, id) == Log(db, id) + (if run.status.Pending? then [Entered(Running)] else [])
  }

  lemma ClaimOneTakes(db: Db, id: Id, lease: Time, now: Time)
    requires id in db.runs && db.runs[id].job in db.jobs
    ensures TakenOver(db, ClaimOne(db, id, now, lease), id, lease, now)
  {
  }

  /** Claims of other runs leave the run, its claim and its events alone. */
  lemma {:induction false} ClaimsOfOthers(db: Db, picked: seq<Id>, lease: Time, now: Time, id: Id, token: Id)
    requires id !in picked && id in db.runs && token < db.unused
    ensures var next := ClaimEach(db, picked, now, lease);
            && id in next.runs && next.runs[id] == db.runs[id] && Log(next, id) == Log(db, id)
            && next.unused >= db.unused && next.jobs == db.jobs
            && (token in db.claims ==> token in next.claims && next.claims[token] == db.claims[token])
    decreases picked
  {
    if picked != [] {
      var known := picked[0] in db.runs && db.runs[picked[0]].job in db.jobs;
      var mid := if known then ClaimOne(db, picked[0], now, lease) else db;
      ClaimsOfOthers(mid, picked[1..], lease, now, id, token);
    }
  }

  lemma {:induction false} ClaimEachTakes(db: Db, picked: seq<Id>, lease: Time, now: Time, id: Id)
    requires id in picked && id in db.runs && db.runs[id].job in db.jobs && db.unused > 0
    requires forall k, l :: 0 <= k < l < |picked| ==> picked[k] != picked[l]
    ensures TakenOver(db, ClaimEach(db, picked, now, lease), id, lease, now)
    decreases picked
  {
    hide ClaimOne, TakenOver;
    var rest := picked[1..];
    assert forall k :: 0 <= k < |rest| ==> rest[k] == picked[k + 1];
    if picked[0] == id {
      var mid := ClaimOne(db, id, now, lease);
      ClaimOneTakes(db, id, lease, now);
      assert id !in rest;
      TakenStays(db, mid, rest, lease, now, id);
    } else if picked[0] in db.runs && db.runs[picked[0]].job in db.jobs {
      var mid := ClaimOne(db, picked[0], now, lease);
      ClaimOneOther(db, picked[0], lease, now, id);
      ClaimEachTakes(mid, rest, lease, now, id);
      TakenLater(db, mid, ClaimEach(mid, rest, now, lease), id, lease, now);
    } else {
      ClaimEachTakes(db, rest, lease, now, id);
    }
  }

  lemma TakenStays(db: Db, mid: Db, rest: seq<Id>, lease: Time, now: Time, id: Id)
    requires id in db.runs && db.runs[id].job in db.jobs && TakenOver(db, mid, id, lease, now) && id !in rest
    ensures TakenOver(db, ClaimEach(mid, rest, now, lease), id, lease, now)
  {
    ClaimsOfOthers(mid, rest, lease, now, id, mid.runs[id].token.value);
  }

  lemma ClaimOneOther(db: Db, other: Id, lease: Time, now: Time, id: Id)
    requires other in db.runs && db.runs[other].job in db.jobs && id in db.runs && id != other
    ensures var mid := ClaimOne(db, other, now, lease);
            && id in mid.runs && mid.runs[id] == db.runs[id] && Log(mid, id) == Log(db, id)
            && mid.unused > db.unused && mid.jobs == db.jobs
  {
  }

  lemma TakenLater(db: Db, mid: Db, next: Db, id: Id, lease: Time, now: Time)
    requires id in db.runs && db.runs[id].job in db.jobs && id in mid.runs && mid.runs[id] == db.runs[id]
    requires Log(mid, id) == Log(db, id) && mid.unused >= db.unused && mid.jobs == db.jobs
    requires TakenOver(mid, next, id, lease, now)
    ensures TakenOver(db, next, id, lease, now)
  {
  }

  /**
   A claim takes exactly the first runs in line that are ready, unlocked and within all caps, up
   to its limit: each gets a token that was never in use and a lease that outlasts its timeout.
   Every other row stays as it is.
   */
  lemma ClaimsExactly(db: Db, caps: Caps, limit: nat, locked: set<Id>, lease: Time, now: Time, id: Id)
    requires id in db.runs && id < db.unused
    ensures var next := ClaimRuns(db, caps, limit, locked, lease, now);
            && next.jobs == db.jobs && next.runs.Keys == db.runs.Keys
            && (if Takes(db, caps, limit, locked, now, id)
                then db.runs[id].job in db.jobs && TakenOver(db, next, id, lease, now)
                else next.runs[id] == db.runs[id])
  {
    var picked := Picked(db, caps, limit, locked, now);
    hide Picked, ClaimEach, TakenOver, Takes;
    PickedRows(db, caps, limit, locked, lease, now);
    TakesAgrees(db, caps, limit, locked, now, id);
    ClaimEachPicked(db, picked, now, lease);
    if id in picked {
      ClaimEachTakes(db, picked, lease, now, id);
    }
  }

  lemma PickedRows(db: Db, caps: Caps, limit: nat, locked: set<Id>, lease: Time, now: Time)
    ensures var p := Picked(db, caps, limit, locked, now);
            && (forall i, k :: 0 <= i < k < |p| ==> p[i] != p[k])
            && (forall id :: id in p ==> id in db.runs && db.runs[id].job in db.jobs)
            && ClaimRuns(db, caps, limit, locked, lease, now) == ClaimEach(db, p, now, lease)
  {
    hide ClaimEach, WithinCap, Pick;
    var pool := EligibleRuns(db, caps, now) - locked;
    assert Picked(db, caps, limit, locked, now) == Pick(db, pool, limit);
    PickDistinct(db, pool, limit);
    PickedEligible(db, caps, limit, locked, now);
  }

  // ----------------------------------------------------------------- what follows

  /** The unfinished runs of a scope ahead of this one. */
  function UnfinishedAhead(db: Db, id: Id): set<Id>
    requires id in db.runs
  {
    set q | q in db.runs && Unfinished(db.runs[q].status) && Ahead(db, q, id)
  }

  function UnfinishedAheadIn(db: Db, scope: Scope, id: Id): set<Id>
    requires id in db.runs
  {
    set q | q in db.runs && Unfinished(db.runs[q].status) && SameScope(db, scope, q) && Ahead(db, q, id)
  }

  /** The cap of the scope has room for this run, even if all unfinished ones ahead of it are served first. */
  predicate Spacious(db: Db, scope: Scope, cap: int, id: Id, now: Time)
    requires id in db.runs
  {
    |LiveIn(db, scope, now)| + |UnfinishedAheadIn(db, scope, id)| < cap
  }

  lemma SpaciousFits(db: Db, caps: Caps, scope: Scope, cap: int, id: Id, now: Time)
    requires id in db.runs && Spacious(db, scope, cap, id, now)
    ensures Fits(db, caps, scope, cap, id, now)
  {
    var line, ahead := LineUpTo(db, caps, scope, id, now), UnfinishedAheadIn(db, scope, id);
    assert line <= ahead + {id};
    Smaller(line, ahead + {id});
  }

  /**
   No run is left behind: a run whose worker has gone, so that its lease has ended, or one that is
   pending and available, is running after the next claim, under a token that was never in use, if
   nobody has locked it, fewer unfinished runs are ahead of it than the claim takes, and the caps
   of its job, its tenant and its cluster have room for it behind those.
   */
  lemma LostRunsAreTakenOver(db: Db, caps: Caps, limit: nat, locked: set<Id>, lease: Time, now: Time, id: Id)
    requires id in db.runs && id < db.unused && id !in locked && |UnfinishedAhead(db, id)| < limit
    requires || (db.runs[id].status.Running? && db.runs[id].leaseUntil.Some? && db.runs[id].leaseUntil.value < now)
             || (db.runs[id].status.Pending? && db.runs[id].availableAt <= now)
    requires db.runs[id].job in db.jobs && db.runs[id].tenant in caps.tenants
    requires var run, job := db.runs[id], db.jobs[db.runs[id].job];
             && Spacious(db, OfJob(run.job), job.maxConcurrent, id, now)
             && Spacious(db, OfTenant(run.tenant), caps.tenants[run.tenant], id, now)
             && (job.cluster.Some? ==>
                   var c := job.cluster.value;
                   Spacious(db, OfCluster(c), if c in caps.clusters then caps.clusters[c] else 1, id, now))
    ensures var next := ClaimRuns(db, caps, limit, locked, lease, now);
            && id in next.runs && next.runs[id].status.Running?
            && next.runs[id].token.Some? && next.runs[id].token.value >= db.unused
  {
    var run, job := db.runs[id], db.jobs[db.runs[id].job];
    SpaciousFits(db, caps, OfJob(run.job), job.maxConcurrent, id, now);
    SpaciousFits(db, caps, OfTenant(run.tenant), caps.tenants[run.tenant], id, now);
    if job.cluster.Some? {
      var c := job.cluster.value;
      SpaciousFits(db, caps, OfCluster(c), if c in caps.clusters then caps.clusters[c] else 1, id, now);
    }
    assert Admissible(db, caps, id, now);
    var sooner, ahead := Sooner(db, caps, locked, id, now), UnfinishedAhead(db, id);
    assert sooner <= ahead;
    Smaller(sooner, ahead);
    hide Fits, Sooner, UnfinishedAhead, Spacious;
    ClaimsExactly(db, caps, limit, locked, lease, now, id);
  }
}
