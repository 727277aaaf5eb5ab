/** Claim capacity: no claim pushes live runs of a job, a tenant or a cluster above its cap. */
module RunClaims {
  import opened RunTypes
  import opened RunTransactions
  import opened RunSystem
  import opened RunRefinement

  ghost predicate IsLast(db: Db, pool: set<Id>, m: Id)
    requires pool <= db.runs.Keys
  {
    m in pool && forall q :: q in pool ==> !Before(db, m, q)
  }

  lemma {:induction false} Last(db: Db, pool: set<Id>) returns (m: Id)
    requires pool <= db.runs.Keys && pool != {}
    ensures IsLast(db, pool, m)
    decreases |pool|
  {
    var a :| a in pool;
    var rest := pool - {a};
    assert pool == rest + {a};
    if rest == {} {
      m := a;
    } else {
      var l := Last(db, rest);
      m := if Before(db, l, a) then a else l;
    }
  }

  lemma {:induction false} Smaller(a: set<Id>, b: set<Id>)
    requires a <= b
    ensures |a| <= |b|
    decreases |a|
  {
    if a != {} {
      var x :| x in a;
      Smaller(a - {x}, b - {x});
    }
  }

  /** The rank argument: the last admitted row of a scope counts all the others. */
  lemma AdmittedFit(db: Db, caps: Caps, scope: Scope, cap: int, admitted: set<Id>, now: Time)
    requires forall id :: id in admitted ==> id in db.runs && Candidate(db, caps, id, now) && InScope(db, id, scope)
    requires forall id :: id in admitted ==> WithinCap(db, caps, scope, cap, id, now)
    ensures |admitted| <= Max(cap - |ActiveRuns(db, scope, now)|, 0)
  {
    if admitted != {} {
      var m := Last(db, admitted);
      assert WithinCap(db, caps, scope, cap, m, now);
      assert admitted <= UpTo(db, caps, scope, m, now);
      Smaller(admitted, UpTo(db, caps, scope, m, now));
    }
  }

  // --------------------------------------------------------- the state afterwards

  /** Only the picked rows change, and they keep their job and tenant. */
  ghost predicate OnlyPicked(db: Db, next: Db, picked: seq<Id>) {
    && next.jobs == db.jobs && next.runs.Keys == db.runs.Keys
    && (forall id :: id in db.runs && id !in picked ==> next.runs[id] == db.runs[id])
    && (forall id :: id in db.runs ==>
          next.runs[id].job == db.runs[id].job && next.runs[id].tenant == db.runs[id].tenant)
  }

  lemma {:induction false} ClaimEachPicked(db: Db, picked: seq<Id>, now: Time, lease: Time)
    ensures OnlyPicked(db, ClaimEach(db, picked, now, lease), picked)
    decreases picked
  {
    if picked != [] {
      var mid := if picked[0] in db.runs && db.runs[picked[0]].job in db.jobs
        then ClaimOne(db, picked[0], now, lease) else db;
      ClaimEachPicked(mid, picked[1..], now, lease);
    }
  }

  function Admitted(db: Db, picked: seq<Id>, scope: Scope): set<Id> {
    set id | id in db.runs && id in picked && InScope(db, id, scope)
  }

  lemma ActiveAfter(db: Db, next: Db, picked: seq<Id>, scope: Scope, now: Time)
    requires OnlyPicked(db, next, picked)
    ensures |ActiveRuns(next, scope, now)| <= |ActiveRuns(db, scope, now)| + |Admitted(db, picked, scope)|
  {
    forall id | id in ActiveRuns(next, scope, now)
      ensures id in ActiveRuns(db, scope, now) + Admitted(db, picked, scope)
    {
      assert InScope(db, id, scope);
    }
    Smaller(ActiveRuns(next, scope, now), ActiveRuns(db, scope, now) + Admitted(db, picked, scope));
  }

  lemma ScopeCapacity(db: Db, caps: Caps, picked: seq<Id>, scope: Scope, cap: int, lease: Time, now: Time)
    requires forall id :: id in Admitted(db, picked, scope) ==>
               Candidate(db, caps, id, now) && WithinCap(db, caps, scope, cap, id, now)
    ensures |ActiveRuns(ClaimEach(db, picked, now, lease), scope, now)| <= Max(cap, |ActiveRuns(db, scope, now)|)
  {
    hide ClaimEach, WithinCap, Candidate, ActiveRuns;
    ClaimEachPicked(db, picked, now, lease);
    ActiveAfter(db, ClaimEach(db, picked, now, lease), picked, scope, now);
    AdmittedFit(db, caps, scope, cap, Admitted(db, picked, scope), now);
  }

  /** The rows one claim takes. */
  ghost function Picked(db: Db, caps: Caps, limit: nat, locked: set<Id>, now: Time): seq<Id> {
    Pick(db, EligibleRuns(db, caps, now) - locked, limit)
  }

  lemma PickedEligible(db: Db, caps: Caps, limit: nat, locked: set<Id>, now: Time)
    ensures forall id :: id in Picked(db, caps, limit, locked, now) ==>
              id in db.runs && Eligible(db, caps, id, now) && id !in locked
  {
    hide Eligible;
    PickFacts(db, EligibleRuns(db, caps, now) - locked, limit);
  }

  /** Tenants: live runs after a claim never exceed the tenant's cap, unless they did before. */
  lemma TenantCapacity(db: Db, caps: Caps, limit: nat, locked: set<Id>, lease: Time, now: Time, tenant: Id)
    requires tenant in caps.tenants
    ensures |ActiveRuns(ClaimRuns(db, caps, limit, locked, lease, now), OfTenant(tenant), now)|
         <= Max(caps.tenants[tenant], |ActiveRuns(db, OfTenant(tenant), now)|)
  {
    hide ClaimEach, WithinCap, ActiveRuns, Pick;
    PickedEligible(db, caps, limit, locked, now);
    ScopeCapacity(db, caps, Picked(db, caps, limit, locked, now), OfTenant(tenant), caps.tenants[tenant], lease, now);
  }

  /** Clusters, whose cap is 1 when none is configured. */
  lemma ClusterCapacity(db: Db, caps: Caps, limit: nat, locked: set<Id>, lease: Time, now: Time, cluster: Id)
    ensures |ActiveRuns(ClaimRuns(db, caps, limit, locked, lease, now), OfCluster(cluster), now)|
         <= Max(ClusterCap(caps, cluster), |ActiveRuns(db, OfCluster(cluster), now)|)
  {
    hide ClaimEach, WithinCap, ActiveRuns, Pick;
    PickedEligible(db, caps, limit, locked, now);
    ScopeCapacity(db, caps, Picked(db, caps, limit, locked, now), OfCluster(cluster), ClusterCap(caps, cluster),
      lease, now);
  }

  /** Jobs: the cap is widened to the size of the broadcasts whose shards are claimed. */
  lemma JobCapacity(db: Db, caps: Caps, limit: nat, locked: set<Id>, lease: Time, now: Time, j: Id, cap: int)
    requires forall id :: id in Picked(db, caps, limit, locked, now) && id in db.runs && db.runs[id].job == j ==>
               j in db.jobs && JobCap(db, id) <= cap
    ensures |ActiveRuns(ClaimRuns(db, caps, limit, locked, lease, now), OfJob(j), now)|
         <= Max(cap, |ActiveRuns(db, OfJob(j), now)|)
  {
    hide ClaimEach, ActiveRuns, Pick, UpTo;
    PickedEligible(db, caps, limit, locked, now);
    ScopeCapacity(db, caps, Picked(db, caps, limit, locked, now), OfJob(j), cap, lease, now);
  }

  // ------------------------------------------------------------ which rows it takes

  /** The claim takes the first rows that qualify, in order, and leaves none behind below the limit. */
  lemma {:induction false} PickIsPrefix(db: Db, pool: set<Id>, limit: nat)
    requires pool <= db.runs.Keys
    ensures var p := Pick(db, pool, limit);
            && |p| == (if |pool| < limit then |pool| else limit)
            && (forall i :: 0 <= i < |p| ==> p[i] in pool)
            && (forall i, k :: 0 <= i < k < |p| ==> Before(db, p[i], p[k]))
            && (forall i, q :: 0 <= i < |p| && q in pool && q !in p ==> Before(db, p[i], q))
    decreases limit
  {
    if limit != 0 && pool != {} {
      var p := Pick(db, pool, limit);
      var m := p[0];
      var rest := Pick(db, pool - {m}, limit - 1);
      assert IsFirst(db, pool, m) && p == [m] + rest;
      PickIsPrefix(db, pool - {m}, limit - 1);
      assert |pool - {m}| == |pool| - 1;
      assert forall i :: 0 < i < |p| ==> p[i] == rest[i - 1];
    }
  }

  /** The i-th picked row runs under the i-th new token until its lease ends. */
  lemma {:induction false} ClaimEachLeases(db: Db, picked: seq<Id>, now: Time, lease: Time, i: nat)
    requires i < |picked| && (forall k, l :: 0 <= k < l < |picked| ==> picked[k] != picked[l])
    requires forall k :: 0 <= k < |picked| ==> picked[k] in db.runs && db.runs[picked[k]].job in db.jobs
    ensures var next := ClaimEach(db, picked, now, lease);
            && picked[i] in next.runs && next.runs[picked[i]].status.Running?
            && next.runs[picked[i]].token == Some(db.unused + i)
            && next.runs[picked[i]].leaseUntil == Some(LeaseEnd(db, picked[i], now, lease))
    decreases picked
  {
    var mid := ClaimOne(db, picked[0], now, lease);
    var rest := picked[1..];
    assert forall k :: 0 <= k < |rest| ==> rest[k] == picked[k + 1];
    if i == 0 {
      ClaimEachPicked(mid, rest, now, lease);
      assert picked[0] !in rest;
    } else {
      ClaimEachLeases(mid, rest, now, lease, i - 1);
    }
  }

  /**
   Every claimed row gets a token of its own that was never in use, and a lease that
   outlasts the job's timeout; until the lease ends nobody else can claim the row.
   */
  lemma ClaimedUntilLeaseEnds(db: Db, caps: Caps, limit: nat, locked: set<Id>, lease: Time, now: Time, i: nat)
    requires i < |Picked(db, caps, limit, locked, now)|
    ensures var id, next := Picked(db, caps, limit, locked, now)[i], ClaimRuns(db, caps, limit, locked, lease, now);
            && id in next.runs && next.runs[id].token == Some(db.unused + i)
            && id in db.runs && db.runs[id].job in db.jobs
            && (forall t :: t <= now + lease || t <= now + (db.jobs[db.runs[id].job].timeout + 30) * SECOND ==>
                  !Claimable(next.runs[id], t))
  {
    var picked := Picked(db, caps, limit, locked, now);
    PickedEligible(db, caps, limit, locked, now);
    PickFacts(db, EligibleRuns(db, caps, now) - locked, limit);
    hide Pick, WithinCap, ClaimEach;
    forall k | 0 <= k < |picked| ensures picked[k] in db.runs && db.runs[picked[k]].job in db.jobs {
      assert picked[k] in picked;
    }
    ClaimEachLeases(db, picked, now, lease, i);
  }
}
