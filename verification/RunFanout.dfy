/** Dependency fan-out: an acyclic graph, short chains of parents, every child started once. */
module RunFanout {
  import opened RunTypes
  import opened RunBlocks
  import opened RunEvolution
  import opened RunMicro
  import opened RunParents
  import opened RunSystem
  import opened RunRefinement
  import opened RunHistory
  import opened RunGuarantees
  import Dependencies

  /** However dependencies are edited, the graph has no cycle. */
  lemma GraphStaysAcyclic(actions: seq<Action>)
    ensures Dependencies.Acyclic(Exec(actions).edges)
  {
    hide Dependencies.Acyclic, Whole, Exec;
    ExecSound(actions);
  }

  /** A succeeded run starts each child job at most once: one run, or the shards of one broadcast. */
  lemma ChildrenStartedOnce(db: Db, a: Id, b: Id)
    requires Reachable(db) && a in db.runs && b in db.runs
    requires db.runs[a].parent.Some? && db.runs[b].parent == db.runs[a].parent && db.runs[b].job == db.runs[a].job
    requires db.runs[a].retryOf.None? && db.runs[b].retryOf.None?
    ensures Together(db.runs, a, b)
    ensures db.runs[a].parent.value in db.runs && db.runs[db.runs[a].parent.value].status.Succeeded?
    ensures (db.runs[a].parent.value, db.runs[a].job) in db.dispatched
  {
    assert Parents(db) by { ReachableInv(db); }
    assert ParentOk(db, a) && TwoFirst(db.runs, a, b);
  }

  // ---------------------------------------------------------- chains of parents

  ghost predicate AlongEdges(runs: map<Id, Run>, edges: set<(Id, Id)>) {
    forall id :: id in runs && runs[id].parent.Some? ==>
      runs[id].parent.value in runs && (runs[runs[id].parent.value].job, runs[id].job) in edges
  }

  lemma PlayAlong(s: State, m: Micro, edges: set<(Id, Id)>)
    requires Whole(s.db) && Allowed(s, m) && AlongEdges(s.db.runs, edges) && s.db.edges <= edges
    ensures AlongEdges(Play(s, m).db.runs, edges)
  {
    hide Inv, Allowed, Play, LaterIds, LaterLogs, LaterClaims, LaterCommands;
    PlayKept(s, m);
    PlayNewParents(s, m);
    AlongStep(s.db, Play(s, m).db, edges);
  }

  lemma AlongStep(db: Db, next: Db, edges: set<(Id, Id)>)
    requires LaterRows(db, next) && NewParents(db, next)
    requires AlongEdges(db.runs, edges) && db.edges <= edges
    ensures AlongEdges(next.runs, edges)
  {
    forall id | id in next.runs && next.runs[id].parent.Some?
      ensures next.runs[id].parent.value in next.runs
      ensures (next.runs[next.runs[id].parent.value].job, next.runs[id].job) in edges
    {
      var p := next.runs[id].parent.value;
      if id in db.runs {
        assert LaterRow(db.runs[id], next.runs[id], db.unused);
      } else {
        assert NewParent(db, next, id);
      }
      assert LaterRow(db.runs[p], next.runs[p], db.unused);
    }
  }

  lemma {:induction false} RunsAlong(a: State, ms: seq<Micro>, b: State, edges: set<(Id, Id)>)
    requires Whole(a.db) && Runs(a, ms, b) && AlongEdges(a.db.runs, edges) && a.db.edges <= edges
    ensures AlongEdges(b.db.runs, edges)
    decreases |ms|
  {
    hide Inv, Parents, Allowed, Play, AlongEdges, Evolves;
    if ms != [] {
      PlayAlong(a, ms[0], edges);
      PlayWhole(a, ms[0]);
      RunsAlong(Play(a, ms[0]), ms[1..], b, edges);
    }
  }

  lemma DoAlong(db: Db, a: Action, edges: set<(Id, Id)>)
    requires Sound(db) && AlongEdges(db.runs, edges) && db.edges <= edges
    ensures AlongEdges(Do(db, a).runs, edges)
  {
    hide Whole, Apply, Administered, Dependencies.Acyclic, AlongEdges;
    if Apply(db, a).Ok? {
      var next := Apply(db, a).value;
      if Administers(a) {
        AdministerAction(db, a);
        AdministeredRuns(db, next);
      } else {
        var ms := RefineAction(db, a);
        RunsAlong(State(db, None), ms, State(next, None), edges);
      }
    }
  }

  /** While the graph stays within `edges`, every run and its parent run follow one of them. */
  lemma {:induction false} ParentsFollowEdges(actions: seq<Action>, edges: set<(Id, Id)>)
    requires forall k :: 0 <= k <= |actions| ==> Exec(actions[..k]).edges <= edges
    ensures AlongEdges(Exec(actions).runs, edges)
    decreases |actions|
  {
    hide Sound, Do;
    if actions != [] {
      var shorter := actions[..|actions| - 1];
      assert forall k :: 0 <= k <= |shorter| ==> shorter[..k] == actions[..k];
      ParentsFollowEdges(shorter, edges);
      ExecSound(shorter);
      assert shorter == actions[..|shorter|];
      hide AlongEdges;
      DoAlong(Exec(shorter), actions[|actions| - 1], edges);
    }
  }

  /** Runs linked by parent_run_id, eldest first. */
  ghost predicate ParentChain(runs: map<Id, Run>, c: seq<Id>) {
    && |c| >= 1 && (forall i :: 0 <= i < |c| ==> c[i] in runs)
    && (forall i :: 0 < i < |c| ==> runs[c[i]].parent == Some(c[i - 1]))
  }

  /** With a graph that stays within an acyclic one, a chain of parents is no longer than the number of jobs. */
  lemma ParentChainsAreShort(actions: seq<Action>, edges: set<(Id, Id)>, c: seq<Id>)
    requires forall k :: 0 <= k <= |actions| ==> Exec(actions[..k]).edges <= edges
    requires Dependencies.Acyclic(edges)
    requires ParentChain(Exec(actions).runs, c)
    ensures |c| <= |Exec(actions).jobs|
  {
    var db := Exec(actions);
    ParentsFollowEdges(actions, edges);
    assert Places(db.runs, db.jobs, db.unused) by { ExecSound(actions); }
    hide Dependencies.Acyclic, Exec;
    var p := seq(|c|, i requires 0 <= i < |c| => db.runs[c[i]].job);
    forall i | 0 < i < |p| ensures (p[i - 1], p[i]) in edges {
      assert db.runs[c[i]].parent == Some(c[i - 1]);
    }
    forall i | 0 <= i < |p| ensures p[i] in db.jobs.Keys {
      assert PlaceOk(db.runs[c[i]], db.jobs, db.unused);
    }
    Dependencies.PathIsShort(edges, p, db.jobs.Keys);
  }
}
