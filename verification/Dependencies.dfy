/** The graph of job dependencies and the check that keeps it free of cycles. */
module Dependencies {
  import opened RunTypes

  type Edges = set<(Id, Id)>

  ghost predicate Path(edges: Edges, p: seq<Id>) {
    |p| >= 1 && forall i :: 0 < i < |p| ==> (p[i - 1], p[i]) in edges
  }

  ghost predicate PathFrom(edges: Edges, p: seq<Id>, a: Id, b: Id) {
    Path(edges, p) && p[0] == a && p[|p| - 1] == b
  }

  /** b can be reached from a along at least one edge. */
  ghost predicate Reaches(edges: Edges, a: Id, b: Id) {
    exists p :: PathFrom(edges, p, a, b) && |p| >= 2
  }

  /** b is a, or can be reached from it. */
  ghost predicate Star(edges: Edges, a: Id, b: Id) {
    exists p :: PathFrom(edges, p, a, b)
  }

  ghost predicate Acyclic(edges: Edges) {
    forall a :: !Reaches(edges, a, a)
  }

  lemma StarRefl(edges: Edges, a: Id)
    ensures Star(edges, a, a)
  {
    assert PathFrom(edges, [a], a, a);
  }

  lemma StarIsReach(edges: Edges, a: Id, b: Id)
    requires Star(edges, a, b)
    ensures a == b || Reaches(edges, a, b)
  {
    var p :| PathFrom(edges, p, a, b);
    if |p| >= 2 {
      assert Reaches(edges, a, b);
    }
  }

  lemma Joined(edges: Edges, p: seq<Id>, q: seq<Id>, a: Id, b: Id, c: Id)
    requires PathFrom(edges, p, a, b) && PathFrom(edges, q, b, c)
    ensures PathFrom(edges, p + q[1..], a, c)
  {
    var r := p + q[1..];
    forall i | 0 < i < |r| ensures (r[i - 1], r[i]) in edges {
      if i < |p| {
      } else {
        assert r[i] == q[i - |p| + 1];
        assert r[i - 1] == q[i - |p|];
      }
    }
  }

  lemma StarTrans(edges: Edges, a: Id, b: Id, c: Id)
    requires Star(edges, a, b) && Star(edges, b, c)
    ensures Star(edges, a, c)
  {
    var p :| PathFrom(edges, p, a, b);
    var q :| PathFrom(edges, q, b, c);
    Joined(edges, p, q, a, b, c);
  }

  /** A path that may use one new edge either avoids it, or leads to its tail and from its head. */
  lemma {:induction false} Detour(edges: Edges, p: Id, c: Id, path: seq<Id>)
    requires Path(edges + {(p, c)}, path)
    ensures Path(edges, path) || (Star(edges, path[0], p) && Star(edges, c, path[|path| - 1]))
    decreases |path|
  {
    if |path| >= 2 {
      var rest := path[1..];
      Detour(edges, p, c, rest);
      var e := (path[0], path[1]);
      assert e in edges + {(p, c)};
      if Path(edges, rest) {
        if e in edges {
          assert Path(edges, path) by {
            forall i | 0 < i < |path| ensures (path[i - 1], path[i]) in edges {
              if i > 1 { assert path[i] == rest[i - 1] && path[i - 1] == rest[i - 2]; }
            }
          }
        } else {
          StarRefl(edges, p);
          assert PathFrom(edges, rest, c, path[|path| - 1]);
        }
      } else if e in edges {
        assert PathFrom(edges, [path[0], path[1]], path[0], path[1]);
        StarTrans(edges, path[0], path[1], p);
      } else {
        StarRefl(edges, p);
      }
    }
  }

  /** A cycle that one new edge brings was there before, or runs through that edge. */
  lemma CycleThrough(edges: Edges, p: Id, c: Id, a: Id)
    requires Reaches(edges + {(p, c)}, a, a)
    ensures Reaches(edges, a, a) || p == c || Reaches(edges, c, p)
  {
    var path :| PathFrom(edges + {(p, c)}, path, a, a) && |path| >= 2;
    Detour(edges, p, c, path);
    if Path(edges, path) {
      assert PathFrom(edges, path, a, a);
    } else {
      StarTrans(edges, c, a, p);
      StarIsReach(edges, c, p);
    }
  }

  lemma ClosesCycle(edges: Edges, p: Id, c: Id)
    requires p == c || Reaches(edges, c, p)
    ensures Reaches(edges + {(p, c)}, p, p)
  {
    var more := edges + {(p, c)};
    if p == c {
      assert PathFrom(more, [p, c], p, p);
    } else {
      var path :| PathFrom(edges, path, c, p) && |path| >= 2;
      assert PathFrom(more, path, c, p);
      assert PathFrom(more, [p, c], p, c);
      Joined(more, [p, c], path, p, c, p);
    }
  }

  /** The check of SetJobDependencies is exactly what one more edge needs. */
  lemma EdgeKeepsAcyclic(edges: Edges, p: Id, c: Id)
    requires Acyclic(edges)
    ensures Acyclic(edges + {(p, c)}) <==> p != c && !Reaches(edges, c, p)
  {
    if p == c || Reaches(edges, c, p) {
      ClosesCycle(edges, p, c);
    } else {
      forall a ensures !Reaches(edges + {(p, c)}, a, a) {
        if Reaches(edges + {(p, c)}, a, a) {
          CycleThrough(edges, p, c, a);
        }
      }
    }
  }

  lemma ReachesMore(fewer: Edges, edges: Edges, a: Id, b: Id)
    requires fewer <= edges && Reaches(fewer, a, b)
    ensures Reaches(edges, a, b)
  {
    var p :| PathFrom(fewer, p, a, b) && |p| >= 2;
    assert PathFrom(edges, p, a, b);
  }

  lemma FewerEdges(edges: Edges, fewer: Edges)
    requires Acyclic(edges) && fewer <= edges
    ensures Acyclic(fewer)
  {
    forall a ensures !Reaches(fewer, a, a) {
      if Reaches(fewer, a, a) {
        ReachesMore(fewer, edges, a, a);
      }
    }
  }

  // ------------------------------------------------------- SetJobDependencies

  function WithoutParent(edges: Edges, parent: Id): Edges {
    set e | e in edges && e.0 != parent
  }

  /** The insert loop, one child after the other. */
  ghost function InsertChildren(edges: Edges, parent: Id, children: seq<Id>): Result<Edges>
    decreases children
  {
    if children == [] then Ok(edges)
    else if children[0] == parent || Reaches(edges, children[0], parent) then Err(DependencyCycle)
    else InsertChildren(edges + {(parent, children[0])}, parent, children[1..])
  }

  function EdgesOf(parent: Id, children: seq<Id>): Edges {
    set c | c in children :: (parent, c)
  }

  /** The jobs of the tenant among those the caller names. */
  function Named(tenantJobs: set<Id>, parent: Id, children: seq<Id>): set<Id> {
    set j | j in tenantJobs && (j == parent || j in children)
  }

  /** All of SetJobDependencies; `tenantJobs` are the jobs of the caller's tenant. */
  ghost function SetDependencies(edges: Edges, tenantJobs: set<Id>, parent: Id, children: seq<Id>): Result<Edges> {
    if |Named(tenantJobs, parent, children)| != |children| + 1 then Err(NotFound)
    else InsertChildren(WithoutParent(edges, parent), parent, children)
  }

  lemma {:induction false} InsertKeepsAcyclic(edges: Edges, parent: Id, children: seq<Id>)
    requires Acyclic(edges)
    ensures InsertChildren(edges, parent, children).Ok? <==> Acyclic(edges + EdgesOf(parent, children))
    ensures InsertChildren(edges, parent, children).Ok? ==>
              InsertChildren(edges, parent, children).value == edges + EdgesOf(parent, children)
    decreases children
  {
    if children == [] {
      assert edges + EdgesOf(parent, children) == edges;
    } else {
      var c := children[0];
      var more := edges + {(parent, c)};
      var all := edges + EdgesOf(parent, children);
      assert EdgesOf(parent, children) == {(parent, c)} + EdgesOf(parent, children[1..]) by {
        assert forall x :: x in children <==> x == c || x in children[1..];
      }
      EdgeKeepsAcyclic(edges, parent, c);
      if c == parent || Reaches(edges, c, parent) {
        if Acyclic(all) {
          FewerEdges(all, more);
        }
      } else {
        InsertKeepsAcyclic(more, parent, children[1..]);
        assert all == more + EdgesOf(parent, children[1..]);
      }
    }
  }

  /**
   The update is accepted exactly when all the jobs exist, are different, and the
   new edges close no cycle; then the graph is the old one with this parent's
   edges replaced, and still has no cycle.
   */
  lemma SetDependenciesExact(edges: Edges, tenantJobs: set<Id>, parent: Id, children: seq<Id>)
    requires Acyclic(edges)
    ensures var named := Named(tenantJobs, parent, children);
            var wanted := WithoutParent(edges, parent) + EdgesOf(parent, children);
            var r := SetDependencies(edges, tenantJobs, parent, children);
            && (r.Ok? <==> |named| == |children| + 1 && Acyclic(wanted))
            && (r.Ok? ==> r.value == wanted && Acyclic(r.value))
            && (r == Err(NotFound) <==> |named| != |children| + 1)
  {
    FewerEdges(edges, WithoutParent(edges, parent));
    InsertKeepsAcyclic(WithoutParent(edges, parent), parent, children);
    InsertError(WithoutParent(edges, parent), parent, children);
  }

  lemma {:induction false} InsertError(edges: Edges, parent: Id, children: seq<Id>)
    ensures InsertChildren(edges, parent, children).Err? ==>
              InsertChildren(edges, parent, children).error == DependencyCycle
    decreases children
  {
    if children != [] && !(children[0] == parent || Reaches(edges, children[0], parent)) {
      InsertError(edges + {(parent, children[0])}, parent, children[1..]);
    }
  }

  // ------------------------------------------------------------ path lengths

  lemma LoopReaches(edges: Edges, p: seq<Id>, i: nat, j: nat)
    requires Path(edges, p) && i < j < |p| && p[i] == p[j]
    ensures Reaches(edges, p[i], p[i])
  {
    var part := p[i..j + 1];
    assert forall k :: 0 < k < |part| ==> (part[k - 1], part[k]) == (p[i + k - 1], p[i + k]);
    assert PathFrom(edges, part, p[i], p[i]);
  }

  /** Without cycles no path visits a job twice, so it is no longer than the set it stays in. */
  lemma PathIsShort(edges: Edges, p: seq<Id>, within: set<Id>)
    requires Acyclic(edges) && Path(edges, p)
    requires forall i :: 0 <= i < |p| ==> p[i] in within
    ensures |p| <= |within|
  {
    forall i, j | 0 <= i < j < |p| ensures p[i] != p[j] {
      if p[i] == p[j] {
        LoopReaches(edges, p, i, j);
      }
    }
    DistinctFit(p, within);
  }

  lemma {:induction false} DistinctFit(p: seq<Id>, within: set<Id>)
    requires forall i, j :: 0 <= i < j < |p| ==> p[i] != p[j]
    requires forall i :: 0 <= i < |p| ==> p[i] in within
    ensures |p| <= |within|
    decreases |p|
  {
    if p != [] {
      var rest := p[1..];
      DistinctFit(rest, within - {p[0]});
    }
  }

  // --------------------------------------------------- the recursive query

  /** One round of the recursive part of the query. */
  function Successors(edges: Edges, from: set<Id>): set<Id> {
    set e | e in edges && e.0 in from :: e.1
  }

  lemma {:induction false} ClosedHolds(edges: Edges, found: set<Id>, start: Id, p: seq<Id>)
    requires forall e :: e in edges && (e.0 == start || e.0 in found) ==> e.1 in found
    requires Path(edges, p) && p[0] == start && |p| >= 2
    ensures p[|p| - 1] in found
    decreases |p|
  {
    var q := p[..|p| - 1];
    assert (p[|p| - 2], p[|p| - 1]) in edges;
    if |q| >= 2 {
      ClosedHolds(edges, found, start, q);
    }
  }

  /** WITH RECURSIVE descendants: working table and result, until no row is new. */
  method Descendants(edges: Edges, start: Id) returns (found: set<Id>)
    ensures forall x :: x in found <==> Reaches(edges, start, x)
  {
    found := Successors(edges, {start});
    var working := found;
    ghost var heads := set e | e in edges :: e.1;
    assert forall x :: x in found ==> Reaches(edges, start, x) by {
      forall x | x in found ensures Reaches(edges, start, x) {
        assert PathFrom(edges, [start, x], start, x);
      }
    }
    while working != {}
      invariant working <= found <= heads
      invariant forall x :: x in found ==> Reaches(edges, start, x)
      invariant forall e :: e in edges && (e.0 == start || e.0 in found - working) ==> e.1 in found
      decreases heads - found, working
    {
      var step := Successors(edges, working) - found;
      forall x | x in step ensures Reaches(edges, start, x) {
        var e :| e in edges && e.0 in working && e.1 == x;
        var p :| PathFrom(edges, p, start, e.0) && |p| >= 2;
        assert PathFrom(edges, [e.0, x], e.0, x);
        Joined(edges, p, [e.0, x], start, e.0, x);
      }
      assert forall e :: e in edges && e.0 in working ==> e.1 in found + step;
      found := found + step;
      working := step;
    }
    forall x | Reaches(edges, start, x) ensures x in found {
      var p :| PathFrom(edges, p, start, x) && |p| >= 2;
      ClosedHolds(edges, found, start, p);
    }
  }
}
