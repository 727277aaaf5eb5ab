/** Consistent hashing of executors: which node a key goes to, and how little that moves with membership. */
module Routing {

  datatype Candidate = Candidate(id: string, address: string)

  /** A virtual node: a position on the ring and the node behind it. */
  datatype Point = Point(hash: nat, node: Candidate)

  const VIRTUAL_NODES := 100

  function Itoa(n: nat): string {
    if n < 10 then [('0' as int + n) as char] else Itoa(n / 10) + [('0' as int + n % 10) as char]
  }

  function VirtualKey(address: string, index: nat): string {
    "SHARD-" + address + "-NODE-" + Itoa(index)
  }

  // ------------------------------------------------------------------ the ring as a set

  /** One of the node's virtual nodes hashes to h. */
  ghost predicate Owns(hash: string -> nat, node: Candidate, h: nat) {
    exists i: nat :: i < VIRTUAL_NODES && hash(VirtualKey(node.address, i)) == h
  }

  ghost predicate Taken(nodes: set<Candidate>, hash: string -> nat, h: nat) {
    exists n :: n in nodes && Owns(hash, n, h)
  }

  /** Going clockwise from start, h comes no later than g. */
  predicate Closer(start: nat, h: nat, g: nat) {
    if h >= start then g < start || h <= g else g < start && h <= g
  }

  /** The first position on the ring at or after start, wrapping around. */
  ghost predicate Successor(nodes: set<Candidate>, hash: string -> nat, start: nat, h: nat) {
    Taken(nodes, hash, h) && forall g :: Taken(nodes, hash, g) ==> Closer(start, h, g)
  }

  /** What consistent hashing means: the node behind the key's successor. */
  ghost predicate IsChoice(nodes: set<Candidate>, hash: string -> nat, start: nat, c: Candidate) {
    c in nodes && exists h :: Owns(hash, c, h) && Successor(nodes, hash, start, h)
  }

  /** No two different nodes share a position. */
  ghost predicate NoCollision(nodes: set<Candidate>, hash: string -> nat) {
    forall a, b, h :: a in nodes && b in nodes && Owns(hash, a, h) && Owns(hash, b, h) ==> a == b
  }

  lemma ChoiceUnique(nodes: set<Candidate>, hash: string -> nat, start: nat, c: Candidate, d: Candidate)
    requires NoCollision(nodes, hash) && IsChoice(nodes, hash, start, c) && IsChoice(nodes, hash, start, d)
    ensures c == d
  {
    var h :| Owns(hash, c, h) && Successor(nodes, hash, start, h);
    var g :| Owns(hash, d, g) && Successor(nodes, hash, start, g);
    assert Taken(nodes, hash, h) && Taken(nodes, hash, g);
    assert Closer(start, h, g) && Closer(start, g, h);
  }

  lemma TakenMore(nodes: set<Candidate>, more: set<Candidate>, hash: string -> nat, h: nat)
    requires nodes <= more && Taken(nodes, hash, h)
    ensures Taken(more, hash, h)
  {
    var n :| n in nodes && Owns(hash, n, h);
    assert n in more;
  }

  /** A choice among more nodes that lies in fewer is the choice among those. */
  lemma ChoiceAmongFewer(nodes: set<Candidate>, more: set<Candidate>, hash: string -> nat, start: nat, c: Candidate)
    requires nodes <= more && c in nodes && IsChoice(more, hash, start, c)
    ensures IsChoice(nodes, hash, start, c)
  {
    var h :| Owns(hash, c, h) && Successor(more, hash, start, h);
    assert Taken(nodes, hash, h);
    forall g | Taken(nodes, hash, g) ensures Closer(start, h, g) {
      TakenMore(nodes, more, hash, g);
    }
    assert Successor(nodes, hash, start, h);
  }

  /** Removing a node that was not chosen leaves the choice of every key as it was. */
  lemma RemovalMovesNoOtherKey(nodes: set<Candidate>, gone: Candidate, hash: string -> nat, start: nat, c: Candidate,
                               d: Candidate)
    requires NoCollision(nodes, hash) && gone in nodes
    requires IsChoice(nodes, hash, start, c) && IsChoice(nodes - {gone}, hash, start, d)
    ensures c != gone ==> d == c
  {
    if c != gone {
      ChoiceAmongFewer(nodes - {gone}, nodes, hash, start, c);
      ChoiceUnique(nodes - {gone}, hash, start, c, d);
    }
  }

  /** Adding a node moves a key to that node or not at all. */
  lemma AdditionMovesKeysOnlyThere(nodes: set<Candidate>, added: Candidate, hash: string -> nat, start: nat,
                                   c: Candidate, d: Candidate)
    requires NoCollision(nodes + {added}, hash)
    requires IsChoice(nodes, hash, start, c) && IsChoice(nodes + {added}, hash, start, d)
    ensures d == added || d == c
  {
    if d != added {
      ChoiceAmongFewer(nodes, nodes + {added}, hash, start, d);
      ChoiceUnique(nodes, hash, start, c, d);
    }
  }

  // ------------------------------------------------------------------ the ring as built

  ghost predicate SortedRing(ring: seq<Point>) {
    forall i, k :: 0 <= i < k < |ring| ==> ring[i].hash <= ring[k].hash
  }

  ghost predicate SamePoints(a: seq<Point>, b: seq<Point>) {
    multiset(a) == multiset(b)
  }

  function Insert(s: seq<Point>, p: Point): seq<Point> {
    if s == [] then [p] else if p.hash < s[0].hash then [p] + s else [s[0]] + Insert(s[1..], p)
  }

  lemma {:induction false} InsertPoints(s: seq<Point>, p: Point)
    ensures multiset(Insert(s, p)) == multiset(s) + multiset{p}
    decreases |s|
  {
    if s != [] {
      assert s == [s[0]] + s[1..];
      InsertPoints(s[1..], p);
    }
  }

  lemma {:induction false} InsertSorts(s: seq<Point>, p: Point)
    requires SortedRing(s)
    ensures SortedRing(Insert(s, p))
    ensures forall q :: q in Insert(s, p) ==> q == p || q in s
    decreases |s|
  {
    if s != [] && p.hash >= s[0].hash {
      InsertSorts(s[1..], p);
      var rest := Insert(s[1..], p);
      assert forall i :: 0 <= i < |rest| ==> rest[i] in rest;
      assert forall q :: q in s[1..] ==> q in s && s[0].hash <= q.hash;
    }
  }

  /** sort.Slice on the hash, by insertion. */
  method SortRing(ring: seq<Point>) returns (sorted: seq<Point>)
    ensures SortedRing(sorted) && SamePoints(sorted, ring)
  {
    hide Insert, SortedRing;
    sorted := [];
    EmptySorted();
    for n := 0 to |ring|
      invariant SortedRing(sorted) && multiset(sorted) == multiset(ring[..n])
    {
      InsertSorts(sorted, ring[n]);
      InsertPoints(sorted, ring[n]);
      assert ring[..n + 1] == ring[..n] + [ring[n]];
      sorted := Insert(sorted, ring[n]);
    }
    assert ring[..|ring|] == ring;
  }

  lemma EmptySorted()
    ensures SortedRing([])
  {
  }

  /** sort.Search: the first index whose hash is at least h, by bisection. */
  method Search(ring: seq<Point>, h: nat) returns (index: nat)
    requires SortedRing(ring)
    ensures index <= |ring|
    ensures forall i :: 0 <= i < index ==> ring[i].hash < h
    ensures forall i :: index <= i < |ring| ==> ring[i].hash >= h
  {
    var low, high := 0, |ring|;
    while low < high
      invariant 0 <= low <= high <= |ring|
      invariant forall i :: 0 <= i < low ==> ring[i].hash < h
      invariant forall i :: high <= i < |ring| ==> ring[i].hash >= h
    {
      var mid := (low + high) / 2;
      if ring[mid].hash >= h {
        high := mid;
      } else {
        low := mid + 1;
      }
    }
    index := low;
  }

  /** The ring holds exactly the virtual nodes of these nodes. */
  ghost predicate RingOf(ring: seq<Point>, nodes: set<Candidate>, hash: string -> nat) {
    && (forall p :: p in ring ==> p.node in nodes && Owns(hash, p.node, p.hash))
    && (forall n, i: nat :: n in nodes && i < VIRTUAL_NODES ==> Point(hash(VirtualKey(n.address, i)), n) in ring)
  }

  ghost function NodesOf(nodes: seq<Candidate>): set<Candidate> {
    set n | n in nodes
  }

  /** The nested loops that build the ring. */
  method BuildRing(nodes: seq<Candidate>, hash: string -> nat) returns (ring: seq<Point>)
    ensures RingOf(ring, NodesOf(nodes), hash)
    ensures |ring| == |nodes| * VIRTUAL_NODES
  {
    ring := [];
    for k := 0 to |nodes|
      invariant |ring| == k * VIRTUAL_NODES
      invariant RingOf(ring, NodesOf(nodes[..k]), hash)
    {
      ghost var before := ring;
      for i := 0 to VIRTUAL_NODES
        invariant |ring| == k * VIRTUAL_NODES + i
        invariant forall p :: p in before ==> p in ring
        invariant forall p :: p in ring ==> p in before || (p.node == nodes[k] && Owns(hash, p.node, p.hash))
        invariant forall x: nat :: x < i ==> Point(hash(VirtualKey(nodes[k].address, x)), nodes[k]) in ring
      {
        ring := ring + [Point(hash(VirtualKey(nodes[k].address, i)), nodes[k])];
      }
      assert NodesOf(nodes[..k + 1]) == NodesOf(nodes[..k]) + {nodes[k]} by {
        assert nodes[..k + 1] == nodes[..k] + [nodes[k]];
      }
    }
    assert nodes[..|nodes|] == nodes;
  }

  lemma SameMembers(a: seq<Point>, b: seq<Point>, p: Point)
    requires SamePoints(a, b)
    ensures p in a <==> p in b
  {
    assert p in a <==> p in multiset(a);
    assert p in b <==> p in multiset(b);
  }

  lemma SortedIsRing(a: seq<Point>, b: seq<Point>, nodes: set<Candidate>, hash: string -> nat)
    requires SamePoints(a, b) && RingOf(b, nodes, hash)
    ensures RingOf(a, nodes, hash)
  {
    forall p ensures p in a <==> p in b {
      SameMembers(a, b, p);
    }
  }

  lemma FirstAtOrAfter(ring: seq<Point>, nodes: set<Candidate>, hash: string -> nat, start: nat, index: nat)
    requires RingOf(ring, nodes, hash) && SortedRing(ring) && index < |ring|
    requires forall i :: 0 <= i < |ring| ==> Closer(start, ring[index].hash, ring[i].hash)
    ensures IsChoice(nodes, hash, start, ring[index].node)
  {
    var h := ring[index].hash;
    assert ring[index] in ring;
    assert Taken(nodes, hash, h);
    forall g | Taken(nodes, hash, g) ensures Closer(start, h, g) {
      var n :| n in nodes && Owns(hash, n, g);
      var i: nat :| i < VIRTUAL_NODES && hash(VirtualKey(n.address, i)) == g;
      assert Point(hash(VirtualKey(n.address, i)), n) in ring;
    }
    assert Successor(nodes, hash, start, h);
  }

  /** consistentHashExecutor: the sorted ring, a binary search, and the wrap-around. */
  method ConsistentHash(nodes: seq<Candidate>, hash: string -> nat, routeKey: string) returns (c: Candidate)
    requires nodes != []
    ensures IsChoice(NodesOf(nodes), hash, hash(routeKey), c)
  {
    var built := BuildRing(nodes, hash);
    var ring := SortRing(built);
    SortedIsRing(ring, built, NodesOf(nodes), hash);
    assert |ring| == |multiset(ring)| == |multiset(built)| == |built|;
    var index := Search(ring, hash(routeKey));
    if index == |ring| {
      index := 0;
    }
    FirstAtOrAfter(ring, NodesOf(nodes), hash, hash(routeKey), index);
    c := ring[index].node;
  }
}
