/**
  The bounded breadth-first search behind `callers` and `callees`: levels of nodes, each node expanded by a
  query that returns at most `limit` edges, and at most `limit` edges reported in all.
 */
module Traversal {

  /** A row of the edge table. */
  datatype Edge<N> = Edge(source: N, target: N, kind: string)

  /** An edge seen in the direction of the search. */
  datatype Arc<N> = Arc(near: N, far: N)

  /** An edge reported by the search and the level of the node it discovered. */
  datatype Hit<N> = Hit(arc: Arc<N>, depth: nat)

  /** The calls-edges in the direction asked for, in table order. */
  function Arcs<N(!new)>(edges: seq<Edge<N>>, out: bool): seq<Arc<N>>
  {
    if |edges| == 0 then []
    else
      var e, rest := edges[0], Arcs(edges[1..], out);
      if e.kind != "calls" then rest
      else [if out then Arc(e.source, e.target) else Arc(e.target, e.source)] + rest
  }

  /** The arcs that start at a node. */
  function Matching<N(!new, ==)>(arcs: seq<Arc<N>>, node: N): (r: seq<Arc<N>>)
    ensures forall a :: a in r <==> a in arcs && a.near == node
  {
    if |arcs| == 0 then []
    else
      var rest := Matching(arcs[1..], node);
      if arcs[0].near == node then [arcs[0]] + rest else rest
  }

  /** `QueryEdges`: the first `limit` of them. */
  function Query<N(!new, ==)>(arcs: seq<Arc<N>>, node: N, limit: nat): (r: seq<Arc<N>>)
    ensures forall a :: a in r ==> a in arcs && a.near == node
    ensures |Matching(arcs, node)| <= limit ==> forall a :: a in arcs && a.near == node ==> a in r
  {
    var all := Matching(arcs, node);
    if |all| <= limit then all else all[..limit]
  }

  // ---------------------------------------------------------------------------------------
  // The search as functions
  // ---------------------------------------------------------------------------------------

  datatype Scan<N> = Scan(visited: set<N>, next: seq<N>, hits: seq<Hit<N>>)

  /** The arc leads to a node not seen before. */
  function Discover<N(!new, ==)>(s: Scan<N>, a: Arc<N>, depth: nat): Scan<N>
  {
    if a.far in s.visited then s else Scan(s.visited + {a.far}, s.next + [a.far], s.hits + [Hit(a, depth)])
  }

  /** The loop over the arcs of one node. */
  function ScanArcs<N(!new, ==)>(s: Scan<N>, arcs: seq<Arc<N>>, depth: nat, limit: nat): Scan<N>
    decreases |arcs|
  {
    if |arcs| == 0 || |s.hits| >= limit then s else ScanArcs(Discover(s, arcs[0], depth), arcs[1..], depth, limit)
  }

  /** The loop over the nodes of one level. */
  function ScanNodes<N(!new, ==)>(g: seq<Arc<N>>, s: Scan<N>, frontier: seq<N>, depth: nat, limit: nat): Scan<N>
    decreases |frontier|
  {
    if |frontier| == 0 || |s.hits| >= limit then s
    else ScanNodes(g, ScanArcs(s, Query(g, frontier[0], limit), depth, limit), frontier[1..], depth, limit)
  }

  predicate Ended<N(!new)>(s: Scan<N>, limit: nat) { |s.next| == 0 || |s.hits| >= limit }

  /** One level, unless the search is over. */
  function Advance<N(!new, ==)>(g: seq<Arc<N>>, s: Scan<N>, depth: nat, limit: nat): Scan<N>
  {
    if Ended(s, limit) then s else ScanNodes(g, Scan(s.visited, [], s.hits), s.next, depth, limit)
  }

  /** The first `depth` levels. */
  function Levels<N(!new, ==)>(g: seq<Arc<N>>, start: N, depth: nat, limit: nat): Scan<N>
  {
    if depth == 0 then Scan({start}, [start], []) else Advance(g, Levels(g, start, depth - 1, limit), depth, limit)
  }

  // ---------------------------------------------------------------------------------------
  // The search as loops
  // ---------------------------------------------------------------------------------------

  function ArcsOf<N(!new)>(hits: seq<Hit<N>>): (r: seq<Arc<N>>)
    ensures |r| == |hits|
  {
    seq(|hits|, i requires 0 <= i < |hits| => hits[i].arc)
  }

  /** `Traversal`; a depth or limit that is not positive yields nothing. */
  method Traverse<N(!new, ==)>(g: seq<Arc<N>>, start: N, maxDepth: int, limit: int) returns (edges: seq<Arc<N>>)
    ensures edges == if maxDepth <= 0 || limit <= 0 then [] else ArcsOf(Levels(g, start, maxDepth, limit).hits)
  {
    if limit <= 0 || maxDepth <= 0 { return []; }
    var visited, frontier, hits := {start}, [start], [];
    var depth := 0;
    while depth < maxDepth && |frontier| > 0 && |hits| < limit
      invariant 0 <= depth <= maxDepth
      invariant Scan(visited, frontier, hits) == Levels(g, start, depth, limit)
      decreases maxDepth - depth
    {
      depth := depth + 1;
      visited, frontier, hits := Level(g, visited, frontier, hits, depth, limit);
    }
    StaysEnded(g, start, depth, maxDepth, limit);
    edges := ArcsOf(hits);
  }

  /** The body of the loop over levels. */
  method Level<N(!new, ==)>(g: seq<Arc<N>>, visited0: set<N>, frontier: seq<N>, hits0: seq<Hit<N>>, depth: nat,
                            limit: nat)
    returns (visited: set<N>, next: seq<N>, hits: seq<Hit<N>>)
    ensures Scan(visited, next, hits) == ScanNodes(g, Scan(visited0, [], hits0), frontier, depth, limit)
  {
    visited, next, hits := visited0, [], hits0;
    var i := 0;
    while i < |frontier| && |hits| < limit
      invariant i <= |frontier|
      invariant ScanNodes(g, Scan(visited, next, hits), frontier[i..], depth, limit)
             == ScanNodes(g, Scan(visited0, [], hits0), frontier, depth, limit)
      decreases |frontier| - i
    {
      assert frontier[i..][0] == frontier[i] && frontier[i..][1..] == frontier[i + 1..];
      visited, next, hits := Expand(g, visited, next, hits, frontier[i], depth, limit);
      i := i + 1;
    }
  }

  /** The body of the loop over the nodes of a level. */
  method Expand<N(!new, ==)>(g: seq<Arc<N>>, visited0: set<N>, next0: seq<N>, hits0: seq<Hit<N>>, node: N, depth: nat,
                             limit: nat)
    returns (visited: set<N>, next: seq<N>, hits: seq<Hit<N>>)
    ensures Scan(visited, next, hits) == ScanArcs(Scan(visited0, next0, hits0), Query(g, node, limit), depth, limit)
  {
    visited, next, hits := visited0, next0, hits0;
    var arcs := Query(g, node, limit);
    var i := 0;
    while i < |arcs| && |hits| < limit
      invariant i <= |arcs|
      invariant ScanArcs(Scan(visited, next, hits), arcs[i..], depth, limit)
             == ScanArcs(Scan(visited0, next0, hits0), arcs, depth, limit)
      decreases |arcs| - i
    {
      assert arcs[i..][0] == arcs[i] && arcs[i..][1..] == arcs[i + 1..];
      var adjacent := arcs[i].far;
      if adjacent !in visited {
        visited, next, hits := visited + {adjacent}, next + [adjacent], hits + [Hit(arcs[i], depth)];
      }
      i := i + 1;
    }
  }

  lemma {:induction false} StaysEnded<N(!new)>(g: seq<Arc<N>>, start: N, depth: nat, more: nat, limit: nat)
    requires depth <= more && (depth < more ==> Ended(Levels(g, start, depth, limit), limit))
    ensures Levels(g, start, more, limit) == Levels(g, start, depth, limit)
    decreases more - depth
  {
    if depth < more {
      StaysEnded(g, start, depth, more - 1, limit);
      OneMoreLevel(g, start, more - 1, limit);
    }
  }

  lemma OneMoreLevel<N(!new)>(g: seq<Arc<N>>, start: N, depth: nat, limit: nat)
    ensures Levels(g, start, depth + 1, limit) == Advance(g, Levels(g, start, depth, limit), depth + 1, limit)
  {
  }
}
