/** What the bounded breadth-first search reports. */
module TraversalProofs {
  import opened Traversal

  // ---------------------------------------------------------------------------------------
  // What the hits look like at any time
  // ---------------------------------------------------------------------------------------

  /** v is the start, at level 0, or was discovered at a level. */
  predicate FoundAt<N(!new, ==)>(start: N, hits: seq<Hit<N>>, v: N, depth: nat)
  {
    if depth == 0 then v == start else exists i :: 0 <= i < |hits| && IsHit(hits[i], v, depth)
  }

  predicate IsHit<N(!new, ==)>(h: Hit<N>, v: N, depth: nat) { h.arc.far == v && h.depth == depth }

  /** The i-th arc starts at a node found one level before it. */
  predicate HasParent<N(!new, ==)>(start: N, hits: seq<Hit<N>>, i: nat)
    requires i < |hits|
  {
    if hits[i].depth <= 1 then hits[i].depth == 1 && hits[i].arc.near == start
    else exists j :: 0 <= j < i && IsHit(hits[j], hits[i].arc.near, hits[i].depth - 1)
  }

  /** The arcs discover different nodes, none of them the start, and form a tree of arcs of the graph. */
  predicate Tree<N(!new, ==)>(g: seq<Arc<N>>, start: N, hits: seq<Hit<N>>)
  {
    && (forall i {:trigger HasParent(start, hits, i)} :: 0 <= i < |hits| ==> HasParent(start, hits, i))
    && (forall i :: 0 <= i < |hits| ==> hits[i].arc in g && hits[i].arc.far != start)
    && (forall i, j :: 0 <= i < j < |hits| ==> hits[i].arc.far != hits[j].arc.far)
  }

  /** The nodes seen are the start and those discovered. */
  predicate Seen<N(!new, ==)>(start: N, visited: set<N>, hits: seq<Hit<N>>)
  {
    && start in visited && (forall i :: 0 <= i < |hits| ==> hits[i].arc.far in visited)
    && (forall v :: v in visited ==> v == start || exists i :: 0 <= i < |hits| && hits[i].arc.far == v)
  }

  predicate AllFound<N(!new, ==)>(start: N, hits: seq<Hit<N>>, nodes: seq<N>, depth: nat)
  {
    forall k :: 0 <= k < |nodes| ==> FoundAt(start, hits, nodes[k], depth)
  }

  predicate NoDeeper<N(!new)>(hits: seq<Hit<N>>, depth: nat)
  {
    forall i :: 0 <= i < |hits| ==> hits[i].depth <= depth
  }

  predicate ScanOk<N(!new, ==)>(g: seq<Arc<N>>, start: N, s: Scan<N>, depth: nat, limit: nat)
  {
    && Tree(g, start, s.hits) && Seen(start, s.visited, s.hits) && AllFound(start, s.hits, s.next, depth)
    && |s.hits| <= limit && NoDeeper(s.hits, depth)
  }

  lemma FoundLater<N(!new)>(start: N, hits: seq<Hit<N>>, more: seq<Hit<N>>, v: N, depth: nat)
    requires hits <= more && FoundAt(start, hits, v, depth)
    ensures FoundAt(start, more, v, depth)
  {
    if depth > 0 {
      var i :| 0 <= i < |hits| && IsHit(hits[i], v, depth);
      assert more[i] == hits[i];
    }
  }

  lemma AllFoundLater<N(!new)>(start: N, hits: seq<Hit<N>>, more: seq<Hit<N>>, nodes: seq<N>, depth: nat)
    requires hits <= more && AllFound(start, hits, nodes, depth)
    ensures AllFound(start, more, nodes, depth)
  {
    forall k | 0 <= k < |nodes|
      ensures FoundAt(start, more, nodes[k], depth) { FoundLater(start, hits, more, nodes[k], depth); }
  }

  lemma ParentStill<N(!new)>(start: N, hits: seq<Hit<N>>, h: Hit<N>, i: nat)
    requires i < |hits| && HasParent(start, hits, i)
    ensures HasParent(start, hits + [h], i)
  {
    if hits[i].depth > 1 {
      var j :| 0 <= j < i && IsHit(hits[j], hits[i].arc.near, hits[i].depth - 1);
      assert (hits + [h])[j] == hits[j];
    }
  }

  lemma NewParent<N(!new)>(start: N, hits: seq<Hit<N>>, a: Arc<N>, depth: nat)
    requires FoundAt(start, hits, a.near, depth)
    ensures HasParent(start, hits + [Hit(a, depth + 1)], |hits|)
  {
    if depth > 0 {
      var j :| 0 <= j < |hits| && IsHit(hits[j], a.near, depth);
      assert (hits + [Hit(a, depth + 1)])[j] == hits[j];
    }
  }

  lemma TreeMore<N(!new)>(g: seq<Arc<N>>, start: N, visited: set<N>, hits: seq<Hit<N>>, a: Arc<N>, depth: nat)
    requires Tree(g, start, hits) && Seen(start, visited, hits) && a.far !in visited && a in g
    requires FoundAt(start, hits, a.near, depth)
    ensures Tree(g, start, hits + [Hit(a, depth + 1)])
  {
    var more := hits + [Hit(a, depth + 1)];
    NewParent(start, hits, a, depth);
    forall i | 0 <= i < |more| ensures HasParent(start, more, i) {
      if i < |hits| {
        assert HasParent(start, hits, i);
        ParentStill(start, hits, Hit(a, depth + 1), i);
      }
    }
  }

  lemma SeenMore<N(!new)>(start: N, visited: set<N>, hits: seq<Hit<N>>, a: Arc<N>, depth: nat)
    requires Seen(start, visited, hits)
    ensures Seen(start, visited + {a.far}, hits + [Hit(a, depth)])
  {
    var more := hits + [Hit(a, depth)];
    forall v | v in visited + {a.far} ensures v == start || exists i :: 0 <= i < |more| && more[i].arc.far == v {
      if v == a.far {
        assert more[|hits|].arc.far == v;
      } else if v != start {
        var i :| 0 <= i < |hits| && hits[i].arc.far == v;
        assert more[i] == hits[i];
      }
    }
  }

  lemma DiscoverOk<N(!new)>(g: seq<Arc<N>>, start: N, s: Scan<N>, a: Arc<N>, depth: nat, limit: nat)
    requires ScanOk(g, start, s, depth + 1, limit) && |s.hits| < limit && a in g
             && FoundAt(start, s.hits, a.near, depth)
    ensures var t := Discover(s, a, depth + 1); ScanOk(g, start, t, depth + 1, limit) && s.hits <= t.hits
  {
    if a.far !in s.visited {
      var more := s.hits + [Hit(a, depth + 1)];
      TreeMore(g, start, s.visited, s.hits, a, depth);
      SeenMore(start, s.visited, s.hits, a, depth + 1);
      AllFoundLater(start, s.hits, more, s.next, depth + 1);
      assert IsHit(more[|s.hits|], a.far, depth + 1);
    }
  }

  lemma {:induction false} ScanArcsOk<N(!new)>(g: seq<Arc<N>>, start: N, s: Scan<N>, arcs: seq<Arc<N>>, node: N,
                                               depth: nat, limit: nat)
    requires ScanOk(g, start, s, depth + 1, limit) && FoundAt(start, s.hits, node, depth)
    requires forall i :: 0 <= i < |arcs| ==> arcs[i] in g && arcs[i].near == node
    ensures var t := ScanArcs(s, arcs, depth + 1, limit); ScanOk(g, start, t, depth + 1, limit) && s.hits <= t.hits
    decreases |arcs|
  {
    if |arcs| > 0 && |s.hits| < limit {
      DiscoverOk(g, start, s, arcs[0], depth, limit);
      var d := Discover(s, arcs[0], depth + 1);
      FoundLater(start, s.hits, d.hits, node, depth);
      ScanArcsOk(g, start, d, arcs[1..], node, depth, limit);
    }
  }

  lemma {:induction false} ScanNodesOk<N(!new)>(g: seq<Arc<N>>, start: N, s: Scan<N>, frontier: seq<N>, depth: nat,
                                                limit: nat)
    requires ScanOk(g, start, s, depth + 1, limit) && AllFound(start, s.hits, frontier, depth)
    ensures var t := ScanNodes(g, s, frontier, depth + 1, limit);
            ScanOk(g, start, t, depth + 1, limit) && s.hits <= t.hits
    decreases |frontier|
  {
    if |frontier| > 0 && |s.hits| < limit {
      var arcs := Query(g, frontier[0], limit);
      ScanArcsOk(g, start, s, arcs, frontier[0], depth, limit);
      var t := ScanArcs(s, arcs, depth + 1, limit);
      AllFoundLater(start, s.hits, t.hits, frontier, depth);
      ScanNodesOk(g, start, t, frontier[1..], depth, limit);
    }
  }

  /** After some levels; the nodes collected are those of the last, unless the search is over. */
  predicate LevelOk<N(!new, ==)>(g: seq<Arc<N>>, start: N, s: Scan<N>, depth: nat, limit: nat)
  {
    && Tree(g, start, s.hits) && Seen(start, s.visited, s.hits) && |s.hits| <= limit && NoDeeper(s.hits, depth)
    && (Ended(s, limit) || AllFound(start, s.hits, s.next, depth))
  }

  lemma AdvanceOk<N(!new)>(g: seq<Arc<N>>, start: N, s: Scan<N>, depth: nat, limit: nat)
    requires LevelOk(g, start, s, depth, limit)
    ensures LevelOk(g, start, Advance(g, s, depth + 1, limit), depth + 1, limit)
  {
    if !Ended(s, limit) { ScanNodesOk(g, start, Scan(s.visited, [], s.hits), s.next, depth, limit); }
  }

  /** What holds at the start and is kept by every level holds after any number of them. */
  lemma {:induction false} LevelsKeep<N(!new)>(g: seq<Arc<N>>, start: N, depth: nat, limit: nat,
                                               keep: (Scan<N>, nat) -> bool)
    requires keep(Scan({start}, [start], []), 0)
    requires forall s: Scan<N>, d: nat :: keep(s, d) ==> keep(Advance(g, s, d + 1, limit), d + 1)
    ensures keep(Levels(g, start, depth, limit), depth)
  {
    if depth > 0 { LevelsKeep(g, start, depth - 1, limit, keep); }
  }

  lemma LevelsOk<N(!new)>(g: seq<Arc<N>>, start: N, depth: nat, limit: nat)
    ensures LevelOk(g, start, Levels(g, start, depth, limit), depth, limit)
  {
    forall s: Scan<N>, d: nat | LevelOk(g, start, s, d, limit)
      ensures LevelOk(g, start, Advance(g, s, d + 1, limit), d + 1, limit)
    {
      AdvanceOk(g, start, s, d, limit);
    }
    LevelsKeep(g, start, depth, limit, (s: Scan<N>, d: nat) => LevelOk(g, start, s, d, limit));
  }

  // ---------------------------------------------------------------------------------------
  // The reference: nodes within a distance
  // ---------------------------------------------------------------------------------------

  /** A set of nodes and their neighbours. */
  function Around<N(!new, ==)>(g: seq<Arc<N>>, nodes: set<N>): (r: set<N>)
    ensures nodes <= r
  {
    nodes + set a | a in g && a.near in nodes :: a.far
  }

  /** The nodes that a walk of at most k arcs leads to. */
  function Ball<N(!new, ==)>(g: seq<Arc<N>>, start: N, k: nat): set<N>
  {
    if k == 0 then {start} else Around(g, Ball(g, start, k - 1))
  }

  /** v is at distance exactly k. */
  predicate AtDistance<N(!new, ==)>(g: seq<Arc<N>>, start: N, v: N, k: nat)
  {
    v in Ball(g, start, k) && (k > 0 ==> v !in Ball(g, start, k - 1))
  }

  lemma BallStep<N(!new)>(g: seq<Arc<N>>, start: N, k: nat)
    ensures Ball(g, start, k + 1) == Around(g, Ball(g, start, k))
  {
  }

  lemma {:induction false} BallGrows<N(!new)>(g: seq<Arc<N>>, start: N, j: nat, k: nat)
    requires j <= k
    ensures Ball(g, start, j) <= Ball(g, start, k)
    decreases k - j
  {
    if j < k {
      BallGrows(g, start, j, k - 1);
      BallStep(g, start, k - 1);
    }
  }

  /** A node found at a level can be walked to in that many steps. */
  lemma {:induction false} FoundInBall<N(!new)>(g: seq<Arc<N>>, start: N, hits: seq<Hit<N>>, i: nat)
    requires Tree(g, start, hits) && i < |hits|
    ensures hits[i].depth > 0 && hits[i].arc.far in Ball(g, start, hits[i].depth)
    decreases i
  {
    assert HasParent(start, hits, i);
    var h := hits[i];
    if h.depth == 1 {
      BallStep(g, start, 0);
    } else {
      var j :| 0 <= j < i && IsHit(hits[j], h.arc.near, h.depth - 1);
      FoundInBall(g, start, hits, j);
      BallStep(g, start, h.depth - 1);
    }
  }

  /** The result is a tree of at most `limit` arcs from the start; each arc discovers a node of its own, which can be
      reached within its level, and no level is deeper than the depth asked for. */
  lemma BoundedTree<N(!new)>(g: seq<Arc<N>>, start: N, maxDepth: nat, limit: nat, i: nat)
    requires i < |Levels(g, start, maxDepth, limit).hits|
    ensures var hits := Levels(g, start, maxDepth, limit).hits;
            && |hits| <= limit && Tree(g, start, hits) && 1 <= hits[i].depth <= maxDepth
            && hits[i].arc.far in Ball(g, start, hits[i].depth) && hits[i].arc.far in Ball(g, start, maxDepth)
  {
    LevelsOk(g, start, maxDepth, limit);
    var hits := Levels(g, start, maxDepth, limit).hits;
    FoundInBall(g, start, hits, i);
    BallGrows(g, start, hits[i].depth, maxDepth);
  }

  // ---------------------------------------------------------------------------------------
  // Exact levels and completeness
  // ---------------------------------------------------------------------------------------

  predicate Exact<N(!new, ==)>(g: seq<Arc<N>>, start: N, hits: seq<Hit<N>>)
  {
    forall i :: 0 <= i < |hits| ==> AtDistance(g, start, hits[i].arc.far, hits[i].depth)
  }

  /** While the level behind `inner` is being found: everything in `inner` was seen, what is new is collected. */
  predicate Midway<N(!new, ==)>(inner: set<N>, outer: set<N>, s: Scan<N>)
  {
    inner <= s.visited <= outer && forall v :: v in s.visited ==> v in inner || v in s.next
  }

  /** No node of a set has more arcs than a query returns. */
  predicate Uncapped<N(!new, ==)>(g: seq<Arc<N>>, nodes: set<N>, limit: nat)
  {
    forall v :: v in nodes ==> |Matching(g, v)| <= limit
  }

  /** All neighbours of a node were seen. */
  predicate Spent<N(!new, ==)>(g: seq<Arc<N>>, node: N, visited: set<N>)
  {
    forall a :: a in g && a.near == node ==> a.far in visited
  }

  lemma DiscoverExact<N(!new)>(g: seq<Arc<N>>, start: N, s: Scan<N>, a: Arc<N>, depth: nat)
    requires Exact(g, start, s.hits) && Midway(Ball(g, start, depth), Ball(g, start, depth + 1), s)
    requires a in g && a.near in Ball(g, start, depth)
    ensures var t := Discover(s, a, depth + 1);
            && Exact(g, start, t.hits) && Midway(Ball(g, start, depth), Ball(g, start, depth + 1), t)
            && s.visited <= t.visited && a.far in t.visited && |s.hits| <= |t.hits|
  {
    BallStep(g, start, depth);
    var t := Discover(s, a, depth + 1);
    if a.far !in s.visited {
      assert AtDistance(g, start, a.far, depth + 1);
      assert t.next[|s.next|] == a.far;
      assert forall v :: v in s.next ==> v in t.next;
    }
  }

  lemma {:induction false} ScanArcsExact<N(!new)>(g: seq<Arc<N>>, start: N, s: Scan<N>, arcs: seq<Arc<N>>, depth: nat,
                                                  limit: nat)
    requires Exact(g, start, s.hits) && Midway(Ball(g, start, depth), Ball(g, start, depth + 1), s)
    requires forall i :: 0 <= i < |arcs| ==> arcs[i] in g && arcs[i].near in Ball(g, start, depth)
    ensures var t := ScanArcs(s, arcs, depth + 1, limit);
            && Exact(g, start, t.hits) && Midway(Ball(g, start, depth), Ball(g, start, depth + 1), t)
            && s.visited <= t.visited && |s.hits| <= |t.hits|
            && (|t.hits| < limit ==> forall i :: 0 <= i < |arcs| ==> arcs[i].far in t.visited)
    decreases |arcs|
  {
    if |arcs| > 0 && |s.hits| < limit {
      DiscoverExact(g, start, s, arcs[0], depth);
      ScanArcsExact(g, start, Discover(s, arcs[0], depth + 1), arcs[1..], depth, limit);
      assert forall i :: 0 < i < |arcs| ==> arcs[i] == arcs[1..][i - 1];
    }
  }

  lemma QuerySpent<N(!new)>(g: seq<Arc<N>>, node: N, limit: nat, visited: set<N>)
    requires |Matching(g, node)| <= limit
    requires forall i :: 0 <= i < |Query(g, node, limit)| ==> Query(g, node, limit)[i].far in visited
    ensures Spent(g, node, visited)
  {
    forall a | a in g && a.near == node ensures a.far in visited { assert a in Query(g, node, limit); }
  }

  lemma {:induction false} ScanNodesExact<N(!new)>(g: seq<Arc<N>>, start: N, s: Scan<N>, frontier: seq<N>, depth: nat,
                                                   limit: nat)
    requires Exact(g, start, s.hits) && Midway(Ball(g, start, depth), Ball(g, start, depth + 1), s)
    requires forall k :: 0 <= k < |frontier| ==>
             frontier[k] in Ball(g, start, depth) && |Matching(g, frontier[k])| <= limit
    ensures var t := ScanNodes(g, s, frontier, depth + 1, limit);
            && Exact(g, start, t.hits) && Midway(Ball(g, start, depth), Ball(g, start, depth + 1), t)
            && s.visited <= t.visited && |s.hits| <= |t.hits|
            && (|t.hits| < limit ==> forall k :: 0 <= k < |frontier| ==> Spent(g, frontier[k], t.visited))
    decreases |frontier|
  {
    if |frontier| > 0 && |s.hits| < limit {
      var arcs := Query(g, frontier[0], limit);
      ScanArcsExact(g, start, s, arcs, depth, limit);
      var m := ScanArcs(s, arcs, depth + 1, limit);
      ScanNodesExact(g, start, m, frontier[1..], depth, limit);
      var t := ScanNodes(g, m, frontier[1..], depth + 1, limit);
      if |t.hits| < limit {
        QuerySpent(g, frontier[0], limit, t.visited);
        assert forall k :: 0 < k < |frontier| ==> frontier[k] == frontier[1..][k - 1];
      }
    }
  }

  /** Unless the limit was hit, everything within the distance has been seen, and what was seen last is collected. */
  predicate Complete<N(!new, ==)>(g: seq<Arc<N>>, start: N, s: Scan<N>, depth: nat, limit: nat)
  {
    |s.hits| < limit ==>
      && s.visited == Ball(g, start, depth)
      && (forall v :: v in s.next ==> v in s.visited)
      && (forall v :: v in s.visited ==> v in s.next || (depth > 0 && v in Ball(g, start, depth - 1)))
  }

  /** With the level before and all of this one's nodes spent, the next ball is complete. */
  lemma LevelComplete<N(!new)>(g: seq<Arc<N>>, start: N, s: Scan<N>, t: Scan<N>, depth: nat, limit: nat)
    requires Complete(g, start, s, depth, limit) && |s.hits| < limit
    requires Midway(Ball(g, start, depth), Ball(g, start, depth + 1), t)
    requires forall k :: 0 <= k < |s.next| ==> Spent(g, s.next[k], t.visited)
    ensures t.visited == Ball(g, start, depth + 1)
  {
    BallStep(g, start, depth);
    forall v | v in Ball(g, start, depth + 1) ensures v in t.visited {
      if v !in Ball(g, start, depth) {
        var a :| a in g && a.near in Ball(g, start, depth) && a.far == v;
        NearInFrontier(g, start, s, a, depth, limit);
        var k :| 0 <= k < |s.next| && s.next[k] == a.near;
        assert Spent(g, s.next[k], t.visited);
      }
    }
  }

  lemma NearInFrontier<N(!new)>(g: seq<Arc<N>>, start: N, s: Scan<N>, a: Arc<N>, depth: nat, limit: nat)
    requires Complete(g, start, s, depth, limit) && |s.hits| < limit
    requires a in g && a.near in Ball(g, start, depth) && a.far !in Ball(g, start, depth)
    ensures a.near in s.next
  {
    if depth > 0 { BallStep(g, start, depth - 1); }
  }

  /** What is collected was found, and is seen. */
  predicate Collected<N(!new, ==)>(s: Scan<N>) { forall v :: v in s.next ==> v in s.visited }

  lemma {:induction false} ScanArcsCollected<N(!new)>(s: Scan<N>, arcs: seq<Arc<N>>, depth: nat, limit: nat)
    requires Collected(s)
    ensures Collected(ScanArcs(s, arcs, depth, limit)) && s.visited <= ScanArcs(s, arcs, depth, limit).visited
    decreases |arcs|
  {
    if |arcs| > 0 && |s.hits| < limit { ScanArcsCollected(Discover(s, arcs[0], depth), arcs[1..], depth, limit); }
  }

  lemma {:induction false} ScanNodesCollected<N(!new)>(g: seq<Arc<N>>, s: Scan<N>, frontier: seq<N>, depth: nat,
                                                       limit: nat)
    requires Collected(s)
    ensures Collected(ScanNodes(g, s, frontier, depth, limit))
            && s.visited <= ScanNodes(g, s, frontier, depth, limit).visited
    decreases |frontier|
  {
    if |frontier| > 0 && |s.hits| < limit {
      ScanArcsCollected(s, Query(g, frontier[0], limit), depth, limit);
      ScanNodesCollected(g, ScanArcs(s, Query(g, frontier[0], limit), depth, limit), frontier[1..], depth, limit);
    }
  }

  lemma AdvanceGrows<N(!new)>(g: seq<Arc<N>>, s: Scan<N>, depth: nat, limit: nat)
    ensures s.visited <= Advance(g, s, depth, limit).visited
  {
    ScanNodesCollected(g, Scan(s.visited, [], s.hits), s.next, depth, limit);
  }

  lemma AdvanceExact<N(!new)>(g: seq<Arc<N>>, start: N, s: Scan<N>, depth: nat, limit: nat)
    requires Exact(g, start, s.hits) && Complete(g, start, s, depth, limit) && Uncapped(g, s.visited, limit)
    ensures var t := Advance(g, s, depth + 1, limit);
            Exact(g, start, t.hits) && Complete(g, start, t, depth + 1, limit)
  {
    if |s.hits| < limit {
      if |s.next| == 0 { NothingNew(g, start, s, depth, limit); } else { LevelExact(g, start, s, depth, limit); }
    }
  }

  lemma LevelExact<N(!new)>(g: seq<Arc<N>>, start: N, s: Scan<N>, depth: nat, limit: nat)
    requires Exact(g, start, s.hits) && Complete(g, start, s, depth, limit) && Uncapped(g, s.visited, limit)
             && |s.hits| < limit
    ensures var t := ScanNodes(g, Scan(s.visited, [], s.hits), s.next, depth + 1, limit);
            Exact(g, start, t.hits) && Complete(g, start, t, depth + 1, limit)
  {
    var from := Scan(s.visited, [], s.hits);
    StartLevel(g, start, s, depth, limit);
    ScanNodesExact(g, start, from, s.next, depth, limit);
    ScanNodesCollected(g, from, s.next, depth + 1, limit);
    EndLevel(g, start, s, ScanNodes(g, from, s.next, depth + 1, limit), depth, limit);
  }

  lemma StartLevel<N(!new)>(g: seq<Arc<N>>, start: N, s: Scan<N>, depth: nat, limit: nat)
    requires Complete(g, start, s, depth, limit) && Uncapped(g, s.visited, limit) && |s.hits| < limit
    ensures Midway(Ball(g, start, depth), Ball(g, start, depth + 1), Scan(s.visited, [], s.hits))
    ensures forall k :: 0 <= k < |s.next| ==> s.next[k] in Ball(g, start, depth) && |Matching(g, s.next[k])| <= limit
  {
    BallStep(g, start, depth);
  }

  lemma EndLevel<N(!new)>(g: seq<Arc<N>>, start: N, s: Scan<N>, t: Scan<N>, depth: nat, limit: nat)
    requires Complete(g, start, s, depth, limit) && |s.hits| < limit && Collected(t)
    requires Midway(Ball(g, start, depth), Ball(g, start, depth + 1), t)
    requires |t.hits| < limit ==> forall k :: 0 <= k < |s.next| ==> Spent(g, s.next[k], t.visited)
    ensures Complete(g, start, t, depth + 1, limit)
  {
    if |t.hits| < limit {
      LevelComplete(g, start, s, t, depth, limit);
      CompleteFrom(g, start, t, depth, limit);
    }
  }

  lemma CompleteFrom<N(!new)>(g: seq<Arc<N>>, start: N, t: Scan<N>, depth: nat, limit: nat)
    requires Midway(Ball(g, start, depth), Ball(g, start, depth + 1), t) && Collected(t)
             && t.visited == Ball(g, start, depth + 1)
    ensures Complete(g, start, t, depth + 1, limit)
  {
  }

  /** An empty level: the ball has stopped growing. */
  lemma NothingNew<N(!new)>(g: seq<Arc<N>>, start: N, s: Scan<N>, depth: nat, limit: nat)
    requires Complete(g, start, s, depth, limit) && |s.hits| < limit && |s.next| == 0
    ensures Ball(g, start, depth + 1) == Ball(g, start, depth)
    ensures Complete(g, start, s, depth + 1, limit)
  {
    assert start in s.visited by { BallGrows(g, start, 0, depth); }
    BallStep(g, start, depth);
    if depth > 0 {
      BallStep(g, start, depth - 1);
      assert Ball(g, start, depth) == Ball(g, start, depth - 1);
    }
  }

  lemma StartExact<N(!new)>(g: seq<Arc<N>>, start: N, limit: nat)
    ensures var s := Scan({start}, [start], []); Exact(g, start, s.hits) && Complete(g, start, s, 0, limit)
  {
  }

  predicate ExactSoFar<N(!new, ==)>(g: seq<Arc<N>>, start: N, s: Scan<N>, depth: nat, limit: nat)
  {
    Uncapped(g, s.visited, limit) ==> Exact(g, start, s.hits) && Complete(g, start, s, depth, limit)
  }

  lemma StepExact<N(!new)>(g: seq<Arc<N>>, start: N, s: Scan<N>, depth: nat, limit: nat)
    requires ExactSoFar(g, start, s, depth, limit)
    ensures ExactSoFar(g, start, Advance(g, s, depth + 1, limit), depth + 1, limit)
  {
    AdvanceGrows(g, s, depth + 1, limit);
    if Uncapped(g, s.visited, limit) { AdvanceExact(g, start, s, depth, limit); }
  }

  lemma LevelsExact<N(!new)>(g: seq<Arc<N>>, start: N, depth: nat, limit: nat)
    ensures ExactSoFar(g, start, Levels(g, start, depth, limit), depth, limit)
  {
    StartExact(g, start, limit);
    forall s: Scan<N>, d: nat | ExactSoFar(g, start, s, d, limit)
      ensures ExactSoFar(g, start, Advance(g, s, d + 1, limit), d + 1, limit)
    {
      StepExact(g, start, s, d, limit);
    }
    LevelsKeep(g, start, depth, limit, (s: Scan<N>, d: nat) => ExactSoFar(g, start, s, d, limit));
  }

  /** If no node seen has more arcs than a query returns, every level is the true shortest distance; and if the limit is
      not hit either, the nodes discovered are exactly those at distance 1 to the depth asked for. */
  lemma ShortestAndComplete<N(!new)>(g: seq<Arc<N>>, start: N, maxDepth: nat, limit: nat)
    requires Uncapped(g, Levels(g, start, maxDepth, limit).visited, limit)
    ensures var hits := Levels(g, start, maxDepth, limit).hits;
            && (forall i :: 0 <= i < |hits| ==> AtDistance(g, start, hits[i].arc.far, hits[i].depth))
            && (|hits| < limit ==>
                  forall v :: v in Ball(g, start, maxDepth) && v != start <==>
                      exists i :: 0 <= i < |hits| && hits[i].arc.far == v)
  {
    LevelsExact(g, start, maxDepth, limit);
    LevelsOk(g, start, maxDepth, limit);
  }

  /** Searching inwards is searching outwards in the reversed graph. */
  function Reversed<N(!new)>(edges: seq<Edge<N>>): (r: seq<Edge<N>>)
    ensures |r| == |edges|
  {
    seq(|edges|, i requires 0 <= i < |edges| => Edge(edges[i].target, edges[i].source, edges[i].kind))
  }

  lemma {:induction false} InIsOutReversed<N(!new)>(edges: seq<Edge<N>>, start: N, maxDepth: nat, limit: nat)
    ensures Arcs(edges, false) == Arcs(Reversed(edges), true)
    ensures Levels(Arcs(edges, false), start, maxDepth, limit)
            == Levels(Arcs(Reversed(edges), true), start, maxDepth, limit)
  {
    if |edges| > 0 {
      InIsOutReversed(edges[1..], start, maxDepth, limit);
      assert Reversed(edges)[1..] == Reversed(edges[1..]);
    }
  }

  /** The edge of the table that an arc stands for. */
  function CallOf<N(!new)>(a: Arc<N>, out: bool): Edge<N>
  {
    if out then Edge(a.near, a.far, "calls") else Edge(a.far, a.near, "calls")
  }

  lemma {:induction false} ArcsAreCalls<N(!new)>(edges: seq<Edge<N>>, out: bool, a: Arc<N>)
    ensures a in Arcs(edges, out) <==> CallOf(a, out) in edges
  {
    if |edges| > 0 { ArcsAreCalls(edges[1..], out, a); }
  }

  lemma {:induction false} MatchingAppend<N(!new)>(a: seq<Arc<N>>, b: seq<Arc<N>>, node: N)
    ensures Matching(a + b, node) == Matching(a, node) + Matching(b, node)
  {
    if |a| == 0 {
      assert a + b == b;
    } else {
      assert (a + b)[1..] == a[1..] + b;
      MatchingAppend(a[1..], b, node);
    }
  }

  lemma {:induction false} ArcsAppend<N(!new)>(a: seq<Edge<N>>, b: seq<Edge<N>>, out: bool)
    ensures Arcs(a + b, out) == Arcs(a, out) + Arcs(b, out)
  {
    if |a| == 0 {
      assert a + b == b;
    } else {
      assert (a + b)[1..] == a[1..] + b;
      ArcsAppend(a[1..], b, out);
    }
  }

  /** A query that is cut off returns as many rows as the limit allows, and the first ones: rows added behind those that
      fill it make no difference. */
  lemma QueryIsCutOff<N(!new)>(edges: seq<Edge<N>>, more: seq<Edge<N>>, out: bool, node: N, limit: nat)
    requires |Matching(Arcs(edges, out), node)| >= limit
    ensures |Query(Arcs(edges, out), node, limit)| == limit
    ensures Query(Arcs(edges + more, out), node, limit) == Query(Arcs(edges, out), node, limit)
  {
    ArcsAppend(edges, more, out);
    MatchingAppend(Arcs(edges, out), Arcs(more, out), node);
  }

  /** Every edge reported is a row of kind "calls": outwards from the caller already found to a callee, inwards from the
      callee already found to a caller. */
  lemma ReportsCalls<N(!new)>(edges: seq<Edge<N>>, out: bool, start: N, maxDepth: nat, limit: nat)
    ensures var hits := Levels(Arcs(edges, out), start, maxDepth, limit).hits;
            forall i :: 0 <= i < |hits| ==>
                var a := hits[i].arc;
                (if out then Edge(a.near, a.far, "calls") else Edge(a.far, a.near, "calls")) in edges
  {
    var hits := Levels(Arcs(edges, out), start, maxDepth, limit).hits;
    LevelsOk(Arcs(edges, out), start, maxDepth, limit);
    forall i | 0 <= i < |hits| ensures CallOf(hits[i].arc, out) in edges {
      ArcsAreCalls(edges, out, hits[i].arc);
    }
  }
}
