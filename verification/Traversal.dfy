/**
 Depth-bounded breadth-first traversal over an adjacency map, as a theory of its own: walks,
 shortest distances, and the invariant of a queue that may hold a node several times at
 different depths.
 */
module Traversal {

  type Graph = map<string, set<string>>

  type Queue = seq<(string, int)>

  ghost predicate Closed(g: Graph) {
    forall u | u in g :: g[u] <= g.Keys
  }

  ghost predicate IsWalk(g: Graph, walk: seq<string>) {
    && |walk| > 0
    && forall i | 0 <= i < |walk| - 1 :: walk[i] in g && walk[i + 1] in g[walk[i]]
  }

  /** Some walk of n steps leads from start to goal. */
  ghost predicate Reaches(g: Graph, start: string, goal: string, n: int) {
    exists walk :: IsWalk(g, walk) && |walk| == n + 1 && walk[0] == start && walk[n] == goal
  }

  /** n is the length of a shortest walk from start to goal. */
  ghost predicate IsDistance(g: Graph, start: string, goal: string, n: int) {
    && Reaches(g, start, goal, n)
    && forall m | Reaches(g, start, goal, m) :: n <= m
  }

  lemma ReachesItself(g: Graph, start: string)
    ensures Reaches(g, start, start, 0)
  {
    assert IsWalk(g, [start]);
  }

  lemma OneStepFurther(g: Graph, start: string, mid: string, goal: string, n: int)
    requires Reaches(g, start, mid, n) && mid in g && goal in g[mid]
    ensures Reaches(g, start, goal, n + 1)
  {
    var walk :| IsWalk(g, walk) && |walk| == n + 1 && walk[0] == start && walk[n] == mid;
    assert IsWalk(g, walk + [goal]);
  }

  lemma OneStepBack(g: Graph, start: string, goal: string, n: int) returns (mid: string)
    requires n > 0 && Reaches(g, start, goal, n)
    ensures Reaches(g, start, mid, n - 1) && mid in g && goal in g[mid]
  {
    var walk :| IsWalk(g, walk) && |walk| == n + 1 && walk[0] == start && walk[n] == goal;
    assert IsWalk(g, walk[..n]);
    mid := walk[n - 1];
  }

  // ---------- The state of the traversal ----------

  /** node is visited at depth at most n, or waits in the queue at depth at most n, or n is too deep. */
  ghost predicate Covered(maxDepth: int, depths: map<string, int>, queue: Queue, node: string, n: int) {
    || (node in depths && depths[node] <= n)
    || (exists i :: 0 <= i < |queue| && queue[i].0 == node && queue[i].1 <= n)
    || n > maxDepth
  }

  /** Depths in the queue never decrease and spread over at most two consecutive values. */
  ghost predicate TwoLevels(queue: Queue) {
    forall i, j | 0 <= i <= j < |queue| :: queue[i].1 <= queue[j].1 <= queue[i].1 + 1
  }

  ghost predicate Waiting(g: Graph, start: string, queue: Queue) {
    forall i | 0 <= i < |queue| ::
      queue[i].0 in g && queue[i].1 >= 0 && Reaches(g, start, queue[i].0, queue[i].1)
  }

  ghost predicate Settled(g: Graph, start: string, maxDepth: int, depths: map<string, int>, queue: Queue) {
    forall u | u in depths ::
      && u in g && 0 <= depths[u] <= maxDepth && IsDistance(g, start, u, depths[u])
      && (queue != [] ==> depths[u] <= queue[0].1)
  }

  ghost predicate NeighboursCovered(g: Graph, maxDepth: int, depths: map<string, int>, queue: Queue) {
    forall u, v | u in depths && u in g && v in g[u] :: Covered(maxDepth, depths, queue, v, depths[u] + 1)
  }

  ghost predicate Inv(g: Graph, start: string, maxDepth: int, depths: map<string, int>, queue: Queue) {
    && TwoLevels(queue)
    && Waiting(g, start, queue)
    && Settled(g, start, maxDepth, depths, queue)
    && Covered(maxDepth, depths, queue, start, 0)
    && NeighboursCovered(g, maxDepth, depths, queue)
  }

  lemma InvAtStart(g: Graph, start: string, maxDepth: int)
    requires start in g
    ensures Inv(g, start, maxDepth, map[], [(start, 0)])
  {
    ReachesItself(g, start);
    var queue: Queue := [(start, 0)];
    assert queue[0] == (start, 0);
  }

  /** Every node that n steps reach is settled once the queue has moved past depth n. */
  lemma {:induction false} BallIsSettled(
    g: Graph, start: string, maxDepth: int, depths: map<string, int>, queue: Queue, goal: string, n: int)
    requires Inv(g, start, maxDepth, depths, queue)
    requires Reaches(g, start, goal, n) && n <= maxDepth && (queue != [] ==> n < queue[0].1)
    ensures goal in depths && depths[goal] <= n
    decreases n
  {
    if n <= 0 {
      assert goal == start;
      assert Covered(maxDepth, depths, queue, start, 0);
    } else {
      var mid := OneStepBack(g, start, goal, n);
      BallIsSettled(g, start, maxDepth, depths, queue, mid, n - 1);
      assert Covered(maxDepth, depths, queue, goal, depths[mid] + 1);
    }
  }

  /** Dropping a queue entry that is already visited, or too deep, loses nothing. */
  lemma InvAfterSkip(g: Graph, start: string, maxDepth: int, depths: map<string, int>, queue: Queue)
    requires Inv(g, start, maxDepth, depths, queue) && queue != []
    requires queue[0].0 in depths || queue[0].1 > maxDepth
    ensures Inv(g, start, maxDepth, depths, queue[1..])
  {
    forall node, n | Covered(maxDepth, depths, queue, node, n)
      ensures Covered(maxDepth, depths, queue[1..], node, n)
    {
      CoveredAfterPop(maxDepth, depths, queue, node, n);
    }
  }

  lemma CoveredAfterPop(maxDepth: int, depths: map<string, int>, queue: Queue, node: string, n: int)
    requires queue != [] && Covered(maxDepth, depths, queue, node, n)
    requires queue[0].1 > maxDepth || (queue[0].0 in depths && depths[queue[0].0] <= queue[0].1)
    ensures Covered(maxDepth, depths, queue[1..], node, n)
  {
    if !(node in depths && depths[node] <= n) && n <= maxDepth {
      var i :| 0 <= i < |queue| && queue[i].0 == node && queue[i].1 <= n;
      assert i > 0;
      assert queue[1..][i - 1] == queue[i];
    }
  }

  /** A node popped for the first time, within the bound, is popped at its exact distance. */
  lemma FirstPopIsDistance(g: Graph, start: string, maxDepth: int, depths: map<string, int>, queue: Queue)
    requires Inv(g, start, maxDepth, depths, queue) && queue != []
    requires queue[0].0 !in depths && queue[0].1 <= maxDepth
    ensures IsDistance(g, start, queue[0].0, queue[0].1)
  {
    var (node, depth) := queue[0];
    forall m | Reaches(g, start, node, m) ensures depth <= m {
      if m < depth {
        BallIsSettled(g, start, maxDepth, depths, queue, node, m);
      }
    }
  }

  /** added are the entries appended for one visited node: its neighbours not yet visited. */
  ghost predicate Appended(neighbours: set<string>, depth: int, visited: set<string>, added: Queue) {
    && (forall i | 0 <= i < |added| :: added[i].1 == depth + 1 && added[i].0 in neighbours)
    && (forall v | v in neighbours && v !in visited :: (v, depth + 1) in added)
  }

  lemma QueueAfterVisit(g: Graph, start: string, seen: set<string>, queue: Queue, added: Queue)
    requires Closed(g) && TwoLevels(queue) && Waiting(g, start, queue) && queue != []
    requires queue[0].0 in g && Appended(g[queue[0].0], queue[0].1, seen, added)
    ensures TwoLevels(queue[1..] + added) && Waiting(g, start, queue[1..] + added)
  {
    forall i | 0 <= i < |added| ensures Reaches(g, start, added[i].0, queue[0].1 + 1) {
      OneStepFurther(g, start, queue[0].0, added[i].0, queue[0].1);
    }
  }

  lemma NeighboursAfterVisit(g: Graph, maxDepth: int, depths: map<string, int>, queue: Queue, added: Queue)
    requires NeighboursCovered(g, maxDepth, depths, queue) && queue != [] && queue[0].0 !in depths
    requires queue[0].0 in g && Appended(g[queue[0].0], queue[0].1, depths.Keys + {queue[0].0}, added)
    requires forall w | w in depths :: depths[w] <= queue[0].1
    ensures NeighboursCovered(g, maxDepth, depths[queue[0].0 := queue[0].1], queue[1..] + added)
  {
    var (node, depth) := queue[0];
    var depths' := depths[node := depth];
    var queue' := queue[1..] + added;
    forall u, v | u in depths' && u in g && v in g[u]
      ensures Covered(maxDepth, depths', queue', v, depths'[u] + 1)
    {
      if u == node {
        if v !in depths' {
          var i :| 0 <= i < |added| && added[i] == (v, depth + 1);
          assert queue'[|queue| - 1 + i] == (v, depth + 1);
        }
      } else {
        CoveredAfterVisit(maxDepth, depths, queue, added, v, depths[u] + 1);
      }
    }
  }

  lemma InvAfterVisit(g: Graph, start: string, maxDepth: int, depths: map<string, int>, queue: Queue, added: Queue)
    requires Closed(g) && Inv(g, start, maxDepth, depths, queue) && queue != []
    requires queue[0].0 !in depths && queue[0].1 <= maxDepth
    requires queue[0].0 in g && Appended(g[queue[0].0], queue[0].1, depths.Keys + {queue[0].0}, added)
    ensures Inv(g, start, maxDepth, depths[queue[0].0 := queue[0].1], queue[1..] + added)
  {
    assert queue[0].1 >= 0;
    hide Reaches, Closed, TwoLevels, Waiting, NeighboursCovered, Covered;
    QueueAfterVisit(g, start, depths.Keys + {queue[0].0}, queue, added);
    NeighboursAfterVisit(g, maxDepth, depths, queue, added);
    CoveredAfterVisit(maxDepth, depths, queue, added, start, 0);
    FirstPopIsDistance(g, start, maxDepth, depths, queue);
    SettledAfterVisit(g, start, maxDepth, depths, queue, added);
  }

  lemma SettledAfterVisit(g: Graph, start: string, maxDepth: int, depths: map<string, int>, queue: Queue, added: Queue)
    requires Settled(g, start, maxDepth, depths, queue) && queue != []
    requires queue[0].0 in g && 0 <= queue[0].1 <= maxDepth && IsDistance(g, start, queue[0].0, queue[0].1)
    requires TwoLevels(queue[1..] + added) && TwoLevels(queue)
    requires forall i | 0 <= i < |added| :: added[i].1 == queue[0].1 + 1
    ensures Settled(g, start, maxDepth, depths[queue[0].0 := queue[0].1], queue[1..] + added)
  {
    hide IsDistance;
    var queue' := queue[1..] + added;
    if queue' != [] {
      assert queue[0].1 <= queue'[0].1;
    }
  }

  lemma CoveredAfterVisit(
    maxDepth: int, depths: map<string, int>, queue: Queue, added: Queue, node: string, n: int)
    requires queue != [] && Covered(maxDepth, depths, queue, node, n) && queue[0].0 !in depths
    ensures Covered(maxDepth, depths[queue[0].0 := queue[0].1], queue[1..] + added, node, n)
  {
    var depths' := depths[queue[0].0 := queue[0].1];
    var queue' := queue[1..] + added;
    if !(node in depths' && depths'[node] <= n) && n <= maxDepth {
      var i :| 0 <= i < |queue| && queue[i].0 == node && queue[i].1 <= n;
      assert i > 0;
      assert queue'[i - 1] == queue[i];
    }
  }

  /** With an empty queue the settled nodes are exactly those within the bound. */
  lemma EmptyQueueIsComplete(g: Graph, start: string, maxDepth: int, depths: map<string, int>, goal: string, n: int)
    requires Inv(g, start, maxDepth, depths, [])
    requires Reaches(g, start, goal, n) && n <= maxDepth
    ensures goal in depths && IsDistance(g, start, goal, depths[goal])
  {
    BallIsSettled(g, start, maxDepth, depths, [], goal, n);
  }
}
