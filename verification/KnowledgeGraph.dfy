/**
 The personal knowledge graph: nodes with a per-node connections map that indexes the edge list,
 and the depth-bounded search for related nodes.
 */
module KnowledgeGraph {
  import opened Traversal

  datatype Edge = Edge(from: string, to: string, relationship: string, weight: real)

  datatype Related = Related(id: string, kind: string, labelText: string, depth: int)

  predicate Joins(edge: Edge, a: string, b: string) {
    (edge.from == a && edge.to == b) || (edge.from == b && edge.to == a)
  }

  ghost predicate Joined(edges: seq<Edge>, a: string, b: string) {
    exists i :: 0 <= i < |edges| && Joins(edges[i], a, b)
  }

  /** The weight of the last edge between a and b. */
  ghost function LastWeight(edges: seq<Edge>, a: string, b: string): real
    requires Joined(edges, a, b)
  {
    var last := |edges| - 1;
    if Joins(edges[last], a, b) then edges[last].weight
    else
      assert Joined(edges[..last], a, b) by {
        var i :| 0 <= i < |edges| && Joins(edges[i], a, b);
        assert edges[..last][i] == edges[i];
      }
      LastWeight(edges[..last], a, b)
  }

  /** The graph that the edge list draws on the given nodes. */
  ghost function EdgeGraph(ids: set<string>, edges: seq<Edge>): Graph {
    map u | u in ids :: set v | v in ids && Joined(edges, u, v)
  }

  lemma JoinedIsSymmetric(edges: seq<Edge>, a: string, b: string)
    requires Joined(edges, a, b)
    ensures Joined(edges, b, a)
  {
    var i :| 0 <= i < |edges| && Joins(edges[i], a, b);
    assert Joins(edges[i], b, a);
  }

  lemma {:induction false} LastWeightIsSymmetric(edges: seq<Edge>, a: string, b: string)
    requires Joined(edges, a, b) && Joined(edges, b, a)
    ensures LastWeight(edges, a, b) == LastWeight(edges, b, a)
  {
    var last := |edges| - 1;
    if !Joins(edges[last], a, b) {
      var i :| 0 <= i < |edges| && Joins(edges[i], a, b);
      assert Joins(edges[..last][i], a, b) && Joins(edges[..last][i], b, a);
      LastWeightIsSymmetric(edges[..last], a, b);
    }
  }

  lemma JoinedAfterAppend(edges: seq<Edge>, edge: Edge, a: string, b: string)
    ensures Joined(edges + [edge], a, b) <==> Joined(edges, a, b) || Joins(edge, a, b)
    ensures Joined(edges + [edge], a, b) ==>
              LastWeight(edges + [edge], a, b) ==
              if Joins(edge, a, b) then edge.weight else LastWeight(edges, a, b)
  {
    var longer := edges + [edge];
    assert longer[..|edges|] == edges && longer[|edges|] == edge;
    if Joined(edges, a, b) {
      var i :| 0 <= i < |edges| && Joins(edges[i], a, b);
      assert Joins(longer[i], a, b);
    }
    if Joins(edge, a, b) {
      assert Joins(longer[|edges|], a, b);
    }
  }

  /** connections is the part of the edge list that touches a: every neighbour, with its last weight. */
  ghost predicate Indexes(edges: seq<Edge>, a: string, connections: map<string, real>) {
    && (forall b :: b in connections <==> Joined(edges, a, b))
    && (forall b | b in connections :: Joined(edges, a, b) && connections[b] == LastWeight(edges, a, b))
  }

  /** Every node's connections, side by side. */
  type Index = map<string, map<string, real>>

  ghost predicate IndexesAll(edges: seq<Edge>, index: Index) {
    forall id | id in index :: Indexes(edges, id, index[id])
  }

  /** The two writes made for one edge; a self-loop makes the same one twice. */
  ghost function Linked(index: Index, edge: Edge): Index
    requires edge.from in index && edge.to in index
  {
    var out := index[edge.from := index[edge.from][edge.to := edge.weight]];
    out[edge.to := out[edge.to][edge.from := edge.weight]]
  }

  lemma IndexAfterAppend(edges: seq<Edge>, edge: Edge, a: string, connections: map<string, real>)
    requires Indexes(edges, a, connections)
    ensures a == edge.from ==> Indexes(edges + [edge], a, connections[edge.to := edge.weight])
    ensures a == edge.to ==> Indexes(edges + [edge], a, connections[edge.from := edge.weight])
    ensures a != edge.from && a != edge.to ==> Indexes(edges + [edge], a, connections)
  {
    forall b {
      JoinedAfterAppend(edges, edge, a, b);
    }
  }

  lemma IndexesAllAfterAppend(edges: seq<Edge>, edge: Edge, index: Index)
    requires IndexesAll(edges, index) && edge.from in index && edge.to in index
    ensures IndexesAll(edges + [edge], Linked(index, edge))
  {
    forall id | id in index
      ensures Indexes(edges + [edge], id, Linked(index, edge)[id])
    {
      IndexAfterAppend(edges, edge, id, index[id]);
      if edge.from == edge.to == id {
        assert Linked(index, edge)[id] == index[id][id := edge.weight];
      }
    }
  }

  class KnowledgeNode {
    const id: string
    var kind: string
    var labelText: string
    var properties: map<string, string>
    var connections: map<string, real>

    constructor (id: string, kind: string, labelText: string, properties: map<string, string>)
      ensures this.id == id && this.kind == kind && this.labelText == labelText
      ensures this.properties == properties && connections == map[]
    {
      this.id, this.kind, this.labelText := id, kind, labelText;
      this.properties, connections := properties, map[];
    }
  }

  class KnowledgeGraph {
    var nodes: map<string, KnowledgeNode>
    var edges: seq<Edge>

    /** Lower-casing with blanks turned into underscores. */
    const canonical: string -> string

    /** The label given to a node that an edge mentions before anyone added it. */
    const titled: string -> string

    ghost function Connections(): Index
      reads this`nodes, nodes.Values`connections
    {
      map id | id in nodes :: nodes[id].connections
    }

    ghost predicate Valid()
      reads this, nodes.Values
    {
      && (forall s :: canonical(canonical(s)) == canonical(s))
      && (forall id | id in nodes :: nodes[id].id == id)
      && (forall i | 0 <= i < |edges| :: edges[i].from in nodes && edges[i].to in nodes)
      && IndexesAll(edges, Connections())
    }

    constructor (canonical: string -> string, titled: string -> string)
      requires forall s :: canonical(canonical(s)) == canonical(s)
      ensures Valid() && nodes == map[] && edges == []
      ensures this.canonical == canonical && this.titled == titled
    {
      this.canonical, this.titled := canonical, titled;
      nodes, edges := map[], [];
    }

    method AddNode(rawId: string, kind: string, labelText: string, properties: map<string, string>)
      returns (node: KnowledgeNode)
      requires Valid()
      modifies this, nodes.Values
      ensures Valid() && edges == old(edges)
      ensures nodes == old(nodes)[canonical(rawId) := node]
      ensures node.kind == kind && node.labelText == labelText
      ensures canonical(rawId) !in old(nodes) ==>
                fresh(node) && node.properties == properties && node.connections == map[]
      ensures canonical(rawId) in old(nodes) ==>
                && node == old(nodes)[canonical(rawId)]
                && node.properties == old(nodes[canonical(rawId)].properties) + properties
                && node.connections == old(nodes[canonical(rawId)].connections)
      ensures forall other | other in old(nodes.Values) && other != node :: unchanged(other)
    {
      var id := canonical(rawId);
      if id in nodes {
        node := nodes[id];
        node.labelText, node.kind := labelText, kind;
        node.properties := node.properties + properties;
        assert nodes == nodes[id := node];
      } else {
        node := new KnowledgeNode(id, kind, labelText, properties);
        ghost var index := Connections();
        assert Indexes(edges, id, map[]);
        nodes := nodes[id := node];
        assert Connections() == index[id := map[]];
      }
    }

    /** A node made for the end of an edge: a concept titled after its name. */
    ghost predicate IsPlainConcept(id: string)
      reads this, nodes.Values
    {
      id in nodes && nodes[id].kind == "concept" && nodes[id].labelText == titled(id) && nodes[id].properties == map[]
    }

    method EnsureNode(id: string)
      requires Valid() && canonical(id) == id
      modifies this, nodes.Values
      ensures Valid() && edges == old(edges)
      ensures id !in old(nodes) ==> IsPlainConcept(id)
      ensures id in nodes && nodes.Keys == old(nodes.Keys) + {id}
      ensures forall other | other in old(nodes) :: nodes[other] == old(nodes[other])
      ensures forall other | other in old(nodes.Values) :: unchanged(other)
      ensures fresh(nodes.Values - old(nodes.Values))
    {
      if id !in nodes {
        var node := AddNode(id, "concept", titled(id), map[]);
        assert nodes.Values <= old(nodes.Values) + {node};
      }
    }

    method AddEdge(rawFrom: string, rawTo: string, relationship: string, weight: real)
      requires Valid()
      modifies this, nodes.Values
      ensures Valid()
      ensures edges == old(edges) + [Edge(canonical(rawFrom), canonical(rawTo), relationship, weight)]
      ensures nodes.Keys == old(nodes.Keys) + {canonical(rawFrom), canonical(rawTo)}
      ensures forall id | id in old(nodes) :: nodes[id] == old(nodes[id])
      ensures forall id | id in old(nodes) ::
                && nodes[id].kind == old(nodes[id].kind)
                && nodes[id].labelText == old(nodes[id].labelText)
                && nodes[id].properties == old(nodes[id].properties)
      ensures forall id | id in nodes && id !in old(nodes) :: IsPlainConcept(id)
    {
      assert canonical(canonical(rawFrom)) == canonical(rawFrom) && canonical(canonical(rawTo)) == canonical(rawTo);
      hide KnowledgeGraph.Valid, KnowledgeGraph.IsPlainConcept;
      var from, to := canonical(rawFrom), canonical(rawTo);
      EnsureEnds(from, to);
      AppendEdge(Edge(from, to, relationship, weight));
    }

    method EnsureEnds(from: string, to: string)
      requires Valid() && canonical(from) == from && canonical(to) == to
      modifies this, nodes.Values
      ensures Valid() && edges == old(edges)
      ensures nodes.Keys == old(nodes.Keys) + {from, to}
      ensures forall id | id in old(nodes) :: nodes[id] == old(nodes[id])
      ensures forall other | other in old(nodes.Values) :: unchanged(other)
      ensures fresh(nodes.Values - old(nodes.Values))
      ensures forall id | id in nodes && id !in old(nodes) :: IsPlainConcept(id)
    {
      hide KnowledgeGraph.Valid, IndexesAll;
      EnsureNode(from);
      EnsureNode(to);
    }

    method AppendEdge(edge: Edge)
      requires Valid() && edge.from in nodes && edge.to in nodes
      modifies this`edges, nodes.Values`connections
      ensures Valid() && edges == old(edges) + [edge]
      ensures forall id | id in nodes && old(IsPlainConcept(id)) :: IsPlainConcept(id)
    {
      hide IndexesAll, Indexes, Linked;
      IndexesAllAfterAppend(edges, edge, Connections());
      edges := edges + [edge];
      Link(edge);
    }

    /** Each end of the edge gets the other end and the weight; the two may be one node. */
    method Link(edge: Edge)
      requires edge.from in nodes && edge.to in nodes && forall id | id in nodes :: nodes[id].id == id
      modifies nodes.Values`connections
      ensures Connections() == Linked(old(Connections()), edge)
    {
      var fromNode, toNode := nodes[edge.from], nodes[edge.to];
      fromNode.connections := fromNode.connections[edge.to := edge.weight];
      toNode.connections := toNode.connections[edge.from := edge.weight];
    }

    lemma ConnectionsIndexEdges(id: string)
      requires Valid() && id in nodes
      ensures Indexes(edges, id, nodes[id].connections)
    {
      assert id in Connections();
    }

    /** Both ends of an edge list each other, with one weight, and every key is a node. */
    lemma ConnectionsAreSymmetric(a: string, b: string)
      requires Valid() && a in nodes
      ensures b in nodes[a].connections <==> b in nodes && a in nodes[b].connections
      ensures b in nodes[a].connections ==> nodes[a].connections[b] == nodes[b].connections[a]
    {
      ConnectionsIndexEdges(a);
      if b in nodes {
        ConnectionsIndexEdges(b);
      }
      if Joined(edges, a, b) {
        JoinedIsSymmetric(edges, a, b);
        LastWeightIsSymmetric(edges, a, b);
      }
      if Joined(edges, b, a) {
        JoinedIsSymmetric(edges, b, a);
      }
    }

    lemma ConnectionsAreEdgeGraph()
      requires Valid()
      ensures Closed(EdgeGraph(nodes.Keys, edges)) && EdgeGraph(nodes.Keys, edges).Keys == nodes.Keys
      ensures forall id | id in nodes :: EdgeGraph(nodes.Keys, edges)[id] == nodes[id].connections.Keys
    {
      forall id, b | id in nodes && Joined(edges, id, b) ensures b in nodes {
        var i :| 0 <= i < |edges| && Joins(edges[i], id, b);
      }
      forall id | id in nodes {
        ConnectionsIndexEdges(id);
      }
    }

    /** Appends the unvisited neighbours of a node, in whichever order its map lists them. */
    method Enqueue(current: string, depth: int, visited: set<string>, queue: Queue)
      returns (longer: Queue, ghost added: Queue)
      requires current in nodes
      ensures longer == queue + added
      ensures Appended(nodes[current].connections.Keys, depth, visited, added)
    {
      longer, added := queue, [];
      var neighbours := nodes[current].connections.Keys;
      var pending := neighbours;
      while pending != {}
        invariant pending <= neighbours
        invariant longer == queue + added
        invariant Appended(neighbours - pending, depth, visited, added)
      {
        var connected :| connected in pending;
        pending := pending - {connected};
        if connected !in visited {
          longer := longer + [(connected, depth + 1)];
          added := added + [(connected, depth + 1)];
        }
      }
      assert neighbours - pending == neighbours;
    }

    /** What a result says about its node is what the node stores. */
    ghost predicate Describes(results: seq<Related>)
      reads this, nodes.Values
    {
      forall i | 0 <= i < |results| ::
        && results[i].id in nodes
        && results[i].kind == nodes[results[i].id].kind
        && results[i].labelText == nodes[results[i].id].labelText
    }

    lemma DescribesOneMore(results: seq<Related>, node: KnowledgeNode, depth: int)
      requires Describes(results) && node.id in nodes && nodes[node.id] == node
      ensures Describes(results + [Related(node.id, node.kind, node.labelText, depth)])
    {
    }

    method FindRelated(rawId: string, maxDepth: int) returns (results: seq<Related>)
      requires Valid()
      ensures canonical(rawId) !in nodes ==> results == []
      ensures canonical(rawId) in nodes ==>
                IsRelatedList(EdgeGraph(nodes.Keys, edges), canonical(rawId), maxDepth, results)
      ensures Describes(results)
    {
      var start := canonical(rawId);
      if start !in nodes {
        return [];
      }
      results := Traverse(start, maxDepth);
    }

    method Traverse(start: string, maxDepth: int) returns (results: seq<Related>)
      requires Valid() && start in nodes
      ensures IsRelatedList(EdgeGraph(nodes.Keys, edges), start, maxDepth, results)
      ensures Describes(results)
    {
      hide Indexes, IndexesAll, Inv, Lists, IsRelatedList, EdgeGraph, Closed, Appended;
      ghost var g := EdgeGraph(nodes.Keys, edges);
      ConnectionsAreEdgeGraph();
      var visited: set<string> := {};
      results := [];
      NothingListed(start);
      var queue: Queue := [(start, 0)];
      ghost var depths: map<string, int> := map[];
      InvAtStart(g, start, maxDepth);
      while queue != []
        invariant Inv(g, start, maxDepth, depths, queue)
        invariant depths.Keys == visited <= nodes.Keys
        invariant Lists(start, depths, results)
        invariant Describes(results)
        decreases nodes.Keys - visited, |queue|
      {
        var (current, depth) := queue[0];
        ghost var before := queue;
        queue := queue[1..];
        if current in visited || depth > maxDepth {
          InvAfterSkip(g, start, maxDepth, depths, before);
        } else {
          FrontIsNext(g, start, maxDepth, depths, before);
          visited := visited + {current};
          var node := nodes[current];
          var related := Related(node.id, node.kind, node.labelText, depth);
          ListsAfterVisit(start, depths, results, related);
          DescribesOneMore(results, node, depth);
          if current != start {
            results := results + [related];
          }
          ghost var added;
          queue, added := Enqueue(current, depth, visited, queue);
          InvAfterVisit(g, start, maxDepth, depths, before, added);
          KeysAfterUpdate(depths, current, depth);
          depths := depths[current := depth];
        }
      }
      RelatedWhenQueueIsEmpty(g, start, maxDepth, depths, results);
    }
  }

  lemma NothingListed(start: string)
    ensures Lists(start, map[], [])
  {
  }

  /** The front of the queue is a node, and no settled node is farther. */
  lemma FrontIsNext(g: Graph, start: string, maxDepth: int, depths: map<string, int>, queue: Queue)
    requires Inv(g, start, maxDepth, depths, queue) && queue != []
    ensures queue[0].0 in g && forall id | id in depths :: depths[id] <= queue[0].1
  {
  }

  lemma KeysAfterUpdate(depths: map<string, int>, id: string, depth: int)
    ensures depths[id := depth].Keys == depths.Keys + {id}
  {
  }

  lemma ListsAfterVisit(
    start: string, depths: map<string, int>, results: seq<Related>, related: Related)
    requires Lists(start, depths, results)
    requires related.id !in depths && forall u | u in depths :: depths[u] <= related.depth
    ensures Lists(start, depths[related.id := related.depth],
                  if related.id == start then results else results + [related])
  {
    var longer := results + [related];
    forall id | id in depths && id != start ensures Contains(longer, id) {
      var i :| 0 <= i < |results| && results[i].id == id;
      assert longer[i].id == id;
    }
    assert longer[|results|] == related && Contains(longer, related.id);
  }

  lemma RelatedWhenQueueIsEmpty(
    g: Graph, start: string, maxDepth: int, depths: map<string, int>, results: seq<Related>)
    requires Inv(g, start, maxDepth, depths, []) && Lists(start, depths, results)
    ensures IsRelatedList(g, start, maxDepth, results)
  {
    forall goal, n | Reaches(g, start, goal, n) && n <= maxDepth ensures goal in depths {
      EmptyQueueIsComplete(g, start, maxDepth, depths, goal, n);
    }
  }

  /** results lists every settled node but the start, once, with its depth, nearest first. */
  ghost predicate Lists(start: string, depths: map<string, int>, results: seq<Related>) {
    && (forall i | 0 <= i < |results| ::
          results[i].id in depths && results[i].id != start && results[i].depth == depths[results[i].id])
    && NearestFirst(results)
    && (forall id | id in depths && id != start :: Contains(results, id))
  }

  ghost predicate Contains(results: seq<Related>, id: string) {
    exists i :: 0 <= i < |results| && results[i].id == id
  }

  /** No node twice, and never a nearer node after a farther one. */
  ghost predicate NearestFirst(results: seq<Related>) {
    forall i, j | 0 <= i < j < |results| ::
      results[i].id != results[j].id && results[i].depth <= results[j].depth
  }

  /** The meaning of a related list: who is in it, at which distance, how often and in which order. */
  ghost predicate IsRelatedList(g: Graph, start: string, maxDepth: int, results: seq<Related>) {
    && (forall i | 0 <= i < |results| ::
          && results[i].id != start && results[i].depth <= maxDepth
          && IsDistance(g, start, results[i].id, results[i].depth))
    && (forall goal, n | Reaches(g, start, goal, n) && n <= maxDepth && goal != start :: Contains(results, goal))
    && NearestFirst(results)
  }
}
