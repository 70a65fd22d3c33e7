/** The part of the graph store the walker sees: node identifiers, each with its optional
    `nodeRank` property, and immutable typed relationships between them. */
module Graphs {
  import opened Wrappers

  type NodeId = nat
  type RelationshipId = nat

  /** A directed, typed relationship; the walker only reads its endpoints. */
  datatype Relationship = Relationship(id: RelationshipId, startNode: NodeId, endNode: NodeId, relType: string)

  /** `n` is one of the endpoints of `r`. */
  predicate Incident(r: Relationship, n: NodeId) {
    r.startNode == n || r.endNode == n
  }

  /** The endpoint of `r` on the far side from `n` (Neo4j's `getOtherNode`). The pair
      `{n, m}` is exactly the pair of endpoints, so a self-loop leads back to `n`. */
  function OtherNode(r: Relationship, n: NodeId): (m: NodeId)
    requires Incident(r, n)
    ensures multiset{n, m} == multiset{r.startNode, r.endNode}
  {
    if r.startNode == n then r.endNode else r.startNode
  }

  /** A snapshot of the store. `nodes[n]` is the `nodeRank` property of node `n`, `None`
      when the node has never been given one. */
  datatype Graph = Graph(nodes: map<NodeId, Option<int>>, relationships: set<Relationship>)

  /** The store never holds a relationship whose endpoint does not exist. */
  predicate Valid(g: Graph) {
    forall r :: r in g.relationships ==> r.startNode in g.nodes && r.endNode in g.nodes
  }

  /** The rank of `n` as the walker reads it: an absent property counts as 0. */
  function RankOf(g: Graph, n: NodeId): int
    requires n in g.nodes
  {
    g.nodes[n].GetOr(0)
  }

  /** `h` has the same nodes and relationships as `g`; only properties may differ. */
  predicate SameShape(g: Graph, h: Graph) {
    g.nodes.Keys == h.nodes.Keys && g.relationships == h.relationships
  }

  /** Writes `nodeRank` of `n` as its old value (0 if absent) plus one and touches nothing else. */
  function IncrementRank(g: Graph, n: NodeId): (h: Graph)
    requires n in g.nodes
    ensures SameShape(g, h)
    ensures h.nodes[n] == Some(RankOf(g, n) + 1)
    ensures forall m :: m in g.nodes && m != n ==> h.nodes[m] == g.nodes[m]
  {
    g.(nodes := g.nodes[n := Some(RankOf(g, n) + 1)])
  }

  /** Changing properties alone cannot make a relationship dangle. */
  lemma SameShapeKeepsValid(g: Graph, h: Graph)
    requires Valid(g) && SameShape(g, h)
    ensures Valid(h)
  {
  }
}
