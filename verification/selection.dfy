/** The two selectors a tick consults, seen only through what their results may be. The
    selectors pick at random; here one tick's choices are a pair of functions, and a later
    tick may use a different pair. */
module Selection {
  import opened Wrappers
  import opened Graphs

  /** `selectNode` picks a node to (re)start from; `selectRelationship` picks a relationship
      to follow from a node. `None` means nothing eligible was found. */
  datatype Selectors = Selectors(
    selectNode: Graph -> Option<NodeId>,
    selectRelationship: (Graph, NodeId) -> Option<Relationship>)

  /** On graph `g`: a selected node exists, and a relationship selected from an existing
      node exists and has that node as an endpoint. */
  predicate SoundAt(s: Selectors, g: Graph) {
    && (s.selectNode(g).Some? ==> s.selectNode(g).value in g.nodes)
    && forall n :: n in g.nodes && s.selectRelationship(g, n).Some? ==>
         s.selectRelationship(g, n).value in g.relationships && Incident(s.selectRelationship(g, n).value, n)
  }

  /** The selectors behave on every graph, whatever the ticks before them did. */
  ghost predicate Sound(s: Selectors) {
    forall g :: SoundAt(s, g)
  }
}
