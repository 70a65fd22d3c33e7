/** One walker's tick: resolve where the walk stopped, move one node on, and count the visit
    in the arrived-at node's `nodeRank` property. */
module NodeRankModule {
  import opened Wrappers
  import opened Graphs
  import opened Selection

  /** The resumable cursor kept between ticks: the id of the last node the walk reached. */
  datatype Context = Context(nodeId: NodeId)

  /** The store's answer when an id names no node (a node deleted between ticks). */
  datatype LookupError = NotFound(nodeId: NodeId)

  /** What a tick hands back: the next cursor (if any) and the graph after the rank update. */
  datatype Tick = Tick(context: Option<Context>, graph: Graph)

  /** Looks the context's node up in the store. */
  function Find(c: Context, g: Graph): Result<NodeId, LookupError> {
    if c.nodeId in g.nodes then Success(c.nodeId) else Failure(NotFound(c.nodeId))
  }

  /** There is a context and its node still exists. */
  predicate Resolves(ctx: Option<Context>, g: Graph) {
    ctx.Some? && ctx.value.nodeId in g.nodes
  }

  /** Seeds a walk: a context on the selected node, or none when no node is eligible. It
      selects only; no rank is written. */
  function CreateInitialContext(g: Graph, s: Selectors): (ctx: Option<Context>)
    requires SoundAt(s, g)
    ensures ctx.None? <==> s.selectNode(g).None?
    ensures ctx.Some? ==> ctx.value.nodeId == s.selectNode(g).value && Resolves(ctx, g)
  {
    match s.selectNode(g)
    case None => None
    case Some(n) => Some(Context(n))
  }

  /** The node the walk stands on: none without a context, and none when the context's node
      has been deleted (the lookup failure is absorbed, not propagated). */
  function DetermineLastNode(lastContext: Option<Context>, g: Graph): (last: Option<NodeId>)
    ensures last.Some? <==> Resolves(lastContext, g)
    ensures last.Some? ==> last.value == lastContext.value.nodeId
  {
    match lastContext
    case None => None
    case Some(c) =>
      match Find(c, g)
      case Success(n) => Some(n)
      case Failure(_) => None
  }

  /** Where the walk goes next: from nowhere, wherever the node selector says; from a node,
      across the selected relationship, or nowhere at a dead end. */
  function DetermineNextNode(current: Option<NodeId>, g: Graph, s: Selectors): (next: Option<NodeId>)
    requires Valid(g) && SoundAt(s, g)
    requires current.Some? ==> current.value in g.nodes
    ensures next.Some? ==> next.value in g.nodes
    ensures current.None? ==> next == s.selectNode(g)
    ensures current.Some? ==> (next.None? <==> s.selectRelationship(g, current.value).None?)
    ensures current.Some? && next.Some? ==>
      var r := s.selectRelationship(g, current.value).value;
      multiset{current.value, next.value} == multiset{r.startNode, r.endNode}
  {
    match current
    case None => s.selectNode(g)
    case Some(n) =>
      match s.selectRelationship(g, n)
      case None => None
      case Some(r) => Some(OtherNode(r, n))
  }

  /** One tick of the walk. Without a resolvable context the node selector decides the next
      node and the relationship selector plays no part; from a resolved node the walk crosses
      the selected relationship, and a dead end yields no context and no change. The node
      arrived at, and only it, gains one rank, and the returned context names it. */
  function DoSomeWork(lastContext: Option<Context>, g: Graph, s: Selectors): (t: Tick)
    requires Valid(g) && SoundAt(s, g)
    ensures SameShape(g, t.graph) && Valid(t.graph)
    ensures t.context.None? ==> t.graph == g
    ensures t.context.Some? ==>
      var n := t.context.value.nodeId;
      && n in g.nodes
      && t.graph.nodes[n] == Some(RankOf(g, n) + 1)
      && forall m :: m in g.nodes && m != n ==> t.graph.nodes[m] == g.nodes[m]
    ensures !Resolves(lastContext, g) ==>
      && (t.context.None? <==> s.selectNode(g).None?)
      && (t.context.Some? ==> t.context.value.nodeId == s.selectNode(g).value)
    ensures Resolves(lastContext, g) ==>
      var cur := lastContext.value.nodeId;
      && (t.context.None? <==> s.selectRelationship(g, cur).None?)
      && (t.context.Some? ==>
            var r := s.selectRelationship(g, cur).value;
            multiset{cur, t.context.value.nodeId} == multiset{r.startNode, r.endNode})
  {
    var lastNode := DetermineLastNode(lastContext, g);
    var nextNode := DetermineNextNode(lastNode, g, s);
    match nextNode
    case None => Tick(None, g)
    case Some(n) =>
      var h := IncrementRank(g, n);
      SameShapeKeepsValid(g, h);
      Tick(Some(Context(n)), h)
  }

  /** Without a resolvable context, swapping the relationship selector for any other changes
      nothing: it is never consulted. */
  lemma RelationshipSelectorUnusedWhenUnresolved(
    lastContext: Option<Context>, g: Graph, s: Selectors, other: (Graph, NodeId) -> Option<Relationship>)
    requires Valid(g) && SoundAt(s, g) && SoundAt(s.(selectRelationship := other), g)
    requires !Resolves(lastContext, g)
    ensures DoSomeWork(lastContext, g, s) == DoSomeWork(lastContext, g, s.(selectRelationship := other))
  {
  }

  /** A tick adds one to the rank of the node its context names and leaves every other rank
      as it was; in particular no rank ever goes down. */
  lemma TickCountsOneVisit(lastContext: Option<Context>, g: Graph, s: Selectors, n: NodeId)
    requires Valid(g) && SoundAt(s, g) && n in g.nodes
    ensures var t := DoSomeWork(lastContext, g, s);
      RankOf(t.graph, n) == RankOf(g, n) + (if t.context == Some(Context(n)) then 1 else 0)
    ensures RankOf(DoSomeWork(lastContext, g, s).graph, n) >= RankOf(g, n)
  {
  }

  /** On a graph with no nodes, seeding yields no context and a tick without context does
      nothing. */
  lemma EmptyGraphStaysIdle(g: Graph, s: Selectors)
    requires Valid(g) && SoundAt(s, g) && g.nodes == map[]
    ensures CreateInitialContext(g, s) == None
    ensures DoSomeWork(None, g, s) == Tick(None, g)
  {
  }
}
