/** A walker driven over many ticks: the host seeds it once and then feeds each tick the
    context the previous tick returned. */
module Walks {
  import opened Wrappers
  import opened Graphs
  import opened Selection
  import opened NodeRankModule

  /** The contexts the ticks returned, in order, and the graph after the last tick. */
  datatype Run = Run(contexts: seq<Option<Context>>, graph: Graph)

  ghost predicate AllSound(ticks: seq<Selectors>) {
    forall i :: 0 <= i < |ticks| ==> Sound(ticks[i])
  }

  /** Runs one `DoSomeWork` per entry of `ticks`, each starting from the context the previous
      one returned. Ticks never add or remove nodes or relationships. */
  function Walk(ctx: Option<Context>, g: Graph, ticks: seq<Selectors>): (r: Run)
    requires Valid(g) && AllSound(ticks)
    ensures |r.contexts| == |ticks|
    ensures SameShape(g, r.graph) && Valid(r.graph)
    decreases |ticks|
  {
    if |ticks| == 0 then Run([], g)
    else
      var t := DoSomeWork(ctx, g, ticks[0]);
      var rest := Walk(t.context, t.graph, ticks[1..]);
      Run([t.context] + rest.contexts, rest.graph)
  }

  /** How many of `contexts` name node `n`. */
  function Visits(contexts: seq<Option<Context>>, n: NodeId): (k: nat)
    ensures k <= |contexts|
  {
    if |contexts| == 0 then 0
    else (if contexts[0] == Some(Context(n)) then 1 else 0) + Visits(contexts[1..], n)
  }

  /** After any number of ticks, a node's rank is its rank before them (absent counting as 0)
      plus the number of ticks whose returned context named it. */
  lemma {:induction false} WalkCountsVisits(ctx: Option<Context>, g: Graph, ticks: seq<Selectors>, n: NodeId)
    requires Valid(g) && AllSound(ticks) && n in g.nodes
    ensures RankOf(Walk(ctx, g, ticks).graph, n) == RankOf(g, n) + Visits(Walk(ctx, g, ticks).contexts, n)
    decreases |ticks|
  {
    if |ticks| > 0 {
      var t := DoSomeWork(ctx, g, ticks[0]);
      TickCountsOneVisit(ctx, g, ticks[0], n);
      WalkCountsVisits(t.context, t.graph, ticks[1..], n);
      var r := Walk(ctx, g, ticks);
      assert r.contexts[1..] == Walk(t.context, t.graph, ticks[1..]).contexts;
    }
  }

  /** No rank goes down over a walk. */
  lemma WalkNeverLowersRanks(ctx: Option<Context>, g: Graph, ticks: seq<Selectors>, n: NodeId)
    requires Valid(g) && AllSound(ticks) && n in g.nodes
    ensures RankOf(Walk(ctx, g, ticks).graph, n) >= RankOf(g, n)
  {
    WalkCountsVisits(ctx, g, ticks, n);
  }

  /** A walk of k ticks adds at most k to any rank. */
  lemma WalkAddsAtMostOnePerTick(ctx: Option<Context>, g: Graph, ticks: seq<Selectors>, n: NodeId)
    requires Valid(g) && AllSound(ticks) && n in g.nodes
    ensures RankOf(Walk(ctx, g, ticks).graph, n) <= RankOf(g, n) + |ticks|
  {
    WalkCountsVisits(ctx, g, ticks, n);
  }

  /** The host's lifecycle: seed a context once, then run the ticks from it. */
  function Start(g: Graph, seed: Selectors, ticks: seq<Selectors>): (r: Run)
    requires Valid(g) && SoundAt(seed, g) && AllSound(ticks)
    ensures |r.contexts| == |ticks| && SameShape(g, r.graph)
  {
    Walk(CreateInitialContext(g, seed), g, ticks)
  }

  /** Seeding counts as no visit: ranks grow only by the ticks' returned contexts, so the
      seeded start node gains nothing until a tick arrives at it. */
  lemma SeedingWritesNoRank(g: Graph, seed: Selectors, ticks: seq<Selectors>, n: NodeId)
    requires Valid(g) && SoundAt(seed, g) && AllSound(ticks) && n in g.nodes
    ensures RankOf(Start(g, seed, ticks).graph, n) == RankOf(g, n) + Visits(Start(g, seed, ticks).contexts, n)
  {
    WalkCountsVisits(CreateInitialContext(g, seed), g, ticks, n);
  }

  // A worked run on the graph A -> B -> C (ids 1, 2, 3): the node selector seeds the walk at A
  // and the relationship selector follows the single outgoing relationship of A and of B.

  const AtoB := Relationship(10, 1, 2, "NEXT")
  const BtoC := Relationship(11, 2, 3, "NEXT")
  const ChainGraph := Graph(map[1 := None, 2 := None, 3 := None], {AtoB, BtoC})

  function PickA(g: Graph): Option<NodeId> {
    if 1 in g.nodes then Some(1) else None
  }

  function FollowOutgoing(g: Graph, n: NodeId): Option<Relationship> {
    if n == 1 && AtoB in g.relationships then Some(AtoB)
    else if n == 2 && BtoC in g.relationships then Some(BtoC)
    else None
  }

  const ChainSelectors := Selectors(PickA, FollowOutgoing)

  /** Seeding picks A and writes no rank; three ticks then go to B, then to C, then stop at C's
      dead end. B and C end with rank 1 and A, the seed, keeps no rank. */
  lemma ChainWalk()
    ensures Valid(ChainGraph) && SoundAt(ChainSelectors, ChainGraph)
    ensures AllSound([ChainSelectors, ChainSelectors, ChainSelectors])
    ensures CreateInitialContext(ChainGraph, ChainSelectors) == Some(Context(1))
    ensures var r := Start(ChainGraph, ChainSelectors, [ChainSelectors, ChainSelectors, ChainSelectors]);
      && r.contexts == [Some(Context(2)), Some(Context(3)), None]
      && r.graph.nodes == map[1 := None, 2 := Some(1), 3 := Some(1)]
  {
    var s := ChainSelectors;
    assert CreateInitialContext(ChainGraph, s) == Some(Context(1));
    assert Sound(s) by {
      forall g: Graph ensures SoundAt(s, g) {
      }
    }
    var t1 := DoSomeWork(Some(Context(1)), ChainGraph, s);
    assert t1 == Tick(Some(Context(2)), Graph(map[1 := None, 2 := Some(1), 3 := None], {AtoB, BtoC}));
    var t2 := DoSomeWork(t1.context, t1.graph, s);
    assert t2 == Tick(Some(Context(3)), Graph(map[1 := None, 2 := Some(1), 3 := Some(1)], {AtoB, BtoC}));
    var t3 := DoSomeWork(t2.context, t2.graph, s);
    assert t3 == Tick(None, t2.graph);
    assert [s, s, s][1..] == [s, s];
    assert [s, s][1..] == [s];
    assert [s][1..] == [];
    assert AllSound([s]) && AllSound([s, s]) && AllSound([s, s, s]);
    assert Walk(t3.context, t3.graph, []) == Run([], t3.graph);
    var w3 := Walk(t2.context, t2.graph, [s]);
    assert w3 == Run([None], t2.graph);
    var w2 := Walk(t1.context, t1.graph, [s, s]);
    assert w2 == Run([Some(Context(3))] + w3.contexts, w3.graph);
  }
}
