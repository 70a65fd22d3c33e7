# NodeRank walker — a Dafny model

NodeRank is a GraphAware runtime module that walks a Neo4j graph at random, one step per
timer tick. Each time the walk arrives at a node, it adds one to that node's `nodeRank`
property. Over time the counts approach unnormalised PageRank scores. Between ticks, the
only state kept is a `NodeBasedContext`: the id of the last node the walk reached.

This project models the walk logic of `NodeRankModule` as pure functions over an immutable
graph snapshot:

- `Graphs` is the graph store as the walker sees it. A `Graph` maps each node id to its
  optional `nodeRank` value (`None` when the property is absent) and holds a set of typed,
  directed `Relationship`s. `Valid` says no relationship dangles. `OtherNode` is Neo4j's
  `getOtherNode`. `IncrementRank` is the property write at line 97.
- `Selection` turns `RandomNodeSelector` and `RandomRelationshipSelector` into oracles.
  `Selectors` pairs two total functions: one picks a start node in a graph, the other picks
  a relationship to follow from a node. `None` means nothing eligible. `SoundAt` is all
  the walker relies on: a selected node exists, and a selected relationship exists and has
  the given node as an endpoint. Randomness is modelled by letting every tick use its own
  pair.
- `NodeRankModule` is the tick itself: `CreateInitialContext`, `DetermineLastNode`,
  `DetermineNextNode` and `DoSomeWork`. A lookup of a deleted node is a `Failure(NotFound)`
  result, as `NotFoundException` is in the store.
- `Walks` chains ticks the way the scheduler does. `Walk` feeds each tick the context the
  previous tick returned, with no other change to the graph between ticks. `Start` seeds a
  walk with `CreateInitialContext` and then runs the ticks. `ChainWalk` works through a
  seeded three-tick run on `A -> B -> C`.

All properties hold for every selector result allowed by `SoundAt`. The only exception is
`ChainWalk`, which fixes one pair of selectors.

## Model

| member | source | states |
|---|---|---|
| `Graphs.OtherNode` | src/main/java/com/graphaware/module/noderank/NodeRankModule.java:128 | the node reached across a relationship and the node left behind are exactly its two endpoints, so a self-loop returns the current node |
| `Graphs.IncrementRank` | src/main/java/com/graphaware/module/noderank/NodeRankModule.java:97 | the node's `nodeRank` becomes its old value (0 if absent) plus one; all other nodes' ranks, the node set and the relationship set are unchanged |
| `NodeRankModule.CreateInitialContext` | src/main/java/com/graphaware/module/noderank/NodeRankModule.java:73-83 | returns no context exactly when the node selector finds none; otherwise returns a context on the selected node, which exists. Its result holds no graph, so it writes no rank |
| `NodeRankModule.DetermineLastNode` | src/main/java/com/graphaware/module/noderank/NodeRankModule.java:102-115 | yields a node exactly when a context is given and its node still exists, and that node is the context's node; a missing context and a deleted node both yield none |
| `NodeRankModule.DetermineNextNode` | src/main/java/com/graphaware/module/noderank/NodeRankModule.java:117-129 | with no current node, the result is whatever the node selector returns. From a node, there is a next node exactly when a relationship is selected, and that next node is the relationship's other endpoint. Any next node exists in the graph |
| `NodeRankModule.DoSomeWork` | src/main/java/com/graphaware/module/noderank/NodeRankModule.java:89-100 | covers the whole transition table. Unresolved or absent context: the next node comes from the node selector. Resolved context: the walk crosses the selected relationship, and a dead end returns no context with the graph unchanged. The returned node gets rank old+1 (absent counts as 0), no other rank changes, and the node and relationship sets are kept |
| `NodeRankModule.RelationshipSelectorUnusedWhenUnresolved` | src/main/java/com/graphaware/module/noderank/NodeRankModule.java:102-120 | when the context is absent or its node was deleted, swapping in any other sound relationship selector gives the same tick, so the relationship selector is not consulted |
| `NodeRankModule.TickCountsOneVisit` | src/main/java/com/graphaware/module/noderank/NodeRankModule.java:93-99 | after a tick, each node's rank is its old rank plus one when the returned context names it and plus zero otherwise, so no rank decreases |
| `NodeRankModule.EmptyGraphStaysIdle` | src/main/java/com/graphaware/module/noderank/NodeRankModule.java:73-120 | on a graph with no nodes, seeding returns no context, and a tick without a context returns no context and leaves the graph unchanged |
| `Walks.Walk` | src/main/java/com/graphaware/module/noderank/NodeRankModule.java:89-100 | chaining ticks returns one context per tick and never adds or removes a node or a relationship |
| `Walks.WalkCountsVisits` | src/main/java/com/graphaware/module/noderank/NodeRankModule.java:89-100 | after any sequence of consecutive ticks with no other change to the graph between them, a node's rank equals its initial rank (absent counts as 0) plus the number of ticks whose returned context named it |
| `Walks.WalkAddsAtMostOnePerTick` | src/main/java/com/graphaware/module/noderank/NodeRankModule.java:89-100 | a walk of k consecutive ticks adds at most k to any node's rank |
| `Walks.WalkNeverLowersRanks` | src/main/java/com/graphaware/module/noderank/NodeRankModule.java:97 | no node's rank is lower after a walk than before it |
| `Walks.Start` | src/main/java/com/graphaware/module/noderank/NodeRankModule.java:73-100 | seeding followed by ticks returns one context per tick and keeps the graph's shape |
| `Walks.SeedingWritesNoRank` | src/main/java/com/graphaware/module/noderank/NodeRankModule.java:73-83 | once the walk is seeded, only the ticks' returned contexts add rank; the seeded start node gains nothing until a tick arrives at it |
| `Walks.ChainWalk` | src/main/java/com/graphaware/module/noderank/NodeRankModule.java:73-129 | on `A -> B -> C`, seeding picks A and writes no rank; three ticks following outgoing relationships then return B, then C, then none (the dead end at C). B and C end with rank 1 and A, the seed, has no rank |

## Left out

- Uniform randomness, and how `RandomNodeSelector` and `RandomRelationshipSelector` pick. Their library code is not part of this model. The node and relationship inclusion strategies they apply are left out for the same reason. The selectors are oracles constrained only by `SoundAt`.
- Relationship direction: the selector contract allows any relationship incident to the node, not only outgoing ones. `RandomRelationshipSelector`'s direction rule is not part of this model. The incident contract is the weaker assumption, so every property also covers a selector that follows only outgoing relationships.
- Logging (`LOG.warn`, `LOG.info`, `LOG.debug`) has no effect on the walk's result.
- The constructors, the configuration, the no-op `shutdown` and the `BaseRuntimeModule`/`TimerDrivenModule` plumbing (lines 45-67) contain no walk logic.
- The timer that calls `doSomeWork`, and concurrent walkers: the model has one walker per tick sequence. The write at line 97 is a plain read-then-write. Two walkers that race on one node can lose an update, and that is not modelled.
- Graph changes between ticks, such as node deletion, are made by other code. A single tick sees them only as a graph whose node set may lack the context's node.
- `Walks.Walk`: passes each tick's graph straight to the next tick, so a multi-tick walk has no deletion or outside write between ticks. The stale-context fallback is covered per tick by `DoSomeWork`, and within a walk only on its first tick. The counting law is stated for walks with no deletions.
- `Graphs.IncrementRank`: Java `int` overflow is not modelled, because ranks are unbounded integers. The `ClassCastException` thrown when `nodeRank` holds a non-integer is also not modelled, because the property slot can only hold an integer.
- Node properties other than `nodeRank` are not represented; the walk neither reads nor writes them.
