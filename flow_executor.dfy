/**
 * The flow execution engine: `topo_sort`, Kahn's algorithm over the flow's
 * node and edge lists, and `execute_flow`, which walks that order with one
 * shared context, dispatching each node to its registered handler and
 * stopping early when a handler asks for user action.
 */
module FlowExecutor {
  import opened Values
  import opened Models
  import opened Seqs

  /** Why `topo_sort` rejects a flow. */
  datatype FlowError =
    | UnknownNode(id: string)   // the KeyError raised when an edge names an id no node has
    | Cycles                    // HTTP 400 with detail CycleDetail

  const CycleDetail := "Flow contains cycles"

  function Ids(nodes: seq<FlowNode>): (ids: seq<string>)
    ensures |ids| == |nodes|
    ensures forall i :: 0 <= i < |nodes| ==> ids[i] == nodes[i].id
  {
    seq(|nodes|, i requires 0 <= i < |nodes| => nodes[i].id)
  }

  /** Every edge names a source and a target that some node has. */
  predicate EdgesKnown(ids: seq<string>, edges: seq<FlowEdge>) {
    forall k :: 0 <= k < |edges| ==> edges[k].source in ids && edges[k].target in ids
  }

  /** Number of edges into `v` whose source is not in `done`. */
  function InDegree(edges: seq<FlowEdge>, v: string, done: seq<string>): nat {
    if edges == [] then 0
    else
      var e := edges[|edges| - 1];
      InDegree(edges[..|edges| - 1], v, done) + if e.target == v && e.source !in done then 1 else 0
  }

  /** Targets of the edges leaving `u`, in edge-list order (the adjacency list of `u`). */
  function Targets(edges: seq<FlowEdge>, u: string): (ts: seq<string>)
    ensures forall t :: t in ts ==> exists k :: 0 <= k < |edges| && edges[k].source == u && edges[k].target == t
  {
    if edges == [] then []
    else
      var e := edges[|edges| - 1];
      Targets(edges[..|edges| - 1], u) + if e.source == u then [e.target] else []
  }

  /** Every edge into `v` starts at a node in `done`. */
  predicate SourcesIn(edges: seq<FlowEdge>, v: string, done: seq<string>) {
    forall k :: 0 <= k < |edges| && edges[k].target == v ==> edges[k].source in done
  }

  /** A non-empty set of ids each of which has an incoming edge from the set itself. */
  predicate IsStuck(edges: seq<FlowEdge>, S: set<string>) {
    S != {} && forall v {:trigger EdgeInto(edges, S, v)} :: v in S ==> EdgeInto(edges, S, v)
  }

  /** Some edge from a member of `S` ends at `v`. */
  predicate EdgeInto(edges: seq<FlowEdge>, S: set<string>, v: string) {
    exists k :: 0 <= k < |edges| && edges[k].target == v && edges[k].source in S
  }

  /** The edges form no cycle: no set of nodes is stuck. */
  ghost predicate Acyclic(edges: seq<FlowEdge>) {
    forall S: set<string> :: !IsStuck(edges, S)
  }

  predicate HasEdge(edges: seq<FlowEdge>, a: string, b: string) {
    exists k :: 0 <= k < |edges| && edges[k].source == a && edges[k].target == b
  }

  /** `w[0] -> w[1] -> ... -> w[|w|-1] -> w[0]` are all edges. */
  /** The element after position `i` of `w`, wrapping around at the end. */
  function Succ(w: seq<string>, i: int): string
    requires 0 <= i < |w|
  {
    if i + 1 < |w| then w[i + 1] else w[0]
  }

  predicate ClosedWalk(edges: seq<FlowEdge>, w: seq<string>) {
    |w| >= 1 && forall i {:trigger Succ(w, i)} :: 0 <= i < |w| ==> HasEdge(edges, w[i], Succ(w, i))
  }

  /** Distinct ids in order of first occurrence: the key order of a dict built from `ids`. */
  function Dedup(ids: seq<string>): (r: seq<string>)
    ensures NoDup(r)
    ensures forall x :: x in r <==> x in ids
  {
    if ids == [] then []
    else
      var p := Dedup(ids[..|ids| - 1]);
      var x := ids[|ids| - 1];
      assert forall y :: y in ids <==> y in ids[..|ids| - 1] || y == x by {
        assert ids == ids[..|ids| - 1] + [x];
      }
      if x in p then p else p + [x]
  }

  /** The ids with no incoming edge, in the order given. */
  function Frontier(keys: seq<string>, edges: seq<FlowEdge>): (r: seq<string>)
    ensures forall x :: x in r <==> x in keys && InDegree(edges, x, []) == 0
    ensures NoDup(keys) ==> NoDup(r)
  {
    if keys == [] then []
    else
      var p := Frontier(keys[..|keys| - 1], edges);
      var x := keys[|keys| - 1];
      assert keys == keys[..|keys| - 1] + [x];
      NoDupSnoc(keys[..|keys| - 1], x);
      if InDegree(edges, x, []) == 0 then p + [x] else p
  }

  /** `{node.id: node for node in nodes}`: a later node with the same id replaces an earlier one. */
  function IdToNode(nodes: seq<FlowNode>): (m: map<string, FlowNode>)
    ensures forall id :: id in m <==> id in Ids(nodes)
    ensures forall id :: id in m ==> m[id].id == id
    ensures forall i :: 0 <= i < |nodes| ==> nodes[i].id in m
    ensures NoDup(Ids(nodes)) ==> forall i :: 0 <= i < |nodes| ==> m[nodes[i].id] == nodes[i]
  {
    if nodes == [] then map[]
    else
      var p := nodes[..|nodes| - 1];
      var n := nodes[|nodes| - 1];
      assert nodes == p + [n];
      assert Ids(nodes) == Ids(p) + [n.id];
      NoDupSnoc(Ids(p), n.id);
      IdToNode(p)[n.id := n]
  }

  /**
   * `order` lists the flow's nodes once each (a permutation of `nodes`, whose
   * ids are distinct) and every edge's source comes before its target.
   */
  ghost predicate IsTopologicalOrder(order: seq<FlowNode>, nodes: seq<FlowNode>, edges: seq<FlowEdge>) {
    && |order| == |nodes|
    && multiset(order) == multiset(nodes)
    && NoDup(Ids(order))
    && forall i, j, k ::
         (0 <= i < |order| && 0 <= j < |order| && 0 <= k < |edges| &&
          edges[k].source == order[i].id && edges[k].target == order[j].id) ==> i < j
  }

  // ---------------------------------------------------------------------------
  // Facts about in-degrees

  lemma {:induction false} InDegreeZero(edges: seq<FlowEdge>, v: string, done: seq<string>)
    ensures InDegree(edges, v, done) == 0 <==> SourcesIn(edges, v, done)
  {
    if edges != [] {
      var p := edges[..|edges| - 1];
      InDegreeZero(p, v, done);
      assert forall k :: 0 <= k < |p| ==> p[k] == edges[k];
    }
  }

  /** Marking `u` done removes exactly the edges `u -> v`, which are the occurrences of `v` in `u`'s adjacency list. */
  lemma {:induction false} InDegreeStep(edges: seq<FlowEdge>, v: string, done: seq<string>, u: string)
    requires u !in done
    ensures InDegree(edges, v, done) == InDegree(edges, v, done + [u]) + multiset(Targets(edges, u))[v]
  {
    if edges != [] {
      var p := edges[..|edges| - 1];
      InDegreeStep(p, v, done, u);
      var e := edges[|edges| - 1];
      assert Targets(edges, u) == Targets(p, u) + if e.source == u then [e.target] else [];
    }
  }

  lemma {:induction false} InDegreeNoEdges(edges: seq<FlowEdge>, v: string, done: seq<string>)
    requires forall k :: 0 <= k < |edges| ==> edges[k].target != v
    ensures InDegree(edges, v, done) == 0
  {
    if edges != [] {
      InDegreeNoEdges(edges[..|edges| - 1], v, done);
    }
  }

  // ---------------------------------------------------------------------------
  // Cycles

  /** The nodes of a closed walk form a stuck set. */
  lemma ClosedWalkIsStuck(edges: seq<FlowEdge>, w: seq<string>)
    requires ClosedWalk(edges, w)
    ensures IsStuck(edges, Elems(w))
  {
    var S := Elems(w);
    assert w[0] in S;
    forall v | v in S
      ensures EdgeInto(edges, S, v)
    {
      var j :| 0 <= j < |w| && w[j] == v;
      var i := if j == 0 then |w| - 1 else j - 1;
      assert Succ(w, i) == v;
      var k :| 0 <= k < |edges| && edges[k].source == w[i] && edges[k].target == v;
      assert edges[k].source in S;
    }
  }

  /** A graph with a closed walk is not acyclic. */
  lemma ClosedWalkNotAcyclic(edges: seq<FlowEdge>, w: seq<string>)
    requires ClosedWalk(edges, w)
    ensures !Acyclic(edges)
  {
    ClosedWalkIsStuck(edges, w);
  }

  /**
   * If each node of `order` has all its predecessors in `done` or earlier in
   * `order`, no set of nodes listed in `order` and disjoint from `done` is stuck.
   */
  lemma {:induction false} OrderedSetNotStuck(edges: seq<FlowEdge>, order: seq<string>, done: seq<string>, S: set<string>)
    requires forall i :: 0 <= i < |order| ==> SourcesIn(edges, order[i], done + order[..i])
    requires forall v :: v in S ==> v in order && v !in done
    ensures !IsStuck(edges, S)
    decreases |order|
  {
    if order != [] && S != {} {
      var x := order[0];
      assert SourcesIn(edges, x, done) by {
        assert done + order[..0] == done;
      }
      if x in S {
        assert !EdgeInto(edges, S, x);
      } else {
        var rest := order[1..];
        forall i | 0 <= i < |rest| ensures SourcesIn(edges, rest[i], (done + [x]) + rest[..i]) {
          assert (done + [x]) + rest[..i] == done + order[..i + 1];
        }
        forall v | v in S ensures v in rest && v !in done + [x] {
          var j :| 0 <= j < |order| && order[j] == v;
          assert j != 0;
          assert rest[j - 1] == v;
        }
        OrderedSetNotStuck(edges, rest, done + [x], S);
      }
    }
  }

  // ---------------------------------------------------------------------------
  // topo_sort

  lemma InDegreeSnoc(edges: seq<FlowEdge>, e: FlowEdge, v: string, done: seq<string>)
    ensures InDegree(edges + [e], v, done) == InDegree(edges, v, done) + if e.target == v && e.source !in done then 1 else 0
  {
    assert (edges + [e])[..|edges|] == edges;
  }

  lemma TargetsSnoc(edges: seq<FlowEdge>, e: FlowEdge, u: string)
    ensures Targets(edges + [e], u) == Targets(edges, u) + if e.source == u then [e.target] else []
  {
    assert (edges + [e])[..|edges|] == edges;
  }

  /** The in-degree and adjacency maps agree with the edge list `seen`. */
  ghost predicate Counted(seen: seq<FlowEdge>, incoming: map<string, nat>, adjacency: map<string, seq<string>>) {
    && (forall v :: v in incoming ==> incoming[v] == InDegree(seen, v, []))
    && (forall u :: u in adjacency ==> adjacency[u] == Targets(seen, u))
  }

  /** Recording edge `e` in both maps keeps them in step with the edge list. */
  lemma AddEdgeKeeps(seen: seq<FlowEdge>, e: FlowEdge, incoming: map<string, nat>, adjacency: map<string, seq<string>>)
    requires Counted(seen, incoming, adjacency)
    requires e.source in adjacency && e.target in incoming
    ensures Counted(seen + [e], incoming[e.target := incoming[e.target] + 1],
                    adjacency[e.source := adjacency[e.source] + [e.target]])
  {
    forall v | v in incoming {
      InDegreeSnoc(seen, e, v, []);
    }
    forall u | u in adjacency {
      TargetsSnoc(seen, e, u);
    }
  }

  /** The maps `topo_sort` builds before the Kahn loop. */
  datatype Graph = Graph(keys: seq<string>, incoming: map<string, nat>, adjacency: map<string, seq<string>>)

  ghost predicate GraphOf(g: Graph, ids: seq<string>, edges: seq<FlowEdge>) {
    && g.keys == Dedup(ids)
    && g.incoming.Keys == Elems(ids)
    && g.adjacency.Keys == Elems(ids)
    && (forall v :: v in g.incoming ==> g.incoming[v] == InDegree(edges, v, []))
    && (forall u :: u in g.adjacency ==> g.adjacency[u] == Targets(edges, u))
  }

  /** The first loop of `topo_sort`: every node id gets in-degree 0 and an empty adjacency list. */
  method EmptyGraph(ids: seq<string>) returns (g: Graph)
    ensures g.keys == Dedup(ids)
    ensures g.incoming.Keys == Elems(ids) && g.adjacency.Keys == Elems(ids)
    ensures forall v :: v in g.incoming ==> g.incoming[v] == 0
    ensures forall v :: v in g.adjacency ==> g.adjacency[v] == []
  {
    var keys: seq<string> := [];
    var incoming: map<string, nat> := map[];
    var adjacency: map<string, seq<string>> := map[];
    var i := 0;
    while i < |ids|
      invariant 0 <= i <= |ids|
      invariant keys == Dedup(ids[..i])
      invariant forall v :: v in incoming <==> v in ids[..i]
      invariant adjacency.Keys == incoming.Keys
      invariant forall v :: v in incoming ==> incoming[v] == 0
      invariant forall v :: v in adjacency ==> adjacency[v] == []
    {
      var id := ids[i];
      assert ids[..i + 1] == ids[..i] + [id];
      if id !in incoming {
        keys := keys + [id];
      }
      incoming := incoming[id := 0];
      adjacency := adjacency[id := []];
      i := i + 1;
    }
    assert ids[..|ids|] == ids;
    assert incoming.Keys == Elems(ids);
    g := Graph(keys, incoming, adjacency);
  }

  /**
   * The in-degree and adjacency maps, keyed by node id in first-occurrence
   * order. An edge whose source (checked first) or target is not a node id
   * raises a KeyError naming that id.
   */
  method BuildGraph(ids: seq<string>, edges: seq<FlowEdge>) returns (r: Result<Graph, FlowError>)
    ensures r.Ok? <==> EdgesKnown(ids, edges)
    ensures r.Ok? ==> GraphOf(r.value, ids, edges)
    ensures r.Err? ==> (
      && r.error.UnknownNode?
      && exists k :: 0 <= k < |edges| && EdgesKnown(ids, edges[..k]) &&
           if edges[k].source !in ids then r.error.id == edges[k].source
           else r.error.id == edges[k].target && edges[k].target !in ids)
  {
    var g := EmptyGraph(ids);
    var incoming, adjacency := g.incoming, g.adjacency;
    assert edges[..0] == [];
    var k := 0;
    while k < |edges|
      invariant 0 <= k <= |edges|
      invariant EdgesKnown(ids, edges[..k])
      invariant incoming.Keys == g.incoming.Keys && adjacency.Keys == g.incoming.Keys
      invariant Counted(edges[..k], incoming, adjacency)
    {
      var e := edges[k];
      assert edges[..k + 1] == edges[..k] + [e];
      if e.source !in adjacency {
        return Err(UnknownNode(e.source));
      }
      ghost var adjacency0 := adjacency;
      adjacency := adjacency[e.source := adjacency[e.source] + [e.target]];
      if e.target !in incoming {
        return Err(UnknownNode(e.target));
      }
      AddEdgeKeeps(edges[..k], e, incoming, adjacency0);
      incoming := incoming[e.target := incoming[e.target] + 1];
      k := k + 1;
    }
    assert edges[..|edges|] == edges;
    r := Ok(Graph(g.keys, incoming, adjacency));
  }

  /** `[node_id for node_id, degree in incoming.items() if degree == 0]`, in key order. */
  method InitialQueue(g: Graph, ghost ids: seq<string>, ghost edges: seq<FlowEdge>) returns (queue: seq<string>)
    requires GraphOf(g, ids, edges)
    ensures queue == Frontier(g.keys, edges)
  {
    queue := [];
    var j := 0;
    while j < |g.keys|
      invariant 0 <= j <= |g.keys|
      invariant queue == Frontier(g.keys[..j], edges)
    {
      var id := g.keys[j];
      assert g.keys[..j + 1][..j] == g.keys[..j];
      assert id in ids;
      if g.incoming[id] == 0 {
        queue := queue + [id];
      }
      j := j + 1;
    }
    assert g.keys[..|g.keys|] == g.keys;
  }

  /** What the Kahn loop keeps true between iterations, apart from the in-degree counts. */
  ghost predicate QueueInv(edges: seq<FlowEdge>, K: set<string>, incoming: map<string, nat>, ordered: seq<string>, queue: seq<string>) {
    && incoming.Keys == K
    && NoDup(ordered + queue)
    && (forall v :: v in ordered + queue ==> v in K)
    && (forall v :: v in incoming ==> (v in ordered + queue <==> incoming[v] == 0))
    && (forall v :: v in queue ==> SourcesIn(edges, v, ordered))
  }

  /** One decrement of the inner loop, enqueuing the target when its count reaches zero, keeps the invariant. */
  lemma DecrementKeeps(edges: seq<FlowEdge>, K: set<string>, incoming: map<string, nat>, ordered: seq<string>,
                       queue: seq<string>, t: string, rest: seq<string>)
    requires t in K
    requires QueueInv(edges, K, incoming, ordered, queue)
    requires forall v :: v in incoming ==> incoming[v] == InDegree(edges, v, ordered) + multiset([t] + rest)[v]
    ensures incoming[t] > 0
    ensures var incoming' := incoming[t := incoming[t] - 1];
            var queue' := if incoming'[t] == 0 then queue + [t] else queue;
            && QueueInv(edges, K, incoming', ordered, queue')
            && forall v :: v in incoming' ==> incoming'[v] == InDegree(edges, v, ordered) + multiset(rest)[v]
  {
    var incoming' := incoming[t := incoming[t] - 1];
    if incoming'[t] == 0 {
      InDegreeZero(edges, t, ordered);
      assert ordered + (queue + [t]) == (ordered + queue) + [t];
      NoDupSnoc(ordered + queue, t);
    }
  }

  // ---------------------------------------------------------------------------
  // The loop as a function: the exact order Kahn's algorithm produces

  /**
   * The inner loop as a function: decrement each target's count in
   * adjacency order, enqueuing a target when its count reaches zero. Every
   * target is a node id once the graph is built; a target that were not
   * would raise a KeyError, and this reference skips it.
   */
  function Relaxed(incoming: map<string, int>, queue: seq<string>, targets: seq<string>): (r: (map<string, int>, seq<string>))
    ensures queue <= r.1
    ensures r.0.Keys == incoming.Keys
    decreases |targets|
  {
    if targets == [] then (incoming, queue)
    else
      var t := targets[0];
      if t !in incoming then Relaxed(incoming, queue, targets[1..])
      else
        var n := incoming[t] - 1;
        Relaxed(incoming[t := n], if n == 0 then queue + [t] else queue, targets[1..])
  }

  /**
   * The rest of the Kahn loop from the state given by the counts `incoming`,
   * the FIFO `queue` and the ids `ordered` so far: each turn pops the head
   * of the queue, orders it and relaxes its adjacency list; the loop stops
   * when the queue is empty, or after `fuel` turns.
   */
  function KahnRun(adjacency: map<string, seq<string>>, incoming: map<string, int>, queue: seq<string>,
                   ordered: seq<string>, fuel: nat): (r: seq<string>)
    ensures ordered <= r
    ensures |r| <= |ordered| + fuel
    ensures queue == [] ==> r == ordered
    decreases fuel
  {
    if fuel == 0 || queue == [] then ordered
    else
      var u := queue[0];
      var relaxed := Relaxed(incoming, queue[1..], if u in adjacency then adjacency[u] else []);
      KahnRun(adjacency, relaxed.0, relaxed.1, ordered + [u], fuel - 1)
  }

  /**
   * The maps `topo_sort` builds, computed from the inputs: the distinct node
   * ids in first-occurrence order, each with its in-degree and its
   * adjacency list.
   */
  function ReferenceGraph(ids: seq<string>, edges: seq<FlowEdge>): (g: Graph)
    ensures NoDup(g.keys) && g.incoming.Keys == g.adjacency.Keys == Elems(g.keys) == Elems(ids)
  {
    var keys := Dedup(ids);
    Graph(keys, map v | v in keys :: InDegree(edges, v, []), map u | u in keys :: Targets(edges, u))
  }

  /**
   * The ids in the order `topo_sort` lists them, computed from the inputs:
   * the queue seeded with the ids of in-degree zero in key order, and at
   * most one turn of the loop per distinct id (each turn orders a new id).
   */
  function KahnOrder(nodes: seq<FlowNode>, edges: seq<FlowEdge>): (order: seq<string>)
    ensures |order| <= |Elems(Ids(nodes))|
  {
    var g := ReferenceGraph(Ids(nodes), edges);
    ElemsCard(g.keys);
    KahnRun(g.adjacency, g.incoming, Frontier(g.keys, edges), [], |g.keys|)
  }

  /** Relaxing a key first decrements its count, enqueuing it if the count reaches zero. */
  lemma RelaxedCons(incoming: map<string, int>, queue: seq<string>, t: string, rest: seq<string>)
    requires t in incoming
    ensures var n := incoming[t] - 1;
      Relaxed(incoming, queue, [t] + rest) == Relaxed(incoming[t := n], if n == 0 then queue + [t] else queue, rest)
  {
    assert ([t] + rest)[1..] == rest;
  }

  /**
   * Relaxing the adjacency list of the node just ordered keeps the queue
   * invariant, and leaves every count at the number of edges into that id
   * from ids not yet ordered.
   */
  lemma {:induction false} RelaxedKeeps(edges: seq<FlowEdge>, K: set<string>, incoming: map<string, nat>,
                                        ordered: seq<string>, queue: seq<string>, targets: seq<string>)
    requires forall t :: t in targets ==> t in K
    requires QueueInv(edges, K, incoming, ordered, queue)
    requires forall v :: v in incoming ==> incoming[v] == InDegree(edges, v, ordered) + multiset(targets)[v]
    ensures var r := Relaxed(incoming, queue, targets);
      && (forall v :: v in r.0 ==> r.0[v] == InDegree(edges, v, ordered))
      && QueueInv(edges, K, r.0, ordered, r.1)
    decreases |targets|
  {
    if targets != [] {
      var t := targets[0];
      var rest := targets[1..];
      assert targets == [t] + rest;
      DecrementKeeps(edges, K, incoming, ordered, queue, t, rest);
      RelaxedCons(incoming, queue, t, rest);
      var incoming' := incoming[t := incoming[t] - 1];
      RelaxedKeeps(edges, K, incoming', ordered, if incoming'[t] == 0 then queue + [t] else queue, rest);
    }
  }

  /** One turn of the inner loop keeps its invariant: the counts still cover the targets left, and what remains relaxes to the same result. */
  lemma RelaxTurn(edges: seq<FlowEdge>, ordered: seq<string>, incoming: map<string, nat>, queue: seq<string>,
                  targets: seq<string>, j: nat, goal: (map<string, int>, seq<string>))
    requires j < |targets| && targets[j] in incoming
    requires forall v :: v in incoming ==> incoming[v] == InDegree(edges, v, ordered) + multiset(targets[j..])[v]
    requires goal == Relaxed(incoming, queue, targets[j..])
    ensures incoming[targets[j]] > 0
    ensures var t := targets[j];
      var incoming' := incoming[t := incoming[t] - 1];
      && (forall v :: v in incoming' ==> incoming'[v] == InDegree(edges, v, ordered) + multiset(targets[j + 1..])[v])
      && goal == Relaxed(incoming', if incoming'[t] == 0 then queue + [t] else queue, targets[j + 1..])
  {
    assert targets[j..] == [targets[j]] + targets[j + 1..];
    RelaxedCons(incoming, queue, targets[j], targets[j + 1..]);
  }

  /** A turn of the loop whose relaxation gave `incoming'` and `queue'` leaves the rest of the run unchanged. */
  lemma RunAdvances(adjacency: map<string, seq<string>>, incoming: map<string, int>, queue: seq<string>,
                    ordered: seq<string>, targets: seq<string>, incoming': map<string, int>, queue': seq<string>,
                    ordered': seq<string>, fuel: nat, fuel': nat)
    requires queue != [] && fuel == fuel' + 1
    requires queue[0] in adjacency && targets == adjacency[queue[0]]
    requires incoming' == Relaxed(incoming, queue[1..], targets).0 && queue' == Relaxed(incoming, queue[1..], targets).1
    requires ordered' == ordered + [queue[0]]
    ensures KahnRun(adjacency, incoming, queue, ordered, fuel) == KahnRun(adjacency, incoming', queue', ordered', fuel')
  {
  }

  /**
   * The inner loop of Kahn's algorithm: decrement the in-degree of each
   * target of the node just ordered, enqueuing those that reach zero.
   */
  method Relax(incoming0: map<string, nat>, queue0: seq<string>, targets: seq<string>,
               ghost edges: seq<FlowEdge>, ghost K: set<string>, ghost ordered: seq<string>)
    returns (incoming: map<string, nat>, queue: seq<string>)
    requires forall t :: t in targets ==> t in K
    requires QueueInv(edges, K, incoming0, ordered, queue0)
    requires forall v :: v in incoming0 ==> incoming0[v] == InDegree(edges, v, ordered) + multiset(targets)[v]
    ensures incoming == Relaxed(incoming0, queue0, targets).0 && queue == Relaxed(incoming0, queue0, targets).1
    ensures QueueInv(edges, K, incoming, ordered, queue)
    ensures forall v :: v in incoming ==> incoming[v] == InDegree(edges, v, ordered)
    ensures queue0 <= queue
  {
    incoming, queue := incoming0, queue0;
    ghost var goal := Relaxed(incoming0, queue0, targets);
    var j := 0;
    while j < |targets|
      invariant 0 <= j <= |targets|
      invariant incoming.Keys == K
      invariant forall v :: v in incoming ==> incoming[v] == InDegree(edges, v, ordered) + multiset(targets[j..])[v]
      invariant goal == Relaxed(incoming, queue, targets[j..])
    {
      var t := targets[j];
      RelaxTurn(edges, ordered, incoming, queue, targets, j, goal);
      incoming := incoming[t := incoming[t] - 1];
      if incoming[t] == 0 {
        queue := queue + [t];
      }
      j := j + 1;
    }
    assert targets[|targets|..] == [];
    RelaxedKeeps(edges, K, incoming0, ordered, queue0, targets);
  }

  /** Before the loop, the queue holds exactly the ids of in-degree zero, once each. */
  lemma InitialQueueInv(g: Graph, ids: seq<string>, edges: seq<FlowEdge>)
    requires GraphOf(g, ids, edges)
    ensures QueueInv(edges, g.incoming.Keys, g.incoming, [], Frontier(g.keys, edges))
  {
    var q := Frontier(g.keys, edges);
    assert [] + q == q;
    forall v | v in q ensures SourcesIn(edges, v, []) {
      InDegreeZero(edges, v, []);
    }
  }

  /** Popping the head `u` of the queue onto `ordered` keeps the queue invariant and exposes `u`'s out-edges in the counts. */
  lemma PopKeeps(edges: seq<FlowEdge>, K: set<string>, incoming: map<string, nat>, before: seq<string>, queue: seq<string>)
    requires queue != []
    requires QueueInv(edges, K, incoming, before, queue)
    requires forall v :: v in incoming ==> incoming[v] == InDegree(edges, v, before)
    ensures (before + [queue[0]]) + queue[1..] == before + queue
    ensures QueueInv(edges, K, incoming, before + [queue[0]], queue[1..])
    ensures SourcesIn(edges, queue[0], before)
    ensures forall v :: v in incoming ==>
      incoming[v] == InDegree(edges, v, before + [queue[0]]) + multiset(Targets(edges, queue[0]))[v]
  {
    var u := queue[0];
    assert queue == [u] + queue[1..];
    assert (before + [u]) + queue[1..] == before + queue;
    forall v | v in queue[1..] ensures SourcesIn(edges, v, before + [u]) {
      assert v in queue;
    }
    assert u !in before by {
      assert NoDup(before + [u]) by {
        forall i, j | 0 <= i < j < |before| + 1 ensures (before + [u])[i] != (before + [u])[j] {
          assert (before + queue)[i] != (before + queue)[j];
        }
      }
      NoDupSnoc(before, u);
    }
    forall v | v in incoming
      ensures incoming[v] == InDegree(edges, v, before + [u]) + multiset(Targets(edges, u))[v]
    {
      InDegreeStep(edges, v, before, u);
    }
  }

  /** Appending a node all of whose predecessors are already ordered keeps the order respecting edges. */
  lemma RespectSnoc(edges: seq<FlowEdge>, before: seq<string>, u: string)
    requires forall i :: 0 <= i < |before| ==> SourcesIn(edges, before[i], before[..i])
    requires SourcesIn(edges, u, before)
    ensures forall i :: 0 <= i < |before| + 1 ==> SourcesIn(edges, (before + [u])[i], (before + [u])[..i])
  {
    forall i | 0 <= i < |before| + 1 ensures SourcesIn(edges, (before + [u])[i], (before + [u])[..i]) {
      if i < |before| {
        assert (before + [u])[..i] == before[..i];
      } else {
        assert (before + [u])[..i] == before;
      }
    }
  }

  lemma PrefixExtend(a: seq<string>, b: seq<string>, c: seq<string>)
    requires b <= c
    ensures a + b <= a + c
  {
    assert (a + c)[..|a + b|] == a + b;
  }

  lemma TargetsKnown(edges: seq<FlowEdge>, u: string, K: set<string>)
    requires forall k :: 0 <= k < |edges| ==> edges[k].target in K
    ensures forall t :: t in Targets(edges, u) ==> t in K
  {
  }

  /**
   * What holds before every turn of the Kahn loop: the queue invariant, the
   * counts of edges from ids not yet ordered, every ordered id after its
   * sources, the initial queue ordered or still queued first, and no more
   * ids ordered or queued than there are nodes.
   */
  ghost predicate KahnInv(edges: seq<FlowEdge>, K: set<string>, incoming: map<string, nat>,
                          ordered: seq<string>, queue: seq<string>, queue0: seq<string>) {
    && QueueInv(edges, K, incoming, ordered, queue)
    && (forall v :: v in incoming ==> incoming[v] == InDegree(edges, v, ordered))
    && (forall i :: 0 <= i < |ordered| ==> SourcesIn(edges, ordered[i], ordered[..i]))
    && queue0 <= ordered + queue
    && |ordered + queue| <= |K|
  }

  /**
   * One turn of the Kahn loop: pop the head of the FIFO queue, append it to
   * `ordered`, and relax its adjacency list. The rest of the run is the
   * same from the new state, with one turn less of fuel.
   */
  method KahnTurn(incoming0: map<string, nat>, adjacency: map<string, seq<string>>, queue0: seq<string>,
                  ordered0: seq<string>, ghost edges: seq<FlowEdge>, ghost K: set<string>, ghost start: seq<string>,
                  ghost fuel: nat)
    returns (incoming: map<string, nat>, queue: seq<string>, ordered: seq<string>, ghost fuel': nat)
    requires queue0 != [] && fuel == |K| - |ordered0|
    requires KahnInv(edges, K, incoming0, ordered0, queue0, start)
    requires adjacency.Keys == K
    requires forall u :: u in adjacency ==> adjacency[u] == Targets(edges, u)
    requires forall k :: 0 <= k < |edges| ==> edges[k].target in K
    ensures ordered == ordered0 + [queue0[0]]
    ensures KahnInv(edges, K, incoming, ordered, queue, start)
    ensures fuel' == fuel - 1
    ensures KahnRun(adjacency, incoming0, queue0, ordered0, fuel) == KahnRun(adjacency, incoming, queue, ordered, fuel')
  {
    PopKeeps(edges, K, incoming0, ordered0, queue0);
    RespectSnoc(edges, ordered0, queue0[0]);
    var u := queue0[0];
    ordered := ordered0 + [u];
    var targets := adjacency[u];
    TargetsKnown(edges, u, K);
    incoming, queue := Relax(incoming0, queue0[1..], targets, edges, K, ordered);
    PrefixExtend(ordered, queue0[1..], queue);
    NoDupWithin(ordered + queue, K);
    fuel' := fuel - 1;
    RunAdvances(adjacency, incoming0, queue0, ordered0, targets, incoming, queue, ordered, fuel, fuel');
  }

  /**
   * The Kahn loop: take turns until the queue is empty. `K` is the set of
   * node ids.
   */
  method Kahn(incoming0: map<string, nat>, adjacency: map<string, seq<string>>, queue0: seq<string>,
              ghost edges: seq<FlowEdge>, ghost K: set<string>)
    returns (ordered: seq<string>)
    requires QueueInv(edges, K, incoming0, [], queue0)
    requires forall v :: v in incoming0 ==> incoming0[v] == InDegree(edges, v, [])
    requires adjacency.Keys == K
    requires forall u :: u in adjacency ==> adjacency[u] == Targets(edges, u)
    requires forall k :: 0 <= k < |edges| ==> edges[k].target in K
    ensures NoDup(ordered)
    ensures forall v :: v in ordered ==> v in K
    ensures forall i :: 0 <= i < |ordered| ==> SourcesIn(edges, ordered[i], ordered[..i])
    ensures forall v :: v in K && v !in ordered ==> !SourcesIn(edges, v, ordered)
    ensures queue0 <= ordered
    ensures ordered == KahnRun(adjacency, incoming0, queue0, [], |K|)
  {
    var incoming := incoming0;
    var queue := queue0;
    ordered := [];
    ghost var fuel: nat := |K|;
    ghost var final := KahnRun(adjacency, incoming0, queue0, [], fuel);
    assert [] + queue == queue;
    NoDupWithin(queue, K);
    while queue != []
      invariant KahnInv(edges, K, incoming, ordered, queue, queue0)
      invariant fuel == |K| - |ordered|
      invariant final == KahnRun(adjacency, incoming, queue, ordered, fuel)
      decreases fuel
    {
      incoming, queue, ordered, fuel := KahnTurn(incoming, adjacency, queue, ordered, edges, K, queue0, fuel);
    }
    KahnDone(edges, K, incoming, ordered, queue0);
  }

  /** When the queue runs empty, the ids ordered are distinct node ids in an order that respects every edge, and each id left out still has an edge from an id left out. */
  lemma KahnDone(edges: seq<FlowEdge>, K: set<string>, incoming: map<string, nat>, ordered: seq<string>, queue0: seq<string>)
    requires KahnInv(edges, K, incoming, ordered, [], queue0)
    ensures NoDup(ordered)
    ensures forall v :: v in ordered ==> v in K
    ensures forall i :: 0 <= i < |ordered| ==> SourcesIn(edges, ordered[i], ordered[..i])
    ensures forall v :: v in K && v !in ordered ==> !SourcesIn(edges, v, ordered)
    ensures queue0 <= ordered
  {
    assert ordered + [] == ordered;
    forall v | v in K && v !in ordered ensures !SourcesIn(edges, v, ordered) {
      InDegreeZero(edges, v, ordered);
    }
  }

  /** The ids Kahn's loop leaves out, when there are any, form a stuck set. */
  lemma LeftOutIsStuck(ids: seq<string>, edges: seq<FlowEdge>, ordered: seq<string>, S: set<string>)
    requires S == set v | v in ids && v !in ordered
    requires S != {}
    requires EdgesKnown(ids, edges)
    requires forall v :: v in ids && v !in ordered ==> !SourcesIn(edges, v, ordered)
    ensures IsStuck(edges, S)
  {
    forall v | v in S
      ensures EdgeInto(edges, S, v)
    {
      var k :| 0 <= k < |edges| && edges[k].target == v && edges[k].source !in ordered;
      assert edges[k].source in ids;
    }
  }

  /** With distinct ids and acyclic edges, Kahn's loop orders every node. */
  lemma AcyclicOrdersAll(nodes: seq<FlowNode>, edges: seq<FlowEdge>, ordered: seq<string>)
    requires EdgesKnown(Ids(nodes), edges)
    requires forall v :: v in Ids(nodes) && v !in ordered ==> !SourcesIn(edges, v, ordered)
    requires NoDup(Ids(nodes)) && Acyclic(edges)
    ensures |ordered| >= |nodes|
  {
    var S := set v | v in Ids(nodes) && v !in ordered;
    if S != {} {
      LeftOutIsStuck(Ids(nodes), edges, ordered, S);
      assert false;
    }
    forall v | v in Ids(nodes) ensures v in ordered {
      assert v !in S;
    }
    ElemsCard(Ids(nodes));
    ElemsCard(ordered);
    SubsetCard(Elems(Ids(nodes)), Elems(ordered));
  }

  /** Every member of a stuck set is the target of some edge, hence a known id. */
  lemma StuckMembersKnown(ids: seq<string>, edges: seq<FlowEdge>, S: set<string>)
    requires EdgesKnown(ids, edges)
    requires IsStuck(edges, S)
    ensures forall v :: v in S ==> v in ids
  {
    forall v | v in S ensures v in ids {
      assert EdgeInto(edges, S, v);
    }
  }

  /** No set of known ids is stuck when a complete, edge-respecting order lists them all. */
  lemma OrderedNotStuck(ids: seq<string>, edges: seq<FlowEdge>, ordered: seq<string>, S: set<string>)
    requires EdgesKnown(ids, edges)
    requires forall v :: v in ids ==> v in ordered
    requires forall i :: 0 <= i < |ordered| ==> SourcesIn(edges, ordered[i], ordered[..i])
    ensures !IsStuck(edges, S)
  {
    if IsStuck(edges, S) {
      StuckMembersKnown(ids, edges, S);
      forall i | 0 <= i < |ordered| ensures SourcesIn(edges, ordered[i], [] + ordered[..i]) {
        assert [] + ordered[..i] == ordered[..i];
      }
      OrderedSetNotStuck(edges, ordered, [], S);
    }
  }

  /** Kahn's loop ordered every id exactly when the ids are distinct and the edges are acyclic. */
  lemma CycleCheck(nodes: seq<FlowNode>, edges: seq<FlowEdge>, K: set<string>, ordered: seq<string>)
    requires K == Elems(Ids(nodes))
    requires EdgesKnown(Ids(nodes), edges)
    requires NoDup(ordered)
    requires forall v :: v in ordered ==> v in K
    requires forall i :: 0 <= i < |ordered| ==> SourcesIn(edges, ordered[i], ordered[..i])
    requires forall v :: v in K && v !in ordered ==> !SourcesIn(edges, v, ordered)
    ensures |ordered| == |nodes| <==> NoDup(Ids(nodes)) && Acyclic(edges)
  {
    ElemsCard(Ids(nodes));
    NoDupWithin(ordered, K);
    if NoDup(Ids(nodes)) && Acyclic(edges) {
      AcyclicOrdersAll(nodes, edges, ordered);
    } else if |ordered| == |nodes| && NoDup(Ids(nodes)) {
      NoDupCovers(ordered, K);
      forall S: set<string> ensures !IsStuck(edges, S) {
        OrderedNotStuck(Ids(nodes), edges, ordered, S);
      }
    }
  }

  /** `[id_to_node[node_id] for node_id in ordered]`. */
  function Lookup(idToNode: map<string, FlowNode>, ordered: seq<string>): (r: seq<FlowNode>)
    requires forall v :: v in ordered ==> v in idToNode
    ensures |r| == |ordered|
    ensures forall i :: 0 <= i < |ordered| ==> r[i] == idToNode[ordered[i]]
  {
    seq(|ordered|, i requires 0 <= i < |ordered| => idToNode[ordered[i]])
  }

  /** Distinct ids make distinct nodes. */
  lemma DistinctIdsDistinctNodes(nodes: seq<FlowNode>)
    requires NoDup(Ids(nodes))
    ensures NoDup(nodes)
  {
    forall i, j | 0 <= i < j < |nodes| ensures nodes[i] != nodes[j] {
      assert Ids(nodes)[i] != Ids(nodes)[j];
    }
  }

  /** Looking ids up in a map from id to node gives back nodes with those ids. */
  lemma LookupIds(m: map<string, FlowNode>, ordered: seq<string>)
    requires forall v :: v in ordered ==> v in m && m[v].id == v
    ensures Ids(Lookup(m, ordered)) == ordered
  {
    var r := Lookup(m, ordered);
    forall i | 0 <= i < |ordered| ensures Ids(r)[i] == ordered[i] {
      assert r[i] == m[ordered[i]];
    }
  }

  /** Every node whose id is looked up, in a map that sends each node's id to it, appears in the result. */
  lemma LookupCovers(nodes: seq<FlowNode>, m: map<string, FlowNode>, ordered: seq<string>)
    requires forall j :: 0 <= j < |nodes| ==> nodes[j].id in m && m[nodes[j].id] == nodes[j]
    requires forall v :: v in Ids(nodes) <==> v in ordered
    requires forall v :: v in ordered ==> v in m
    ensures forall n :: n in nodes <==> n in Lookup(m, ordered)
  {
    var r := Lookup(m, ordered);
    forall i | 0 <= i < |ordered| ensures r[i] in nodes {
      assert ordered[i] in Ids(nodes);
      var j :| 0 <= j < |nodes| && Ids(nodes)[j] == ordered[i];
    }
    forall j | 0 <= j < |nodes| ensures nodes[j] in r {
      assert Ids(nodes)[j] == nodes[j].id;
      assert Ids(nodes)[j] in Ids(nodes);
      var i :| 0 <= i < |ordered| && ordered[i] == nodes[j].id;
      assert r[i] == nodes[j];
    }
  }

  /** Looking up every id of `nodes` once each yields a permutation of `nodes`. */
  lemma LookupPermutes(nodes: seq<FlowNode>, m: map<string, FlowNode>, ordered: seq<string>)
    requires NoDup(Ids(nodes))
    requires forall j :: 0 <= j < |nodes| ==> nodes[j].id in m && m[nodes[j].id] == nodes[j]
    requires forall v :: v in m ==> m[v].id == v
    requires NoDup(ordered)
    requires forall v :: v in ordered ==> v in m
    requires forall v :: v in Ids(nodes) <==> v in ordered
    ensures Ids(Lookup(m, ordered)) == ordered
    ensures multiset(Lookup(m, ordered)) == multiset(nodes)
  {
    var r := Lookup(m, ordered);
    LookupIds(m, ordered);
    DistinctIdsDistinctNodes(r);
    DistinctIdsDistinctNodes(nodes);
    LookupCovers(nodes, m, ordered);
    SameElemsPermutation(r, nodes);
  }

  /** In an edge-respecting order of distinct ids, every edge points forward. */
  lemma EdgesPointForward(edges: seq<FlowEdge>, r: seq<FlowNode>)
    requires NoDup(Ids(r))
    requires forall i :: 0 <= i < |r| ==> SourcesIn(edges, Ids(r)[i], Ids(r)[..i])
    ensures forall i, j, k ::
      (0 <= i < |r| && 0 <= j < |r| && 0 <= k < |edges| &&
       edges[k].source == r[i].id && edges[k].target == r[j].id) ==> i < j
  {
    var ordered := Ids(r);
    forall i, j, k | 0 <= i < |r| && 0 <= j < |r| && 0 <= k < |edges| &&
                     edges[k].source == r[i].id && edges[k].target == r[j].id
      ensures i < j
    {
      assert SourcesIn(edges, ordered[j], ordered[..j]);
      assert edges[k].source in ordered[..j];
      var i' :| 0 <= i' < j && ordered[..j][i'] == edges[k].source;
      assert ordered[i'] == ordered[i];
    }
  }

  /** The distinct ids of three distinct nodes are the ids themselves. */
  lemma DedupThree(a: string, b: string, c: string)
    requires a != b && b != c && a != c
    ensures Dedup([a, b, c]) == [a, b, c]
  {
    assert [a][..0] == [];
    assert Dedup([a]) == [a];
    assert [a, b][..1] == [a];
    assert Dedup([a, b]) == [a, b];
    assert [a, b, c][..2] == [a, b];
  }

  /** The in-degrees and adjacency lists of a fan-out `a -> x`, `a -> y`. */
  lemma FanOutGraph(a: string, x: string, y: string, e1: string, e2: string)
    requires a != x && x != y && a != y
    ensures var edges := [FlowEdge(e1, a, x), FlowEdge(e2, a, y)];
      && InDegree(edges, a, []) == 0 && InDegree(edges, x, []) == 1 && InDegree(edges, y, []) == 1
      && Targets(edges, a) == [x, y] && Targets(edges, x) == [] && Targets(edges, y) == []
  {
    var edges := [FlowEdge(e1, a, x), FlowEdge(e2, a, y)];
    var first := [FlowEdge(e1, a, x)];
    assert edges[..1] == first && first[..0] == [];
    forall v ensures InDegree(first, v, []) == (if v == x then 1 else 0) && Targets(first, v) == (if v == a then [x] else []) {
    }
    forall v ensures InDegree(edges, v, []) == InDegree(first, v, []) + (if v == y then 1 else 0) {
    }
    forall v ensures Targets(edges, v) == Targets(first, v) + (if v == a then [y] else []) {
    }
  }

  /**
   * A fan-out `a -> x`, `a -> y` over nodes listed as `a`, `p`, `q`, where
   * `x` and `y` are `p` and `q` in either order: `a` first, then its
   * targets in the order their edges are listed, whatever the node order.
   */
  lemma FanOutOrder(a: string, p: string, q: string, x: string, y: string)
    requires a != p && p != q && a != q
    requires (x, y) == (p, q) || (x, y) == (q, p)
    ensures var n := FlowNodeData("", None, map[]);
      var nodes := [FlowNode(a, ManualTrigger, n), FlowNode(p, Set, n), FlowNode(q, Set, n)];
      KahnOrder(nodes, [FlowEdge("e1", a, x), FlowEdge("e2", a, y)]) == [a, x, y]
  {
    var n := FlowNodeData("", None, map[]);
    var nodes := [FlowNode(a, ManualTrigger, n), FlowNode(p, Set, n), FlowNode(q, Set, n)];
    assert Ids(nodes) == [a, p, q];
    FanOutReference(a, p, q, x, y);
    FanOutRun(a, x, y);
  }

  /** The reference maps and the initial queue of that fan-out. */
  lemma FanOutReference(a: string, p: string, q: string, x: string, y: string)
    requires a != p && p != q && a != q
    requires (x, y) == (p, q) || (x, y) == (q, p)
    ensures var edges := [FlowEdge("e1", a, x), FlowEdge("e2", a, y)];
      && ReferenceGraph([a, p, q], edges) == Graph([a, p, q], map[a := 0, x := 1, y := 1], map[a := [x, y], x := [], y := []])
      && Frontier([a, p, q], edges) == [a]
  {
    var edges := [FlowEdge("e1", a, x), FlowEdge("e2", a, y)];
    DedupThree(a, p, q);
    FanOutGraph(a, x, y, "e1", "e2");
    var g := ReferenceGraph([a, p, q], edges);
    assert Elems([a, p, q]) == {a, x, y};
    FanOutIncoming(g.incoming, a, x, y, edges);
    FanOutAdjacency(g.adjacency, a, x, y, edges);
    FanOutFrontier(a, p, q, edges);
  }

  lemma FanOutIncoming(m: map<string, nat>, a: string, x: string, y: string, edges: seq<FlowEdge>)
    requires a != x && x != y && a != y
    requires m.Keys == {a, x, y}
    requires forall v :: v in m ==> m[v] == InDegree(edges, v, [])
    requires InDegree(edges, a, []) == 0 && InDegree(edges, x, []) == 1 && InDegree(edges, y, []) == 1
    ensures m == map[a := 0, x := 1, y := 1]
  {
    var incoming := map[a := 0, x := 1, y := 1];
    assert m.Keys == incoming.Keys;
  }

  lemma FanOutAdjacency(m: map<string, seq<string>>, a: string, x: string, y: string, edges: seq<FlowEdge>)
    requires a != x && x != y && a != y
    requires m.Keys == {a, x, y}
    requires forall u :: u in m ==> m[u] == Targets(edges, u)
    requires Targets(edges, a) == [x, y] && Targets(edges, x) == [] && Targets(edges, y) == []
    ensures m == map[a := [x, y], x := [], y := []]
  {
    var adjacency := map[a := [x, y], x := [], y := []];
    assert m.Keys == adjacency.Keys;
  }

  lemma FanOutFrontier(a: string, p: string, q: string, edges: seq<FlowEdge>)
    requires InDegree(edges, a, []) == 0 && InDegree(edges, p, []) == 1 && InDegree(edges, q, []) == 1
    ensures Frontier([a, p, q], edges) == [a]
  {
    assert [a, p, q][..2] == [a, p] && [a, p][..1] == [a] && [a][..0] == [];
    assert Frontier([a], edges) == [a];
    assert Frontier([a, p], edges) == [a];
  }

  /** The loop on a fan-out `a -> x`, `a -> y`: `a`, then `x` and `y` as they became ready. */
  lemma FanOutRun(a: string, x: string, y: string)
    requires a != x && x != y && a != y
    ensures KahnRun(map[a := [x, y], x := [], y := []], map[a := 0, x := 1, y := 1], [a], [], 3) == [a, x, y]
  {
    var incoming := map[a := 0, x := 1, y := 1];
    var adjacency := map[a := [x, y], x := [], y := []];
    var after := incoming[x := 0][y := 0];
    RelaxedCons(incoming, [], x, [y]);
    RelaxedCons(incoming[x := 0], [x], y, []);
    assert [x] + [y] == [x, y] && [] + [x] == [x] && [a][1..] == [] && [x, y][1..] == [y] && [y][1..] == [];
    assert incoming[x := incoming[x] - 1] == incoming[x := 0];
    assert incoming[x := 0][y := incoming[x := 0][y] - 1] == after;
    assert Relaxed(incoming, [], [x, y]) == Relaxed(incoming[x := 0], [x], [y]);
    assert Relaxed(incoming, [], [x, y]) == (after, [x, y]);
    RunAdvances(adjacency, incoming, [a], [], [x, y], after, [x, y], [a], 3, 2);
    RunAdvances(adjacency, after, [x, y], [a], [], after, [y], [a, x], 2, 1);
    RunAdvances(adjacency, after, [y], [a, x], [], after, [], [a, x, y], 1, 0);
  }

  /** Siblings are ordered as their edges are listed, not as the nodes are. */
  lemma SiblingsFollowEdgeOrder()
    ensures var n := FlowNodeData("", None, map[]);
      var nodes := [FlowNode("a", ManualTrigger, n), FlowNode("b", Set, n), FlowNode("c", Set, n)];
      && KahnOrder(nodes, [FlowEdge("e1", "a", "b"), FlowEdge("e2", "a", "c")]) == ["a", "b", "c"]
      && KahnOrder(nodes, [FlowEdge("e1", "a", "c"), FlowEdge("e2", "a", "b")]) == ["a", "c", "b"]
  {
    FanOutOrder("a", "b", "c", "b", "c");
    FanOutOrder("a", "b", "c", "c", "b");
  }

  /** The maps `topo_sort` builds are the reference ones, and there are as many keys as distinct ids. */
  lemma GraphIsReference(g: Graph, ids: seq<string>, edges: seq<FlowEdge>)
    requires GraphOf(g, ids, edges)
    ensures g == ReferenceGraph(ids, edges)
    ensures |g.incoming.Keys| == |g.keys|
  {
    var r := ReferenceGraph(ids, edges);
    assert g.incoming == r.incoming;
    assert g.adjacency == r.adjacency;
    ElemsCard(g.keys);
  }

  /** Running the loop on the maps `topo_sort` builds, from the ids of in-degree zero, gives `KahnOrder`. */
  lemma SortIsReference(nodes: seq<FlowNode>, edges: seq<FlowEdge>, g: Graph, ordered: seq<string>)
    requires GraphOf(g, Ids(nodes), edges)
    requires ordered == KahnRun(g.adjacency, g.incoming, Frontier(g.keys, edges), [], |g.incoming.Keys|)
    ensures ordered == KahnOrder(nodes, edges)
  {
    GraphIsReference(g, Ids(nodes), edges);
  }

  /** When every id is ordered, looking the ids up gives a topological order of the nodes. */
  lemma SortedIsTopological(nodes: seq<FlowNode>, edges: seq<FlowEdge>, m: map<string, FlowNode>, ordered: seq<string>)
    requires forall j :: 0 <= j < |nodes| ==> nodes[j].id in m && m[nodes[j].id] == nodes[j]
    requires forall v :: v in m ==> m[v].id == v
    requires forall v :: v in m <==> v in Ids(nodes)
    requires NoDup(Ids(nodes)) && |ordered| == |nodes|
    requires NoDup(ordered)
    requires forall v :: v in ordered ==> v in Elems(Ids(nodes))
    requires forall i :: 0 <= i < |ordered| ==> SourcesIn(edges, ordered[i], ordered[..i])
    ensures forall v :: v in ordered ==> v in m
    ensures IsTopologicalOrder(Lookup(m, ordered), nodes, edges)
    ensures Ids(Lookup(m, ordered)) == ordered
  {
    ElemsCard(Ids(nodes));
    NoDupCovers(ordered, Elems(Ids(nodes)));
    LookupPermutes(nodes, m, ordered);
    EdgesPointForward(edges, Lookup(m, ordered));
  }

  /**
   * `topo_sort`: the nodes in an order where every edge's source precedes
   * its target, the nodes without incoming edges first in list order.
   * An edge naming an unknown id fails with that id; if fewer ids get
   * ordered than there are nodes (a cycle, or two nodes sharing an id)
   * the flow is rejected with HTTP 400 "Flow contains cycles".
   */
  method TopoSort(nodes: seq<FlowNode>, edges: seq<FlowEdge>) returns (r: Result<seq<FlowNode>, FlowError>)
    ensures (r.Err? && r.error.UnknownNode?) <==> !EdgesKnown(Ids(nodes), edges)
    ensures (r.Err? && r.error.UnknownNode?) ==>
      exists k :: 0 <= k < |edges| && EdgesKnown(Ids(nodes), edges[..k]) &&
        if edges[k].source !in Ids(nodes) then r.error.id == edges[k].source
        else r.error.id == edges[k].target && edges[k].target !in Ids(nodes)
    ensures r == Err(Cycles) <==> EdgesKnown(Ids(nodes), edges) && !(NoDup(Ids(nodes)) && Acyclic(edges))
    ensures r == Err(Cycles) <==> EdgesKnown(Ids(nodes), edges) && |KahnOrder(nodes, edges)| != |nodes|
    ensures r.Ok? ==> IsTopologicalOrder(r.value, nodes, edges)
    ensures r.Ok? ==> Ids(r.value) == KahnOrder(nodes, edges)
    ensures r.Ok? ==> Frontier(Dedup(Ids(nodes)), edges) <= Ids(r.value)
  {
    var ids := Ids(nodes);
    var built := BuildGraph(ids, edges);
    if built.Err? {
      return Err(built.error);
    }
    var g := built.value;
    var idToNode := IdToNode(nodes);
    var queue := InitialQueue(g, ids, edges);
    InitialQueueInv(g, ids, edges);
    ghost var K := g.incoming.Keys;
    var ordered := Kahn(g.incoming, g.adjacency, queue, edges, K);
    SortIsReference(nodes, edges, g, ordered);
    CycleCheck(nodes, edges, K, ordered);
    if |ordered| != |nodes| {
      return Err(Cycles);
    }
    SortedIsTopological(nodes, edges, idToNode, ordered);
    r := Ok(Lookup(idToNode, ordered));
  }

  // ---------------------------------------------------------------------------
  // execute_flow

  /** `request.context or {}`: an absent context and an empty one both start the run empty. */
  function InitialContext(requestContext: Option<Context>): (ctx: Context)
    ensures requestContext.Some? ==> ctx == requestContext.value
    ensures requestContext.None? ==> ctx == map[]
  {
    if requestContext.Some? && requestContext.value != map[] then requestContext.value else map[]
  }

  /** `if not action_id`: a node with no action id, or an empty one, is skipped. */
  predicate HasAction(node: FlowNode) {
    node.data.actionId.Some? && node.data.actionId.value != ""
  }

  const SkippedOutput: map<string, Value> := map["skipped" := VBool(true)]

  /**
   * Running one node on the current context: the result recorded for it and
   * the context left for the next node.
   */
  function RunNode(node: FlowNode, ctx: Context, handlers: map<string, Handler>): (NodeExecutionResult, Context)
  {
    if !HasAction(node) then (SuccessResult(SkippedOutput), ctx)
    else
      var actionId := node.data.actionId.value;
      if actionId !in handlers then (ErrorResult("No handler for action " + actionId), ctx)
      else
        match handlers[actionId](node, ctx)
        case Returned(result, ctx') => (result, ctx')
        case Raised(message, ctx') => (ErrorResult(message), ctx')
  }

  /** The context node `i` of `order` sees: the initial one threaded through every node before it. */
  function CtxBefore(order: seq<FlowNode>, ctx0: Context, handlers: map<string, Handler>, i: nat): Context
    requires i <= |order|
  {
    if i == 0 then ctx0 else RunNode(order[i - 1], CtxBefore(order, ctx0, handlers, i - 1), handlers).1
  }

  /** The result node `i` of `order` produces when it runs. */
  function ResultAt(order: seq<FlowNode>, ctx0: Context, handlers: map<string, Handler>, i: nat): NodeExecutionResult
    requires i < |order|
  {
    RunNode(order[i], CtxBefore(order, ctx0, handlers, i), handlers).0
  }

  /** The outcome of `execute_flow`: the order it ran in, how many nodes ran, and the results by node id. */
  datatype FlowRun = FlowRun(order: seq<FlowNode>, attempted: nat, results: map<string, NodeExecutionResult>)

  /**
   * `run` ran `order` from `ctx0` as `execute_flow` does: the nodes ran in
   * order, each recorded under its id with the result it produced on the
   * context its predecessors left; it stopped after the first node whose
   * result asks for user action, and otherwise ran every node.
   */
  ghost predicate RanAsScheduled(run: FlowRun, ctx0: Context, handlers: map<string, Handler>) {
    && run.attempted <= |run.order|
    && Recorded(run.order, ctx0, handlers, run.results, run.attempted)
    && (run.attempted > 0 ==> NoPauseBefore(run.order, ctx0, handlers, run.attempted - 1))
    && (run.attempted < |run.order| ==>
          run.attempted > 0 && RequiresUserAction(ResultAt(run.order, ctx0, handlers, run.attempted - 1)))
  }

  lemma IdsSnoc(order: seq<FlowNode>, i: nat)
    requires i < |order|
    ensures Ids(order[..i + 1]) == Ids(order[..i]) + [order[i].id]
  {
    assert order[..i + 1] == order[..i] + [order[i]];
  }

  /** None of the first `i` nodes asked for user action. */
  ghost predicate NoPauseBefore(order: seq<FlowNode>, ctx0: Context, handlers: map<string, Handler>, i: nat)
    requires i <= |order|
  {
    forall j {:trigger ResultAt(order, ctx0, handlers, j)} :: 0 <= j < i ==>
      !RequiresUserAction(ResultAt(order, ctx0, handlers, j))
  }

  lemma NoPauseKeeps(order: seq<FlowNode>, ctx0: Context, handlers: map<string, Handler>, i: nat)
    requires i < |order|
    requires NoPauseBefore(order, ctx0, handlers, i)
    requires !RequiresUserAction(ResultAt(order, ctx0, handlers, i))
    ensures NoPauseBefore(order, ctx0, handlers, i + 1)
  {
  }

  /** A run that stopped right after the first node asking for user action ran as scheduled. */
  lemma PausedRunScheduled(run: FlowRun, ctx0: Context, handlers: map<string, Handler>)
    requires 0 < run.attempted <= |run.order|
    requires Recorded(run.order, ctx0, handlers, run.results, run.attempted)
    requires NoPauseBefore(run.order, ctx0, handlers, run.attempted - 1)
    requires RequiresUserAction(ResultAt(run.order, ctx0, handlers, run.attempted - 1))
    ensures RanAsScheduled(run, ctx0, handlers)
  {
  }

  /** The results of the first `i` nodes, each under its id. */
  ghost predicate Recorded(order: seq<FlowNode>, ctx0: Context, handlers: map<string, Handler>,
                           results: map<string, NodeExecutionResult>, i: nat)
    requires i <= |order|
  {
    && (forall id :: id in results <==> id in Ids(order[..i]))
    && (forall j {:trigger ResultAt(order, ctx0, handlers, j)} :: 0 <= j < i ==>
          results[order[j].id] == ResultAt(order, ctx0, handlers, j))
  }

  /** Recording node `i`'s result under its (distinct) id extends the record by one node. */
  lemma RecordKeeps(order: seq<FlowNode>, ctx0: Context, handlers: map<string, Handler>,
                    results: map<string, NodeExecutionResult>, i: nat)
    requires NoDup(Ids(order))
    requires i < |order|
    requires Recorded(order, ctx0, handlers, results, i)
    ensures Recorded(order, ctx0, handlers, results[order[i].id := ResultAt(order, ctx0, handlers, i)], i + 1)
  {
    IdsSnoc(order, i);
    forall j | 0 <= j < i ensures order[j].id != order[i].id {
      assert Ids(order)[j] != Ids(order)[i];
    }
  }

  /** Running node `i` on the context before it yields its result and the next context, and extends the record. */
  lemma StepKeeps(order: seq<FlowNode>, ctx0: Context, handlers: map<string, Handler>,
                  results: map<string, NodeExecutionResult>, i: nat)
    requires NoDup(Ids(order))
    requires i < |order|
    requires Recorded(order, ctx0, handlers, results, i)
    ensures var step := RunNode(order[i], CtxBefore(order, ctx0, handlers, i), handlers);
      && step.0 == ResultAt(order, ctx0, handlers, i)
      && step.1 == CtxBefore(order, ctx0, handlers, i + 1)
      && Recorded(order, ctx0, handlers, results[order[i].id := step.0], i + 1)
  {
    RecordKeeps(order, ctx0, handlers, results, i);
  }

  /**
   * The loop of `execute_flow` over an already sorted node list: run each
   * node on the shared context, record its result under its id, and return
   * early once a result asks for user action.
   */
  method RunNodes(order: seq<FlowNode>, ctx0: Context, handlers: map<string, Handler>) returns (run: FlowRun)
    requires NoDup(Ids(order))
    ensures run.order == order
    ensures RanAsScheduled(run, ctx0, handlers)
  {
    var context := ctx0;
    var results: map<string, NodeExecutionResult> := map[];
    var i := 0;
    while i < |order|
      invariant 0 <= i <= |order|
      invariant context == CtxBefore(order, ctx0, handlers, i)
      invariant Recorded(order, ctx0, handlers, results, i)
      invariant NoPauseBefore(order, ctx0, handlers, i)
    {
      var node := order[i];
      StepKeeps(order, ctx0, handlers, results, i);
      var step := RunNode(node, context, handlers);
      var result := step.0;
      context := step.1;
      results := results[node.id := result];
      if RequiresUserAction(result) {
        run := FlowRun(order, i + 1, results);
        PausedRunScheduled(run, ctx0, handlers);
        return;
      }
      NoPauseKeeps(order, ctx0, handlers, i);
      i := i + 1;
    }
    run := FlowRun(order, i, results);
  }

  /**
   * `execute_flow`: sort the nodes topologically (failing as `topo_sort`
   * does), then run them in that order on one shared context, pausing after
   * the first node whose result asks for user action.
   */
  method ExecuteFlow(nodes: seq<FlowNode>, edges: seq<FlowEdge>, requestContext: Option<Context>,
                     handlers: map<string, Handler>)
    returns (r: Result<FlowRun, FlowError>)
    ensures (r.Err? && r.error.UnknownNode?) <==> !EdgesKnown(Ids(nodes), edges)
    ensures r == Err(Cycles) <==> EdgesKnown(Ids(nodes), edges) && !(NoDup(Ids(nodes)) && Acyclic(edges))
    ensures r.Ok? ==> IsTopologicalOrder(r.value.order, nodes, edges)
    ensures r.Ok? ==> Ids(r.value.order) == KahnOrder(nodes, edges)
    ensures r.Ok? ==> RanAsScheduled(r.value, InitialContext(requestContext), handlers)
  {
    var context := InitialContext(requestContext);
    var sorted := TopoSort(nodes, edges);
    if sorted.Err? {
      return Err(sorted.error);
    }
    var run := RunNodes(sorted.value, context, handlers);
    r := Ok(run);
  }

  // ---------------------------------------------------------------------------
  // What a run records for each kind of node

  /** A node with no action is recorded as a skipped success, leaves the context alone and does not pause the run. */
  lemma NodeWithoutActionIsSkipped(order: seq<FlowNode>, ctx0: Context, handlers: map<string, Handler>, j: nat)
    requires j < |order| && !HasAction(order[j])
    ensures ResultAt(order, ctx0, handlers, j) == NodeExecutionResult("success", Some(map["skipped" := VBool(true)]), None, map[])
    ensures !RequiresUserAction(ResultAt(order, ctx0, handlers, j))
    ensures CtxBefore(order, ctx0, handlers, j + 1) == CtxBefore(order, ctx0, handlers, j)
  {
  }

  /**
   * A node whose action has no registered handler is recorded as an error
   * naming the action, leaves the context alone, and the run goes on.
   */
  lemma UnknownActionIsError(order: seq<FlowNode>, ctx0: Context, handlers: map<string, Handler>, j: nat)
    requires j < |order| && HasAction(order[j]) && order[j].data.actionId.value !in handlers
    ensures ResultAt(order, ctx0, handlers, j).status == "error"
    ensures ResultAt(order, ctx0, handlers, j).error == Some("No handler for action " + order[j].data.actionId.value)
    ensures ResultAt(order, ctx0, handlers, j).output.None?
    ensures !RequiresUserAction(ResultAt(order, ctx0, handlers, j))
    ensures CtxBefore(order, ctx0, handlers, j + 1) == CtxBefore(order, ctx0, handlers, j)
  {
  }

  /**
   * A handler that raises is recorded as an error carrying the exception's
   * message; whatever it did to the context before raising stays, and the
   * run goes on.
   */
  lemma RaisingHandlerIsError(order: seq<FlowNode>, ctx0: Context, handlers: map<string, Handler>, j: nat)
    requires j < |order| && HasAction(order[j]) && order[j].data.actionId.value in handlers
    requires handlers[order[j].data.actionId.value](order[j], CtxBefore(order, ctx0, handlers, j)).Raised?
    ensures var outcome := handlers[order[j].data.actionId.value](order[j], CtxBefore(order, ctx0, handlers, j));
      && ResultAt(order, ctx0, handlers, j) == NodeExecutionResult("error", None, Some(outcome.message), map[])
      && CtxBefore(order, ctx0, handlers, j + 1) == outcome.ctx
    ensures !RequiresUserAction(ResultAt(order, ctx0, handlers, j))
  {
  }

  /**
   * A handler that returns normally has its result recorded as it is, and
   * the context it leaves is the one the next node sees.
   */
  lemma ReturningHandlerIsRecorded(order: seq<FlowNode>, ctx0: Context, handlers: map<string, Handler>, j: nat)
    requires j < |order| && HasAction(order[j]) && order[j].data.actionId.value in handlers
    requires handlers[order[j].data.actionId.value](order[j], CtxBefore(order, ctx0, handlers, j)).Returned?
    ensures var outcome := handlers[order[j].data.actionId.value](order[j], CtxBefore(order, ctx0, handlers, j));
      && ResultAt(order, ctx0, handlers, j) == outcome.result
      && CtxBefore(order, ctx0, handlers, j + 1) == outcome.ctx
  {
  }

  /** When no node asks for user action, every node of the order is run and recorded. */
  lemma NoPauseRunsAll(run: FlowRun, ctx0: Context, handlers: map<string, Handler>)
    requires RanAsScheduled(run, ctx0, handlers)
    requires forall j :: 0 <= j < |run.order| ==> !RequiresUserAction(ResultAt(run.order, ctx0, handlers, j))
    ensures run.attempted == |run.order|
    ensures forall id :: id in run.results <==> id in Ids(run.order)
  {
    assert run.order[..|run.order|] == run.order;
  }
}
