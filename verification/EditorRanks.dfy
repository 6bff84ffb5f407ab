/** Breadth-first ranks of the nodes of a definition. */
module EditorRanks {
  import opened Wrappers
  import opened Contexts
  import opened ProcessDefs
  import opened EditorGraph

  // ---- Distance ----

  ghost function Declared(nodes: seq<Node>): set<Id> {
    set n | n in nodes :: n.id
  }

  predicate Joined(edges: seq<Connection>, a: Id, b: Id) {
    exists e :: e in edges && e.source == a && e.target == b
  }

  /** A route from a start node over declared nodes. */
  ghost predicate Path(nodes: seq<Node>, edges: seq<Connection>, p: seq<Id>) {
    && p != [] && (exists n :: n in nodes && n.Start? && n.id == p[0])
    && forall i :: 0 <= i < |p| - 1 ==> Hop(nodes, edges, p, i)
  }

  ghost predicate Hop(nodes: seq<Node>, edges: seq<Connection>, p: seq<Id>, i: nat)
    requires i + 1 < |p|
  {
    Joined(edges, p[i], p[i + 1]) && p[i + 1] in Declared(nodes)
  }

  ghost predicate ReachedWithin(nodes: seq<Node>, edges: seq<Connection>, id: Id, n: int) {
    exists p :: Path(nodes, edges, p) && p[|p| - 1] == id && |p| <= n + 1
  }

  ghost predicate Reached(nodes: seq<Node>, edges: seq<Connection>, id: Id) {
    exists p :: Path(nodes, edges, p) && p[|p| - 1] == id
  }

  /** The length of a shortest route to `id`. */
  ghost predicate Distance(nodes: seq<Node>, edges: seq<Connection>, id: Id, n: nat) {
    ReachedWithin(nodes, edges, id, n) && !ReachedWithin(nodes, edges, id, n - 1)
  }

  lemma PathGrows(nodes: seq<Node>, edges: seq<Connection>, a: Id, b: Id, n: nat)
    requires ReachedWithin(nodes, edges, a, n) && Joined(edges, a, b) && b in Declared(nodes)
    ensures ReachedWithin(nodes, edges, b, n + 1)
  {
    var p :| Path(nodes, edges, p) && p[|p| - 1] == a && |p| <= n + 1;
    var q := p + [b];
    forall i | 0 <= i < |q| - 1 ensures Hop(nodes, edges, q, i) {
      assert i < |p| - 1 ==> Hop(nodes, edges, p, i);
    }
    assert Path(nodes, edges, q) && q[|q| - 1] == b;
  }

  lemma PathShrinks(nodes: seq<Node>, edges: seq<Connection>, b: Id, n: nat)
    requires ReachedWithin(nodes, edges, b, n + 1) && !ReachedWithin(nodes, edges, b, n)
    ensures exists a :: ReachedWithin(nodes, edges, a, n) && Joined(edges, a, b) && b in Declared(nodes)
  {
    var p :| Path(nodes, edges, p) && p[|p| - 1] == b && |p| <= n + 2;
    assert |p| == n + 2;
    var q := p[..n + 1];
    forall i | 0 <= i < |q| - 1 ensures Hop(nodes, edges, q, i) {
      assert Hop(nodes, edges, p, i);
    }
    assert Path(nodes, edges, q);
    assert Hop(nodes, edges, p, n);
    assert ReachedWithin(nodes, edges, q[n], n);
  }

  lemma DistanceUnique(nodes: seq<Node>, edges: seq<Connection>, id: Id, m: nat, n: nat)
    requires Distance(nodes, edges, id, m) && Distance(nodes, edges, id, n)
    ensures m == n
  {
  }

  // ---- The search ----

  /** Everything declared that `id` leads to has a rank. */
  ghost predicate Expanded(nodes: seq<Node>, edges: seq<Connection>, ranks: map<Id, nat>, id: Id) {
    forall t :: Joined(edges, id, t) && t in Declared(nodes) ==> t in ranks
  }

  ghost predicate Exact(nodes: seq<Node>, edges: seq<Connection>, ranks: map<Id, nat>) {
    forall id :: id in ranks ==> id in Declared(nodes) && Distance(nodes, edges, id, ranks[id])
  }

  /** The queue holds ranked nodes of two neighbouring levels, nearer ones first. */
  ghost predicate Queued(ranks: map<Id, nat>, queue: seq<Id>, level: nat) {
    && (forall q :: q in queue ==> q in ranks && level <= ranks[q] <= level + 1)
    && (forall i, j :: 0 <= i < j < |queue| ==> ranks[queue[i]] <= ranks[queue[j]])
  }

  /** The state of the search while nodes at distance `level` are being expanded; `current` may be half done. */
  ghost predicate Searching(nodes: seq<Node>, edges: seq<Connection>, ranks: map<Id, nat>, queue: seq<Id>, level: nat,
                            current: Option<Id>) {
    && Exact(nodes, edges, ranks) && Queued(ranks, queue, level)
    && (forall id :: ReachedWithin(nodes, edges, id, level) ==> id in ranks)
    && (forall id :: id in ranks && id !in queue && Some(id) != current ==> Expanded(nodes, edges, ranks, id))
  }

  lemma ReachedLater(nodes: seq<Node>, edges: seq<Connection>, id: Id, m: int, n: int)
    requires ReachedWithin(nodes, edges, id, m)
    ensures m <= n ==> ReachedWithin(nodes, edges, id, n)
  {
  }

  /** Once no queued node is left at a level, all nodes one step further have a rank. */
  lemma LevelDone(nodes: seq<Node>, edges: seq<Connection>, ranks: map<Id, nat>, queue: seq<Id>, level: nat)
    requires Searching(nodes, edges, ranks, queue, level, None)
    requires forall q :: q in queue ==> ranks[q] == level + 1
    ensures forall id :: ReachedWithin(nodes, edges, id, level + 1) ==> id in ranks
  {
    forall id | ReachedWithin(nodes, edges, id, level + 1) ensures id in ranks {
      if !ReachedWithin(nodes, edges, id, level) {
        PathShrinks(nodes, edges, id, level);
        var a :| ReachedWithin(nodes, edges, a, level) && Joined(edges, a, id) && id in Declared(nodes);
        AtMost(nodes, edges, ranks, a, level);
        assert Expanded(nodes, edges, ranks, a);
      }
    }
  }

  lemma AtMost(nodes: seq<Node>, edges: seq<Connection>, ranks: map<Id, nat>, a: Id, level: nat)
    requires a in ranks && Distance(nodes, edges, a, ranks[a]) && ReachedWithin(nodes, edges, a, level)
    ensures ranks[a] <= level
  {
    var rank: int := ranks[a];
    ReachedLater(nodes, edges, a, level, rank - 1);
  }

  lemma NextLevel(nodes: seq<Node>, edges: seq<Connection>, ranks: map<Id, nat>, queue: seq<Id>, level: nat)
    requires Searching(nodes, edges, ranks, queue, level, None)
    requires forall q :: q in queue ==> ranks[q] == level + 1
    ensures Searching(nodes, edges, ranks, queue, level + 1, None)
  {
    LevelDone(nodes, edges, ranks, queue, level);
  }

  /** When the queue is empty every reached node has a rank. */
  lemma {:induction false} SearchDone(nodes: seq<Node>, edges: seq<Connection>, ranks: map<Id, nat>, level: nat, n: nat)
    requires Searching(nodes, edges, ranks, [], level, None)
    ensures forall id :: ReachedWithin(nodes, edges, id, level + n) ==> id in ranks
    decreases n
  {
    if n > 0 {
      NextLevel(nodes, edges, ranks, [], level);
      SearchDone(nodes, edges, ranks, level + 1, n - 1);
    }
  }

  lemma AllRanked(nodes: seq<Node>, edges: seq<Connection>, ranks: map<Id, nat>, level: nat)
    requires Searching(nodes, edges, ranks, [], level, None)
    ensures forall id :: Reached(nodes, edges, id) <==> id in ranks
  {
    forall id ensures Reached(nodes, edges, id) <==> id in ranks {
      if p :| Path(nodes, edges, p) && p[|p| - 1] == id {
        SearchDone(nodes, edges, ranks, level, |p|);
        assert ReachedWithin(nodes, edges, id, level + |p|);
      }
      if id in ranks {
        assert ReachedWithin(nodes, edges, id, ranks[id]);
      }
    }
  }

  lemma ExpandedGrows(nodes: seq<Node>, edges: seq<Connection>, ranks: map<Id, nat>, x: Id, t: Id, r: nat)
    requires Expanded(nodes, edges, ranks, x)
    ensures Expanded(nodes, edges, ranks[t := r], x)
  {
  }

  lemma QueuedGrows(ranks: map<Id, nat>, queue: seq<Id>, level: nat, t: Id)
    requires Queued(ranks, queue, level) && t !in ranks
    ensures Queued(ranks[t := level + 1], queue + [t], level)
  {
    var after, longer := ranks[t := level + 1], queue + [t];
    forall i | 0 <= i < |queue| ensures longer[i] in queue && after[longer[i]] == ranks[queue[i]] {
    }
  }

  lemma DistanceMet(nodes: seq<Node>, edges: seq<Connection>, ranks: map<Id, nat>, level: nat, id: Id, t: Id)
    requires forall x :: ReachedWithin(nodes, edges, x, level) ==> x in ranks
    requires ReachedWithin(nodes, edges, id, level) && Joined(edges, id, t) && t in Declared(nodes) && t !in ranks
    ensures Distance(nodes, edges, t, level + 1)
  {
    PathGrows(nodes, edges, id, t, level);
  }

  /** A newly met target of the node being expanded is one step further, and not nearer. */
  lemma Meet(nodes: seq<Node>, edges: seq<Connection>, ranks: map<Id, nat>, queue: seq<Id>, level: nat, id: Id, t: Id)
    requires Searching(nodes, edges, ranks, queue, level, Some(id)) && id in ranks && ranks[id] == level
    requires Joined(edges, id, t) && t in Declared(nodes) && t !in ranks
    ensures Searching(nodes, edges, ranks[t := level + 1], queue + [t], level, Some(id))
  {
    DistanceMet(nodes, edges, ranks, level, id, t);
    QueuedGrows(ranks, queue, level, t);
    var after := ranks[t := level + 1];
    forall x | x in after && x !in queue + [t] && x != id ensures Expanded(nodes, edges, after, x) {
      assert x != t && x !in queue;
      ExpandedGrows(nodes, edges, ranks, x, t, level + 1);
    }
  }

  // ---- The breadth-first loop ----

  lemma QueuedTail(ranks: map<Id, nat>, queue: seq<Id>, level: nat)
    requires queue != [] && Queued(ranks, queue, level)
    ensures Queued(ranks, queue[1..], level)
    ensures forall x :: x in queue ==> x == queue[0] || x in queue[1..]
  {
    var rest := queue[1..];
    forall i | 0 <= i < |rest| ensures rest[i] == queue[i + 1] && rest[i] in queue {
    }
  }

  lemma Pop(nodes: seq<Node>, edges: seq<Connection>, ranks: map<Id, nat>, queue: seq<Id>, level: nat)
    requires queue != [] && Searching(nodes, edges, ranks, queue, level, None) && ranks[queue[0]] == level
    ensures Searching(nodes, edges, ranks, queue[1..], level, Some(queue[0]))
  {
    QueuedTail(ranks, queue, level);
  }

  lemma Climb(nodes: seq<Node>, edges: seq<Connection>, ranks: map<Id, nat>, queue: seq<Id>, level: nat)
    requires queue != [] && Searching(nodes, edges, ranks, queue, level, None) && ranks[queue[0]] != level
    ensures Searching(nodes, edges, ranks, queue, level + 1, None) && ranks[queue[0]] == level + 1
  {
    forall q | q in queue ensures ranks[q] == level + 1 {
      var i :| 0 <= i < |queue| && queue[i] == q;
      assert i > 0 ==> ranks[queue[0]] <= ranks[queue[i]];
      assert queue[0] in queue;
    }
    NextLevel(nodes, edges, ranks, queue, level);
  }

  lemma ReachedAtZero(nodes: seq<Node>, edges: seq<Connection>, id: Id)
    ensures ReachedWithin(nodes, edges, id, 0) <==> exists n :: n in nodes && n.Start? && n.id == id
    ensures !ReachedWithin(nodes, edges, id, -1)
  {
    if n :| n in nodes && n.Start? && n.id == id {
      var p := [id];
      assert Path(nodes, edges, p) && p[|p| - 1] == id;
    }
  }

  method Starts(nodes: seq<Node>, edges: seq<Connection>) returns (ranks: map<Id, nat>, queue: seq<Id>)
    ensures Searching(nodes, edges, ranks, queue, 0, None)
  {
    ranks, queue := map[], [];
    for i := 0 to |nodes|
      invariant forall id :: id in ranks <==> exists n :: n in nodes[..i] && n.Start? && n.id == id
      invariant forall id :: id in ranks ==> ranks[id] == 0 && id in queue
      invariant forall id :: id in queue ==> id in ranks
    {
      assert nodes[..i + 1] == nodes[..i] + [nodes[i]];
      if nodes[i].Start? {
        ranks := ranks[nodes[i].id := 0];
        queue := queue + [nodes[i].id];
      }
    }
    assert nodes[..|nodes|] == nodes;
    forall id ensures ReachedWithin(nodes, edges, id, 0) <==> id in ranks {
      ReachedAtZero(nodes, edges, id);
    }
    forall id | id in ranks ensures Distance(nodes, edges, id, ranks[id]) {
      ReachedAtZero(nodes, edges, id);
    }
  }

  /** Expands one node: every declared target without a rank is put one level further. */
  method Expand(nodes: seq<Node>, edges: seq<Connection>, id: Id, ranks: map<Id, nat>, queue: seq<Id>, ghost level: nat)
    returns (ranks': map<Id, nat>, queue': seq<Id>)
    requires Searching(nodes, edges, ranks, queue, level, Some(id)) && id in ranks && ranks[id] == level
    ensures Searching(nodes, edges, ranks', queue', level, None)
    ensures Grown(nodes, ranks, queue, ranks', queue')
  {
    ranks', queue' := ranks, queue;
    var next := ranks[id] + 1;
    for e := 0 to |edges|
      invariant Expanding(nodes, edges, ranks', queue', level, id, e) && Grown(nodes, ranks, queue, ranks', queue')
    {
      ranks', queue' := Follow(nodes, edges, e, id, next, ranks', queue', ranks, queue, level);
    }
    Close(nodes, edges, ranks', queue', level, id);
  }

  /** One turn of the loop over the edges. */
  method Follow(nodes: seq<Node>, edges: seq<Connection>, e: nat, id: Id, next: nat, ranks: map<Id, nat>, queue: seq<Id>,
                ghost ranks0: map<Id, nat>, ghost queue0: seq<Id>, ghost level: nat)
    returns (ranks': map<Id, nat>, queue': seq<Id>)
    requires e < |edges| && Expanding(nodes, edges, ranks, queue, level, id, e) && next == level + 1
    requires Grown(nodes, ranks0, queue0, ranks, queue)
    ensures Expanding(nodes, edges, ranks', queue', level, id, e + 1) && Grown(nodes, ranks0, queue0, ranks', queue')
  {
    ranks', queue' := ranks, queue;
    var edge := edges[e];
    var found := FindIn(nodes, edge.target);
    assert found.Some? <==> edge.target in Declared(nodes);
    if edge.source == id && found.Some? && edge.target !in ranks {
      MeetNext(nodes, edges, ranks, queue, level, id, e);
      StillGrows(nodes, ranks0, queue0, ranks, queue, edge.target, next);
      ranks' := ranks[edge.target := next];
      queue' := queue + [edge.target];
    } else {
      PassNext(nodes, edges, ranks, queue, level, id, e);
    }
  }

  ghost predicate Expanding(nodes: seq<Node>, edges: seq<Connection>, ranks: map<Id, nat>, queue: seq<Id>, level: nat,
                            id: Id, e: nat)
    requires e <= |edges|
  {
    && Searching(nodes, edges, ranks, queue, level, Some(id)) && id in ranks && ranks[id] == level
    && Visited(nodes, edges, ranks, id, e)
  }

  lemma MeetNext(nodes: seq<Node>, edges: seq<Connection>, ranks: map<Id, nat>, queue: seq<Id>, level: nat, id: Id, e: nat)
    requires e < |edges| && Expanding(nodes, edges, ranks, queue, level, id, e)
    requires edges[e].source == id && edges[e].target in Declared(nodes) && edges[e].target !in ranks
    ensures Expanding(nodes, edges, ranks[edges[e].target := level + 1], queue + [edges[e].target], level, id, e + 1)
  {
    assert edges[e] in edges && Joined(edges, id, edges[e].target);
    Meet(nodes, edges, ranks, queue, level, id, edges[e].target);
  }

  /** The first `e` edges out of `id` lead to ranked nodes. */
  ghost predicate Visited(nodes: seq<Node>, edges: seq<Connection>, ranks: map<Id, nat>, id: Id, e: nat)
    requires e <= |edges|
  {
    forall k :: 0 <= k < e && edges[k].source == id && edges[k].target in Declared(nodes) ==> edges[k].target in ranks
  }

  lemma PassNext(nodes: seq<Node>, edges: seq<Connection>, ranks: map<Id, nat>, queue: seq<Id>, level: nat, id: Id, e: nat)
    requires e < |edges| && Expanding(nodes, edges, ranks, queue, level, id, e)
    requires edges[e].source == id && edges[e].target in Declared(nodes) ==> edges[e].target in ranks
    ensures Expanding(nodes, edges, ranks, queue, level, id, e + 1)
  {
  }

  lemma Close(nodes: seq<Node>, edges: seq<Connection>, ranks: map<Id, nat>, queue: seq<Id>, level: nat, id: Id)
    requires Expanding(nodes, edges, ranks, queue, level, id, |edges|)
    ensures Searching(nodes, edges, ranks, queue, level, None)
  {
    assert Expanded(nodes, edges, ranks, id);
  }

  ghost predicate Grown(nodes: seq<Node>, ranks: map<Id, nat>, queue: seq<Id>, ranks': map<Id, nat>, queue': seq<Id>) {
    (ranks' == ranks && queue' == queue) || Declared(nodes) - ranks'.Keys < Declared(nodes) - ranks.Keys
  }

  lemma StillGrows(nodes: seq<Node>, ranks: map<Id, nat>, queue: seq<Id>, ranks': map<Id, nat>, queue': seq<Id>,
                   t: Id, r: nat)
    requires Grown(nodes, ranks, queue, ranks', queue') && t in Declared(nodes) && t !in ranks'
    ensures Declared(nodes) - ranks'[t := r].Keys < Declared(nodes) - ranks.Keys
  {
    assert t in Declared(nodes) - ranks'.Keys && t !in Declared(nodes) - ranks'[t := r].Keys;
  }

  /** The breadth-first search over the connections, with the length of a shortest route for every reached node. */
  method Ranks(nodes: seq<Node>, edges: seq<Connection>) returns (ranks: map<Id, nat>)
    ensures forall id :: id in ranks <==> Reached(nodes, edges, id)
    ensures forall id :: id in ranks ==> id in Declared(nodes) && Distance(nodes, edges, id, ranks[id])
  {
    var queue;
    ranks, queue := Starts(nodes, edges);
    ghost var level := 0;
    while queue != []
      invariant Searching(nodes, edges, ranks, queue, level, None)
      decreases Declared(nodes) - ranks.Keys, |queue|
    {
      if ranks[queue[0]] != level {
        Climb(nodes, edges, ranks, queue, level);
        level := level + 1;
      }
      var id := queue[0];
      Pop(nodes, edges, ranks, queue, level);
      ranks, queue := Expand(nodes, edges, id, ranks, queue[1..], level);
    }
    AllRanked(nodes, edges, ranks, level);
  }
}
