/** Structural reachability from Start, and the worklist that reports unreachable nodes. */
module Reachability {
  import opened Wrappers
  import opened Contexts
  import opened ProcessDefs

  /** Some node called `a` names a declared node `b` as a target. */
  ghost predicate Edge(def: ProcessDefinition, a: Id, b: Id) {
    && FindNode(def, b).Some?
    && exists n :: n in def.nodes && n.id == a && b in NodeTargets(n)
  }

  ghost predicate IsStart(def: ProcessDefinition, id: Id) {
    exists n :: n in def.nodes && n.Start? && n.id == id
  }

  ghost predicate IsPath(def: ProcessDefinition, path: seq<Id>) {
    && path != []
    && IsStart(def, path[0])
    && Chained(def, path)
  }

  ghost predicate Chained(def: ProcessDefinition, path: seq<Id>) {
    forall i :: 0 < i < |path| ==> Edge(def, path[i - 1], path[i])
  }

  lemma ChainGrows(def: ProcessDefinition, path: seq<Id>, b: Id)
    requires path != [] && Chained(def, path) && Edge(def, path[|path| - 1], b)
    ensures Chained(def, path + [b])
  {
    var longer := path + [b];
    forall i | 0 < i < |longer| ensures Edge(def, longer[i - 1], longer[i]) {
      if i < |path| {
        assert longer[i - 1] == path[i - 1] && longer[i] == path[i];
      }
    }
  }

  /** The reflexive-transitive closure of the target relation, from the Start nodes. */
  ghost predicate Connected(def: ProcessDefinition, id: Id) {
    exists path :: IsPath(def, path) && path[|path| - 1] == id
  }

  lemma StartConnected(def: ProcessDefinition, id: Id)
    requires IsStart(def, id)
    ensures Connected(def, id)
  {
    assert IsPath(def, [id]);
  }

  lemma EdgeConnected(def: ProcessDefinition, a: Id, b: Id)
    requires Connected(def, a) && Edge(def, a, b)
    ensures Connected(def, b)
  {
    var path :| IsPath(def, path) && path[|path| - 1] == a;
    ChainGrows(def, path, b);
    var longer := path + [b];
    assert IsPath(def, longer) && longer[|longer| - 1] == b;
  }

  /** A set that contains the starts and is closed under edges contains the closure. */
  lemma {:induction false} ClosedContains(def: ProcessDefinition, closed: set<Id>, path: seq<Id>)
    requires forall id :: IsStart(def, id) ==> id in closed
    requires forall a, b :: a in closed && Edge(def, a, b) ==> b in closed
    requires IsPath(def, path)
    ensures path[|path| - 1] in closed
  {
    if |path| > 1 {
      ClosedContains(def, closed, path[..|path| - 1]);
    }
  }

  // ---- The worklist ----

  function NodeIds(nodes: seq<Node>): set<Id> {
    set n | n in nodes :: n.id
  }

  /** The declared nodes among the given targets, in order. */
  function Declared(def: ProcessDefinition, targets: seq<Id>): (nodes: seq<Node>)
    ensures forall n :: n in nodes ==> n in def.nodes && n.id in targets && FindNode(def, n.id) == Some(n)
    ensures forall id :: id in targets && FindNode(def, id).Some? ==> FindNode(def, id).value in nodes
  {
    if targets == [] then []
    else
      var rest := Declared(def, targets[1..]);
      match FindNode(def, targets[0])
      case Some(node) => [node] + rest
      case None => rest
  }

  /** What the worklist reaches from the nodes still pending, given what it reached before. */
  function Explored(def: ProcessDefinition, pending: seq<Node>, reached: set<Id>): (all: set<Id>)
    requires forall n :: n in pending ==> n in def.nodes
    decreases NodeIds(def.nodes) - reached, |pending|
  {
    if pending == [] then reached
    else
      var node := pending[|pending| - 1];
      var rest := pending[..|pending| - 1];
      if node.id in reached then Explored(def, rest, reached)
      else
        assert node.id in NodeIds(def.nodes) - reached;
        Explored(def, rest + Declared(def, NodeTargets(node)), reached + {node.id})
  }

  function Starts(nodes: seq<Node>): (starts: seq<Node>)
    ensures forall n :: n in starts <==> n in nodes && n.Start?
  {
    if nodes == [] then []
    else (if nodes[0].Start? then [nodes[0]] else []) + Starts(nodes[1..])
  }

  function Reached(def: ProcessDefinition): set<Id> {
    Explored(def, Starts(def.nodes), {})
  }

  function IdsOutside(nodes: seq<Node>, reached: set<Id>): seq<Id> {
    if nodes == [] then []
    else (if nodes[0].id in reached then [] else [nodes[0].id]) + IdsOutside(nodes[1..], reached)
  }

  method PushDeclared(def: ProcessDefinition, stack: seq<Node>, targets: seq<Id>) returns (pending: seq<Node>)
    ensures pending == stack + Declared(def, targets)
  {
    pending := stack;
    for i := 0 to |targets|
      invariant pending == stack + Declared(def, targets[..i])
    {
      var next := FindNode(def, targets[i]);
      if next.Some? {
        pending := pending + [next.value];
      }
      DeclaredNext(def, targets, i);
    }
    assert targets[..|targets|] == targets;
  }

  lemma DeclaredNext(def: ProcessDefinition, targets: seq<Id>, i: nat)
    requires i < |targets|
    ensures var next := FindNode(def, targets[i]);
      Declared(def, targets[..i + 1]) == Declared(def, targets[..i]) + (if next.Some? then [next.value] else [])
  {
    assert targets[..i + 1] == targets[..i] + [targets[i]];
    DeclaredAppend(def, targets[..i], targets[i]);
  }

  /** `unreachable_nodes`: a stack of pending nodes and a growing set of reached ones. */
  method UnreachableNodes(def: ProcessDefinition) returns (ids: seq<Id>)
    ensures ids == IdsOutside(def.nodes, Reached(def))
    ensures UniqueNodeIds(def) ==> ids == Unconnected(def, def.nodes)
    ensures ids == Unconnected(def, def.nodes) <==> NothingShadowed(def)
    ensures StartsFirst(def) ==> (ids == Unconnected(def, def.nodes) <==> RepeatsStayInside(def))
  {
    var reached: set<Id> := {};
    var pending := Starts(def.nodes);
    while pending != []
      invariant forall n :: n in pending ==> n in def.nodes
      invariant Explored(def, pending, reached) == Reached(def)
      decreases NodeIds(def.nodes) - reached, |pending|
    {
      var node := pending[|pending| - 1];
      pending := pending[..|pending| - 1];
      if node.id in reached {
        continue;
      }
      assert node.id in NodeIds(def.nodes) - reached;
      reached := reached + {node.id};
      pending := PushDeclared(def, pending, NodeTargets(node));
    }
    ids := IdsOutside(def.nodes, reached);
    if UniqueNodeIds(def) {
      ReportIsComplement(def);
    }
    NothingShadowedDecides(def);
    if StartsFirst(def) {
      ReportExactly(def);
    }
  }

  lemma {:induction false} DeclaredAppend(def: ProcessDefinition, targets: seq<Id>, id: Id)
    ensures Declared(def, targets + [id])
            == Declared(def, targets) + (if FindNode(def, id).Some? then [FindNode(def, id).value] else [])
  {
    if targets != [] {
      assert (targets + [id])[1..] == targets[1..] + [id];
      DeclaredAppend(def, targets[1..], id);
    }
  }

  // ---- What the worklist computes ----

  /** Everything reached is connected, for any definition. */
  lemma {:induction false} ExploredConnected(def: ProcessDefinition, pending: seq<Node>, reached: set<Id>)
    requires forall n :: n in pending ==> n in def.nodes && Connected(def, n.id)
    requires forall id :: id in reached ==> Connected(def, id)
    ensures forall id :: id in Explored(def, pending, reached) ==> Connected(def, id)
    decreases NodeIds(def.nodes) - reached, |pending|
  {
    if pending != [] {
      var node := pending[|pending| - 1];
      var rest := pending[..|pending| - 1];
      if node.id in reached {
        ExploredConnected(def, rest, reached);
      } else {
        assert node.id in NodeIds(def.nodes) - reached;
        var found := Declared(def, NodeTargets(node));
        forall n | n in found ensures Connected(def, n.id) {
          EdgeConnected(def, node.id, n.id);
        }
        ExploredConnected(def, rest + found, reached + {node.id});
      }
    }
  }

  predicate UniqueNodeIds(def: ProcessDefinition) {
    forall i, j :: 0 <= i < j < |def.nodes| ==> def.nodes[i].id != def.nodes[j].id
  }

  /** Every node is the one its identifier finds. */
  predicate OneNodePerId(def: ProcessDefinition) {
    forall n :: n in def.nodes ==> FindNode(def, n.id) == Some(n)
  }

  lemma UniqueFind(def: ProcessDefinition)
    requires UniqueNodeIds(def)
    ensures OneNodePerId(def)
  {
  }

  /** Every edge out of a reached node ends in a reached or a pending one. */
  ghost predicate Frontier(def: ProcessDefinition, pending: seq<Node>, reached: set<Id>) {
    forall a, b :: a in reached && Edge(def, a, b) ==> b in reached || b in NodeIds(pending)
  }

  /** Expanding a node keeps the frontier: its own edges become pending. */
  lemma FrontierAdvances(def: ProcessDefinition, rest: seq<Node>, node: Node, found: seq<Node>, reached: set<Id>)
    requires Frontier(def, rest + [node], reached)
    requires forall b :: Edge(def, node.id, b) ==> b in NodeIds(found)
    ensures Frontier(def, rest + found, reached + {node.id})
  {
    NodeIdsConcat(rest, found);
    NodeIdsConcat(rest, [node]);
  }

  lemma OwnEdges(def: ProcessDefinition, node: Node)
    requires OneNodePerId(def) && node in def.nodes
    ensures forall b :: Edge(def, node.id, b) ==> b in NodeIds(Declared(def, NodeTargets(node)))
  {
    var found := Declared(def, NodeTargets(node));
    forall b | Edge(def, node.id, b) ensures b in NodeIds(found) {
      OwnEdge(def, node, b);
      assert FindNode(def, b).value in found;
    }
  }

  lemma NodeIdsConcat(a: seq<Node>, b: seq<Node>)
    ensures NodeIds(a + b) == NodeIds(a) + NodeIds(b)
  {
  }

  lemma OwnEdge(def: ProcessDefinition, node: Node, b: Id)
    requires OneNodePerId(def) && node in def.nodes && Edge(def, node.id, b)
    ensures b in NodeTargets(node)
  {
    var n :| n in def.nodes && n.id == node.id && b in NodeTargets(n);
    assert FindNode(def, n.id) == Some(n) == FindNode(def, node.id) == Some(node);
  }

  lemma {:induction false} ExploredClosed(def: ProcessDefinition, pending: seq<Node>, reached: set<Id>)
    requires OneNodePerId(def)
    requires forall n :: n in pending ==> n in def.nodes
    requires Frontier(def, pending, reached)
    ensures reached <= Explored(def, pending, reached)
    ensures forall n :: n in pending ==> n.id in Explored(def, pending, reached)
    ensures Frontier(def, [], Explored(def, pending, reached))
    decreases NodeIds(def.nodes) - reached, |pending|
  {
    if pending != [] {
      var node := pending[|pending| - 1];
      var rest := pending[..|pending| - 1];
      assert pending == rest + [node];
      if node.id in reached {
        ExploredClosed(def, rest, reached);
      } else {
        assert node.id in NodeIds(def.nodes) - reached;
        var found := Declared(def, NodeTargets(node));
        OwnEdges(def, node);
        FrontierAdvances(def, rest, node, found, reached);
        ExploredClosed(def, rest + found, reached + {node.id});
      }
    }
  }

  /** The worklist never reports a node as reached without a path to it, and with one node per identifier it reaches
      every node that has one. */
  lemma ReachedIsConnected(def: ProcessDefinition, id: Id)
    ensures id in Reached(def) ==> Connected(def, id)
    ensures OneNodePerId(def) ==> (id in Reached(def) <==> Connected(def, id))
  {
    forall n | n in Starts(def.nodes) ensures Connected(def, n.id) {
      StartConnected(def, n.id);
    }
    ExploredConnected(def, Starts(def.nodes), {});
    if OneNodePerId(def) && Connected(def, id) {
      ExploredClosed(def, Starts(def.nodes), {});
      var path :| IsPath(def, path) && path[|path| - 1] == id;
      ClosedContains(def, Reached(def), path);
    }
  }

  /** The complement of the closure, in definition order. */
  ghost function Unconnected(def: ProcessDefinition, nodes: seq<Node>): seq<Id> {
    if nodes == [] then []
    else (if Connected(def, nodes[0].id) then [] else [nodes[0].id]) + Unconnected(def, nodes[1..])
  }

  /** Whatever is pending ends up reached, for any definition. */
  lemma {:induction false} ExploredCovers(def: ProcessDefinition, pending: seq<Node>, reached: set<Id>)
    requires forall n :: n in pending ==> n in def.nodes
    ensures reached <= Explored(def, pending, reached)
    ensures forall n :: n in pending ==> n.id in Explored(def, pending, reached)
    decreases NodeIds(def.nodes) - reached, |pending|
  {
    if pending != [] {
      var node := pending[|pending| - 1];
      var rest := pending[..|pending| - 1];
      assert pending == rest + [node];
      if node.id in reached {
        ExploredCovers(def, rest, reached);
      } else {
        assert node.id in NodeIds(def.nodes) - reached;
        var found := Declared(def, NodeTargets(node));
        ExploredCovers(def, rest + found, reached + {node.id});
        forall n | n in rest ensures n in rest + found {
        }
      }
    }
  }

  /** No node whose identifier was reached names a declared target that was missed. */
  ghost predicate NothingShadowed(def: ProcessDefinition) {
    forall a, b :: a in Reached(def) && Edge(def, a, b) ==> b in Reached(def)
  }

  lemma {:induction false} ReportDecides(def: ProcessDefinition, nodes: seq<Node>, node: Node)
    requires IdsOutside(nodes, Reached(def)) == Unconnected(def, nodes) && node in nodes
    ensures Connected(def, node.id) ==> node.id in Reached(def)
  {
    ReachedIsConnected(def, nodes[0].id);
    FewerReported(def, nodes[1..]);
    var reported := if nodes[0].id in Reached(def) then [] else [nodes[0].id];
    var missing := if Connected(def, nodes[0].id) then [] else [nodes[0].id];
    SameTails(reported, missing, IdsOutside(nodes[1..], Reached(def)), Unconnected(def, nodes[1..]));
    if nodes[0] != node {
      ReportDecides(def, nodes[1..], node);
    }
  }

  lemma SameTails(p: seq<Id>, q: seq<Id>, a: seq<Id>, b: seq<Id>)
    requires p + a == q + b && |b| <= |a| && |q| <= |p|
    ensures p == q && a == b
  {
    assert |p| == |q| && |a| == |b|;
    assert p == (p + a)[..|p|] && q == (q + b)[..|q|];
    assert a == (p + a)[|p|..] && b == (q + b)[|q|..];
  }

  /** The report lists at least every unconnected node. */
  lemma {:induction false} FewerReported(def: ProcessDefinition, nodes: seq<Node>)
    ensures |Unconnected(def, nodes)| <= |IdsOutside(nodes, Reached(def))|
  {
    if nodes != [] {
      ReachedIsConnected(def, nodes[0].id);
      FewerReported(def, nodes[1..]);
    }
  }

  lemma {:induction false} AgreeingReport(def: ProcessDefinition, nodes: seq<Node>)
    requires forall n :: n in nodes ==> (n.id in Reached(def) <==> Connected(def, n.id))
    ensures IdsOutside(nodes, Reached(def)) == Unconnected(def, nodes)
  {
    if nodes != [] {
      AgreeingReport(def, nodes[1..]);
    }
  }

  /** The report is right if and only if expanding one node per reached identifier missed no target. */
  lemma NothingShadowedDecides(def: ProcessDefinition)
    ensures IdsOutside(def.nodes, Reached(def)) == Unconnected(def, def.nodes) <==> NothingShadowed(def)
  {
    ExploredCovers(def, Starts(def.nodes), {});
    if NothingShadowed(def) {
      forall n | n in def.nodes ensures n.id in Reached(def) <==> Connected(def, n.id) {
        ReachedIsConnected(def, n.id);
        if Connected(def, n.id) {
          var path :| IsPath(def, path) && path[|path| - 1] == n.id;
          ClosedContains(def, Reached(def), path);
        }
      }
      AgreeingReport(def, def.nodes);
    }
    if IdsOutside(def.nodes, Reached(def)) == Unconnected(def, def.nodes) {
      forall a, b | a in Reached(def) && Edge(def, a, b) ensures b in Reached(def) {
        ReachedIsConnected(def, a);
        EdgeConnected(def, a, b);
        ReportDecides(def, def.nodes, FindNode(def, b).value);
      }
    }
  }

  /** A target is what a node may lead to: its first node, a branch, a fallback, a successor, a deadline of a wait or
      the error route of a service task, and nothing else; compensation routes are not followed. */
  lemma TargetMeans(node: Node, target: Id)
    ensures target in NodeTargets(node) <==>
      match node
      case Start(_, first, _) => target == first
      case End(_, _) => false
      case Gateway(_, _, branches, fallback) => BranchTo(branches, target) || fallback == Some(target)
      case ServiceTask(_, _, _, _, _, successor, onError) =>
        NextTo(successor, target) || (onError.Some? && onError.value.next == Some(target))
      case UserTask(_, _, _, _, timer, successor, _) =>
        NextTo(successor, target) || (timer.Some? && timer.value.onTimeout == target)
      case Wait(_, _, _, timer, successor) =>
        NextTo(successor, target) || (timer.Some? && timer.value.onTimeout == target)
  {
    BranchToMeans(NodeBranches(node), target);
  }

  predicate BranchTo(branches: seq<Branch>, target: Id) {
    exists i :: 0 <= i < |branches| && branches[i].next == target
  }

  predicate NextTo(next: Option<Next>, target: Id) {
    match next
    case None => false
    case Some(To(id)) => id == target
    case Some(Routes(fallback, branches)) => BranchTo(branches, target) || fallback == Some(target)
  }

  lemma BranchToMeans(branches: seq<Branch>, target: Id)
    ensures target in BranchTargets(branches) <==> BranchTo(branches, target)
  {
    if i :| 0 <= i < |branches| && branches[i].next == target {
      assert BranchTargets(branches)[i] == target;
    }
  }

  // ---- When the report is right ----

  /** The nodes that are the first to declare their identifier. */
  function FirstDeclared(def: ProcessDefinition, nodes: seq<Node>): (heads: seq<Node>)
    ensures forall n :: n in heads <==> n in nodes && FindNode(def, n.id) == Some(n)
  {
    if nodes == [] then []
    else (if FindNode(def, nodes[0].id) == Some(nodes[0]) then [nodes[0]] else []) + FirstDeclared(def, nodes[1..])
  }

  /** The definition without the nodes that repeat the identifier of an earlier, different one. */
  function Heads(def: ProcessDefinition): ProcessDefinition {
    def.(nodes := FirstDeclared(def, def.nodes))
  }

  lemma HeadsFind(def: ProcessDefinition, id: Id)
    ensures FindNode(Heads(def), id) == FindNode(def, id)
  {
    if FindNode(def, id).Some? {
      assert FindNode(def, id).value in Heads(def).nodes;
    }
  }

  /** Among the first-declared nodes an identifier leads where its first node leads. */
  lemma HeadEdge(def: ProcessDefinition, a: Id, b: Id)
    ensures Edge(Heads(def), a, b)
      <==> FindNode(def, a).Some? && b in NodeTargets(FindNode(def, a).value) && FindNode(def, b).Some?
  {
    HeadsFind(def, b);
    if FindNode(def, a).Some? {
      assert FindNode(def, a).value in Heads(def).nodes;
    }
  }

  lemma HeadsSettled(def: ProcessDefinition)
    ensures OneNodePerId(Heads(def))
  {
    forall n | n in Heads(def).nodes ensures FindNode(Heads(def), n.id) == Some(n) {
      HeadsFind(def, n.id);
    }
  }

  lemma {:induction false} HeadsDeclared(def: ProcessDefinition, targets: seq<Id>)
    ensures Declared(Heads(def), targets) == Declared(def, targets)
  {
    if targets != [] {
      HeadsFind(def, targets[0]);
      HeadsDeclared(def, targets[1..]);
    }
  }

  /** From first-declared nodes the worklist never sees another one. */
  lemma {:induction false} HeadsExplored(def: ProcessDefinition, pending: seq<Node>, reached: set<Id>)
    requires forall n :: n in pending ==> n in def.nodes && n in Heads(def).nodes
    ensures Explored(def, pending, reached) == Explored(Heads(def), pending, reached)
    decreases NodeIds(def.nodes) - reached, |pending|
  {
    if pending != [] {
      var node := pending[|pending| - 1];
      var rest := pending[..|pending| - 1];
      if node.id in reached {
        HeadsExplored(def, rest, reached);
      } else {
        assert node.id in NodeIds(def.nodes) - reached;
        HeadsDeclared(def, NodeTargets(node));
        HeadsExplored(def, rest + Declared(def, NodeTargets(node)), reached + {node.id});
      }
    }
  }

  /** Every Start is the first node of its identifier. */
  predicate StartsFirst(def: ProcessDefinition) {
    forall n :: n in def.nodes && n.Start? ==> FindNode(def, n.id) == Some(n)
  }

  lemma {:induction false} HeadStarts(def: ProcessDefinition, nodes: seq<Node>)
    requires forall n :: n in nodes && n.Start? ==> FindNode(def, n.id) == Some(n)
    ensures Starts(FirstDeclared(def, nodes)) == Starts(nodes)
  {
    if nodes != [] {
      HeadStarts(def, nodes[1..]);
      var rest := FirstDeclared(def, nodes[1..]);
      if FindNode(def, nodes[0].id) == Some(nodes[0]) {
        StartsFrom(nodes[0], rest);
        assert FirstDeclared(def, nodes) == [nodes[0]] + rest;
      } else {
        assert FirstDeclared(def, nodes) == rest;
      }
    }
  }

  lemma StartsFrom(n: Node, rest: seq<Node>)
    ensures Starts([n] + rest) == (if n.Start? then [n] else []) + Starts(rest)
  {
    assert ([n] + rest)[1..] == rest;
  }

  /** When every Start comes first, the worklist computes the closure over the first-declared nodes. */
  lemma ReachedByHeads(def: ProcessDefinition, id: Id)
    requires StartsFirst(def)
    ensures id in Reached(def) <==> Connected(Heads(def), id)
  {
    HeadStarts(def, def.nodes);
    HeadsExplored(def, Starts(def.nodes), {});
    HeadsSettled(def);
    ReachedIsConnected(Heads(def), id);
  }

  /** The closure over the first-declared nodes holds every declared target of every node that shares an identifier
      with it. */
  ghost predicate RepeatsStayInside(def: ProcessDefinition) {
    forall a, b :: Connected(Heads(def), a) && Edge(def, a, b) ==> Connected(Heads(def), b)
  }

  /** For any definition whose Starts come first, other identifiers repeated or not: the report is the complement of
      the closure if and only if the repeated nodes lead nowhere the first-declared ones do not. */
  lemma ReportExactly(def: ProcessDefinition)
    requires StartsFirst(def)
    ensures IdsOutside(def.nodes, Reached(def)) == Unconnected(def, def.nodes) <==> RepeatsStayInside(def)
  {
    NothingShadowedDecides(def);
    forall id ensures id in Reached(def) <==> Connected(Heads(def), id) {
      ReachedByHeads(def, id);
    }
  }

  /** With unique identifiers the report is always the complement of the closure. */
  lemma ReportIsComplement(def: ProcessDefinition)
    requires UniqueNodeIds(def)
    ensures IdsOutside(def.nodes, Reached(def)) == Unconnected(def, def.nodes)
  {
    UniqueFind(def);
    forall a, b | Connected(Heads(def), a) && Edge(def, a, b) ensures Connected(Heads(def), b) {
      AllHeads(def, def.nodes);
      EdgeConnected(def, a, b);
    }
    ReportExactly(def);
  }

  lemma {:induction false} AllHeads(def: ProcessDefinition, nodes: seq<Node>)
    requires forall n :: n in nodes ==> FindNode(def, n.id) == Some(n)
    ensures FirstDeclared(def, nodes) == nodes
  {
    if nodes != [] {
      AllHeads(def, nodes[1..]);
    }
  }

  /** Two Start nodes named `s`, one leading to the End `a` and the other to the End `b`. */
  function TwinStarts(s: Id, a: Id, b: Id, hooks: Hooks): ProcessDefinition {
    ProcessDefinition([Start(s, a, None)] + ([Start(s, b, None)] + ([Node.End(a, None)] + [Node.End(b, None)])),
                      [], [], [], [], hooks, None, None)
  }

  lemma TwinLookups(s: Id, a: Id, b: Id, hooks: Hooks)
    requires s != a && s != b && a != b
    ensures var def := TwinStarts(s, a, b, hooks);
            && FindNode(def, a) == Some(Node.End(a, None)) && FindNode(def, b) == Some(Node.End(b, None))
            && Starts(def.nodes) == [Start(s, a, None)] + [Start(s, b, None)]
            && Start(s, a, None) in def.nodes && Start(s, b, None) in def.nodes
            && Node.End(a, None) in def.nodes && Node.End(b, None) in def.nodes
  {
    var ends := [Node.End(a, None)] + [Node.End(b, None)];
    FourLookups(Start(s, a, None), Start(s, b, None), Node.End(a, None), Node.End(b, None), ends,
                TwinStarts(s, a, b, hooks).nodes);
    FourStarts(Start(s, a, None), Start(s, b, None), Node.End(a, None), Node.End(b, None), ends);
  }

  lemma FourLookups(s1: Node, s2: Node, endA: Node, endB: Node, rest: seq<Node>, nodes: seq<Node>)
    requires s1.id != endA.id && s2.id != endA.id && s1.id != endB.id && s2.id != endB.id && endB.id != endA.id
    requires rest == [endA] + [endB] && nodes == [s1] + ([s2] + rest)
    ensures FindIn(nodes, endA.id) == Some(endA) && FindIn(nodes, endB.id) == Some(endB)
    ensures s1 in nodes && s2 in nodes && endA in nodes && endB in nodes
  {
    FindFrom(endB, [], endB.id);
    assert [endB] + [] == [endB];
    FindFrom(endA, [endB], endA.id);
    FindFrom(endA, [endB], endB.id);
    FindPast(s1, s2, rest, endA.id);
    FindPast(s1, s2, rest, endB.id);
  }

  lemma FourStarts(s1: Node, s2: Node, endA: Node, endB: Node, rest: seq<Node>)
    requires s1.Start? && s2.Start? && endA.End? && endB.End? && rest == [endA] + [endB]
    ensures Starts([s1] + ([s2] + rest)) == [s1] + [s2]
  {
    StartsFrom(endB, []);
    assert [endB] + [] == [endB];
    StartsFrom(endA, [endB]);
    StartsFrom(s2, rest);
    StartsFrom(s1, [s2] + rest);
  }

  lemma FindFrom(n: Node, rest: seq<Node>, id: Id)
    ensures FindIn([n] + rest, id) == if n.id == id then Some(n) else FindIn(rest, id)
  {
    assert ([n] + rest)[1..] == rest;
  }

  lemma FindPast(n: Node, m: Node, rest: seq<Node>, id: Id)
    requires n.id != id && m.id != id
    ensures FindIn([n] + ([m] + rest), id) == FindIn(rest, id)
  {
    FindFrom(m, rest, id);
    FindFrom(n, [m] + rest, id);
  }

  lemma Popped(def: ProcessDefinition, rest: seq<Node>, node: Node, targets: seq<Id>, reached: set<Id>)
    requires (forall n :: n in rest ==> n in def.nodes) && node in def.nodes && NodeTargets(node) == targets
    ensures Explored(def, rest + [node], reached)
            == if node.id in reached then Explored(def, rest, reached)
               else Explored(def, rest + Declared(def, targets), reached + {node.id})
  {
    var pending := rest + [node];
    assert pending[..|pending| - 1] == rest && pending[|pending| - 1] == node;
  }

  lemma PlainTargets(id: Id, first: Id)
    ensures NodeTargets(Start(id, first, None)) == [first] && NodeTargets(Node.End(id, None)) == []
  {
  }

  lemma DeclaredOne(def: ProcessDefinition, id: Id)
    requires FindNode(def, id).Some?
    ensures Declared(def, [id]) == [FindNode(def, id).value]
  {
    assert [id][1..] == [];
    assert Declared(def, []) == [];
  }

  /** Of two pending Start nodes with one identifier, only the later is expanded. */
  lemma TwinReached(def: ProcessDefinition, s1: Node, s2: Node, b: Node)
    requires s1 in def.nodes && s2 in def.nodes && b in def.nodes
    requires Starts(def.nodes) == [s1] + [s2] && s1.id == s2.id && b.id != s1.id
    requires NodeTargets(s2) == [b.id] && NodeTargets(b) == [] && FindNode(def, b.id) == Some(b)
    ensures Reached(def) == {s1.id, b.id}
  {
    DeclaredOne(def, b.id);
    Popped(def, [s1], s2, [b.id], {});
    Popped(def, [s1], b, [], {} + {s1.id});
    assert [s1] + Declared(def, []) == [] + [s1];
    Popped(def, [], s1, NodeTargets(s1), {} + {s1.id} + {b.id});
  }

  lemma TwinConnected(def: ProcessDefinition, s1: Node, a: Id)
    requires s1 in def.nodes && s1.Start? && NodeTargets(s1) == [a] && FindNode(def, a).Some?
    ensures Connected(def, a)
  {
    StartConnected(def, s1.id);
    assert a in NodeTargets(s1);
    EdgeConnected(def, s1.id, a);
  }

  /** Without unique identifiers the report can be wrong: of two Start nodes that share
      an identifier only one is expanded, so the successor of the other is reported
      although a Start leads to it. Registration runs this report before validation. */
  lemma DuplicateIdsMisreport(s: Id, a: Id, b: Id, hooks: Hooks)
    requires s != a && s != b && a != b
    ensures var def := TwinStarts(s, a, b, hooks);
            Connected(def, a) && a in IdsOutside(def.nodes, Reached(def))
  {
    var def := TwinStarts(s, a, b, hooks);
    TwinLookups(s, a, b, hooks);
    PlainTargets(s, a);
    PlainTargets(s, b);
    PlainTargets(b, b);
    TwinReached(def, Start(s, a, None), Start(s, b, None), Node.End(b, None));
    TwinConnected(def, Start(s, a, None), a);
    ReportLists(def, Node.End(a, None));
  }

  lemma ReportLists(def: ProcessDefinition, node: Node)
    requires node in def.nodes && node.id !in Reached(def)
    ensures node.id in IdsOutside(def.nodes, Reached(def))
  {
    OutsideMember(def.nodes, node, Reached(def));
  }

  lemma {:induction false} OutsideMember(nodes: seq<Node>, node: Node, reached: set<Id>)
    requires node in nodes && node.id !in reached
    ensures node.id in IdsOutside(nodes, reached)
  {
    if nodes[0] != node {
      OutsideMember(nodes[1..], node, reached);
    }
  }
}
