/** The editor's view of a definition: routes as addressable connections, and renaming a node. */
module EditorGraph {
  import opened Wrappers
  import opened Contexts
  import opened ProcessDefs

  /** Where in a node a route is stored. */
  datatype Pointer = NextPointer | DefaultPointer | BranchPointer(index: nat) | NextBranchPointer(index: nat)
                   | ErrorPointer | CompensatePointer | TimeoutPointer

  datatype Connection = Connection(source: Id, target: Id, caption: string, pointer: Pointer)

  function RoutesOf(node: Node): Option<Next> {
    if node.ServiceTask? || node.UserTask? || node.Wait? then node.successor else None
  }

  function ErrorOf(node: Node): Option<OnError> {
    if node.ServiceTask? || node.UserTask? then node.onError else None
  }

  function BranchAt(branches: seq<Branch>, i: nat): Option<Id> {
    if i < |branches| then Some(branches[i].next) else None
  }

  /** The node ID stored at a pointer. */
  function TargetAt(node: Node, p: Pointer): Option<Id> {
    match p
    case NextPointer =>
      (match node
       case Start(_, first, _) => Some(first)
       case Gateway(_, _, _, fallback) => fallback
       case _ => match RoutesOf(node) case Some(To(target)) => Some(target) case _ => None)
    case DefaultPointer => (match RoutesOf(node) case Some(Routes(fallback, _)) => fallback case _ => None)
    case BranchPointer(i) => if node.Gateway? then BranchAt(node.branches, i) else None
    case NextBranchPointer(i) => (match RoutesOf(node) case Some(Routes(_, branches)) => BranchAt(branches, i) case _ => None)
    case ErrorPointer => (match ErrorOf(node) case Some(OnError(next, _)) => next case None => None)
    case CompensatePointer => (match ErrorOf(node) case Some(OnError(_, compensate)) => compensate case None => None)
    case TimeoutPointer => (match node.Timeout() case Some(timer) => Some(timer.onTimeout) case None => None)
  }

  function RetargetedBranch(branches: seq<Branch>, i: nat, id: Id): seq<Branch> {
    if i < |branches| then branches[i := branches[i].(next := id)] else branches
  }

  function WithRoutes(node: Node, next: Next): Node {
    match node
    case ServiceTask(id, handler, args, stage, retries, _, error) =>
      ServiceTask(id, handler, args, stage, retries, Some(next), error)
    case UserTask(id, form, awaits, stage, timer, _, error) => UserTask(id, form, awaits, stage, timer, Some(next), error)
    case Wait(id, waitFor, stage, timer, _) => Wait(id, waitFor, stage, timer, Some(next))
    case other => other
  }

  function WithError(node: Node, error: OnError): Node {
    match node
    case ServiceTask(id, handler, args, stage, retries, next, _) =>
      ServiceTask(id, handler, args, stage, retries, next, Some(error))
    case UserTask(id, form, awaits, stage, timer, next, _) => UserTask(id, form, awaits, stage, timer, next, Some(error))
    case other => other
  }

  function WithTimer(node: Node, timer: Timer): Node {
    match node
    case UserTask(id, form, awaits, stage, _, next, error) => UserTask(id, form, awaits, stage, Some(timer), next, error)
    case Wait(id, waitFor, stage, _, next) => Wait(id, waitFor, stage, Some(timer), next)
    case other => other
  }

  /** The node with another ID stored at a pointer; unchanged where the pointer leads nowhere. */
  function WithTarget(node: Node, p: Pointer, id: Id): Node {
    if TargetAt(node, p).None? then node
    else match p
      case NextPointer =>
        (match node
         case Start(own, _, stage) => Start(own, id, stage)
         case Gateway(own, stage, branches, _) => Gateway(own, stage, branches, Some(id))
         case other => WithRoutes(other, To(id)))
      case DefaultPointer => WithRoutes(node, RoutesOf(node).value.(fallback := Some(id)))
      case BranchPointer(i) => Gateway(node.id, node.setStage, RetargetedBranch(node.branches, i, id), node.fallback)
      case NextBranchPointer(i) =>
        var routes := RoutesOf(node).value;
        WithRoutes(node, routes.(branches := RetargetedBranch(routes.branches, i, id)))
      case ErrorPointer => WithError(node, ErrorOf(node).value.(next := Some(id)))
      case CompensatePointer => WithError(node, ErrorOf(node).value.(compensate := Some(id)))
      case TimeoutPointer => WithTimer(node, node.Timeout().value.(onTimeout := id))
  }

  // ---- Connections ----

  function BranchPointerOf(node: Node, i: nat): Pointer {
    if node.Gateway? then BranchPointer(i) else NextBranchPointer(i)
  }

  function Edge(node: Node, p: Pointer, caption: string): seq<Connection> {
    match TargetAt(node, p)
    case Some(target) => [Connection(node.id, target, caption, p)]
    case None => []
  }

  function BranchEdges(node: Node): seq<Connection> {
    var branches := NodeBranches(node);
    seq(|branches|, i requires 0 <= i < |branches| =>
      Connection(node.id, branches[i].next, branches[i].when, BranchPointerOf(node, i)))
  }

  const OTHERWISE: string := "Otherwise"
  const ERROR: string := "On error"
  const COMPENSATE: string := "Compensate"
  const TIMEOUT: string := "Timeout"

  /** Every route of a node, in the order the editor lists them. */
  function NodeConnections(node: Node): seq<Connection> {
    Edge(node, NextPointer, if node.Gateway? then OTHERWISE else "")
    + Edge(node, DefaultPointer, OTHERWISE)
    + BranchEdges(node)
    + Edge(node, ErrorPointer, ERROR)
    + Edge(node, CompensatePointer, COMPENSATE)
    + Edge(node, TimeoutPointer, TIMEOUT)
  }

  function Connections(nodes: seq<Node>): seq<Connection> {
    if nodes == [] then [] else NodeConnections(nodes[0]) + Connections(nodes[1..])
  }

  // ---- Renaming ----

  function Sub(id: Id, was: Id, becomes: Id): Id {
    if id == was then becomes else id
  }

  function SubOption(id: Option<Id>, was: Id, becomes: Id): Option<Id> {
    if id.Some? then Some(Sub(id.value, was, becomes)) else None
  }

  function SubBranches(branches: seq<Branch>, was: Id, becomes: Id): (r: seq<Branch>)
    ensures |r| == |branches|
  {
    seq(|branches|, i requires 0 <= i < |branches| => Branch(branches[i].when, Sub(branches[i].next, was, becomes)))
  }

  function SubNext(next: Option<Next>, was: Id, becomes: Id): Option<Next> {
    match next
    case Some(To(target)) => Some(To(Sub(target, was, becomes)))
    case Some(Routes(fallback, branches)) => Some(Routes(SubOption(fallback, was, becomes), SubBranches(branches, was, becomes)))
    case None => None
  }

  function SubTimer(timer: Option<Timer>, was: Id, becomes: Id): Option<Timer> {
    if timer.Some? then Some(timer.value.(onTimeout := Sub(timer.value.onTimeout, was, becomes))) else None
  }

  function SubError(error: Option<OnError>, was: Id, becomes: Id): Option<OnError> {
    match error
    case Some(OnError(next, compensate)) => Some(OnError(SubOption(next, was, becomes), SubOption(compensate, was, becomes)))
    case None => None
  }

  /** The node with one ID replaced wherever it names a node, its own name included. */
  function Renamed(node: Node, was: Id, becomes: Id): Node {
    var id := Sub(node.id, was, becomes);
    match node
    case Start(_, first, stage) => Start(id, Sub(first, was, becomes), stage)
    case End(_, stage) => Node.End(id, stage)
    case ServiceTask(_, handler, args, stage, retries, next, error) =>
      ServiceTask(id, handler, args, stage, retries, SubNext(next, was, becomes), SubError(error, was, becomes))
    case UserTask(_, form, awaits, stage, timer, next, error) =>
      UserTask(id, form, awaits, stage, SubTimer(timer, was, becomes), SubNext(next, was, becomes), SubError(error, was, becomes))
    case Wait(_, waitFor, stage, timer, next) =>
      Wait(id, waitFor, stage, SubTimer(timer, was, becomes), SubNext(next, was, becomes))
    case Gateway(_, stage, branches, fallback) =>
      Gateway(id, stage, SubBranches(branches, was, becomes), SubOption(fallback, was, becomes))
  }

  function RenamedAll(nodes: seq<Node>, was: Id, becomes: Id): (r: seq<Node>)
    ensures |r| == |nodes|
  {
    seq(|nodes|, i requires 0 <= i < |nodes| => Renamed(nodes[i], was, becomes))
  }

  function RenamedConnection(c: Connection, was: Id, becomes: Id): Connection {
    c.(source := Sub(c.source, was, becomes), target := Sub(c.target, was, becomes))
  }

  function RenamedConnections(cs: seq<Connection>, was: Id, becomes: Id): seq<Connection> {
    seq(|cs|, i requires 0 <= i < |cs| => RenamedConnection(cs[i], was, becomes))
  }

  lemma RenamedConcat(a: seq<Connection>, b: seq<Connection>, was: Id, becomes: Id)
    ensures RenamedConnections(a + b, was, becomes) == RenamedConnections(a, was, becomes) + RenamedConnections(b, was, becomes)
  {
  }

  lemma RenamedTarget(node: Node, p: Pointer, was: Id, becomes: Id)
    ensures TargetAt(Renamed(node, was, becomes), p) == SubOption(TargetAt(node, p), was, becomes)
  {
  }

  lemma RenamedEdge(node: Node, p: Pointer, caption: string, was: Id, becomes: Id)
    ensures Edge(Renamed(node, was, becomes), p, caption) == RenamedConnections(Edge(node, p, caption), was, becomes)
  {
    RenamedTarget(node, p, was, becomes);
  }

  lemma RenamedBranchEdges(node: Node, was: Id, becomes: Id)
    ensures BranchEdges(Renamed(node, was, becomes)) == RenamedConnections(BranchEdges(node), was, becomes)
  {
    assert NodeBranches(Renamed(node, was, becomes)) == SubBranches(NodeBranches(node), was, becomes);
  }

  lemma RenamedNodeConnections(node: Node, was: Id, becomes: Id)
    ensures NodeConnections(Renamed(node, was, becomes)) == RenamedConnections(NodeConnections(node), was, becomes)
  {
    var caption := if node.Gateway? then OTHERWISE else "";
    var a, b := Edge(node, NextPointer, caption), Edge(node, DefaultPointer, OTHERWISE);
    var c, d := BranchEdges(node), Edge(node, ErrorPointer, ERROR);
    var e, f := Edge(node, CompensatePointer, COMPENSATE), Edge(node, TimeoutPointer, TIMEOUT);
    RenamedEdge(node, NextPointer, caption, was, becomes);
    RenamedEdge(node, DefaultPointer, OTHERWISE, was, becomes);
    RenamedBranchEdges(node, was, becomes);
    RenamedEdge(node, ErrorPointer, ERROR, was, becomes);
    RenamedEdge(node, CompensatePointer, COMPENSATE, was, becomes);
    RenamedEdge(node, TimeoutPointer, TIMEOUT, was, becomes);
    RenamedConcat(a, b, was, becomes);
    RenamedConcat(a + b, c, was, becomes);
    RenamedConcat(a + b + c, d, was, becomes);
    RenamedConcat(a + b + c + d, e, was, becomes);
    RenamedConcat(a + b + c + d + e, f, was, becomes);
  }

  /** Replacing an ID throughout the nodes replaces it throughout the connections, and changes nothing else. */
  lemma {:induction false} RenameIsIsomorphism(nodes: seq<Node>, was: Id, becomes: Id)
    ensures Connections(RenamedAll(nodes, was, becomes)) == RenamedConnections(Connections(nodes), was, becomes)
  {
    if nodes != [] {
      RenamedNodeConnections(nodes[0], was, becomes);
      RenameIsIsomorphism(nodes[1..], was, becomes);
      assert RenamedAll(nodes, was, becomes)[1..] == RenamedAll(nodes[1..], was, becomes);
      RenamedConcat(NodeConnections(nodes[0]), Connections(nodes[1..]), was, becomes);
    }
  }

  // ---- A node is its shape and its targets ----

  function BlankBranches(branches: seq<Branch>): (r: seq<Branch>)
    ensures |r| == |branches|
  {
    seq(|branches|, i requires 0 <= i < |branches| => Branch(branches[i].when, ""))
  }

  function BlankOption(id: Option<Id>): Option<Id> {
    if id.Some? then Some("") else None
  }

  function BlankNext(next: Option<Next>): Option<Next> {
    match next
    case Some(To(_)) => Some(To(""))
    case Some(Routes(fallback, branches)) => Some(Routes(BlankOption(fallback), BlankBranches(branches)))
    case None => None
  }

  function BlankTimer(timer: Option<Timer>): Option<Timer> {
    if timer.Some? then Some(timer.value.(onTimeout := "")) else None
  }

  function BlankError(error: Option<OnError>): Option<OnError> {
    match error
    case Some(OnError(next, compensate)) => Some(OnError(BlankOption(next), BlankOption(compensate)))
    case None => None
  }

  /** The node with every target removed. */
  function Shape(node: Node): Node {
    match node
    case Start(id, _, stage) => Start(id, "", stage)
    case End(id, stage) => node
    case ServiceTask(id, handler, args, stage, retries, next, error) =>
      ServiceTask(id, handler, args, stage, retries, BlankNext(next), BlankError(error))
    case UserTask(id, form, awaits, stage, timer, next, error) =>
      UserTask(id, form, awaits, stage, BlankTimer(timer), BlankNext(next), BlankError(error))
    case Wait(id, waitFor, stage, timer, next) => Wait(id, waitFor, stage, BlankTimer(timer), BlankNext(next))
    case Gateway(id, stage, branches, fallback) => Gateway(id, stage, BlankBranches(branches), BlankOption(fallback))
  }

  ghost predicate SameTargets(a: Node, b: Node) {
    forall p :: TargetAt(a, p) == TargetAt(b, p)
  }

  lemma BranchesFromParts(a: seq<Branch>, b: seq<Branch>)
    requires BlankBranches(a) == BlankBranches(b)
    requires forall i: nat :: BranchAt(a, i) == BranchAt(b, i)
    ensures a == b
  {
    assert |a| == |BlankBranches(a)| == |b|;
    forall i | 0 <= i < |a| ensures a[i] == b[i] {
      assert BranchAt(a, i) == BranchAt(b, i);
      assert BlankBranches(a)[i] == BlankBranches(b)[i];
    }
  }

  lemma NextFromParts(a: Node, b: Node)
    requires SameTargets(a, b) && BlankNext(RoutesOf(a)) == BlankNext(RoutesOf(b))
    requires !a.Start? && !a.Gateway? && !b.Start? && !b.Gateway?
    ensures RoutesOf(a) == RoutesOf(b)
  {
    assert TargetAt(a, NextPointer) == TargetAt(b, NextPointer);
    assert TargetAt(a, DefaultPointer) == TargetAt(b, DefaultPointer);
    match (RoutesOf(a), RoutesOf(b))
    case (Some(Routes(_, p)), Some(Routes(_, q))) =>
      forall i: nat ensures BranchAt(p, i) == BranchAt(q, i) {
        assert TargetAt(a, NextBranchPointer(i)) == TargetAt(b, NextBranchPointer(i));
      }
      BranchesFromParts(p, q);
    case _ =>
  }

  lemma ErrorFromParts(a: Node, b: Node)
    requires SameTargets(a, b) && BlankError(ErrorOf(a)) == BlankError(ErrorOf(b))
    ensures ErrorOf(a) == ErrorOf(b)
  {
    assert TargetAt(a, ErrorPointer) == TargetAt(b, ErrorPointer);
    assert TargetAt(a, CompensatePointer) == TargetAt(b, CompensatePointer);
  }

  lemma TimerFromParts(a: Node, b: Node)
    requires SameTargets(a, b) && BlankTimer(a.Timeout()) == BlankTimer(b.Timeout())
    ensures a.Timeout() == b.Timeout()
  {
    assert TargetAt(a, TimeoutPointer) == TargetAt(b, TimeoutPointer);
  }

  lemma GatewayFromParts(a: Node, b: Node)
    requires SameTargets(a, b) && Shape(a) == Shape(b) && a.Gateway? && b.Gateway?
    ensures a == b
  {
    assert TargetAt(a, NextPointer) == TargetAt(b, NextPointer);
    forall i: nat ensures BranchAt(a.branches, i) == BranchAt(b.branches, i) {
      assert TargetAt(a, BranchPointer(i)) == TargetAt(b, BranchPointer(i));
    }
    BranchesFromParts(a.branches, b.branches);
  }

  lemma NodeFromParts(a: Node, b: Node)
    requires SameTargets(a, b) && Shape(a) == Shape(b)
    ensures a == b
  {
    if a.Start? {
      assert TargetAt(a, NextPointer) == TargetAt(b, NextPointer);
    } else if a.Gateway? {
      GatewayFromParts(a, b);
    } else {
      NextFromParts(a, b);
      ErrorFromParts(a, b);
      TimerFromParts(a, b);
    }
  }

  lemma WritesOneTarget(node: Node, p: Pointer, id: Id, q: Pointer)
    requires TargetAt(node, p).Some?
    ensures TargetAt(WithTarget(node, p, id), q) == if q == p then Some(id) else TargetAt(node, q)
  {
  }

  lemma WritesKeepShape(node: Node, p: Pointer, id: Id)
    ensures Shape(WithTarget(node, p, id)) == Shape(node)
  {
    if p.BranchPointer? && node.Gateway? {
      assert BlankBranches(RetargetedBranch(node.branches, p.index, id)) == BlankBranches(node.branches);
    }
    if p.NextBranchPointer? && RoutesOf(node).Some? && RoutesOf(node).value.Routes? {
      var branches := RoutesOf(node).value.branches;
      assert BlankBranches(RetargetedBranch(branches, p.index, id)) == BlankBranches(branches);
    }
  }

  /** The connections of a node address exactly the IDs it stores. */
  lemma ConnectionsAreTargets(node: Node, c: Connection)
    requires c in NodeConnections(node)
    ensures c.source == node.id && TargetAt(node, c.pointer) == Some(c.target)
  {
  }

  lemma TargetsAreConnections(node: Node, p: Pointer)
    requires TargetAt(node, p).Some?
    ensures exists c :: c in NodeConnections(node) && c.pointer == p && c.target == TargetAt(node, p).value
  {
    if p.BranchPointer? || p.NextBranchPointer? {
      assert BranchEdges(node)[p.index] in BranchEdges(node);
    } else {
      var caption := if p.NextPointer? then (if node.Gateway? then OTHERWISE else "")
                     else if p.DefaultPointer? then OTHERWISE
                     else if p.ErrorPointer? then ERROR
                     else if p.CompensatePointer? then COMPENSATE else TIMEOUT;
      assert Edge(node, p, caption)[0] in Edge(node, p, caption);
    }
  }
}
