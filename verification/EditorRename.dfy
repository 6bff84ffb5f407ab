/** Saving a node's settings, renames included: what happens to the routes and to validity. */
module EditorRename {
  import opened Wrappers
  import opened Contexts
  import opened ProcessDefs
  import opened Validation
  import opened EditorGraph

  datatype EditError = BlockMissing | BlockChanged | Unparsable | OtherKind | IdTaken(id: Id)

  predicate SameKind(a: Node, b: Node) {
    && (a.Start? <==> b.Start?) && (a.End? <==> b.End?) && (a.ServiceTask? <==> b.ServiceTask?)
    && (a.UserTask? <==> b.UserTask?) && (a.Wait? <==> b.Wait?)
  }

  /** The position of the first node with the given ID. */
  function IndexOf(nodes: seq<Node>, id: Id): (k: nat)
    ensures k <= |nodes| && (k < |nodes| ==> nodes[k].id == id)
    ensures forall i :: 0 <= i < k ==> nodes[i].id != id
  {
    if nodes == [] || nodes[0].id == id then 0 else 1 + IndexOf(nodes[1..], id)
  }

  lemma {:induction false} IndexOfDistinct(nodes: seq<Node>, m: nat)
    requires m < |nodes| && forall i :: 0 <= i < m ==> nodes[i].id != nodes[m].id
    ensures IndexOf(nodes, nodes[m].id) == m
  {
    if m > 0 {
      IndexOfDistinct(nodes[1..], m - 1);
    }
  }

  // ---- Connections of a whole definition ----

  lemma {:induction false} ConnectionHasNode(nodes: seq<Node>, c: Connection)
    requires c in Connections(nodes)
    ensures exists m :: 0 <= m < |nodes| && c.source == nodes[m].id && TargetAt(nodes[m], c.pointer) == Some(c.target)
  {
    if c in NodeConnections(nodes[0]) {
      ConnectionsAreTargets(nodes[0], c);
    } else {
      ConnectionHasNode(nodes[1..], c);
      var m :| 0 <= m < |nodes[1..]| && c.source == nodes[1..][m].id
               && TargetAt(nodes[1..][m], c.pointer) == Some(c.target);
      assert nodes[m + 1] == nodes[1..][m];
    }
  }

  lemma {:induction false} NodeHasConnection(nodes: seq<Node>, m: nat, p: Pointer)
    requires m < |nodes| && TargetAt(nodes[m], p).Some?
    ensures Listed(Connections(nodes), nodes[m].id, p)
  {
    if m == 0 {
      TargetsAreConnections(nodes[0], p);
      var c :| c in NodeConnections(nodes[0]) && c.pointer == p;
      ConnectionsAreTargets(nodes[0], c);
      assert c in Connections(nodes);
    } else {
      NodeHasConnection(nodes[1..], m - 1, p);
      var c :| c in Connections(nodes[1..]) && c.source == nodes[m].id && c.pointer == p;
      assert c in Connections(nodes);
    }
  }

  ghost predicate Listed(edges: seq<Connection>, source: Id, p: Pointer) {
    exists c :: c in edges && c.source == source && c.pointer == p
  }

  // ---- The retargeting loop ----

  /** `now` is `nodes` with the routes to `was` that are in `edges` pointing to `becomes`. */
  ghost predicate Retargeted(nodes: seq<Node>, now: seq<Node>, edges: seq<Connection>, was: Id, becomes: Id) {
    && |now| == |nodes|
    && forall m :: 0 <= m < |nodes| ==> NodeRetargeted(nodes[m], now[m], edges, was, becomes)
  }

  ghost predicate NodeRetargeted(node: Node, now: Node, edges: seq<Connection>, was: Id, becomes: Id) {
    && Shape(now) == Shape(node)
    && forall p :: TargetAt(now, p) == if TargetAt(node, p) == Some(was) && Listed(edges, node.id, p)
                                       then Some(becomes) else TargetAt(node, p)
  }

  lemma ShapeKeepsId(a: Node, b: Node)
    requires Shape(a) == Shape(b)
    ensures a.id == b.id
  {
  }

  lemma RetargetedIds(nodes: seq<Node>, now: seq<Node>, edges: seq<Connection>, was: Id, becomes: Id)
    requires Retargeted(nodes, now, edges, was, becomes)
    ensures NodeIdList(now) == NodeIdList(nodes)
  {
    forall m | 0 <= m < |nodes| ensures now[m].id == nodes[m].id {
      assert NodeRetargeted(nodes[m], now[m], edges, was, becomes);
      ShapeKeepsId(now[m], nodes[m]);
    }
  }

  lemma ListedGrows(edges: seq<Connection>, c: Connection, source: Id, p: Pointer)
    ensures Listed(edges + [c], source, p) <==> Listed(edges, source, p) || (c.source == source && c.pointer == p)
  {
  }

  /** One turn of the loop: the edge's own node takes the new target, or nothing needs to change. */
  lemma RetargetOne(node: Node, now: Node, edges: seq<Connection>, c: Connection, was: Id, becomes: Id, own: bool)
    requires NodeRetargeted(node, now, edges, was, becomes) && was != becomes
    requires own <==> c.source == node.id && c.target == was
    requires c.source == node.id ==> TargetAt(node, c.pointer) == Some(c.target)
    ensures NodeRetargeted(node, if own then WithTarget(now, c.pointer, becomes) else now, edges + [c], was, becomes)
  {
    var after := if own then WithTarget(now, c.pointer, becomes) else now;
    if own {
      WritesKeepShape(now, c.pointer, becomes);
    }
    forall p
      ensures TargetAt(after, p) == if TargetAt(node, p) == Some(was) && Listed(edges + [c], node.id, p)
                                    then Some(becomes) else TargetAt(node, p)
    {
      ListedGrows(edges, c, node.id, p);
      if own {
        WritesOneTarget(now, c.pointer, becomes, p);
      }
    }
  }

  lemma StartsUntouched(nodes: seq<Node>, was: Id, becomes: Id)
    ensures Retargeted(nodes, nodes, [], was, becomes)
  {
    forall m | 0 <= m < |nodes| ensures NodeRetargeted(nodes[m], nodes[m], [], was, becomes) {
      forall p ensures !Listed([], nodes[m].id, p) {
      }
    }
  }

  lemma OthersKept(nodes: seq<Node>, now: seq<Node>, m: nat, own: bool, edges: seq<Connection>, c: Connection,
                   was: Id, becomes: Id)
    requires Distinct(NodeIdList(nodes)) && Retargeted(nodes, now, edges, was, becomes) && was != becomes
    requires m < |nodes| && c.source == nodes[m].id && TargetAt(nodes[m], c.pointer) == Some(c.target)
    requires own <==> c.target == was
    ensures Retargeted(nodes, if own then now[m := WithTarget(now[m], c.pointer, becomes)] else now, edges + [c], was, becomes)
  {
    var after := if own then now[m := WithTarget(now[m], c.pointer, becomes)] else now;
    forall i | 0 <= i < |nodes| ensures NodeRetargeted(nodes[i], after[i], edges + [c], was, becomes) {
      assert i != m ==> NodeIdList(nodes)[i] != NodeIdList(nodes)[m];
      RetargetOne(nodes[i], now[i], edges, c, was, becomes, i == m && own);
    }
  }

  lemma RetargetStep(nodes: seq<Node>, now: seq<Node>, edges: seq<Connection>, c: Connection, was: Id, becomes: Id)
    requires Distinct(NodeIdList(nodes)) && Retargeted(nodes, now, edges, was, becomes) && was != becomes
    requires c in Connections(nodes)
    ensures var k := IndexOf(now, c.source);
      k < |now| && Retargeted(nodes, if c.target == was then now[k := WithTarget(now[k], c.pointer, becomes)] else now,
                              edges + [c], was, becomes)
  {
    ConnectionHasNode(nodes, c);
    var m :| 0 <= m < |nodes| && c.source == nodes[m].id && TargetAt(nodes[m], c.pointer) == Some(c.target);
    RetargetedIds(nodes, now, edges, was, becomes);
    var ids := NodeIdList(now);
    forall i | 0 <= i < m ensures now[i].id != now[m].id {
      assert ids[i] != ids[m];
    }
    assert ids[m] == NodeIdList(nodes)[m];
    IndexOfDistinct(now, m);
    OthersKept(nodes, now, m, c.target == was, edges, c, was, becomes);
  }

  lemma RenamedShape(node: Node, was: Id, becomes: Id)
    requires node.id != was
    ensures Shape(Renamed(node, was, becomes)) == Shape(node)
  {
    BlankSub(RoutesOf(node), was, becomes);
    if node.Gateway? {
      assert BlankBranches(SubBranches(node.branches, was, becomes)) == BlankBranches(node.branches);
    }
  }

  lemma BlankSub(next: Option<Next>, was: Id, becomes: Id)
    ensures BlankNext(SubNext(next, was, becomes)) == BlankNext(next)
  {
    if next.Some? && next.value.Routes? {
      assert BlankBranches(SubBranches(next.value.branches, was, becomes)) == BlankBranches(next.value.branches);
    }
  }

  lemma TargetsRenamed(node: Node, now: Node, edges: seq<Connection>, was: Id, becomes: Id)
    requires NodeRetargeted(node, now, edges, was, becomes)
    requires ListsAll(edges, node)
    ensures SameTargets(now, Renamed(node, was, becomes))
  {
    forall p ensures TargetAt(now, p) == TargetAt(Renamed(node, was, becomes), p) {
      RenamedTarget(node, p, was, becomes);
    }
  }

  lemma NodeRenamed(node: Node, now: Node, edges: seq<Connection>, was: Id, becomes: Id)
    requires NodeRetargeted(node, now, edges, was, becomes) && node.id != was
    requires ListsAll(edges, node)
    ensures now == Renamed(node, was, becomes)
  {
    RenamedShape(node, was, becomes);
    TargetsRenamed(node, now, edges, was, becomes);
    NodeFromParts(now, Renamed(node, was, becomes));
  }

  ghost predicate ListsAll(edges: seq<Connection>, node: Node) {
    forall p :: TargetAt(node, p).Some? ==> Listed(edges, node.id, p)
  }

  lemma ConnectionsListAll(nodes: seq<Node>, m: nat, edges: seq<Connection>)
    requires m < |nodes| && edges == Connections(nodes)
    ensures ListsAll(edges, nodes[m])
  {
    forall p | TargetAt(nodes[m], p).Some? ensures Listed(edges, nodes[m].id, p) {
      NodeHasConnection(nodes, m, p);
    }
  }

  /** When every connection has been visited, every route to the old ID has been renamed. */
  lemma AllRetargeted(nodes: seq<Node>, now: seq<Node>, edges: seq<Connection>, was: Id, becomes: Id)
    requires Retargeted(nodes, now, edges, was, becomes)
    requires forall m :: 0 <= m < |nodes| ==> nodes[m].id != was
    requires forall m :: 0 <= m < |nodes| ==> ListsAll(edges, nodes[m])
    ensures now == RenamedAll(nodes, was, becomes)
  {
    forall m | 0 <= m < |nodes| ensures now[m] == Renamed(nodes[m], was, becomes) {
      NodeRenamed(nodes[m], now[m], edges, was, becomes);
    }
  }

  lemma Prefix<T>(s: seq<T>, n: nat)
    requires n < |s|
    ensures s[..n + 1] == s[..n] + [s[n]]
  {
  }

  lemma VisitNext(nodes: seq<Node>, now: seq<Node>, edges: seq<Connection>, e: nat, was: Id, becomes: Id)
    requires Distinct(NodeIdList(nodes)) && edges == Connections(nodes) && e < |edges| && was != becomes
    requires Retargeted(nodes, now, edges[..e], was, becomes)
    ensures var c := edges[e];
      var k := IndexOf(now, c.source);
      k < |now| && Retargeted(nodes, if c.target == was then now[k := WithTarget(now[k], c.pointer, becomes)] else now,
                              edges[..e + 1], was, becomes)
  {
    Prefix(edges, e);
    assert edges[e] in edges;
    RetargetStep(nodes, now, edges[..e], edges[e], was, becomes);
  }

  lemma AllListed(nodes: seq<Node>, edges: seq<Connection>)
    requires edges == Connections(nodes)
    ensures forall m :: 0 <= m < |nodes| ==> ListsAll(edges, nodes[m])
  {
    forall m | 0 <= m < |nodes| ensures ListsAll(edges, nodes[m]) {
      ConnectionsListAll(nodes, m, edges);
    }
  }

  method Retarget(nodes: seq<Node>, was: Id, becomes: Id) returns (now: seq<Node>)
    requires Distinct(NodeIdList(nodes)) && was != becomes && forall m :: 0 <= m < |nodes| ==> nodes[m].id != was
    ensures now == RenamedAll(nodes, was, becomes)
  {
    now := nodes;
    var edges := Connections(nodes);
    StartsUntouched(nodes, was, becomes);
    for e := 0 to |edges|
      invariant Retargeted(nodes, now, edges[..e], was, becomes)
    {
      var edge := edges[e];
      VisitNext(nodes, now, edges, e, was, becomes);
      if edge.target == was {
        var k := IndexOf(now, edge.source);
        now := now[k := WithTarget(now[k], edge.pointer, becomes)];
      }
    }
    assert edges[..|edges|] == edges;
    AllListed(nodes, edges);
    AllRetargeted(nodes, now, edges, was, becomes);
  }

  // ---- Saving settings ----

  /** The nodes after saving `draft` over node `k`: its routes as drafted, every route to the old ID following it. */
  function Saved(nodes: seq<Node>, k: nat, draft: Node): seq<Node>
    requires k < |nodes|
  {
    RenamedAll(nodes[k := draft], nodes[k].id, draft.id)
  }

  lemma RenameToSame(node: Node, id: Id)
    ensures Renamed(node, id, id) == node
  {
    forall branches: seq<Branch> ensures SubBranches(branches, id, id) == branches {
    }
  }

  lemma SaveWithoutRename(nodes: seq<Node>, k: nat, draft: Node)
    requires k < |nodes| && draft.id == nodes[k].id
    ensures Saved(nodes, k, draft) == nodes[k := draft]
  {
    var candidate := nodes[k := draft];
    forall m | 0 <= m < |nodes| ensures Renamed(candidate[m], draft.id, draft.id) == candidate[m] {
      RenameToSame(candidate[m], draft.id);
    }
  }

  function WithId(node: Node, id: Id): Node {
    node.(id := id)
  }

  lemma RenamedIdOnly(node: Node, becomes: Id)
    ensures Renamed(WithId(node, becomes), node.id, becomes) == Renamed(node, node.id, becomes)
  {
  }

  /** A draft that changes only the ID renames it everywhere: names, self loops and every kind of route. */
  lemma PureRename(nodes: seq<Node>, k: nat, becomes: Id)
    requires k < |nodes|
    ensures Saved(nodes, k, WithId(nodes[k], becomes)) == RenamedAll(nodes, nodes[k].id, becomes)
    ensures Connections(Saved(nodes, k, WithId(nodes[k], becomes)))
      == RenamedConnections(Connections(nodes), nodes[k].id, becomes)
  {
    RenameIsIsomorphism(nodes, nodes[k].id, becomes);
    SavedIdOnly(nodes, k, becomes);
  }

  lemma SavedIdOnly(nodes: seq<Node>, k: nat, becomes: Id)
    requires k < |nodes|
    ensures Saved(nodes, k, WithId(nodes[k], becomes)) == RenamedAll(nodes, nodes[k].id, becomes)
  {
    var was, candidate := nodes[k].id, nodes[k := WithId(nodes[k], becomes)];
    RenamedIdOnly(nodes[k], becomes);
    forall m | 0 <= m < |nodes| ensures Renamed(candidate[m], was, becomes) == Renamed(nodes[m], was, becomes) {
      assert m != k ==> candidate[m] == nodes[m];
    }
  }

  lemma SavedIds(nodes: seq<Node>, k: nat, draft: Node)
    requires k < |nodes| && Distinct(NodeIdList(nodes))
    requires draft.id == nodes[k].id || forall m :: 0 <= m < |nodes| ==> nodes[m].id != draft.id
    ensures Distinct(NodeIdList(nodes[k := draft]))
    ensures NodeIdList(Saved(nodes, k, draft)) == NodeIdList(nodes[k := draft])
  {
    var candidate, ids := nodes[k := draft], NodeIdList(nodes);
    forall i, j | 0 <= i < j < |nodes| ensures candidate[i].id != candidate[j].id {
      assert ids[i] != ids[j];
    }
    forall i | 0 <= i < |nodes| ensures Renamed(candidate[i], nodes[k].id, draft.id).id == candidate[i].id {
      assert i < k ==> ids[i] != ids[k];
      assert k < i ==> ids[k] != ids[i];
    }
  }

  // ---- Renaming and validity ----

  function RenamedDefinition(def: ProcessDefinition, was: Id, becomes: Id): ProcessDefinition {
    def.(nodes := RenamedAll(def.nodes, was, becomes))
  }

  lemma BranchIsReference(branches: seq<Branch>, i: nat)
    requires i < |branches|
    ensures branches[i].next in BranchTargets(branches)
  {
    assert BranchTargets(branches)[i] == branches[i].next;
  }

  /** The editor's routes and the references validation checks are the same IDs. */
  lemma TargetIsReference(node: Node, p: Pointer)
    requires TargetAt(node, p).Some?
    ensures TargetAt(node, p).value in References(node)
  {
    if p.BranchPointer? || p.NextBranchPointer? {
      BranchIsReference(NodeBranches(node), p.index);
    }
  }

  lemma ReferenceIsTarget(node: Node, t: Id) returns (p: Pointer)
    requires t in References(node)
    ensures TargetAt(node, p) == Some(t)
  {
    var targets := BranchTargets(NodeBranches(node));
    if i :| 0 <= i < |targets| && targets[i] == t {
      return BranchPointerOf(node, i);
    }
    p := match node
      case Start(_, _, _) => NextPointer
      case Gateway(_, _, _, _) => NextPointer
      case _ =>
        if TargetAt(node, NextPointer) == Some(t) then NextPointer
        else if TargetAt(node, DefaultPointer) == Some(t) then DefaultPointer
        else if TargetAt(node, TimeoutPointer) == Some(t) then TimeoutPointer
        else if TargetAt(node, ErrorPointer) == Some(t) then ErrorPointer else CompensatePointer;
  }

  lemma RenamedBranches(node: Node, was: Id, becomes: Id)
    ensures NodeBranches(Renamed(node, was, becomes)) == SubBranches(NodeBranches(node), was, becomes)
  {
  }

  lemma RenamedReferences(node: Node, t: Id, was: Id, becomes: Id)
    requires t in References(Renamed(node, was, becomes))
    ensures exists s :: s in References(node) && t == Sub(s, was, becomes)
  {
    var p := ReferenceIsTarget(Renamed(node, was, becomes), t);
    RenamedTarget(node, p, was, becomes);
    TargetIsReference(node, p);
  }

  lemma RenamedFound(def: ProcessDefinition, id: Id, was: Id, becomes: Id)
    requires FindNode(def, id).Some?
    ensures FindNode(RenamedDefinition(def, was, becomes), Sub(id, was, becomes)).Some?
  {
    var n := FindNode(def, id).value;
    var m :| 0 <= m < |def.nodes| && def.nodes[m] == n;
    var renamed := RenamedDefinition(def, was, becomes);
    assert renamed.nodes[m] in renamed.nodes && renamed.nodes[m].id == Sub(id, was, becomes);
  }

  lemma RenamedSound(def: ProcessDefinition, node: Node, was: Id, becomes: Id, compiles: string -> bool)
    requires NodeSound(def, node, compiles)
    ensures NodeSound(RenamedDefinition(def, was, becomes), Renamed(node, was, becomes), compiles)
  {
    var after, renamed := RenamedDefinition(def, was, becomes), Renamed(node, was, becomes);
    RenamedBranches(node, was, becomes);
    forall b | b in NodeBranches(renamed) ensures compiles(b.when) {
      var i :| 0 <= i < |NodeBranches(renamed)| && NodeBranches(renamed)[i] == b;
      assert NodeBranches(node)[i] in NodeBranches(node);
    }
    forall t | t in References(renamed) ensures FindNode(after, t).Some? {
      RenamedReferences(node, t, was, becomes);
      var s :| s in References(node) && t == Sub(s, was, becomes);
      RenamedFound(def, s, was, becomes);
    }
  }

  lemma RenamedIdsDistinct(nodes: seq<Node>, was: Id, becomes: Id)
    requires Distinct(NodeIdList(nodes)) && forall n :: n in nodes ==> n.id != becomes
    ensures Distinct(NodeIdList(RenamedAll(nodes, was, becomes)))
  {
    var ids := NodeIdList(nodes);
    forall i, j | 0 <= i < j < |nodes|
      ensures Sub(nodes[i].id, was, becomes) != Sub(nodes[j].id, was, becomes)
    {
      assert ids[i] != ids[j] && nodes[i] in nodes && nodes[j] in nodes;
    }
  }

  lemma RenamedEnds(nodes: seq<Node>, was: Id, becomes: Id)
    ensures StartMarks(RenamedAll(nodes, was, becomes)) == StartMarks(nodes)
    ensures (exists n :: n in nodes && n.End?) ==> exists n :: n in RenamedAll(nodes, was, becomes) && n.End?
  {
    if end :| end in nodes && end.End? {
      var e :| 0 <= e < |nodes| && nodes[e] == end;
      assert RenamedAll(nodes, was, becomes)[e] in RenamedAll(nodes, was, becomes);
    }
  }

  lemma RenamedAllSound(def: ProcessDefinition, was: Id, becomes: Id, compiles: string -> bool)
    requires forall n :: n in def.nodes ==> NodeSound(def, n, compiles)
    ensures forall n :: n in RenamedAll(def.nodes, was, becomes) ==>
      NodeSound(RenamedDefinition(def, was, becomes), n, compiles)
  {
    var nodes := RenamedAll(def.nodes, was, becomes);
    forall n | n in nodes ensures NodeSound(RenamedDefinition(def, was, becomes), n, compiles) {
      var i :| 0 <= i < |nodes| && nodes[i] == n;
      assert def.nodes[i] in def.nodes;
      RenamedSound(def, def.nodes[i], was, becomes, compiles);
    }
  }

  lemma EscalationsSound(def: ProcessDefinition, after: ProcessDefinition)
    requires after.escalations == def.escalations && after.signals == def.signals
    requires forall e :: e in def.escalations ==> EscalationSound(def, e)
    ensures forall e :: e in after.escalations ==> EscalationSound(after, e)
  {
    forall e | e in after.escalations ensures EscalationSound(after, e) {
      assert EscalationSound(def, e);
    }
  }

  /** A definition that validated still validates after a node is renamed to a free ID. */
  lemma RenameKeepsValid(def: ProcessDefinition, was: Id, becomes: Id, compiles: string -> bool)
    requires Valid(def, compiles) && FindNode(def, becomes).None?
    ensures Valid(RenamedDefinition(def, was, becomes), compiles)
  {
    RenamedIdsDistinct(def.nodes, was, becomes);
    RenamedEnds(def.nodes, was, becomes);
    RenamedAllSound(def, was, becomes, compiles);
    EscalationsSound(def, RenamedDefinition(def, was, becomes));
  }
}
