/** The document under edit: the nodes of a definition and their canvas positions. */
module EditorDocuments {
  import opened Wrappers
  import opened Contexts
  import opened ProcessDefs
  import opened Validation
  import opened EditorGraph
  import opened EditorRename
  import opened EditorRanks
  import opened EditorLayout

  /** A position follows its node to the new ID. */
  function MovedPosition(positions: map<Id, Position>, was: Id, becomes: Id): map<Id, Position> {
    if was == becomes || was !in positions then positions else (positions - {was})[becomes := positions[was]]
  }

  lemma SavedNames(nodes: seq<Node>, k: nat, draft: Node)
    requires k < |nodes| && Distinct(NodeIdList(nodes))
    requires draft.id == nodes[k].id || forall m :: 0 <= m < |nodes| ==> nodes[m].id != draft.id
    ensures var saved := Saved(nodes, k, draft);
      && saved[k].id == draft.id
      && forall m :: 0 <= m < |nodes| && m != k ==> saved[m].id == nodes[m].id != nodes[k].id
  {
    var saved, candidate, ids := Saved(nodes, k, draft), nodes[k := draft], NodeIdList(nodes);
    SavedIds(nodes, k, draft);
    forall m | 0 <= m < |nodes| ensures saved[m].id == candidate[m].id {
      assert NodeIdList(saved)[m] == NodeIdList(candidate)[m];
    }
    forall m | 0 <= m < |nodes| && m != k ensures nodes[m].id != nodes[k].id {
      assert ids[m] != ids[k];
    }
  }

  lemma MovedKeys(nodes: seq<Node>, k: nat, draft: Node, positions: map<Id, Position>)
    requires k < |nodes| && Distinct(NodeIdList(nodes)) && positions.Keys == Declared(nodes)
    requires draft.id == nodes[k].id || forall m :: 0 <= m < |nodes| ==> nodes[m].id != draft.id
    ensures MovedPosition(positions, nodes[k].id, draft.id).Keys == Declared(Saved(nodes, k, draft))
  {
    var saved := Saved(nodes, k, draft);
    SavedNames(nodes, k, draft);
    assert nodes[k] in nodes;
    forall id ensures id in Declared(saved) <==> id in MovedPosition(positions, nodes[k].id, draft.id) {
      if id in Declared(saved) {
        var m :| 0 <= m < |saved| && saved[m].id == id;
        assert nodes[m] in nodes;
      }
      if id in MovedPosition(positions, nodes[k].id, draft.id) {
        if id == draft.id {
          assert saved[k] in saved;
        } else {
          assert id in Declared(nodes);
          var m :| 0 <= m < |nodes| && nodes[m].id == id;
          assert saved[m] in saved;
        }
      }
    }
  }

  class EditorDocument {
    var nodes: seq<Node>
    var positions: map<Id, Position>

    ghost predicate Valid()
      reads this
    {
      Distinct(NodeIdList(nodes)) && positions.Keys == Declared(nodes)
    }

    constructor (nodes: seq<Node>)
      requires Distinct(NodeIdList(nodes))
      ensures Valid() && this.nodes == nodes
    {
      this.nodes := nodes;
      positions := map[];
      new;
      AutoLayout();
    }

    /** A new document; definitions with a repeated node ID are refused. */
    static method Open(nodes: seq<Node>) returns (document: Option<EditorDocument>)
      ensures document.Some? <==> Distinct(NodeIdList(nodes))
      ensures document.Some? ==> fresh(document.value) && document.value.Valid() && document.value.nodes == nodes
    {
      var ids, errors := CollectUniqueIds("node", NodeIdList(nodes));
      if errors != [] {
        return None;
      }
      var created := new EditorDocument(nodes);
      document := Some(created);
    }

    /** Arranges every node by its rank. */
    method AutoLayout()
      requires Distinct(NodeIdList(nodes))
      modifies this`positions
      ensures Valid()
      ensures LayoutOf(nodes, Connections(nodes), positions)
    {
      positions := Layout(nodes, Connections(nodes));
    }

    /** Saves a drafted node over the one it was drafted from; `None` is a draft that does not parse. */
    method SaveNodeSettings(id: Id, baseline: Node, draft: Option<Node>) returns (r: Result<Id, EditError>)
      requires Valid()
      modifies this
      ensures Valid()
      ensures var k := IndexOf(old(nodes), id);
        if k < |old(nodes)| && old(nodes)[k] == baseline && draft.Some? && SameKind(baseline, draft.value)
           && (draft.value.id == id || draft.value.id !in Declared(old(nodes)))
        then r == Ok(draft.value.id) && nodes == Saved(old(nodes), k, draft.value)
             && positions == MovedPosition(old(positions), id, draft.value.id)
        else r.Err? && nodes == old(nodes) && positions == old(positions)
    {
      var k := IndexOf(nodes, id);
      if k == |nodes| {
        return Err(BlockMissing);
      }
      if nodes[k] != baseline {
        return Err(BlockChanged);
      }
      if draft.None? {
        return Err(Unparsable);
      }
      var replacement := draft.value;
      if !SameKind(nodes[k], replacement) {
        return Err(OtherKind);
      }
      var taken := IndexOf(nodes, replacement.id) < |nodes|;
      assert taken <==> replacement.id in Declared(nodes);
      if replacement.id != id && taken {
        return Err(IdTaken(replacement.id));
      }
      SavedIds(nodes, k, replacement);
      MovedKeys(nodes, k, replacement, positions);
      var candidate := nodes[k := replacement];
      if replacement.id != id {
        OldIdGone(nodes, k, replacement);
        candidate := Retarget(candidate, id, replacement.id);
        if id in positions {
          positions := (positions - {id})[replacement.id := positions[id]];
        }
      } else {
        SaveWithoutRename(nodes, k, replacement);
      }
      nodes := candidate;
      r := Ok(replacement.id);
    }
  }

  lemma OldIdGone(nodes: seq<Node>, k: nat, draft: Node)
    requires k < |nodes| && Distinct(NodeIdList(nodes)) && draft.id != nodes[k].id
    ensures var candidate := nodes[k := draft]; forall m :: 0 <= m < |nodes| ==> candidate[m].id != nodes[k].id
  {
    var ids := NodeIdList(nodes);
    forall m | 0 <= m < |nodes| && m != k ensures nodes[m].id != nodes[k].id {
      assert ids[m] != ids[k];
    }
  }
}
