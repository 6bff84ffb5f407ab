/** Structural validation: the checks run before a definition is registered. */
module Validation {
  import opened Wrappers
  import opened Contexts
  import opened ProcessDefs

  datatype DefinitionError =
    | DuplicateId(kind: string, id: Id)
    | InitialStages(found: nat)
    | DatesReversed
    | StartNodes(found: nat)
    | NoEndNode
    | MissingNode(source: Id, target: Id)
    | UndeclaredStage(source: Id, stage: Id)
    | InvalidTimeout(source: Id)
    | NoSignals(source: Id)
    | UndeclaredSignal(source: Id, signal: Id)
    | InvalidCondition(source: Id, index: nat)
    | ZeroRetries(source: Id)
    | InvalidBackoff(source: Id)
    | UndeclaredForm(source: Id, form: Id)
    | UndeclaredTopic(source: Id)

  const TICKET_HANDLER := "create_support_ticket"

  // ---- What a valid definition is ----

  predicate Distinct(ids: seq<Id>) {
    forall i, j :: 0 <= i < j < |ids| ==> ids[i] != ids[j]
  }

  function NodeIdList(nodes: seq<Node>): (ids: seq<Id>)
    ensures |ids| == |nodes| && forall i :: 0 <= i < |ids| ==> ids[i] == nodes[i].id
  {
    seq(|nodes|, i requires 0 <= i < |nodes| => nodes[i].id)
  }

  function FormIdList(forms: seq<Form>): seq<Id> {
    seq(|forms|, i requires 0 <= i < |forms| => forms[i].id)
  }

  function StageIdList(stages: seq<Stage>): seq<Id> {
    seq(|stages|, i requires 0 <= i < |stages| => stages[i].id)
  }

  function TopicList(escalations: seq<Escalation>): seq<Id> {
    seq(|escalations|, i requires 0 <= i < |escalations| => escalations[i].topic)
  }

  function ActionIdList(actions: seq<Action>): seq<Id> {
    seq(|actions|, i requires 0 <= i < |actions| => actions[i].id)
  }

  /** Exactly one position satisfies the marker. */
  ghost predicate ExactlyOne(marks: seq<bool>) {
    exists i :: 0 <= i < |marks| && marks[i] && forall j :: 0 <= j < |marks| && marks[j] ==> j == i
  }

  function InitialMarks(stages: seq<Stage>): seq<bool> {
    seq(|stages|, i requires 0 <= i < |stages| => stages[i].initial)
  }

  function StartMarks(nodes: seq<Node>): seq<bool> {
    seq(|nodes|, i requires 0 <= i < |nodes| => nodes[i].Start?)
  }

  function Awaited(node: Node): Option<WaitFor> {
    match node
    case UserTask(_, _, awaits, _, _, _, _) => awaits
    case Wait(_, waitFor, _, _, _) => Some(waitFor)
    case _ => None
  }

  /** Every node a definition refers to from this node, executed or reserved. */
  function References(node: Node): seq<Id> {
    NodeTargets(node)
    + (if node.ServiceTask? && node.onError.Some? then Optional(node.onError.value.compensate)
       else if node.UserTask? && node.onError.Some? then Optional(node.onError.value.next) + Optional(node.onError.value.compensate)
       else [])
  }

  predicate TopicDeclared(def: ProcessDefinition, node: Node)
    requires node.ServiceTask?
  {
    && node.args.Some? && "topic" in node.args.value && node.args.value["topic"].Ident?
    && node.args.value["topic"].id in TopicList(def.escalations)
  }

  predicate ServiceSound(def: ProcessDefinition, node: Node) {
    node.ServiceTask? ==>
      && (node.retries.Some? ==> node.retries.value.max > 0 && node.retries.value.backoff > 0)
      && (node.handler == TICKET_HANDLER ==> TopicDeclared(def, node))
  }

  predicate WaitSound(def: ProcessDefinition, node: Node) {
    && (node.Timeout().Some? ==> node.Timeout().value.Due(0).Some?)
    && (Awaited(node).Some? ==>
          && Awaited(node).value.Signals() != []
          && forall s :: s in Awaited(node).value.Signals() ==> s in def.signals)
    && (node.UserTask? ==> FormDeclared(def, node.form))
  }

  predicate NodeSound(def: ProcessDefinition, node: Node, compiles: string -> bool) {
    && (node.setStage.Some? ==> StageDeclared(def, node.setStage.value.stage))
    && (forall b :: b in NodeBranches(node) ==> compiles(b.when))
    && (forall t :: t in References(node) ==> FindNode(def, t).Some?)
    && ServiceSound(def, node)
    && WaitSound(def, node)
  }

  predicate EscalationSound(def: ProcessDefinition, e: Escalation) {
    && Distinct(ActionIdList(e.actions))
    && forall a :: a in e.actions && a.emits.Some? ==> a.emits.value in def.signals
  }

  ghost predicate Valid(def: ProcessDefinition, compiles: string -> bool) {
    && Distinct(NodeIdList(def.nodes)) && Distinct(def.signals) && Distinct(FormIdList(def.forms))
    && Distinct(StageIdList(def.stages)) && Distinct(TopicList(def.escalations))
    && ExactlyOne(InitialMarks(def.stages))
    && (def.from.Some? && def.until.Some? ==> def.from.value < def.until.value)
    && ExactlyOne(StartMarks(def.nodes))
    && (exists n :: n in def.nodes && n.End?)
    && (forall n :: n in def.nodes ==> NodeSound(def, n, compiles))
    && (forall e :: e in def.escalations ==> EscalationSound(def, e))
  }

  // ---- The checks ----

  method CollectUniqueIds(kind: string, values: seq<Id>) returns (ids: set<Id>, errors: seq<DefinitionError>)
    ensures ids == set v | v in values
    ensures errors == [] <==> Distinct(values)
  {
    ids, errors := {}, [];
    for i := 0 to |values|
      invariant ids == set v | v in values[..i]
      invariant errors == [] <==> Distinct(values[..i])
    {
      if values[i] in ids {
        var k :| 0 <= k < i && values[k] == values[i];
        assert values[..i + 1][k] == values[..i + 1][i];
        errors := errors + [DuplicateId(kind, values[i])];
      }
      ids := ids + {values[i]};
      assert values[..i + 1] == values[..i] + [values[i]];
    }
    assert values[..|values|] == values;
  }

  function Count(marks: seq<bool>): nat {
    if marks == [] then 0 else Count(marks[..|marks| - 1]) + (if marks[|marks| - 1] then 1 else 0)
  }

  lemma {:induction false} CountOfNone(marks: seq<bool>)
    ensures Count(marks) == 0 <==> forall i :: 0 <= i < |marks| ==> !marks[i]
  {
    if marks != [] {
      CountOfNone(marks[..|marks| - 1]);
    }
  }

  lemma OneAtTheEnd(front: seq<bool>)
    ensures ExactlyOne(front + [true]) <==> forall i :: 0 <= i < |front| ==> !front[i]
  {
    var marks := front + [true];
    assert marks[|front|];
    if ExactlyOne(marks) {
      var i :| 0 <= i < |marks| && marks[i] && forall j :: 0 <= j < |marks| && marks[j] ==> j == i;
      assert i == |front|;
      assert forall j :: 0 <= j < |front| ==> marks[j] == front[j];
    }
  }

  lemma OneBeforeTheEnd(front: seq<bool>)
    ensures ExactlyOne(front + [false]) <==> ExactlyOne(front)
  {
    var marks := front + [false];
    assert forall j :: 0 <= j < |front| ==> marks[j] == front[j];
    if ExactlyOne(front) {
      var i :| 0 <= i < |front| && front[i] && forall j :: 0 <= j < |front| && front[j] ==> j == i;
      assert marks[i];
    }
    if ExactlyOne(marks) {
      var i :| 0 <= i < |marks| && marks[i] && forall j :: 0 <= j < |marks| && marks[j] ==> j == i;
      assert front[i];
    }
  }

  lemma {:induction false} CountOfOne(marks: seq<bool>)
    ensures Count(marks) == 1 <==> ExactlyOne(marks)
  {
    if marks != [] {
      var front := marks[..|marks| - 1];
      assert marks == front + [marks[|marks| - 1]];
      CountOfNone(front);
      CountOfOne(front);
      OneAtTheEnd(front);
      OneBeforeTheEnd(front);
    }
  }

  method CheckReferences(def: ProcessDefinition, node: Node) returns (errors: seq<DefinitionError>)
    ensures errors == [] <==> forall t :: t in References(node) ==> FindNode(def, t).Some?
  {
    errors := [];
    var targets := References(node);
    for i := 0 to |targets|
      invariant errors == [] <==> forall t :: t in targets[..i] ==> FindNode(def, t).Some?
    {
      if FindNode(def, targets[i]).None? {
        errors := errors + [MissingNode(node.id, targets[i])];
      }
      assert targets[..i + 1] == targets[..i] + [targets[i]];
    }
    assert targets[..|targets|] == targets;
  }

  method CheckConditions(node: Node, compiles: string -> bool) returns (errors: seq<DefinitionError>)
    ensures errors == [] <==> forall b :: b in NodeBranches(node) ==> compiles(b.when)
  {
    errors := [];
    var branches := NodeBranches(node);
    for i := 0 to |branches|
      invariant errors == [] <==> forall b :: b in branches[..i] ==> compiles(b.when)
    {
      if !compiles(branches[i].when) {
        errors := errors + [InvalidCondition(node.id, i)];
      }
      assert branches[..i + 1] == branches[..i] + [branches[i]];
    }
    assert branches[..|branches|] == branches;
  }

  method CheckWait(def: ProcessDefinition, node: Node) returns (errors: seq<DefinitionError>)
    ensures errors == [] <==> WaitSound(def, node)
  {
    errors := [];
    if node.Timeout().Some? && node.Timeout().value.Due(0).None? {
      errors := errors + [InvalidTimeout(node.id)];
    }
    if Awaited(node).Some? {
      var signals := Awaited(node).value.Signals();
      if signals == [] {
        errors := errors + [NoSignals(node.id)];
      }
      ghost var before := errors;
      for i := 0 to |signals|
        invariant errors == [] <==> before == [] && forall s :: s in signals[..i] ==> s in def.signals
      {
        if signals[i] !in def.signals {
          errors := errors + [UndeclaredSignal(node.id, signals[i])];
        }
        assert signals[..i + 1] == signals[..i] + [signals[i]];
      }
      assert signals[..|signals|] == signals;
    }
    if node.UserTask? && !FormDeclared(def, node.form) {
      errors := errors + [UndeclaredForm(node.id, node.form)];
    }
  }

  method CheckNode(def: ProcessDefinition, node: Node, compiles: string -> bool) returns (errors: seq<DefinitionError>)
    ensures errors == [] <==> NodeSound(def, node, compiles)
  {
    errors := [];
    if node.setStage.Some? && !StageDeclared(def, node.setStage.value.stage) {
      errors := errors + [UndeclaredStage(node.id, node.setStage.value.stage)];
    }
    var conditions := CheckConditions(node, compiles);
    var references := CheckReferences(def, node);
    var waits := CheckWait(def, node);
    errors := errors + conditions + references + waits;
    if node.ServiceTask? {
      if node.retries.Some? && node.retries.value.max == 0 {
        errors := errors + [ZeroRetries(node.id)];
      }
      if node.retries.Some? && node.retries.value.backoff <= 0 {
        errors := errors + [InvalidBackoff(node.id)];
      }
      if node.handler == TICKET_HANDLER && !TopicDeclared(def, node) {
        errors := errors + [UndeclaredTopic(node.id)];
      }
    }
  }

  method CheckEscalation(def: ProcessDefinition, e: Escalation) returns (errors: seq<DefinitionError>)
    ensures errors == [] <==> EscalationSound(def, e)
  {
    var ids, duplicates := CollectUniqueIds("action", ActionIdList(e.actions));
    errors := duplicates;
    for i := 0 to |e.actions|
      invariant errors == [] <==> duplicates == [] && forall a :: a in e.actions[..i] && a.emits.Some? ==> a.emits.value in def.signals
    {
      var action := e.actions[i];
      if action.emits.Some? && action.emits.value !in def.signals {
        errors := errors + [UndeclaredSignal(e.topic, action.emits.value)];
      }
      assert e.actions[..i + 1] == e.actions[..i] + [e.actions[i]];
    }
    assert e.actions[..|e.actions|] == e.actions;
  }

  method CheckDeclarations(def: ProcessDefinition) returns (errors: seq<DefinitionError>)
    ensures errors == [] <==>
            && Distinct(NodeIdList(def.nodes)) && Distinct(def.signals) && Distinct(FormIdList(def.forms))
            && Distinct(StageIdList(def.stages)) && Distinct(TopicList(def.escalations))
  {
    var nodeIds, e1 := CollectUniqueIds("node", NodeIdList(def.nodes));
    var signalIds, e2 := CollectUniqueIds("signal", def.signals);
    var formIds, e3 := CollectUniqueIds("form", FormIdList(def.forms));
    var stageIds, e4 := CollectUniqueIds("stage", StageIdList(def.stages));
    var topics, e5 := CollectUniqueIds("escalation topic", TopicList(def.escalations));
    errors := e1 + e2 + e3 + e4 + e5;
  }

  method CheckShape(def: ProcessDefinition) returns (errors: seq<DefinitionError>)
    ensures errors == [] <==>
            && ExactlyOne(InitialMarks(def.stages))
            && (def.from.Some? && def.until.Some? ==> def.from.value < def.until.value)
            && ExactlyOne(StartMarks(def.nodes))
            && (exists n :: n in def.nodes && n.End?)
  {
    errors := [];
    CountOfOne(InitialMarks(def.stages));
    CountOfOne(StartMarks(def.nodes));
    var initial := Count(InitialMarks(def.stages));
    if initial != 1 {
      errors := errors + [InitialStages(initial)];
    }
    if def.from.Some? && def.until.Some? && def.until.value <= def.from.value {
      errors := errors + [DatesReversed];
    }
    var starts := Count(StartMarks(def.nodes));
    if starts != 1 {
      errors := errors + [StartNodes(starts)];
    }
    if !exists n :: n in def.nodes && n.End? {
      errors := errors + [NoEndNode];
    }
  }

  /** `validate`: no error is reported exactly for valid definitions. */
  method Validate(def: ProcessDefinition, compiles: string -> bool) returns (errors: seq<DefinitionError>)
    ensures errors == [] <==> Valid(def, compiles)
  {
    var declarations := CheckDeclarations(def);
    var shape := CheckShape(def);
    errors := declarations + shape;
    ghost var before := errors;
    for i := 0 to |def.nodes|
      invariant errors == [] <==> before == [] && forall n :: n in def.nodes[..i] ==> NodeSound(def, n, compiles)
    {
      var found := CheckNode(def, def.nodes[i], compiles);
      errors := errors + found;
      assert def.nodes[..i + 1] == def.nodes[..i] + [def.nodes[i]];
    }
    assert def.nodes[..|def.nodes|] == def.nodes;
    ghost var middle := errors;
    for i := 0 to |def.escalations|
      invariant errors == [] <==> middle == [] && forall e :: e in def.escalations[..i] ==> EscalationSound(def, e)
    {
      var found := CheckEscalation(def, def.escalations[i]);
      errors := errors + found;
      assert def.escalations[..i + 1] == def.escalations[..i] + [def.escalations[i]];
    }
    assert def.escalations[..|def.escalations|] == def.escalations;
  }
}
