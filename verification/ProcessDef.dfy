/** Workflow definitions: declarations, nodes, and the lookups the engine makes in them. */
module ProcessDefs {
  import opened Wrappers
  import opened Contexts

  datatype Branch = Branch(when: string, next: Id)

  /** A successor: one node, or ordered conditional routes with an optional fallback. */
  datatype Next = To(target: Id) | Routes(fallback: Option<Id>, branches: seq<Branch>)

  datatype WaitFor = Single(signal: Id) | Multi(signals: seq<Id>) {
    function Signals(): seq<Id> {
      match this
      case Single(s) => [s]
      case Multi(ss) => ss
    }
  }

  /** A wait deadline. `after` is the parsed delay in milliseconds; text that does not
      parse is represented by a nonpositive delay, which the source refuses as well. */
  datatype Timer = Timer(at: Option<int>, after: Option<int>, onTimeout: Id, context: ContextMap) {
    /** An absolute time takes precedence over a delay. */
    function Due(now: int): Option<int> {
      if at.Some? then at
      else if after.Some? && after.value > 0 then Some(now + after.value)
      else None
    }
  }

  /** `backoff` is the parsed delay, nonpositive when the source cannot parse it. */
  datatype Retries = Retries(max: nat, backoff: int) {
    function NextAttempt(now: int): Option<int> {
      if backoff > 0 then Some(now + backoff) else None
    }
  }

  datatype OnError = OnError(next: Option<Id>, compensate: Option<Id>)

  datatype StageRef = StageRef(stage: Id, reason: Option<string>)

  datatype Node =
    | Start(id: Id, first: Id, setStage: Option<StageRef>)
    | End(id: Id, setStage: Option<StageRef>)
    | ServiceTask(id: Id, handler: Id, args: Option<ContextMap>, setStage: Option<StageRef>,
                  retries: Option<Retries>, successor: Option<Next>, onError: Option<OnError>)
    | UserTask(id: Id, form: Id, awaits: Option<WaitFor>, setStage: Option<StageRef>,
               timer: Option<Timer>, successor: Option<Next>, onError: Option<OnError>)
    | Wait(id: Id, waitFor: WaitFor, setStage: Option<StageRef>,
           timer: Option<Timer>, successor: Option<Next>)
    | Gateway(id: Id, setStage: Option<StageRef>, branches: seq<Branch>, fallback: Option<Id>)
  {
    /** Nodes that stay open until a signal or a timeout closes their visit. */
    predicate IsWaiting() {
      UserTask? || Wait?
    }

    function Timeout(): Option<Timer> {
      if UserTask? || Wait? then timer else None
    }

    /** `accepts_signal` on a present node; `waiting_transition` succeeds on the same nodes. */
    predicate Accepts(signal: Id) {
      match this
      case UserTask(_, _, awaits, _, _, _, _) => awaits.Some? && signal in awaits.value.Signals()
      case Wait(_, waitFor, _, _, _) => signal in waitFor.Signals()
      case _ => false
    }
  }

  datatype Form = Form(id: Id, roles: seq<Id>)

  datatype Stage = Stage(id: Id, initial: bool)

  datatype Action = Action(id: Id, emits: Option<Id>)

  datatype Escalation = Escalation(topic: Id, actions: seq<Action>)

  /** Lifecycle callbacks by phase; `None` when the definition configures no callback. */
  datatype Hooks = Hooks(stage: Option<Id>, show: Option<Id>, hide: Option<Id>, complete: Option<Id>)

  datatype ProcessDefinition = ProcessDefinition(
    nodes: seq<Node>, signals: seq<Id>, forms: seq<Form>, stages: seq<Stage>,
    escalations: seq<Escalation>, hooks: Hooks, from: Option<int>, until: Option<int>)

  /** The first node with the given ID, as every lookup in the source resolves it. */
  function FindNode(def: ProcessDefinition, id: Id): (r: Option<Node>)
    ensures r.Some? ==> r.value in def.nodes && r.value.id == id
    ensures r.None? <==> forall n :: n in def.nodes ==> n.id != id
  {
    FindIn(def.nodes, id)
  }

  function FindIn(nodes: seq<Node>, id: Id): (r: Option<Node>)
    ensures r.Some? ==> r.value in nodes && r.value.id == id
    ensures r.None? <==> forall n :: n in nodes ==> n.id != id
  {
    if nodes == [] then None
    else if nodes[0].id == id then Some(nodes[0])
    else FindIn(nodes[1..], id)
  }

  predicate StageDeclared(def: ProcessDefinition, stage: Id) {
    exists s :: s in def.stages && s.id == stage
  }

  predicate FormDeclared(def: ProcessDefinition, form: Id) {
    exists f :: f in def.forms && f.id == form
  }

  function NodeBranches(node: Node): seq<Branch> {
    match node
    case Gateway(_, _, branches, _) => branches
    case ServiceTask(_, _, _, _, _, Some(Routes(_, branches)), _) => branches
    case UserTask(_, _, _, _, _, Some(Routes(_, branches)), _) => branches
    case Wait(_, _, _, _, Some(Routes(_, branches))) => branches
    case _ => []
  }

  function BranchTargets(branches: seq<Branch>): (ids: seq<Id>)
    ensures |ids| == |branches|
    ensures forall i :: 0 <= i < |ids| ==> ids[i] == branches[i].next
  {
    seq(|branches|, i requires 0 <= i < |branches| => branches[i].next)
  }

  function Optional(id: Option<Id>): seq<Id> {
    if id.Some? then [id.value] else []
  }

  /** Every node the engine may queue next, in the order the source lists them. */
  function NodeTargets(node: Node): seq<Id> {
    BranchTargets(NodeBranches(node))
    + (match node
       case Start(_, first, _) => [first]
       case Gateway(_, _, _, fallback) => Optional(fallback)
       case End(_, _) => []
       case _ =>
         match node.successor
         case Some(To(target)) => [target]
         case Some(Routes(fallback, _)) => Optional(fallback)
         case None => [])
    + (match node.Timeout() case Some(timer) => [timer.onTimeout] case None => [])
    + (if node.ServiceTask? && node.onError.Some? then Optional(node.onError.value.next) else [])
  }
}
