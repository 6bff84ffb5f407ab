/** Queue payloads, execution snapshots, and the changes an attempt proposes. */
module Tasks {
  import opened Wrappers
  import opened Contexts
  import opened ProcessDefs

  type Uuid = nat
  type LockKey = nat

  datatype PostSignal = PostSignal(eventId: Option<string>, waitVisit: Option<Uuid>, signal: Id, context: ContextMap)

  /** Persistent work items of one process instance. */
  datatype Task =
    | ProcessNode(node: Node)
    | ProcessEvent(origin: Node, onTime: Id)
    | ProcessSignal(posted: PostSignal)

  /** A task as its worker dequeued it. */
  datatype Job = Job(uuid: Uuid, key: LockKey, task: Task, attempts: nat, createdAt: int)

  datatype Snapshot = Snapshot(
    revision: nat, visit: Option<Uuid>, waitCompleted: bool, taskVisit: Option<Uuid>,
    definition: ProcessDefinition, current: Option<Node>, context: ContextMap)

  datatype Scheduled = Scheduled(task: Task, runAfter: Option<int>, visit: Option<Uuid>)

  datatype IncidentKind = HandlerExhausted | ExecutionExhausted | ConditionIncident | UncertainIncident

  /** The durable events that later steps can be judged by; diagnostics are not kept. */
  datatype Event =
    | NodeEntered(node: Id, visit: Uuid)
    | StageChanged(stage: Id)
    | SignalQueued(task: Uuid, eventId: Option<string>)
    | SignalAccepted(task: Uuid, eventId: Option<string>, visit: Uuid)
    | TimeoutAccepted(task: Uuid, visit: Uuid)

  datatype Changes = Changes(
    enterNode: Option<Id>, stage: Option<StageRef>, context: Option<ContextMap>, patch: Option<Patch>,
    incident: Option<IncidentKind>, closeWait: bool, tasks: seq<Scheduled>, events: seq<Event>,
    retryAt: Option<int>)

  const NO_CHANGES := Changes(None, None, None, None, None, false, [], [], None)
}
