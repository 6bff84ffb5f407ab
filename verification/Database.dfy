/** The tables as one process instance sees them, and what each transaction does to them.
    Every transaction is one atomic step; a refused transaction leaves the tables as they were.
    All rows belong to the same instance: queries that filter by its token are not repeated here. */
module Database {
  import opened Wrappers
  import opened Contexts
  import opened ProcessDefs
  import opened Tasks

  datatype Lease = Lease(key: LockKey, until: int)

  /** A queue row. An empty lock key and a null lease end are both `lease == None`.
      `retries` counts the retries committed since the attempts were last reset; the
      database does not store it. */
  datatype QueueRow = QueueRow(
    task: Task, createdAt: int, runAfter: int, attempts: nat, lease: Option<Lease>,
    visit: Option<Uuid>, retries: nat)

  datatype Instance = Instance(
    suspended: bool, revision: nat, current: Option<Id>, visit: Option<Uuid>, waitCompleted: bool,
    recovery: Option<Uuid>, stage: Option<StageRef>)

  datatype Incident = Incident(task: Uuid, open: bool)

  datatype Receipt = Receipt(signal: Id, payload: ContextMap, requestedVisit: Option<Uuid>)

  /** `nextId` is above every identity issued so far, so a new one is never a repetition. */
  datatype Db = Db(
    clock: int, nextId: nat, definition: ProcessDefinition, inst: Instance, context: ContextMap,
    queue: map<Uuid, QueueRow>, incidents: map<Uuid, Incident>, receipts: map<string, Receipt>,
    log: seq<Event>)

  datatype Refusal =
    | InstanceSuspended
    | LeaseLost
    | StaleRevision
    | WaitClosed
    | VisitChanged
    | RowMissing
    | IncidentConflict
    | EventConflict
    | InvalidEventId
    | IncidentTaskBusy

  type Outcome<+T> = Result<T, Refusal>

  // ---- Leases ----

  /** A lease that still excludes other workers. */
  predicate Active(row: QueueRow, clock: int) {
    row.lease.Some? && row.lease.value.until >= clock
  }

  /** A row another transaction may take over. */
  predicate Unleased(row: QueueRow, clock: int) {
    row.lease.None? || row.lease.value.until < clock
  }

  /** The job's worker still owns the row: same key, same payload, lease not yet ended. */
  predicate Holds(db: Db, job: Job) {
    && job.uuid in db.queue
    && var row := db.queue[job.uuid];
    && row.lease.Some?
    && row.lease.value.key == job.key
    && row.lease.value.until > db.clock
    && row.task == job.task
  }

  predicate Claimable(db: Db, u: Uuid) {
    && !db.inst.suspended
    && u in db.queue
    && db.queue[u].runAfter <= db.clock
    && Unleased(db.queue[u], db.clock)
    && (db.inst.recovery.None? || db.inst.recovery.value == u)
    && forall v :: v in db.queue ==> !Active(db.queue[v], db.clock)
  }

  function Claimed(db: Db, u: Uuid, key: LockKey, leaseMs: nat): Db
    requires u in db.queue
  {
    var row := db.queue[u];
    db.(queue := db.queue[u := row.(lease := Some(Lease(key, db.clock + leaseMs)), attempts := row.attempts + 1)])
  }

  function JobOf(u: Uuid, key: LockKey, row: QueueRow): Job {
    Job(u, key, row.task, row.attempts, row.createdAt)
  }

  /** Renewal by key; `None` when the row is gone, owned by another key, or already expired. */
  function Renewed(db: Db, u: Uuid, key: LockKey, leaseMs: nat): Option<Db> {
    if u in db.queue && db.queue[u].lease.Some? && db.queue[u].lease.value.key == key
       && db.queue[u].lease.value.until > db.clock
    then Some(db.(queue := db.queue[u := db.queue[u].(lease := Some(Lease(key, db.clock + leaseMs)))]))
    else None
  }

  /** The owner gives the row back for a later attempt. */
  function Released(db: Db, u: Uuid, key: LockKey, runAfter: int): Outcome<Db> {
    if u in db.queue && db.queue[u].lease.Some? && db.queue[u].lease.value.key == key
       && db.queue[u].lease.value.until >= db.clock
    then Ok(db.(queue := db.queue[u := db.queue[u].(lease := None, runAfter := runAfter)]))
    else Err(LeaseLost)
  }

  // ---- Snapshots ----

  predicate Accepting(current: Option<Node>, signal: Id) {
    current.Some? && current.value.Accepts(signal)
  }

  /** The current node's definition; `None` inside an `Ok` before the first entry. */
  function CurrentNode(db: Db): Outcome<Option<Node>> {
    if db.inst.current.None? then Ok(None)
    else
      match FindNode(db.definition, db.inst.current.value)
      case Some(node) => Ok(Some(node))
      case None => Err(RowMissing)
  }

  /** The visit a row is bound to after it was loaded: a signal without a binding takes
      the visit of a node that accepts it; a binding once made is kept. */
  function Binding(row: QueueRow, current: Option<Node>, visit: Option<Uuid>): Option<Uuid> {
    if row.visit.None? && row.task.ProcessSignal? && Accepting(current, row.task.posted.signal)
    then visit
    else row.visit
  }

  function Loaded(db: Db, job: Job): Outcome<(Db, Snapshot)> {
    if db.inst.suspended then Err(InstanceSuspended)
    else if !Holds(db, job) then Err(LeaseLost)
    else
      var current :- CurrentNode(db);
      var row := db.queue[job.uuid];
      var bound := Binding(row, current, db.inst.visit);
      Ok((db.(queue := db.queue[job.uuid := row.(visit := bound)]),
          Snapshot(db.inst.revision, db.inst.visit, db.inst.waitCompleted, bound, db.definition, current, db.context)))
  }

  // ---- Transition commit ----

  /** Timeouts of the visit being closed, other than the committing task itself. */
  predicate Sibling(row: QueueRow, u: Uuid, job: Job, visit: Option<Uuid>) {
    row.task.ProcessEvent? && row.visit == visit && row.visit.Some? && u != job.uuid
  }

  function WithoutSiblings(queue: map<Uuid, QueueRow>, job: Job, visit: Option<Uuid>): map<Uuid, QueueRow> {
    map u | u in queue && !Sibling(queue[u], u, job, visit) :: queue[u]
  }

  function WaitConsumed(db: Db, job: Job, snap: Snapshot, c: Changes): Outcome<Db> {
    if !c.closeWait then Ok(db)
    else if snap.visit.None? || db.inst.waitCompleted then Err(WaitClosed)
    else if db.inst.visit != snap.visit then Err(VisitChanged)
    else Ok(db.(queue := WithoutSiblings(db.queue, job, snap.visit), inst := db.inst.(waitCompleted := true)))
  }

  function NodeVisited(db: Db, job: Job, c: Changes): Outcome<Db> {
    if c.enterNode.None? then Ok(db)
    else if FindNode(db.definition, c.enterNode.value).None? then Err(RowMissing)
    else Ok(db.(inst := db.inst.(current := c.enterNode, visit := Some(job.uuid), waitCompleted := false)))
  }

  function StoredContext(context: ContextMap, c: Changes): ContextMap {
    if c.patch.Some? then Patched(context, c.patch.value)
    else if c.context.Some? then context + c.context.value
    else context
  }

  function StageAssigned(db: Db, c: Changes): Outcome<Db> {
    if c.stage.None? then Ok(db)
    else if !StageDeclared(db.definition, c.stage.value.stage) then Err(RowMissing)
    else Ok(db.(inst := db.inst.(stage := c.stage)))
  }

  /** The node a queued task will resolve when it is inserted; signals name none. */
  function TargetOf(task: Task): Option<Id> {
    match task
    case ProcessNode(node) => Some(node.id)
    case ProcessEvent(_, onTime) => Some(onTime)
    case ProcessSignal(_) => None
  }

  predicate TargetDeclared(def: ProcessDefinition, task: Task) {
    TargetOf(task).Some? ==> FindNode(def, TargetOf(task).value).Some?
  }

  function NewRow(db: Db, task: Task, runAfter: int, visit: Option<Uuid>): QueueRow {
    QueueRow(task, db.clock, runAfter, 0, None, visit, 0)
  }

  function Inserted(db: Db, task: Task, runAfter: int, visit: Option<Uuid>): Db {
    db.(queue := db.queue[db.nextId := NewRow(db, task, runAfter, visit)], nextId := db.nextId + 1)
  }

  function Enqueued(db: Db, pending: Scheduled, now: int): Outcome<Db> {
    if !TargetDeclared(db.definition, pending.task) then Err(RowMissing)
    else Ok(Inserted(db, pending.task, if pending.runAfter.Some? then pending.runAfter.value else now, pending.visit))
  }

  function EnqueuedAll(db: Db, pending: seq<Scheduled>, now: int): Outcome<Db> {
    if pending == [] then Ok(db)
    else
      var rest :- EnqueuedAll(db, pending[..|pending| - 1], now);
      Enqueued(rest, pending[|pending| - 1], now)
  }

  predicate HasOpenIncident(db: Db) {
    exists i :: i in db.incidents && db.incidents[i].open
  }

  /** Suspends, clears a finished recovery, or leaves the instance running. */
  function Disposed(db: Db, job: Job, c: Changes): Outcome<Db> {
    if c.incident.Some? then
      if c.tasks != [] || c.retryAt.Some? || HasOpenIncident(db) then Err(IncidentConflict)
      else Ok(db.(incidents := db.incidents[db.nextId := Incident(job.uuid, true)],
                  nextId := db.nextId + 1,
                  inst := db.inst.(suspended := true)))
    else if c.retryAt.None? && db.inst.recovery == Some(job.uuid) then
      Ok(db.(inst := db.inst.(recovery := None)))
    else Ok(db)
  }

  /** The source row: kept and released when the attempt retries or suspends, deleted otherwise. */
  function SourceSettled(db: Db, job: Job, c: Changes, now: int): Outcome<Db> {
    if !Holds(db, job) then Err(LeaseLost)
    else
      var row := db.queue[job.uuid];
      if c.retryAt.Some? then
        Ok(db.(queue := db.queue[job.uuid := row.(runAfter := c.retryAt.value, lease := None, retries := row.retries + 1)]))
      else if c.incident.Some? then
        Ok(db.(queue := db.queue[job.uuid := row.(runAfter := now, lease := None)]))
      else
        Ok(db.(queue := db.queue - {job.uuid}))
  }

  /** Wait, visit, context and stage, in the order they are written. */
  function Applied(db: Db, job: Job, snap: Snapshot, c: Changes): Outcome<Db> {
    var consumed :- WaitConsumed(db, job, snap, c);
    var visited :- NodeVisited(consumed, job, c);
    StageAssigned(visited.(context := StoredContext(visited.context, c)), c)
  }

  /** Events, the revision, the execution state, and the source row. */
  function Concluded(db: Db, job: Job, c: Changes, now: int): Outcome<Db> {
    var logged := db.(log := db.log + c.events, inst := db.inst.(revision := db.inst.revision + 1));
    var disposed :- Disposed(logged, job, c);
    SourceSettled(disposed, job, c, now)
  }

  /** The fenced transition: the lease, the execution state and the revision are checked
      before anything is written, and any later failure refuses the whole transaction. */
  function Committed(db: Db, job: Job, snap: Snapshot, c: Changes, now: int): Outcome<Db> {
    if !Holds(db, job) then Err(LeaseLost)
    else if db.inst.suspended then Err(InstanceSuspended)
    else if db.inst.revision != snap.revision then Err(StaleRevision)
    else
      var applied :- Applied(db, job, snap, c);
      var queued :- EnqueuedAll(applied, c.tasks, now);
      Concluded(queued, job, c, now)
  }

  // ---- Recovery and operators ----

  /** `Ok(None)` when the incident is already resolved or unknown. */
  function Resumed(db: Db, incident: Uuid): Outcome<Option<Db>> {
    if incident !in db.incidents || !db.incidents[incident].open then Ok(None)
    else
      var task := db.incidents[incident].task;
      if task !in db.queue || !Unleased(db.queue[task], db.clock) then Err(IncidentTaskBusy)
      else
        var row := db.queue[task];
        Ok(Some(db.(queue := db.queue[task := row.(attempts := 0, lease := None, runAfter := db.clock, retries := 0)],
                    incidents := db.incidents[incident := db.incidents[incident].(open := false)],
                    inst := db.inst.(suspended := false, revision := db.inst.revision + 1, recovery := Some(task)))))
  }

  function MadeDue(db: Db, u: Uuid): Option<Db> {
    if u in db.queue && Unleased(db.queue[u], db.clock)
    then Some(db.(queue := db.queue[u := db.queue[u].(runAfter := db.clock, lease := None)]))
    else None
  }

  predicate Cancellable(db: Db, u: Uuid) {
    && u in db.queue
    && Unleased(db.queue[u], db.clock)
    && !(exists i :: i in db.incidents && db.incidents[i].open && db.incidents[i].task == u)
    && db.inst.recovery != Some(u)
  }

  function Cancelled(db: Db, u: Uuid): Option<Db> {
    if Cancellable(db, u) then Some(db.(queue := db.queue - {u})) else None
  }

  // ---- Signal admission ----

  predicate ValidEventId(id: string) {
    |id| <= 256 && exists i :: 0 <= i < |id| && !IsWhitespace(id[i])
  }

  function ReceiptOf(signal: PostSignal): Receipt {
    Receipt(signal.signal, signal.context, signal.waitVisit)
  }

  /** The visit a new delivery is bound to: the requested one, or that of a node accepting it now. */
  function AdmissionVisit(db: Db, current: Option<Node>, signal: PostSignal): Option<Uuid> {
    if signal.waitVisit.Some? then signal.waitVisit
    else if Accepting(current, signal.signal) then db.inst.visit
    else None
  }

  function Admitted(db: Db, current: Option<Node>, signal: PostSignal, now: int): Db {
    var queued := Inserted(db, ProcessSignal(signal), now, AdmissionVisit(db, current, signal));
    queued.(receipts := if signal.eventId.Some? then db.receipts[signal.eventId.value := ReceiptOf(signal)] else db.receipts,
            log := db.log + [SignalQueued(db.nextId, signal.eventId)])
  }

  /** The boolean says whether a delivery was queued; an identical resubmission queues none. */
  function SignalPosted(db: Db, signal: PostSignal, now: int): Outcome<(Db, bool)> {
    var current :- CurrentNode(db);
    if signal.eventId.None? then Ok((Admitted(db, current, signal, now), true))
    else if !ValidEventId(signal.eventId.value) then Err(InvalidEventId)
    else if signal.eventId.value !in db.receipts then Ok((Admitted(db, current, signal, now), true))
    else if db.receipts[signal.eventId.value] == ReceiptOf(signal) then Ok((db, false))
    else Err(EventConflict)
  }

  // ---- Direct writers of instance state ----

  function Touched(db: Db): Db {
    db.(inst := db.inst.(revision := db.inst.revision + 1))
  }

  function ContextPatched(db: Db, patch: Patch): Db {
    Touched(db).(context := Patched(db.context, patch))
  }

  function ContextSaved(db: Db, supplied: ContextMap): Db {
    Touched(db).(context := db.context + supplied)
  }

  function StageSet(db: Db, stage: StageRef): Outcome<Db> {
    if !StageDeclared(db.definition, stage.stage) then Err(RowMissing)
    else Ok(Touched(db).(inst := db.inst.(revision := db.inst.revision + 1, stage := Some(stage))))
  }

  /** `queue_node`: any node the host supplies, with no revision change. */
  function NodeQueued(db: Db, node: Node, runAfter: int): Db {
    Inserted(db, ProcessNode(node), runAfter, None)
  }

  // ---- Startup ----

  function InitialStage(def: ProcessDefinition): Option<Stage> {
    FirstInitial(def.stages)
  }

  function FirstInitial(stages: seq<Stage>): (r: Option<Stage>)
    ensures r.Some? ==> r.value in stages && r.value.initial
  {
    if stages == [] then None
    else if stages[0].initial then Some(stages[0])
    else FirstInitial(stages[1..])
  }

  function StartNode(def: ProcessDefinition): Option<Node> {
    FirstStart(def.nodes)
  }

  function FirstStart(nodes: seq<Node>): (r: Option<Node>)
    ensures r.Some? ==> r.value in nodes && r.value.Start?
  {
    if nodes == [] then None
    else if nodes[0].Start? then Some(nodes[0])
    else FirstStart(nodes[1..])
  }

  function Blank(def: ProcessDefinition, context: ContextMap, stage: Id, clock: int): Db {
    Db(clock, 0, def, Instance(false, 0, None, None, false, None, Some(StageRef(stage, None))),
       context, map[], map[], map[], [])
  }

  /** Instance, context, initial stage and Start task together, or nothing. */
  function Started(def: ProcessDefinition, context: ContextMap, clock: int, now: int): Outcome<Db> {
    if StartNode(def).None? || InitialStage(def).None? then Err(RowMissing)
    else Enqueued(Blank(def, context, InitialStage(def).value.id, clock),
                  Scheduled(ProcessNode(StartNode(def).value), None, None), now)
  }
}
