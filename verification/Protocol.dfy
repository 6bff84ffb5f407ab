/** Workers, operators and producers interleaving on one instance: claims, snapshots,
    host code, renewals and commits are separate steps, in any order and any number. */
module Protocol {
  import opened Wrappers
  import opened Contexts
  import opened ProcessDefs
  import opened Tasks
  import opened Dispatch
  import opened Database

  /** How far a worker has come. It keeps what it read and what it will propose. */
  datatype Phase =
    | Dequeued
    | Snapshotted(snap: Snapshot)
    | Proposed(snap: Snapshot, host: Host, changes: Changes)
    | Finished

  /** `deadline` is the worker's own estimate of when its lease ends. */
  datatype Worker = Worker(job: Job, phase: Phase, deadline: int)

  datatype State = State(leaseMs: nat, db: Db, workers: map<LockKey, Worker>)

  datatype Step =
    | Tick(elapsed: nat)
    | Fetch(task: Uuid, startedAt: int)
    | Load(key: LockKey)
    | Prepare(key: LockKey, host: Host)
    | Commit(key: LockKey, now: int)
    | Renew(key: LockKey, startedAt: int, answered: bool)
    | Release(key: LockKey, runAfter: int)
    | Post(signal: PostSignal, now: int)
    | Resume(incident: Uuid)
    | MakeDue(task: Uuid)
    | Cancel(task: Uuid)
    | ApplyPatch(patch: Patch)
    | SaveContext(supplied: ContextMap)
    | AssignStage(stage: StageRef)
    | QueueNode(node: Node, runAfter: int)

  function Advance(s: State, key: LockKey, phase: Phase): State
    requires key in s.workers
  {
    s.(workers := s.workers[key := s.workers[key].(phase := phase)])
  }

  /** One claim under a fresh lock key. The worker's deadline counts from before the
      request, so it never lies beyond the lease end the database sets. */
  function Fetched(s: State, u: Uuid, startedAt: int): State
    requires u in s.db.queue
  {
    var key := s.db.nextId;
    var db := Claimed(s.db.(nextId := key + 1), u, key, s.leaseMs);
    s.(db := db, workers := s.workers[key := Worker(JobOf(u, key, db.queue[u]), Dequeued, startedAt + s.leaseMs)])
  }

  function LoadStep(s: State, key: LockKey): State
    requires key in s.workers
  {
    match Loaded(s.db, s.workers[key].job)
    case Ok((db, snap)) => Advance(s, key, Snapshotted(snap)).(db := db)
    case Err(_) => Advance(s, key, Finished)
  }

  function CommitStep(s: State, key: LockKey, now: int): State
    requires key in s.workers && s.workers[key].phase.Proposed?
  {
    var w := s.workers[key];
    match Committed(s.db, w.job, w.phase.snap, w.phase.changes, now)
    case Ok(db) => Advance(s, key, Finished).(db := db)
    case Err(_) => Advance(s, key, Finished)
  }

  /** A renewal whose answer is lost still takes effect in the database; the worker
      then keeps its earlier deadline. A denied renewal stops the worker. */
  function RenewStep(s: State, key: LockKey, startedAt: int, answered: bool): State
    requires key in s.workers
  {
    var w := s.workers[key];
    match Renewed(s.db, w.job.uuid, key, s.leaseMs)
    case Some(db) =>
      s.(db := db, workers := if answered then s.workers[key := w.(deadline := startedAt + s.leaseMs)] else s.workers)
    case None => if answered then Advance(s, key, Finished) else s
  }

  function ReleaseStep(s: State, key: LockKey, runAfter: int): State
    requires key in s.workers
  {
    match Released(s.db, s.workers[key].job.uuid, key, runAfter)
    case Ok(db) => Advance(s, key, Finished).(db := db)
    case Err(_) => s
  }

  /** The effect of one step; a step that is not enabled changes nothing. */
  function After(s: State, step: Step): State {
    match step
    case Tick(elapsed) => s.(db := s.db.(clock := s.db.clock + elapsed))
    case Fetch(u, startedAt) =>
      if Claimable(s.db, u) && startedAt <= s.db.clock then Fetched(s, u, startedAt) else s
    case Load(key) =>
      if key in s.workers && s.workers[key].phase.Dequeued? then LoadStep(s, key) else s
    case Prepare(key, host) =>
      if key in s.workers && s.workers[key].phase.Snapshotted? then
        var w := s.workers[key];
        Advance(s, key, Proposed(w.phase.snap, host, Prepared(w.job, w.phase.snap, host)))
      else s
    case Commit(key, now) =>
      if key in s.workers && s.workers[key].phase.Proposed? then CommitStep(s, key, now) else s
    case Renew(key, startedAt, answered) =>
      if key in s.workers && !s.workers[key].phase.Finished? && startedAt <= s.db.clock
      then RenewStep(s, key, startedAt, answered) else s
    case Release(key, runAfter) =>
      if key in s.workers && !s.workers[key].phase.Finished? then ReleaseStep(s, key, runAfter) else s
    case Post(signal, now) =>
      (match SignalPosted(s.db, signal, now)
       case Ok((db, _)) => s.(db := db)
       case Err(_) => s)
    case Resume(incident) =>
      (match Resumed(s.db, incident)
       case Ok(Some(db)) => s.(db := db)
       case _ => s)
    case MakeDue(u) => (match MadeDue(s.db, u) case Some(db) => s.(db := db) case None => s)
    case Cancel(u) => (match Cancelled(s.db, u) case Some(db) => s.(db := db) case None => s)
    case ApplyPatch(patch) => s.(db := ContextPatched(s.db, patch))
    case SaveContext(supplied) => s.(db := ContextSaved(s.db, supplied))
    case AssignStage(stage) => (match StageSet(s.db, stage) case Ok(db) => s.(db := db) case Err(_) => s)
    case QueueNode(node, runAfter) => s.(db := NodeQueued(s.db, node, runAfter))
  }

  function Run(s: State, steps: seq<Step>): State {
    if steps == [] then s else After(Run(s, steps[..|steps| - 1]), steps[|steps| - 1])
  }

  /** A freshly started instance with no worker yet. */
  ghost predicate Initial(s: State) {
    && s.leaseMs > 0
    && s.workers == map[]
    && exists context: ContextMap, clock: int, now: int ::
         Started(s.db.definition, context, clock, now) == Ok(s.db)
  }

  ghost predicate Reachable(s: State) {
    exists start: State, steps: seq<Step> :: Initial(start) && s == Run(start, steps)
  }
}
