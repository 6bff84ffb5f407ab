/** What every reachable state satisfies, whatever workers, operators, producers and
    hosts do. Hosts may enqueue nodes of their own at any time. */
module Invariants {
  import opened Wrappers
  import opened ProcessDefs
  import opened Tasks
  import opened Dispatch
  import opened Database
  import opened Commits
  import opened Protocol

  /** Identities in use were all issued earlier, so the next one is fresh everywhere. */
  ghost predicate Identities(s: State) {
    && (forall u :: u in s.db.queue ==> u < s.db.nextId)
    && (forall i :: i in s.db.incidents ==> i < s.db.nextId && s.db.incidents[i].task < s.db.nextId)
    && (forall k :: k in s.workers ==> k < s.db.nextId && s.workers[k].job.uuid < s.db.nextId)
    && (s.db.inst.visit.Some? ==> s.db.inst.visit.value < s.db.nextId)
    && (forall u :: u in s.db.queue && s.db.queue[u].task.ProcessEvent? && s.db.queue[u].visit.Some? ==>
          s.db.queue[u].visit.value < s.db.nextId)
  }

  /** A leased row carries the key of exactly the worker that dequeued it. */
  ghost predicate Ownership(s: State) {
    && (forall u :: u in s.db.queue && s.db.queue[u].lease.Some? ==>
          var key := s.db.queue[u].lease.value.key;
          key in s.workers && s.workers[key].job == JobOf(u, key, s.db.queue[u]))
    && (forall k :: k in s.workers ==> s.workers[k].job.key == k)
    && (forall k :: k in s.workers && s.workers[k].job.uuid in s.db.queue ==>
          s.workers[k].job.task == s.db.queue[s.workers[k].job.uuid].task)
  }

  /** At most one lease of the instance is live. */
  ghost predicate Exclusive(db: Db) {
    forall u, v :: u in db.queue && v in db.queue && Active(db.queue[u], db.clock) && Active(db.queue[v], db.clock) ==> u == v
  }

  /** The worker may still be running host code. */
  predicate Running(w: Worker, clock: int) {
    !w.phase.Finished? && w.deadline > clock
  }

  predicate Backed(w: Worker, queue: map<Uuid, QueueRow>) {
    && w.job.uuid in queue
    && queue[w.job.uuid].lease.Some?
    && queue[w.job.uuid].lease.value.key == w.job.key
    && queue[w.job.uuid].lease.value.until >= w.deadline
  }

  /** No worker believes in its lease for longer than the database does. */
  ghost predicate Deadlines(s: State) {
    && (forall k :: k in s.workers ==> s.workers[k].deadline <= s.db.clock + s.leaseMs)
    && (forall k :: k in s.workers && Running(s.workers[k], s.db.clock) ==> Backed(s.workers[k], s.db.queue))
  }

  /** A queued timeout names a declared wait, that wait's own deadline target, and a visit. */
  predicate SoundTimeout(def: ProcessDefinition, task: Task) {
    task.ProcessEvent? ==>
      && task.origin.IsWaiting()
      && FindNode(def, task.origin.id) == Some(task.origin)
      && task.origin.Timeout().Some? && task.origin.Timeout().value.onTimeout == task.onTime
      && FindNode(def, task.onTime).Some?
  }

  ghost predicate Payloads(s: State) {
    && (forall u :: u in s.db.queue ==> SoundTimeout(s.db.definition, s.db.queue[u].task))
    && (forall u :: u in s.db.queue && s.db.queue[u].task.ProcessEvent? ==> s.db.queue[u].visit.Some?)
    && (forall k :: k in s.workers ==> SoundTimeout(s.db.definition, s.workers[k].job.task))
  }

  function SnapshotOf(phase: Phase): Option<Snapshot> {
    match phase
    case Snapshotted(snap) => Some(snap)
    case Proposed(snap, _, _) => Some(snap)
    case _ => None
  }

  /** The snapshot shows the instance exactly as it is now. */
  predicate Current(db: Db, snap: Snapshot) {
    && snap.visit == db.inst.visit
    && snap.waitCompleted == db.inst.waitCompleted
    && snap.context == db.context
    && CurrentNode(db) == Ok(snap.current)
  }

  /** The row of a snapshot's task still has the visit binding the snapshot shows. */
  predicate SameBinding(db: Db, w: Worker, snap: Snapshot) {
    w.job.uuid in db.queue && db.queue[w.job.uuid].lease.Some? && db.queue[w.job.uuid].lease.value.key == w.job.key ==>
      db.queue[w.job.uuid].visit == snap.taskVisit
  }

  predicate SoundSnapshot(db: Db, w: Worker, snap: Snapshot) {
    && snap.definition == db.definition
    && snap.revision <= db.inst.revision
    && (snap.revision == db.inst.revision ==> Current(db, snap))
    && SameBinding(db, w, snap)
    && (snap.current.Some? ==> FindNode(db.definition, snap.current.value.id) == snap.current)
    && (w.job.task.ProcessEvent? ==> snap.taskVisit.Some?)
    && (w.job.task.ProcessSignal? && snap.taskVisit.None? && snap.visit.Some? ==> !Accepting(snap.current, w.job.task.posted.signal))
  }

  /** Every writer of instance state moves the revision, so an unchanged revision
      vouches for the whole snapshot. */
  ghost predicate Fresh(s: State) {
    forall k :: k in s.workers ==>
      && (SnapshotOf(s.workers[k].phase).Some? ==> SoundSnapshot(s.db, s.workers[k], SnapshotOf(s.workers[k].phase).value))
      && (s.workers[k].phase.Proposed? ==>
            s.workers[k].phase.changes == Prepared(s.workers[k].job, s.workers[k].phase.snap, s.workers[k].phase.host))
  }

  /** Suspension, the open incident and recovery agree with the queue and its leases. */
  ghost predicate Recovering(db: Db) {
    && (db.inst.suspended <==> HasOpenIncident(db))
    && (forall i, j :: i in db.incidents && j in db.incidents && db.incidents[i].open && db.incidents[j].open ==> i == j)
    && (forall i :: i in db.incidents && db.incidents[i].open ==>
          && db.incidents[i].task in db.queue
          && db.queue[db.incidents[i].task].lease.None?
          && (db.inst.recovery.Some? ==> db.inst.recovery.value == db.incidents[i].task))
    && (db.inst.recovery.Some? ==> db.inst.recovery.value in db.queue)
    && (forall u :: u in db.queue && Active(db.queue[u], db.clock) ==>
          !db.inst.suspended && (db.inst.recovery.Some? ==> db.inst.recovery.value == u))
  }

  /** A visit is the identity of the node task that opened it; only a service task can
      still be queued under the identity of its own visit. */
  ghost predicate Visiting(db: Db) {
    && (db.inst.visit.Some? <==> db.inst.current.Some?)
    && (db.inst.current.Some? ==> FindNode(db.definition, db.inst.current.value).Some?)
    && (db.inst.visit.Some? && db.inst.visit.value in db.queue ==>
          && db.queue[db.inst.visit.value].task.ProcessNode?
          && db.queue[db.inst.visit.value].task.node.ServiceTask?
          && FindNode(db.definition, db.inst.current.value) == Some(db.queue[db.inst.visit.value].task.node))
  }

  predicate Closes(e: Event, visit: Uuid) {
    (e.SignalAccepted? || e.TimeoutAccepted?) && e.visit == visit
  }

  /** How often events of the log closed the given visit. */
  function Closings(log: seq<Event>, visit: Uuid): nat {
    if log == [] then 0
    else Closings(log[..|log| - 1], visit) + (if Closes(log[|log| - 1], visit) then 1 else 0)
  }

  /** A closed visit can never be open again: its identity is spent. */
  predicate Spent(db: Db, visit: Uuid) {
    && visit < db.nextId
    && visit !in db.queue
    && (db.inst.visit == Some(visit) ==> db.inst.waitCompleted)
  }

  ghost predicate ClosedOnce(db: Db) {
    forall v: Uuid :: Closings(db.log, v) <= 1 && (Closings(db.log, v) == 1 ==> Spent(db, v))
  }

  /** Retries never outrun claims, and node tasks stay within their budget. */
  ghost predicate Budgeted(db: Db) {
    forall u :: u in db.queue ==>
      && db.queue[u].retries <= db.queue[u].attempts
      && (db.queue[u].lease.Some? ==> db.queue[u].retries < db.queue[u].attempts)
      && (db.queue[u].task.ProcessNode? ==> db.queue[u].retries <= Budget(db.queue[u].task))
  }

  predicate Carries(task: Task, event: string) {
    task.ProcessSignal? && task.posted.eventId == Some(event)
  }

  function Queuings(log: seq<Event>, event: string): nat {
    if log == [] then 0
    else Queuings(log[..|log| - 1], event)
         + (if log[|log| - 1].SignalQueued? && log[|log| - 1].eventId == Some(event) then 1 else 0)
  }

  function Acceptances(log: seq<Event>, event: string): nat {
    if log == [] then 0
    else Acceptances(log[..|log| - 1], event)
         + (if log[|log| - 1].SignalAccepted? && log[|log| - 1].eventId == Some(event) then 1 else 0)
  }

  /** One receipt, one delivery, at most one acceptance per event identity. */
  ghost predicate Receipted(db: Db) {
    && (forall e: string :: Queuings(db.log, e) == if e in db.receipts then 1 else 0)
    && (forall u, e :: u in db.queue && Carries(db.queue[u].task, e) ==> e in db.receipts && Acceptances(db.log, e) == 0)
    && (forall u, v, e :: u in db.queue && v in db.queue && Carries(db.queue[u].task, e) && Carries(db.queue[v].task, e) ==> u == v)
    && (forall e: string :: Acceptances(db.log, e) <= 1 && (Acceptances(db.log, e) == 1 ==> e in db.receipts))
  }

  /** Who may work, and for how long. */
  ghost predicate Claiming(s: State) {
    s.leaseMs > 0 && Identities(s) && Ownership(s) && Exclusive(s.db) && Deadlines(s)
  }

  /** Who may work, for how long, after which failures, and how often. */
  ghost predicate Leasing(s: State) {
    Claiming(s) && Recovering(s.db) && Budgeted(s.db)
  }

  /** What the queue, the instance and the log say to each other. */
  ghost predicate Recorded(s: State) {
    Payloads(s) && Visiting(s.db) && ClosedOnce(s.db) && Receipted(s.db)
  }

  ghost predicate Inv(s: State) {
    Leasing(s) && Recorded(s) && Fresh(s)
  }
}
