/** What the tables show after an attempt has committed, said of the tables before it and of the outcomes of host code:
    neither the proposal nor the transaction is mentioned. */
module Consequences {
  import opened Wrappers
  import opened Contexts
  import opened ProcessDefs
  import opened Tasks
  import opened Dispatch
  import opened Outcomes
  import opened Database
  import opened Tables
  import opened Commits
  import opened Protocol
  import opened Invariants
  import opened Preservation
  import opened Transitions

  // ---- Commits that land ----

  /** The worker still holds its lease and nothing has changed the instance since it read it. */
  predicate Lands(s: State, key: LockKey) {
    && key in s.workers && s.workers[key].phase.Proposed?
    && Holds(s.db, s.workers[key].job)
    && s.workers[key].phase.snap.revision == s.db.inst.revision
  }

  function HostOf(s: State, key: LockKey): Host
    requires Lands(s, key)
  {
    s.workers[key].phase.host
  }

  /** The task as its row describes it now. */
  function JobAt(s: State, key: LockKey): Job
    requires Lands(s, key)
  {
    var u := s.workers[key].job.uuid;
    Job(u, key, s.db.queue[u].task, s.db.queue[u].attempts, s.db.queue[u].createdAt)
  }

  function ViewAt(s: State, key: LockKey): Snapshot
    requires Lands(s, key)
  {
    Seen(s.db, s.workers[key].job.uuid)
  }

  /** A proposal that lands on the tables `db` and leads to `d`. */
  ghost predicate Landed(db: Db, d: Db, job: Job, snap: Snapshot, host: Host, now: int, c: Changes) {
    && |c.tasks| <= 1 && Passes(db, job, snap, c) && Effect(db, job, snap, c, now, d)
    && job.uuid in db.queue && snap == Seen(db, job.uuid)
    && (forall u :: u in db.queue ==> u < db.nextId)
    && (forall i :: i in db.incidents ==> i < db.nextId && !db.incidents[i].open)
    && (if Prepares(job, snap, host) then Proposes(job, snap, host, c) else FailureAnswered(job, snap, host, c))
  }

  lemma SnapshotIsView(s: State, key: LockKey)
    requires Inv(s) && Lands(s, key)
    ensures s.workers[key].job == JobAt(s, key) && s.workers[key].phase.snap == ViewAt(s, key)
    ensures s.workers[key].phase.changes == Prepared(JobAt(s, key), ViewAt(s, key), HostOf(s, key))
  {
    assert SoundSnapshot(s.db, s.workers[key], s.workers[key].phase.snap);
  }

  lemma HeldRuns(db: Db, job: Job)
    requires Recovering(db) && Holds(db, job)
    ensures !db.inst.suspended && (forall i :: i in db.incidents ==> !db.incidents[i].open)
  {
    assert Active(db.queue[job.uuid], db.clock);
  }

  lemma Landing(s: State, key: LockKey, now: int) returns (c: Changes)
    requires Inv(s) && Lands(s, key)
    ensures Landed(s.db, After(s, Commit(key, now)).db, JobAt(s, key), ViewAt(s, key), HostOf(s, key), now, c)
  {
    c := s.workers[key].phase.changes;
    SnapshotIsView(s, key);
    HeldRuns(s.db, s.workers[key].job);
    PreparedMeans(JobAt(s, key), ViewAt(s, key), HostOf(s, key));
    LandingEffect(s, key, now);
  }

  lemma LandingEffect(s: State, key: LockKey, now: int)
    requires Inv(s) && Lands(s, key) && !s.db.inst.suspended
    requires s.workers[key].job == JobAt(s, key) && s.workers[key].phase.snap == ViewAt(s, key)
    requires forall i :: i in s.db.incidents ==> !s.db.incidents[i].open
    ensures var c := s.workers[key].phase.changes;
      && |c.tasks| <= 1 && Passes(s.db, JobAt(s, key), ViewAt(s, key), c)
      && Effect(s.db, JobAt(s, key), ViewAt(s, key), c, now, After(s, Commit(key, now)).db)
  {
    var w := s.workers[key];
    CommitFacts(s, key, now);
    LandingPasses(s.db, w);
    CommitTables(s, key, now);
  }

  /** The tables after a commit step that the transaction accepts. */
  lemma CommitTables(s: State, key: LockKey, now: int)
    requires key in s.workers && s.workers[key].phase.Proposed?
    ensures var w := s.workers[key]; var r := Committed(s.db, w.job, w.phase.snap, w.phase.changes, now);
      r.Ok? ==> After(s, Commit(key, now)).db == r.value
  {
  }

  lemma LandingPasses(db: Db, w: Worker)
    requires w.phase.Proposed? && Proposal(w.job, w.phase.snap, w.phase.changes)
    requires Holds(db, w.job) && w.phase.snap == Seen(db, w.job.uuid) && !db.inst.suspended
    requires forall i :: i in db.incidents ==> !db.incidents[i].open
    ensures Passes(db, w.job, w.phase.snap, w.phase.changes)
  {
  }

  /** A commit that does not land changes no table. */
  lemma NotLandedIsInert(s: State, key: LockKey, now: int)
    requires Reachable(s) && !Lands(s, key)
    ensures After(s, Commit(key, now)).db == s.db
  {
    if key in s.workers && s.workers[key].phase.Proposed? {
      NotLandedRefused(s.db, s.workers[key], now);
    }
  }

  lemma NotLandedRefused(db: Db, w: Worker, now: int)
    requires w.phase.Proposed? && !(Holds(db, w.job) && w.phase.snap.revision == db.inst.revision)
    ensures Committed(db, w.job, w.phase.snap, w.phase.changes, now).Err?
  {
  }

  // ---- Rows ----

  /** A timeout of the visit that has been closed. */
  predicate Overtaken(row: QueueRow, closed: Option<Uuid>) {
    closed.Some? && row.task.ProcessEvent? && row.visit == closed
  }

  /** Besides the row `u`: the timeouts of the closed visit are gone, at most one fresh row is added, and every other
      row is as it was. */
  ghost predicate Rows(db: Db, d: Db, u: Uuid, closed: Option<Uuid>, added: Option<QueueRow>) {
    && (forall x :: x != u ==>
          (x in d.queue <==> (x in db.queue && !Overtaken(db.queue[x], closed)) || (added.Some? && x == db.nextId)))
    && (forall x :: x != u && x in db.queue && x in d.queue && x != db.nextId ==> d.queue[x] == db.queue[x])
    && (added.Some? ==> db.nextId !in db.queue && db.nextId != u && db.nextId in d.queue && d.queue[db.nextId] == added.value)
  }

  /** The row of the node declared under `id`, due at the commit. */
  function NodeRow(db: Db, id: Id, now: int): QueueRow
    requires FindNode(db.definition, id).Some?
  {
    FreshRow(db, ProcessNode(FindNode(db.definition, id).value), now, None)
  }

  /** The row a proposal adds. */
  function AddedRow(db: Db, tasks: seq<Scheduled>, now: int): Option<QueueRow> {
    if tasks == [] then None
    else Some(FreshRow(db, tasks[0].task, if tasks[0].runAfter.Some? then tasks[0].runAfter.value else now, tasks[0].visit))
  }

  lemma RowsOfEffect(db: Db, job: Job, snap: Snapshot, c: Changes, now: int, d: Db)
    requires Effect(db, job, snap, c, now, d) && Passes(db, job, snap, c) && |c.tasks| <= 1
    requires forall u :: u in db.queue ==> u < db.nextId
    ensures Rows(db, d, job.uuid, if c.closeWait then snap.visit else None, AddedRow(db, c.tasks, now))
  {
  }

  // ---- The source task ----

  /** The instance is suspended by one open incident for `u`, whose row is kept, released and due; nothing can be
      claimed. */
  ghost predicate Suspends(db: Db, d: Db, u: Uuid, now: int) {
    && d.inst.suspended && d.inst.recovery == db.inst.recovery
    && d.incidents == db.incidents[db.nextId := Incident(u, true)]
    && (forall i :: i in d.incidents && d.incidents[i].open ==> i == db.nextId)
    && u in db.queue && u in d.queue && d.queue[u] == db.queue[u].(runAfter := now, lease := None)
    && (forall v :: !Claimable(d, v))
  }

  /** The row of `u` is released, due at the given time and counts one more retry. */
  ghost predicate Retries(db: Db, d: Db, u: Uuid, at: int) {
    && !d.inst.suspended && d.inst.recovery == db.inst.recovery && d.incidents == db.incidents
    && u in db.queue && u in d.queue
    && d.queue[u] == db.queue[u].(runAfter := at, lease := None, retries := db.queue[u].retries + 1)
  }

  /** The task is done: its row is gone, and a recovery it was needed for is over. */
  ghost predicate Completes(db: Db, d: Db, u: Uuid) {
    && !d.inst.suspended && d.incidents == db.incidents && u !in d.queue
    && d.inst.recovery == (if db.inst.recovery == Some(u) then None else db.inst.recovery)
  }

  /** The revision moves and the clock, the definition and the receipts stay. */
  predicate Moves(db: Db, d: Db) {
    && d.inst.revision == db.inst.revision + 1
    && d.clock == db.clock && d.definition == db.definition && d.receipts == db.receipts
  }

  lemma SourceOfEffect(db: Db, job: Job, snap: Snapshot, c: Changes, now: int, d: Db)
    requires Effect(db, job, snap, c, now, d) && Passes(db, job, snap, c) && |c.tasks| <= 1
    requires forall u :: u in db.queue ==> u < db.nextId
    requires forall i :: i in db.incidents ==> i < db.nextId && !db.incidents[i].open
    ensures Moves(db, d)
    ensures c.incident.Some? ==> Suspends(db, d, job.uuid, now)
    ensures c.incident.None? && c.retryAt.Some? ==> Retries(db, d, job.uuid, c.retryAt.value)
    ensures c.incident.None? && c.retryAt.None? ==> Completes(db, d, job.uuid)
  {
  }

  /** The instance stays where it is, with its context and its log. */
  predicate Stays(db: Db, d: Db) {
    && d.inst.current == db.inst.current && d.inst.visit == db.inst.visit && d.inst.stage == db.inst.stage
    && d.inst.waitCompleted == db.inst.waitCompleted && d.context == db.context && d.log == db.log
  }

  // ---- Failed preparations ----

  /** Neither a call of uncertain outcome nor a condition that broke, and yet not everything was there. */
  ghost predicate FailsOtherwise(job: Job, snap: Snapshot, host: Host) {
    !Prepares(job, snap, host) && !MeetsUncertainty(job, snap, host) && !MeetsBrokenCondition(job, snap, host)
  }

  /** What a failed preparation leaves behind. */
  ghost predicate FailureShows(db: Db, d: Db, job: Job, snap: Snapshot, host: Host, now: int) {
    && Moves(db, d) && Stays(db, d) && Rows(db, d, job.uuid, None, None)
    && (if FailsOtherwise(job, snap, host) && job.attempts < 3 then Retries(db, d, job.uuid, host.now + 5000)
        else Suspends(db, d, job.uuid, now))
  }

  lemma FailureByEffect(db: Db, d: Db, job: Job, snap: Snapshot, host: Host, now: int, c: Changes)
    requires Landed(db, d, job, snap, host, now, c) && !Prepares(job, snap, host)
    ensures FailureShows(db, d, job, snap, host, now)
  {
    RowsOfEffect(db, job, snap, c, now, d);
    SourceOfEffect(db, job, snap, c, now, d);
    StaysOfEffect(db, job, snap, c, now, d);
  }

  lemma FailureLands(s: State, key: LockKey, now: int)
    requires Inv(s) && Lands(s, key) && !Prepares(JobAt(s, key), ViewAt(s, key), HostOf(s, key))
    ensures FailureShows(s.db, After(s, Commit(key, now)).db, JobAt(s, key), ViewAt(s, key), HostOf(s, key), now)
  {
    var c := Landing(s, key, now);
    FailureByEffect(s.db, After(s, Commit(key, now)).db, JobAt(s, key), ViewAt(s, key), HostOf(s, key), now, c);
  }

  lemma StaysOfEffect(db: Db, job: Job, snap: Snapshot, c: Changes, now: int, d: Db)
    requires Effect(db, job, snap, c, now, d)
    requires c == NO_CHANGES.(incident := c.incident, retryAt := c.retryAt)
    ensures Stays(db, d)
  {
    assert db.log + [] == db.log;
  }

  lemma UncertainNotPrepared(job: Job, snap: Snapshot, host: Host)
    requires MeetsUncertainty(job, snap, host) || MeetsBrokenCondition(job, snap, host)
    ensures !Prepares(job, snap, host)
  {
    AttemptMeans(job, snap, host);
  }

  /** A call whose outcome is unknown, or a condition that cannot be evaluated, stops the instance at once, on any
      attempt: one incident is open for the task, and nothing of the instance can be claimed until a resume. */
  lemma DoubtSuspends(s: State, key: LockKey, now: int, steps: seq<Step>)
    requires Reachable(s) && Lands(s, key)
    requires MeetsUncertainty(JobAt(s, key), ViewAt(s, key), HostOf(s, key))
             || MeetsBrokenCondition(JobAt(s, key), ViewAt(s, key), HostOf(s, key))
    requires forall i :: 0 <= i < |steps| ==> !steps[i].Resume?
    ensures var t, u := After(s, Commit(key, now)), JobAt(s, key).uuid;
      && Moves(s.db, t.db) && Stays(s.db, t.db) && Rows(s.db, t.db, u, None, None) && Suspends(s.db, t.db, u, now)
      && StillSuspended(t, Run(t, steps))
  {
    ReachableInv(s);
    UncertainNotPrepared(JobAt(s, key), ViewAt(s, key), HostOf(s, key));
    FailureLands(s, key, now);
    StepKeeps(s, Commit(key, now));
    SuspendedUntilResumed(After(s, Commit(key, now)), steps);
  }

  /** Any other failed preparation waits five seconds on the first two attempts and stops the instance from the
      third on; the instance stays where it is. */
  lemma FailureWaits(s: State, key: LockKey, now: int)
    requires Reachable(s) && Lands(s, key) && FailsOtherwise(JobAt(s, key), ViewAt(s, key), HostOf(s, key))
    ensures var d, u := After(s, Commit(key, now)).db, JobAt(s, key).uuid;
      && Moves(s.db, d) && Stays(s.db, d) && Rows(s.db, d, u, None, None)
      && (if JobAt(s, key).attempts <= 2 then Retries(s.db, d, u, HostOf(s, key).now + 5000) else Suspends(s.db, d, u, now))
  {
    ReachableInv(s);
    FailureLands(s, key, now);
  }

  ghost predicate StillSuspended(s: State, t: State) {
    t.db.inst.suspended && t.db.incidents == s.db.incidents && forall v :: !Claimable(t.db, v)
  }

  lemma SuspendedStep(s: State, step: Step)
    requires Inv(s) && s.db.inst.suspended && !step.Resume?
    ensures After(s, step).db.inst.suspended && After(s, step).db.incidents == s.db.incidents
  {
    if step.Commit? {
      if step.key in s.workers && s.workers[step.key].phase.Proposed? {
        CommitFacts(s, step.key, step.now);
      }
    } else if ByWorker(step) {
      WorkerRows(s, step);
    } else {
      OutsideSuspension(s, step);
    }
  }

  lemma OutsideSuspension(s: State, step: Step)
    requires !ByWorker(step) && !step.Resume?
    ensures After(s, step).db.inst.suspended == s.db.inst.suspended && After(s, step).db.incidents == s.db.incidents
  {
  }

  lemma {:induction false} SuspendedUntilResumed(s: State, steps: seq<Step>)
    requires Inv(s) && s.db.inst.suspended && forall i :: 0 <= i < |steps| ==> !steps[i].Resume?
    ensures StillSuspended(s, Run(s, steps))
  {
    if steps != [] {
      var before := steps[..|steps| - 1];
      SuspendedUntilResumed(s, before);
      RunKeeps(s, before);
      SuspendedStep(Run(s, before), steps[|steps| - 1]);
    }
  }

  // ---- Node tasks ----

  /** A new visit of the node is open under the identity of the task, with its stage and its history entries; a visit
      that was open under it goes on. */
  predicate Visited(db: Db, d: Db, u: Uuid, node: Node) {
    if db.inst.visit == Some(u) then
      && d.inst.current == db.inst.current && d.inst.visit == db.inst.visit
      && d.inst.waitCompleted == db.inst.waitCompleted && d.inst.stage == db.inst.stage && d.log == db.log
    else
      && d.inst.current == Some(node.id) && d.inst.visit == Some(u) && !d.inst.waitCompleted
      && d.inst.stage == (if node.setStage.Some? then node.setStage else db.inst.stage)
      && d.log == db.log + [NodeEntered(node.id, u)]
                  + (if node.setStage.Some? then [StageChanged(node.setStage.value.stage)] else [])
  }

  lemma VisitOfEffect(db: Db, job: Job, snap: Snapshot, node: Node, c: Changes, now: int, d: Db)
    requires Effect(db, job, snap, c, now, d) && Announced(job, snap, node, c) && !c.closeWait && snap.visit == db.inst.visit
    ensures Visited(db, d, job.uuid, node)
    ensures c.context == None && c.patch == None ==> d.context == db.context
    ensures c.patch.Some? ==> d.context == Patched(db.context, c.patch.value)
  {
    assert db.log + [] == db.log;
    if NewVisit(job, snap) {
      var more := if node.setStage.Some? then [StageChanged(node.setStage.value.stage)] else [];
      assert db.log + ([NodeEntered(node.id, job.uuid)] + more) == db.log + [NodeEntered(node.id, job.uuid)] + more;
    }
  }

  /** The task carries a node, and its attempt prepared. */
  ghost predicate NodeLands(s: State, key: LockKey) {
    Lands(s, key) && JobAt(s, key).task.ProcessNode? && Prepares(JobAt(s, key), ViewAt(s, key), HostOf(s, key))
  }

  function NodeAt(s: State, key: LockKey): Node
    requires Lands(s, key) && JobAt(s, key).task.ProcessNode?
  {
    JobAt(s, key).task.node
  }

  /** What every node task does when it lands, besides what its kind does. */
  ghost predicate NodeEffect(db: Db, d: Db, job: Job, host: Host, now: int, c: Changes)
    requires job.uuid in db.queue && job.task.ProcessNode?
  {
    && Moves(db, d) && Visited(db, d, job.uuid, job.task.node)
    && HandlingProposes(job, Seen(db, job.uuid), host, job.task.node, c)
    && Rows(db, d, job.uuid, None, AddedRow(db, c.tasks, now))
    && (if c.incident.Some? then Suspends(db, d, job.uuid, now)
        else if c.retryAt.Some? then Retries(db, d, job.uuid, c.retryAt.value)
        else Completes(db, d, job.uuid))
    && (c.context == None && c.patch == None ==> d.context == db.context)
    && (c.patch.Some? ==> d.context == Patched(db.context, c.patch.value))
  }

  lemma NodeByEffect(db: Db, d: Db, job: Job, snap: Snapshot, host: Host, now: int, c: Changes)
    requires Landed(db, d, job, snap, host, now, c) && Prepares(job, snap, host) && job.task.ProcessNode?
    ensures NodeEffect(db, d, job, host, now, c)
  {
    RowsOfEffect(db, job, snap, c, now, d);
    SourceOfEffect(db, job, snap, c, now, d);
    VisitOfEffect(db, job, snap, job.task.node, c, now, d);
  }

  lemma NodeLanding(s: State, key: LockKey, now: int) returns (c: Changes)
    requires Inv(s) && NodeLands(s, key)
    ensures NodeEffect(s.db, After(s, Commit(key, now)).db, JobAt(s, key), HostOf(s, key), now, c)
  {
    c := Landing(s, key, now);
    NodeByEffect(s.db, After(s, Commit(key, now)).db, JobAt(s, key), ViewAt(s, key), HostOf(s, key), now, c);
  }

  /** The task is done and one task for the declared node `id` is queued, due at the commit. */
  ghost predicate PassesOn(db: Db, d: Db, u: Uuid, closed: Option<Uuid>, id: Id, now: int) {
    FindNode(db.definition, id).Some? && Completes(db, d, u) && Rows(db, d, u, closed, Some(NodeRow(db, id, now)))
  }

  /** The task is done and nothing is queued. */
  ghost predicate Stops(db: Db, d: Db, u: Uuid, closed: Option<Uuid>) {
    Completes(db, d, u) && Rows(db, d, u, closed, None)
  }

  /** The task is done, and what the successor leads to on the given context is queued. */
  ghost predicate GoesOn(db: Db, d: Db, u: Uuid, closed: Option<Uuid>, host: Host, context: ContextMap,
                         successor: Option<Next>, now: int) {
    if successor.None? then Stops(db, d, u, closed)
    else exists id :: Leads(host, context, successor.value, id) && PassesOn(db, d, u, closed, id, now)
  }

  lemma QueuesPassesOn(db: Db, d: Db, u: Uuid, closed: Option<Uuid>, id: Id, tasks: seq<Scheduled>, now: int)
    requires Queues(db.definition, id, tasks) && Completes(db, d, u)
    requires Rows(db, d, u, closed, AddedRow(db, tasks, now))
    ensures PassesOn(db, d, u, closed, id, now)
  {
  }

  lemma FollowsGoesOn(db: Db, d: Db, u: Uuid, closed: Option<Uuid>, host: Host, context: ContextMap,
                      successor: Option<Next>, tasks: seq<Scheduled>, now: int)
    requires Follows(db.definition, host, context, successor, tasks) && Completes(db, d, u)
    requires Rows(db, d, u, closed, AddedRow(db, tasks, now))
    ensures GoesOn(db, d, u, closed, host, context, successor, now)
  {
    if successor.Some? {
      var id :| Leads(host, context, successor.value, id) && Queues(db.definition, id, tasks);
      QueuesPassesOn(db, d, u, closed, id, tasks, now);
    }
  }

  /** Start passes control to its first node; an End keeps none. */
  lemma EndsLand(s: State, key: LockKey, now: int)
    requires Reachable(s) && NodeLands(s, key) && (NodeAt(s, key).Start? || NodeAt(s, key).End?)
    ensures var d, u := After(s, Commit(key, now)).db, JobAt(s, key).uuid;
      && Moves(s.db, d) && Visited(s.db, d, u, NodeAt(s, key)) && d.context == s.db.context
      && (if NodeAt(s, key).Start? then PassesOn(s.db, d, u, None, NodeAt(s, key).first, now) else Stops(s.db, d, u, None))
  {
    ReachableInv(s);
    var c := NodeLanding(s, key, now);
    EndsByEffect(s.db, After(s, Commit(key, now)).db, JobAt(s, key), HostOf(s, key), now, c);
  }

  lemma EndsByEffect(db: Db, d: Db, job: Job, host: Host, now: int, c: Changes)
    requires job.uuid in db.queue && job.task.ProcessNode? && (job.task.node.Start? || job.task.node.End?)
    requires NodeEffect(db, d, job, host, now, c)
    ensures d.context == db.context
    ensures if job.task.node.Start? then PassesOn(db, d, job.uuid, None, job.task.node.first, now)
            else Stops(db, d, job.uuid, None)
  {
    if job.task.node.Start? {
      QueuesPassesOn(db, d, job.uuid, None, job.task.node.first, c.tasks, now);
    }
  }

  /** A gateway passes control to the target of its first true branch on the stored context, every earlier condition
      being false, or to the fallback when all are false. */
  lemma GatewayLands(s: State, key: LockKey, now: int, id: Id)
    requires Reachable(s) && NodeLands(s, key) && NodeAt(s, key).Gateway?
    requires Chooses(HostOf(s, key), s.db.context, NodeAt(s, key).branches, NodeAt(s, key).fallback, id)
    ensures var d, u := After(s, Commit(key, now)).db, JobAt(s, key).uuid;
      && Moves(s.db, d) && Visited(s.db, d, u, NodeAt(s, key)) && d.context == s.db.context
      && PassesOn(s.db, d, u, None, id, now)
  {
    ReachableInv(s);
    var c := NodeLanding(s, key, now);
    GatewayByEffect(s.db, After(s, Commit(key, now)).db, JobAt(s, key), HostOf(s, key), now, c, id);
  }

  lemma GatewayByEffect(db: Db, d: Db, job: Job, host: Host, now: int, c: Changes, id: Id)
    requires job.uuid in db.queue && job.task.ProcessNode? && job.task.node.Gateway?
    requires NodeEffect(db, d, job, host, now, c)
    requires Chooses(host, db.context, job.task.node.branches, job.task.node.fallback, id)
    ensures d.context == db.context && PassesOn(db, d, job.uuid, None, id, now)
  {
    var target :| Chooses(host, db.context, job.task.node.branches, job.task.node.fallback, target)
                  && Queues(db.definition, target, c.tasks);
    ChoiceExclusive(host, db.context, job.task.node.branches, job.task.node.fallback, id, target);
    QueuesPassesOn(db, d, job.uuid, None, id, c.tasks, now);
  }

  /** The timeout of a node entered under `u`, if it has a timer, is the one new row. */
  ghost predicate TimeoutAdded(db: Db, d: Db, u: Uuid, node: Node, due: int) {
    Rows(db, d, u, None, if TimerOf(node).None? then None
                         else Some(FreshRow(db, ProcessEvent(node, TimerOf(node).value.onTimeout), due, Some(u))))
  }

  /** A wait or a user task opens its visit and queues its timeout, if it has one: due at the absolute time, or else at
      the time of the attempt plus the delay. */
  lemma WaitLands(s: State, key: LockKey, now: int, due: int)
    requires Reachable(s) && NodeLands(s, key) && (NodeAt(s, key).Wait? || NodeAt(s, key).UserTask?)
    requires TimerOf(NodeAt(s, key)).Some? ==> DueAt(TimerOf(NodeAt(s, key)).value, HostOf(s, key).now, due)
    ensures var d, u := After(s, Commit(key, now)).db, JobAt(s, key).uuid;
      && Moves(s.db, d) && Visited(s.db, d, u, NodeAt(s, key)) && d.context == s.db.context && Completes(s.db, d, u)
      && TimeoutAdded(s.db, d, u, NodeAt(s, key), due)
  {
    ReachableInv(s);
    var c := NodeLanding(s, key, now);
    WaitByEffect(s.db, After(s, Commit(key, now)).db, JobAt(s, key), HostOf(s, key), now, c, due);
  }

  lemma WaitByEffect(db: Db, d: Db, job: Job, host: Host, now: int, c: Changes, due: int)
    requires job.uuid in db.queue && job.task.ProcessNode? && (job.task.node.Wait? || job.task.node.UserTask?)
    requires NodeEffect(db, d, job, host, now, c)
    requires TimerOf(job.task.node).Some? ==> DueAt(TimerOf(job.task.node).value, host.now, due)
    ensures d.context == db.context && Completes(db, d, job.uuid)
    ensures TimeoutAdded(db, d, job.uuid, job.task.node, due)
  {
  }

  /** A handler that succeeds patches the stored context, and its successor is chosen on the patched one. */
  lemma SuccessLands(s: State, key: LockKey, now: int, patch: Patch)
    requires Reachable(s) && NodeLands(s, key) && NodeAt(s, key).ServiceTask?
    requires HostOf(s, key).handler == HandlerSucceeded(patch)
    ensures var d, u := After(s, Commit(key, now)).db, JobAt(s, key).uuid;
      && Moves(s.db, d) && Visited(s.db, d, u, NodeAt(s, key)) && d.context == Patched(s.db.context, patch)
      && GoesOn(s.db, d, u, None, HostOf(s, key), d.context, NodeAt(s, key).successor, now)
  {
    ReachableInv(s);
    var c := NodeLanding(s, key, now);
    FollowsGoesOn(s.db, After(s, Commit(key, now)).db, JobAt(s, key).uuid, None, HostOf(s, key),
                  Patched(s.db.context, patch), NodeAt(s, key).successor, c.tasks, now);
  }

  /** A handler that asks for a repetition is queued again for the time it names. */
  lemma RepetitionLands(s: State, key: LockKey, now: int, at: int)
    requires Reachable(s) && NodeLands(s, key) && NodeAt(s, key).ServiceTask?
    requires HostOf(s, key).handler == HandlerRepeat(at)
    ensures var d, u := After(s, Commit(key, now)).db, JobAt(s, key).uuid;
      && Moves(s.db, d) && Visited(s.db, d, u, NodeAt(s, key)) && d.context == s.db.context && Completes(s.db, d, u)
      && Rows(s.db, d, u, None, Some(FreshRow(s.db, ProcessNode(NodeAt(s, key)), at, None)))
  {
    ReachableInv(s);
    var c := NodeLanding(s, key, now);
    RepetitionByEffect(s.db, After(s, Commit(key, now)).db, JobAt(s, key), HostOf(s, key), now, c, at);
  }

  lemma RepetitionByEffect(db: Db, d: Db, job: Job, host: Host, now: int, c: Changes, at: int)
    requires job.uuid in db.queue && job.task.ProcessNode? && job.task.node.ServiceTask?
    requires NodeEffect(db, d, job, host, now, c) && host.handler == HandlerRepeat(at)
    ensures d.context == db.context && Completes(db, d, job.uuid)
    ensures Rows(db, d, job.uuid, None, Some(FreshRow(db, ProcessNode(job.task.node), at, None)))
  {
  }

  /** A retry while attempts remain, then the error route, then suspension. */
  ghost predicate FailureHandled(db: Db, d: Db, job: Job, host: Host, node: Node, now: int)
    requires node.ServiceTask?
  {
    if node.retries.Some? && job.attempts <= node.retries.value.max then
      Retries(db, d, job.uuid, host.now + node.retries.value.backoff) && Rows(db, d, job.uuid, None, None)
    else if node.onError.Some? && node.onError.value.next.Some? then
      PassesOn(db, d, job.uuid, None, node.onError.value.next.value, now)
    else
      Suspends(db, d, job.uuid, now) && Rows(db, d, job.uuid, None, None)
  }

  /** A handler that fails is retried after its backoff while attempts remain; then control passes to the error route;
      without one the instance is suspended. */
  lemma HandlerFailureLands(s: State, key: LockKey, now: int)
    requires Reachable(s) && NodeLands(s, key) && NodeAt(s, key).ServiceTask? && HostOf(s, key).handler == HandlerFailed
    ensures var d, u := After(s, Commit(key, now)).db, JobAt(s, key).uuid;
      && Moves(s.db, d) && Visited(s.db, d, u, NodeAt(s, key)) && d.context == s.db.context
      && FailureHandled(s.db, d, JobAt(s, key), HostOf(s, key), NodeAt(s, key), now)
  {
    ReachableInv(s);
    var c := NodeLanding(s, key, now);
    HandlerFailureByEffect(s.db, After(s, Commit(key, now)).db, JobAt(s, key), HostOf(s, key), now, c);
  }

  lemma HandlerFailureByEffect(db: Db, d: Db, job: Job, host: Host, now: int, c: Changes)
    requires job.uuid in db.queue && job.task.ProcessNode? && job.task.node.ServiceTask? && host.handler == HandlerFailed
    requires NodeEffect(db, d, job, host, now, c)
    ensures d.context == db.context && FailureHandled(db, d, job, host, job.task.node, now)
  {
    if !AttemptsRemain(job, job.task.node) && ErrorRoute(job.task.node).Some? {
      QueuesPassesOn(db, d, job.uuid, None, ErrorRoute(job.task.node).value, c.tasks, now);
    }
  }

  // ---- Timeouts and signals ----

  /** The open wait is closed by the given event; the instance stays at its node. */
  predicate WaitClosed(db: Db, d: Db, event: Event) {
    && d.inst.current == db.inst.current && d.inst.visit == db.inst.visit && d.inst.stage == db.inst.stage
    && db.inst.visit.Some? && !db.inst.waitCompleted && d.inst.waitCompleted
    && d.log == db.log + [event]
  }

  lemma ClosingOfEffect(db: Db, job: Job, snap: Snapshot, c: Changes, now: int, d: Db, event: Event)
    requires Effect(db, job, snap, c, now, d) && Passes(db, job, snap, c)
    requires c == NO_CHANGES.(closeWait := true, context := c.context, tasks := c.tasks, events := [event])
    requires c.context.Some? && snap.visit == db.inst.visit
    ensures WaitClosed(db, d, event) && d.context == db.context + c.context.value
  {
  }

  lemma StoredWhole(before: ContextMap, payload: ContextMap, marks: ContextMap, after: ContextMap)
    requires Extended(before, payload, marks, after)
    ensures before + after == after
  {
  }

  ghost predicate SignalLands(s: State, key: LockKey) {
    Lands(s, key) && JobAt(s, key).task.ProcessSignal? && Prepares(JobAt(s, key), ViewAt(s, key), HostOf(s, key))
  }

  /** What an accepted signal leaves behind. */
  ghost predicate AnswerShows(db: Db, d: Db, job: Job, snap: Snapshot, host: Host, now: int)
    requires job.task.ProcessSignal? && snap.current.Some?
  {
    var posted := job.task.posted;
    && Moves(db, d) && db.inst.visit.Some?
    && WaitClosed(db, d, SignalAccepted(job.uuid, posted.eventId, db.inst.visit.value))
    && Extended(db.context, posted.context, SignalMarks(posted), d.context)
    && GoesOn(db, d, job.uuid, db.inst.visit, host, d.context, SuccessorOf(snap.current.value), now)
  }

  lemma AnswerByEffect(db: Db, d: Db, job: Job, snap: Snapshot, host: Host, now: int, c: Changes)
    requires Landed(db, d, job, snap, host, now, c) && Prepares(job, snap, host)
    requires job.task.ProcessSignal? && Answered(snap, job.task.posted)
    ensures AnswerShows(db, d, job, snap, host, now)
  {
    RowsOfEffect(db, job, snap, c, now, d);
    SourceOfEffect(db, job, snap, c, now, d);
    ClosingOfEffect(db, job, snap, c, now, d, SignalAccepted(job.uuid, job.task.posted.eventId, snap.taskVisit.value));
    StoredWhole(db.context, job.task.posted.context, SignalMarks(job.task.posted), c.context.value);
    FollowsGoesOn(db, d, job.uuid, db.inst.visit, host, d.context, SuccessorOf(snap.current.value), c.tasks, now);
  }

  /** A signal that the open wait awaits closes it: the stored context gains the payload and then the mark of the
      signal, every other key keeps its value, the timeouts of the visit are gone, and the successor is chosen on the
      context as stored. */
  lemma AnswerLands(s: State, key: LockKey, now: int)
    requires Reachable(s) && SignalLands(s, key) && Answered(ViewAt(s, key), JobAt(s, key).task.posted)
    ensures AnswerShows(s.db, After(s, Commit(key, now)).db, JobAt(s, key), ViewAt(s, key), HostOf(s, key), now)
  {
    ReachableInv(s);
    var c := Landing(s, key, now);
    AnswerByEffect(s.db, After(s, Commit(key, now)).db, JobAt(s, key), ViewAt(s, key), HostOf(s, key), now, c);
  }

  /** A signal that has to wait: the first tier that covers its age delays it, and without one it is dropped. */
  ghost predicate Deferred(db: Db, d: Db, job: Job, host: Host) {
    var age := if host.now < job.createdAt then 0 else host.now - job.createdAt;
    || (exists i :: TierFor(host.policy, age, i) && Retries(db, d, job.uuid, host.now + host.policy.tiers[i].delay))
    || ((forall i :: !TierFor(host.policy, age, i)) && Completes(db, d, job.uuid))
  }

  ghost predicate UnansweredShows(db: Db, d: Db, job: Job, snap: Snapshot, host: Host) {
    && Moves(db, d) && Stays(db, d) && Rows(db, d, job.uuid, None, None)
    && (if snap.taskVisit.Some? || (snap.current.Some? && snap.current.value.End?) then Completes(db, d, job.uuid)
        else Deferred(db, d, job, host))
  }

  lemma UnansweredByEffect(db: Db, d: Db, job: Job, snap: Snapshot, host: Host, now: int, c: Changes)
    requires Landed(db, d, job, snap, host, now, c) && Prepares(job, snap, host)
    requires job.task.ProcessSignal? && !Answered(snap, job.task.posted)
    ensures UnansweredShows(db, d, job, snap, host)
  {
    RowsOfEffect(db, job, snap, c, now, d);
    SourceOfEffect(db, job, snap, c, now, d);
    StaysOfEffect(db, job, snap, c, now, d);
    if snap.taskVisit.None? && !(snap.current.Some? && snap.current.value.End?) {
      DeferredByEffect(db, d, job, host, c);
    }
  }

  lemma DeferredByEffect(db: Db, d: Db, job: Job, host: Host, c: Changes)
    requires Postponed(job, host, c)
    requires c.retryAt.Some? ==> Retries(db, d, job.uuid, c.retryAt.value)
    requires c.retryAt.None? ==> Completes(db, d, job.uuid)
    ensures Deferred(db, d, job, host)
  {
  }

  /** A signal that no open wait awaits changes neither the instance nor another task. Bound to a visit, or after the
      end, it is dropped; otherwise the tier of its age decides when it is delivered again. */
  lemma UnansweredLands(s: State, key: LockKey, now: int)
    requires Reachable(s) && SignalLands(s, key) && !Answered(ViewAt(s, key), JobAt(s, key).task.posted)
    ensures UnansweredShows(s.db, After(s, Commit(key, now)).db, JobAt(s, key), ViewAt(s, key), HostOf(s, key))
  {
    ReachableInv(s);
    var c := Landing(s, key, now);
    UnansweredByEffect(s.db, After(s, Commit(key, now)).db, JobAt(s, key), ViewAt(s, key), HostOf(s, key), now, c);
  }

  ghost predicate TimeoutLands(s: State, key: LockKey) {
    Lands(s, key) && JobAt(s, key).task.ProcessEvent? && Prepares(JobAt(s, key), ViewAt(s, key), HostOf(s, key))
  }

  /** What a timeout leaves behind. */
  ghost predicate ExpiryShows(db: Db, d: Db, job: Job, snap: Snapshot, host: Host, now: int)
    requires job.task.ProcessEvent?
  {
    && Moves(db, d)
    && (if OnTime(snap, job.task.origin) then
          && db.inst.visit.Some? && TimerOf(job.task.origin).Some?
          && WaitClosed(db, d, TimeoutAccepted(job.uuid, db.inst.visit.value))
          && Extended(db.context, TimerOf(job.task.origin).value.context,
                      TimeoutMarks(job.task.origin, job.task.onTime, host.now), d.context)
          && PassesOn(db, d, job.uuid, db.inst.visit, job.task.onTime, now)
        else
          Stays(db, d) && Stops(db, d, job.uuid, None))
  }

  lemma ExpiryByEffect(db: Db, d: Db, job: Job, snap: Snapshot, host: Host, now: int, c: Changes)
    requires Landed(db, d, job, snap, host, now, c) && Prepares(job, snap, host) && job.task.ProcessEvent?
    ensures ExpiryShows(db, d, job, snap, host, now)
  {
    RowsOfEffect(db, job, snap, c, now, d);
    SourceOfEffect(db, job, snap, c, now, d);
    if OnTime(snap, job.task.origin) {
      ClosingOfEffect(db, job, snap, c, now, d, TimeoutAccepted(job.uuid, snap.taskVisit.value));
      StoredWhole(db.context, TimerOf(job.task.origin).value.context,
                  TimeoutMarks(job.task.origin, job.task.onTime, host.now), c.context.value);
      QueuesPassesOn(db, d, job.uuid, db.inst.visit, job.task.onTime, c.tasks, now);
    } else {
      StaysOfEffect(db, job, snap, c, now, d);
    }
  }

  /** A timeout on its own open visit closes it: the stored context gains the context of the timer and then the four
      marks, every other key keeps its value, the other timeouts of the visit are gone, and control passes to the
      target. Any other timeout changes nothing and is dropped. */
  lemma ExpiryLands(s: State, key: LockKey, now: int)
    requires Reachable(s) && TimeoutLands(s, key)
    ensures ExpiryShows(s.db, After(s, Commit(key, now)).db, JobAt(s, key), ViewAt(s, key), HostOf(s, key), now)
  {
    ReachableInv(s);
    var c := Landing(s, key, now);
    ExpiryByEffect(s.db, After(s, Commit(key, now)).db, JobAt(s, key), ViewAt(s, key), HostOf(s, key), now, c);
  }
}
