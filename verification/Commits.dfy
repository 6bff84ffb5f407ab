/** The shape of what attempts propose, and the exact effect of a successful commit. */
module Commits {
  import opened Wrappers
  import opened Contexts
  import opened ProcessDefs
  import opened Tasks
  import opened Dispatch
  import opened Database

  // ---- Proposals ----

  /** The source task stays in the queue. */
  predicate Retained(c: Changes) {
    c.retryAt.Some? || c.incident.Some?
  }

  /** Retries a node task may commit before it is routed or suspended. */
  function Budget(task: Task): nat {
    if task.ProcessNode? && task.node.ServiceTask? && task.node.retries.Some? && task.node.retries.value.max > 2
    then task.node.retries.value.max
    else 2
  }

  /** Nothing but a retry time or an incident. */
  predicate OnlyStops(c: Changes) {
    && c == NO_CHANGES.(incident := c.incident, retryAt := c.retryAt)
    && (c.incident.Some? <==> c.retryAt.None?)
  }

  /** A task list of at most one node task that leads from `node` to a declared target. */
  predicate LeadsFrom(def: ProcessDefinition, node: Node, tasks: seq<Scheduled>) {
    && |tasks| <= 1
    && forall t :: t in tasks ==>
      && t.task.ProcessNode? && t.visit.None?
      && FindNode(def, t.task.node.id) == Some(t.task.node)
      && t.task.node.id in NodeTargets(node)
  }

  /** What a node task proposes once the node was entered. */
  predicate Visits(job: Job, snap: Snapshot, node: Node, c: Changes) {
    && FindNode(snap.definition, node.id) == Some(node)
    && !c.closeWait
    && c.enterNode == (if snap.visit == Some(job.uuid) then None else Some(node.id))
    && (forall e :: e in c.events ==> e.NodeEntered? || e.StageChanged?)
    && (c.stage.Some? ==> StageDeclared(snap.definition, c.stage.value.stage))
    && (c.incident.Some? ==> c.retryAt.None?)
    && (c.incident.Some? || c.retryAt.Some? ==> node.ServiceTask? && c.tasks == [] && c.context.None? && c.patch.None?)
    && (c.retryAt.Some? ==> job.attempts <= Budget(job.task))
    && (c.patch.Some? ==> c.context == Some(Patched(snap.context, c.patch.value)))
    && (c.context.Some? ==> c.patch.Some?)
    && (node.IsWaiting() ==>
          && |c.tasks| <= 1 && c.context.None?
          && (forall t :: t in c.tasks ==>
                node.Timeout().Some? && t.task == ProcessEvent(node, node.Timeout().value.onTimeout)
                && t.visit == Some(job.uuid) && FindNode(snap.definition, t.task.onTime).Some?))
    && (!node.IsWaiting() ==> |c.tasks| <= 1 && forall t :: t in c.tasks ==>
          && t.task.ProcessNode? && t.visit.None?
          && FindNode(snap.definition, t.task.node.id) == Some(t.task.node)
          && (t.task.node.id in NodeTargets(node) || t.task.node == node))
    && (c.tasks == [] && !Retained(c) ==> node.IsWaiting() || node.End? || (node.ServiceTask? && node.successor.None?))
  }

  predicate ClosesWith(job: Job, snap: Snapshot, c: Changes, event: Event) {
    && c == NO_CHANGES.(closeWait := true, context := c.context, tasks := c.tasks, events := [event])
    && BoundToOpenVisit(snap)
    && snap.current.Some?
    && c.context.Some? && snap.context.Keys <= c.context.value.Keys
    && LeadsFrom(snap.definition, snap.current.value, c.tasks)
  }

  predicate Proposal(job: Job, snap: Snapshot, c: Changes) {
    match job.task
    case ProcessNode(node) =>
      || (OnlyStops(c) && (c.retryAt.Some? ==> job.attempts <= 2))
      || Visits(job, snap, node, c)
    case ProcessEvent(origin, onTime) =>
      || OnlyStops(c)
      || c == NO_CHANGES
      || (&& BoundToOpenVisit(snap)
          && ClosesWith(job, snap, c, TimeoutAccepted(job.uuid, snap.taskVisit.value))
          && snap.current.value.id == origin.id && |c.tasks| == 1)
    case ProcessSignal(posted) =>
      || OnlyStops(c)
      || c == NO_CHANGES
      || (&& BoundToOpenVisit(snap)
          && ClosesWith(job, snap, c, SignalAccepted(job.uuid, posted.eventId, snap.taskVisit.value))
          && snap.current.value.Accepts(posted.signal)
          && (c.tasks == [] <==> snap.current.value.successor.None?))
  }

  lemma {:induction false} SelectedIsTarget(host: Host, context: ContextMap, branches: seq<Branch>, fallback: Option<Id>)
    ensures var r := Select(host, context, branches, fallback);
            r.Ok? ==> r.value in BranchTargets(branches) || Some(r.value) == fallback
  {
    if branches != [] && host.evaluate(branches[0].when, context) == Some(true) {
      assert BranchTargets(branches)[0] == branches[0].next;
    } else if branches != [] && host.evaluate(branches[0].when, context) == Some(false) {
      SelectedIsTarget(host, context, branches[1..], fallback);
      var r := Select(host, context, branches[1..], fallback);
      if r.Ok? && r.value in BranchTargets(branches[1..]) {
        var i :| 0 <= i < |BranchTargets(branches[1..])| && BranchTargets(branches[1..])[i] == r.value;
        assert BranchTargets(branches)[i + 1] == r.value;
      }
    }
  }

  lemma SuccessorsLead(snap: Snapshot, host: Host, context: ContextMap, node: Node)
    requires node.ServiceTask? || node.IsWaiting()
    ensures var r := Successors(snap, host, context, node.successor);
            r.Ok? ==> LeadsFrom(snap.definition, node, r.value) && (r.value == [] <==> node.successor.None?)
  {
    if node.successor.Some? && node.successor.value.Routes? {
      SelectedIsTarget(host, context, node.successor.value.branches, node.successor.value.fallback);
    }
  }

  /** A timeout's target is one of its origin's targets, so the current node leads there. */
  lemma ExpiryLeads(job: Job, snap: Snapshot, host: Host, origin: Node, onTime: Id)
    requires origin.IsWaiting() && snap.current.Some? ==> snap.current.value.id != origin.id || snap.current.value == origin
    ensures var r := Expire(job, snap, host, origin, onTime);
            r.Ok? && r.value != NO_CHANGES ==>
              && BoundToOpenVisit(snap)
              && ClosesWith(job, snap, r.value, TimeoutAccepted(job.uuid, snap.taskVisit.value))
              && snap.current.value.id == origin.id && |r.value.tasks| == 1
  {
  }

  lemma GatewayLeads(snap: Snapshot, host: Host, node: Node)
    requires node.Gateway?
    ensures var r := Select(host, snap.context, node.branches, node.fallback);
            r.Ok? ==> r.value in NodeTargets(node)
  {
    SelectedIsTarget(host, snap.context, node.branches, node.fallback);
  }

  /** What entering a node proposes before the node itself is handled. */
  predicate Announces(job: Job, snap: Snapshot, node: Node, c: Changes) {
    && c == NO_CHANGES.(enterNode := c.enterNode, stage := c.stage, events := c.events)
    && c.enterNode == (if snap.visit == Some(job.uuid) then None else Some(node.id))
    && (forall e :: e in c.events ==> e.NodeEntered? || e.StageChanged?)
    && (c.stage.Some? ==> StageDeclared(snap.definition, c.stage.value.stage))
  }

  lemma EntryAnnounces(job: Job, snap: Snapshot, host: Host, node: Node)
    ensures var r := Entered(job, snap, host, node);
            r.Ok? ==> Announces(job, snap, node, r.value)
  {
  }

  lemma WaitVisits(job: Job, snap: Snapshot, host: Host, node: Node, c: Changes)
    requires node.IsWaiting() && job.task == ProcessNode(node) && FindNode(snap.definition, node.id) == Some(node)
    requires Announces(job, snap, node, c)
    ensures var r := Handled(job, snap, host, node, c);
            r.Ok? ==> Visits(job, snap, node, r.value)
  {
  }

  lemma FailureVisits(job: Job, snap: Snapshot, host: Host, node: Node, c: Changes)
    requires node.ServiceTask? && job.task == ProcessNode(node) && FindNode(snap.definition, node.id) == Some(node)
    requires Announces(job, snap, node, c)
    ensures var r := Failed(job, snap, host, node, c);
            r.Ok? ==> Visits(job, snap, node, r.value)
  {
  }

  lemma ServiceVisits(job: Job, snap: Snapshot, host: Host, node: Node, c: Changes)
    requires node.ServiceTask? && job.task == ProcessNode(node) && FindNode(snap.definition, node.id) == Some(node)
    requires Announces(job, snap, node, c)
    ensures var r := Served(job, snap, host, node, c);
            r.Ok? ==> Visits(job, snap, node, r.value)
  {
    match host.handler {
      case HandlerSucceeded(patch) => SuccessorsLead(snap, host, Patched(snap.context, patch), node);
      case HandlerFailed => FailureVisits(job, snap, host, node, c);
      case _ =>
    }
  }

  lemma RoutingVisits(job: Job, snap: Snapshot, host: Host, node: Node, c: Changes)
    requires node.Start? || node.End? || node.Gateway?
    requires job.task == ProcessNode(node) && FindNode(snap.definition, node.id) == Some(node)
    requires Announces(job, snap, node, c)
    ensures var r := Handled(job, snap, host, node, c);
            r.Ok? ==> Visits(job, snap, node, r.value)
  {
    if node.Gateway? {
      GatewayLeads(snap, host, node);
    }
  }

  lemma NodeProposal(job: Job, snap: Snapshot, host: Host, node: Node)
    requires job.task == ProcessNode(node) && FindNode(snap.definition, node.id) == Some(node)
    ensures var r := Enter(job, snap, host, node);
            r.Ok? ==> Visits(job, snap, node, r.value)
  {
    EntryAnnounces(job, snap, host, node);
    var entered := Entered(job, snap, host, node);
    if entered.Ok? {
      if node.IsWaiting() {
        WaitVisits(job, snap, host, node, entered.value);
      } else if node.ServiceTask? {
        ServiceVisits(job, snap, host, node, entered.value);
      } else {
        RoutingVisits(job, snap, host, node, entered.value);
      }
    }
  }

  /** Every attempt proposes one of a few shapes, whatever host code did. */
  lemma PreparedProposal(job: Job, snap: Snapshot, host: Host)
    requires job.task.ProcessEvent? && snap.current.Some? && job.task.origin.IsWaiting() ==>
               snap.current.value.id != job.task.origin.id || snap.current.value == job.task.origin
    ensures Proposal(job, snap, Prepared(job, snap, host))
  {
    match job.task {
      case ProcessNode(node) =>
        if FindNode(snap.definition, node.id) == Some(node) {
          NodeProposal(job, snap, host, node);
        }
      case ProcessEvent(origin, onTime) =>
        ExpiryLeads(job, snap, host, origin, onTime);
      case ProcessSignal(posted) =>
        if snap.current.Some? && snap.current.value.Accepts(posted.signal) {
          SuccessorsLead(snap, host, SignalContext(snap, posted), snap.current.value);
        }
    }
  }

  // ---- Effects ----

  function Settled(row: QueueRow, c: Changes, now: int): QueueRow {
    if c.retryAt.Some? then row.(runAfter := c.retryAt.value, lease := None, retries := row.retries + 1)
    else row.(runAfter := now, lease := None)
  }

  predicate Survives(db: Db, job: Job, snap: Snapshot, c: Changes, u: Uuid) {
    && u in db.queue
    && !(c.closeWait && Sibling(db.queue[u], u, job, snap.visit))
    && (u == job.uuid ==> Retained(c))
  }

  function CommittedInstance(inst: Instance, job: Job, c: Changes): Instance {
    inst.(
      suspended := c.incident.Some?,
      revision := inst.revision + 1,
      current := if c.enterNode.Some? then c.enterNode else inst.current,
      visit := if c.enterNode.Some? then Some(job.uuid) else inst.visit,
      waitCompleted := if c.enterNode.Some? then false else inst.waitCompleted || c.closeWait,
      recovery := if !Retained(c) && inst.recovery == Some(job.uuid) then None else inst.recovery,
      stage := if c.stage.Some? then c.stage else inst.stage)
  }

  /** The checks of a transition, all made before its effect becomes visible. */
  predicate Passes(db: Db, job: Job, snap: Snapshot, c: Changes) {
    && Holds(db, job) && !db.inst.suspended && db.inst.revision == snap.revision
    && (c.closeWait ==> snap.visit.Some? && !db.inst.waitCompleted && db.inst.visit == snap.visit)
    && (c.enterNode.Some? ==> FindNode(db.definition, c.enterNode.value).Some?)
    && (c.stage.Some? ==> StageDeclared(db.definition, c.stage.value.stage))
    && (forall t :: t in c.tasks ==> TargetDeclared(db.definition, t.task))
    && (c.incident.Some? ==> c.tasks == [] && c.retryAt.None? && !HasOpenIncident(db))
  }

  /** The tables after a commit that succeeded, row by row. */
  ghost predicate Effect(db: Db, job: Job, snap: Snapshot, c: Changes, now: int, d: Db) {
    && d.clock == db.clock && d.definition == db.definition && d.receipts == db.receipts
    && d.log == db.log + c.events
    && d.context == StoredContext(db.context, c)
    && d.inst == CommittedInstance(db.inst, job, c)
    && d.nextId == db.nextId + |c.tasks| + (if c.incident.Some? then 1 else 0)
    && d.incidents == (if c.incident.Some? then db.incidents[db.nextId := Incident(job.uuid, true)] else db.incidents)
    && (forall u :: u in d.queue <==> Survives(db, job, snap, c, u) || (c.tasks != [] && u == db.nextId))
    && (forall u :: Survives(db, job, snap, c, u) ==>
          d.queue[u] == if u == job.uuid then Settled(db.queue[u], c, now) else db.queue[u])
    && (c.tasks != [] ==>
          d.queue[db.nextId] == NewRow(db, c.tasks[0].task,
                                       if c.tasks[0].runAfter.Some? then c.tasks[0].runAfter.value else now,
                                       c.tasks[0].visit))
  }

  lemma EnqueuedOne(db: Db, pending: seq<Scheduled>, now: int)
    requires |pending| <= 1
    ensures EnqueuedAll(db, pending, now) == if pending == [] then Ok(db) else Enqueued(db, pending[0], now)
  {
    if pending != [] {
      assert pending[..0] == [];
    }
  }

  lemma AppliedForm(db: Db, job: Job, snap: Snapshot, c: Changes)
    ensures Applied(db, job, snap, c).Ok? <==>
            && (c.closeWait ==> snap.visit.Some? && !db.inst.waitCompleted && db.inst.visit == snap.visit)
            && (c.enterNode.Some? ==> FindNode(db.definition, c.enterNode.value).Some?)
            && (c.stage.Some? ==> StageDeclared(db.definition, c.stage.value.stage))
    ensures Applied(db, job, snap, c).Ok? ==>
            var i := CommittedInstance(db.inst, job, c);
            Applied(db, job, snap, c).value == db.(
              queue := if c.closeWait then WithoutSiblings(db.queue, job, snap.visit) else db.queue,
              context := StoredContext(db.context, c),
              inst := db.inst.(current := i.current, visit := i.visit, waitCompleted := i.waitCompleted, stage := i.stage))
  {
  }

  lemma ConcludedForm(db: Db, job: Job, c: Changes, now: int)
    ensures Concluded(db, job, c, now).Ok? <==>
            && Holds(db, job)
            && (c.incident.Some? ==> c.tasks == [] && c.retryAt.None? && !HasOpenIncident(db))
    ensures Concluded(db, job, c, now).Ok? ==>
            Concluded(db, job, c, now).value == db.(
              log := db.log + c.events,
              nextId := db.nextId + (if c.incident.Some? then 1 else 0),
              incidents := if c.incident.Some? then db.incidents[db.nextId := Incident(job.uuid, true)] else db.incidents,
              inst := db.inst.(
                revision := db.inst.revision + 1,
                suspended := db.inst.suspended || c.incident.Some?,
                recovery := if !Retained(c) && db.inst.recovery == Some(job.uuid) then None else db.inst.recovery),
              queue := SettledQueue(db.queue, job, c, now))
  {
    var logged := db.(log := db.log + c.events, inst := db.inst.(revision := db.inst.revision + 1));
    assert HasOpenIncident(logged) == HasOpenIncident(db);
    DisposedForm(logged, job, c);
    if Disposed(logged, job, c).Ok? {
      SettledForm(Disposed(logged, job, c).value, job, c, now);
    }
  }

  lemma DisposedForm(db: Db, job: Job, c: Changes)
    ensures Disposed(db, job, c).Ok? <==>
              (c.incident.Some? ==> c.tasks == [] && c.retryAt.None? && !HasOpenIncident(db))
    ensures Disposed(db, job, c).Ok? ==>
            Disposed(db, job, c).value == db.(
              nextId := db.nextId + (if c.incident.Some? then 1 else 0),
              incidents := if c.incident.Some? then db.incidents[db.nextId := Incident(job.uuid, true)] else db.incidents,
              inst := db.inst.(
                suspended := db.inst.suspended || c.incident.Some?,
                recovery := if !Retained(c) && db.inst.recovery == Some(job.uuid) then None else db.inst.recovery))
  {
  }

  lemma SettledForm(db: Db, job: Job, c: Changes, now: int)
    ensures SourceSettled(db, job, c, now).Ok? <==> Holds(db, job)
    ensures Holds(db, job) ==> SourceSettled(db, job, c, now).value == db.(queue := SettledQueue(db.queue, job, c, now))
  {
  }

  /** The queue between the first writes and the last: siblings gone, successor present. */
  function Requeued(db: Db, job: Job, snap: Snapshot, c: Changes, now: int): map<Uuid, QueueRow> {
    var kept := if c.closeWait then WithoutSiblings(db.queue, job, snap.visit) else db.queue;
    if c.tasks == [] then kept
    else
      kept[db.nextId := NewRow(db, c.tasks[0].task,
                               if c.tasks[0].runAfter.Some? then c.tasks[0].runAfter.value else now,
                               c.tasks[0].visit)]
  }

  lemma QueuedForm(db: Db, job: Job, snap: Snapshot, c: Changes, now: int)
    requires |c.tasks| <= 1 && Applied(db, job, snap, c).Ok?
    ensures var applied := Applied(db, job, snap, c).value;
            var r := EnqueuedAll(applied, c.tasks, now);
            && (r.Ok? <==> forall t :: t in c.tasks ==> TargetDeclared(db.definition, t.task))
            && (r.Ok? ==> r.value == applied.(queue := Requeued(db, job, snap, c, now), nextId := db.nextId + |c.tasks|))
  {
    AppliedForm(db, job, snap, c);
    EnqueuedOne(Applied(db, job, snap, c).value, c.tasks, now);
    if c.tasks != [] {
      assert c.tasks[0] in c.tasks;
    }
  }

  lemma SameHolder(db: Db, job: Job, snap: Snapshot, c: Changes, now: int, d: Db)
    requires forall u :: u in db.queue ==> u < db.nextId
    requires d.queue == Requeued(db, job, snap, c, now) && d.clock == db.clock
    ensures Holds(db, job) ==> Holds(d, job) && d.queue[job.uuid] == db.queue[job.uuid]
  {
  }

  function SettledQueue(queue: map<Uuid, QueueRow>, job: Job, c: Changes, now: int): map<Uuid, QueueRow>
    requires job.uuid in queue
  {
    if Retained(c) then queue[job.uuid := Settled(queue[job.uuid], c, now)] else queue - {job.uuid}
  }

  /** When the checks pass, no statement of the transaction fails, and conversely. */
  lemma CommitPasses(db: Db, job: Job, snap: Snapshot, c: Changes, now: int)
    requires |c.tasks| <= 1 && (forall u :: u in db.queue ==> u < db.nextId)
    ensures Committed(db, job, snap, c, now).Ok? <==> Passes(db, job, snap, c)
    ensures Committed(db, job, snap, c, now).Ok? ==>
              var q := EnqueuedAll(Applied(db, job, snap, c).value, c.tasks, now);
              Applied(db, job, snap, c).Ok? && q.Ok? && Committed(db, job, snap, c, now) == Concluded(q.value, job, c, now)
  {
    AppliedForm(db, job, snap, c);
    if Holds(db, job) && !db.inst.suspended && db.inst.revision == snap.revision && Applied(db, job, snap, c).Ok? {
      QueuedForm(db, job, snap, c, now);
      var queued := EnqueuedAll(Applied(db, job, snap, c).value, c.tasks, now);
      if queued.Ok? {
        ConcludedForm(queued.value, job, c, now);
        SameHolder(db, job, snap, c, now, queued.value);
        assert HasOpenIncident(queued.value) == HasOpenIncident(db);
      }
    }
  }

  /** The queue after a commit, row by row. */
  lemma SettledRows(db: Db, job: Job, snap: Snapshot, c: Changes, now: int, queue: map<Uuid, QueueRow>)
    requires |c.tasks| <= 1 && (forall u :: u in db.queue ==> u < db.nextId) && Holds(db, job)
    requires job.uuid in Requeued(db, job, snap, c, now)
    requires queue == SettledQueue(Requeued(db, job, snap, c, now), job, c, now)
    ensures forall u :: u in queue <==> Survives(db, job, snap, c, u) || (c.tasks != [] && u == db.nextId)
    ensures forall u :: Survives(db, job, snap, c, u) ==>
              queue[u] == if u == job.uuid then Settled(db.queue[u], c, now) else db.queue[u]
    ensures c.tasks != [] ==>
              queue[db.nextId] == NewRow(db, c.tasks[0].task,
                                         if c.tasks[0].runAfter.Some? then c.tasks[0].runAfter.value else now,
                                         c.tasks[0].visit)
  {
  }

  /** A commit succeeds exactly when its checks pass, and then has exactly this effect. */
  lemma CommitEffect(db: Db, job: Job, snap: Snapshot, c: Changes, now: int)
    requires |c.tasks| <= 1 && (forall u :: u in db.queue ==> u < db.nextId)
    ensures Committed(db, job, snap, c, now).Ok? <==> Passes(db, job, snap, c)
    ensures var r := Committed(db, job, snap, c, now);
            r.Ok? ==> Effect(db, job, snap, c, now, r.value)
  {
    CommitPasses(db, job, snap, c, now);
    if Committed(db, job, snap, c, now).Ok? {
      AppliedForm(db, job, snap, c);
      QueuedForm(db, job, snap, c, now);
      var q := EnqueuedAll(Applied(db, job, snap, c).value, c.tasks, now).value;
      ConcludedForm(q, job, c, now);
      SameHolder(db, job, snap, c, now, q);
      SettledRows(db, job, snap, c, now, Concluded(q, job, c, now).value.queue);
    }
  }
}
