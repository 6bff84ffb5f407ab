/** When the dispatcher can fail to resolve a node, a stage, a form or a timer: for a definition that passed
    validation, exactly when the host queued a node that differs from the published one. */
module Lookups {
  import opened Wrappers
  import opened Contexts
  import opened ProcessDefs
  import opened Reachability
  import opened Validation
  import opened Tasks
  import opened Dispatch
  import opened Outcomes
  import opened Database
  import opened Commits
  import opened Protocol
  import opened Invariants
  import opened Transitions
  import opened Preservation
  import opened Tokens

  predicate Resolves<T>(r: Attempted<T>) {
    r.Err? ==> !r.error.Dangling()
  }

  lemma SuccessorsResolve(snap: Snapshot, host: Host, context: ContextMap, node: Node)
    requires node.ServiceTask? || node.IsWaiting()
    requires forall t :: t in NodeTargets(node) ==> FindNode(snap.definition, t).Some?
    ensures Resolves(Successors(snap, host, context, node.successor))
  {
    if node.successor.Some? {
      if node.successor.value.Routes? {
        SelectedIsTarget(host, context, node.successor.value.branches, node.successor.value.fallback);
        SelectResolves(host, context, node.successor.value.branches, node.successor.value.fallback);
      }
    }
  }

  lemma {:induction false} SelectResolves(host: Host, context: ContextMap, branches: seq<Branch>, fallback: Option<Id>)
    ensures Resolves(Select(host, context, branches, fallback))
  {
    if branches != [] {
      SelectResolves(host, context, branches[1..], fallback);
    }
  }

  lemma TargetsAreReferences(node: Node, t: Id)
    requires t in NodeTargets(node)
    ensures t in References(node)
  {
  }

  lemma EntryResolves(job: Job, snap: Snapshot, host: Host, node: Node, compiles: string -> bool)
    requires NodeSound(snap.definition, node, compiles)
    ensures Resolves(Entered(job, snap, host, node))
  {
  }

  lemma ServiceResolves(job: Job, snap: Snapshot, host: Host, node: Node, c: Changes, compiles: string -> bool)
    requires NodeSound(snap.definition, node, compiles) && node.ServiceTask?
    ensures Resolves(Served(job, snap, host, node, c))
  {
    forall t | t in NodeTargets(node) ensures FindNode(snap.definition, t).Some? {
      TargetsAreReferences(node, t);
    }
    if host.handler.HandlerSucceeded? {
      SuccessorsResolve(snap, host, Patched(snap.context, host.handler.patch), node);
    } else if node.onError.Some? && node.onError.value.next.Some? {
      assert node.onError.value.next.value in NodeTargets(node);
    }
  }

  lemma WaitResolves(job: Job, snap: Snapshot, host: Host, node: Node, c: Changes, compiles: string -> bool)
    requires NodeSound(snap.definition, node, compiles) && node.IsWaiting()
    ensures Resolves(Handled(job, snap, host, node, c))
  {
    if node.timer.Some? {
      assert node.timer.value.onTimeout in NodeTargets(node);
      TargetsAreReferences(node, node.timer.value.onTimeout);
    }
  }

  lemma RoutingResolves(job: Job, snap: Snapshot, host: Host, node: Node, c: Changes, compiles: string -> bool)
    requires NodeSound(snap.definition, node, compiles) && (node.Start? || node.End? || node.Gateway?)
    ensures Resolves(Handled(job, snap, host, node, c))
  {
    match node {
      case Start(_, first, _) =>
        assert first in NodeTargets(node);
        TargetsAreReferences(node, first);
      case Gateway(_, _, branches, fallback) =>
        SelectResolves(host, snap.context, branches, fallback);
        var r := Select(host, snap.context, branches, fallback);
        if r.Ok? {
          GatewayLeads(snap, host, node);
          TargetsAreReferences(node, r.value);
        }
      case _ =>
    }
  }

  lemma EnterResolves(job: Job, snap: Snapshot, host: Host, node: Node, compiles: string -> bool)
    requires NodeSound(snap.definition, node, compiles)
    ensures Resolves(Enter(job, snap, host, node))
  {
    EntryResolves(job, snap, host, node, compiles);
    var entered := Entered(job, snap, host, node);
    if entered.Ok? {
      if node.IsWaiting() {
        WaitResolves(job, snap, host, node, entered.value, compiles);
      } else if node.ServiceTask? {
        ServiceResolves(job, snap, host, node, entered.value, compiles);
      } else {
        RoutingResolves(job, snap, host, node, entered.value, compiles);
      }
    }
  }

  predicate TaskPublished(def: ProcessDefinition, task: Task) {
    task.ProcessNode? ==> Published(def, task.node)
  }

  /** What every attempt of every run finds, besides the payload of a queued node. */
  predicate WellPosed(def: ProcessDefinition, job: Job, snap: Snapshot) {
    && snap.definition == def
    && SoundTimeout(def, job.task)
    && (job.task.ProcessEvent? ==> snap.taskVisit.Some?)
    && (snap.current.Some? ==> snap.current.value in def.nodes)
  }

  /** An attempt resolves all it looks up exactly when it does not carry a node that differs from the published one. */
  lemma AttemptResolves(def: ProcessDefinition, compiles: string -> bool, job: Job, snap: Snapshot, host: Host)
    requires Valid(def, compiles) && WellPosed(def, job, snap)
    ensures Resolves(Attempt(job, snap, host)) <==> TaskPublished(def, job.task)
  {
    match job.task {
      case ProcessNode(node) =>
        if Published(def, node) {
          EnterResolves(job, snap, host, node, compiles);
        }
      case ProcessEvent(_, _) =>
      case ProcessSignal(posted) =>
        if snap.current.Some? && snap.current.value.Accepts(posted.signal) {
          var node := snap.current.value;
          assert NodeSound(def, node, compiles);
          forall t | t in NodeTargets(node) ensures FindNode(def, t).Some? {
            TargetsAreReferences(node, t);
          }
          SuccessorsResolve(snap, host, SignalContext(snap, posted), node);
        }
    }
  }

  // ---- Every run ----

  lemma StepDefinition(s: State, step: Step)
    ensures After(s, step).db.definition == s.db.definition
  {
    if !step.Commit? {
      QuietDefinition(s, step);
    } else if step.key in s.workers && s.workers[step.key].phase.Proposed? {
      CommitDefinition(s.db, s.workers[step.key], step.now);
    }
  }

  lemma QuietDefinition(s: State, step: Step)
    requires !step.Commit?
    ensures After(s, step).db.definition == s.db.definition
  {
  }

  lemma CommitDefinition(db: Db, w: Worker, now: int)
    requires w.phase.Proposed?
    ensures var r := Committed(db, w.job, w.phase.snap, w.phase.changes, now);
            r.Ok? ==> r.value.definition == db.definition
  {
    AppliedForm(db, w.job, w.phase.snap, w.phase.changes);
    var applied := Applied(db, w.job, w.phase.snap, w.phase.changes);
    if applied.Ok? {
      EnqueueDefinition(applied.value, w.phase.changes.tasks, now);
      var queued := EnqueuedAll(applied.value, w.phase.changes.tasks, now);
      if queued.Ok? {
        ConcludedForm(queued.value, w.job, w.phase.changes, now);
      }
    }
  }

  lemma {:induction false} EnqueueDefinition(db: Db, pending: seq<Scheduled>, now: int)
    ensures var r := EnqueuedAll(db, pending, now);
            r.Ok? ==> r.value.definition == db.definition
  {
    if pending != [] {
      EnqueueDefinition(db, pending[..|pending| - 1], now);
    }
  }

  lemma {:induction false} RunDefinition(s: State, steps: seq<Step>)
    ensures Run(s, steps).db.definition == s.db.definition
  {
    if steps != [] {
      RunDefinition(s, steps[..|steps| - 1]);
      StepDefinition(Run(s, steps[..|steps| - 1]), steps[|steps| - 1]);
    }
  }

  predicate HoldsSnapshot(s: State, key: LockKey) {
    key in s.workers && SnapshotOf(s.workers[key].phase).Some?
  }

  predicate AttemptsResolve(s: State, key: LockKey, host: Host)
    requires HoldsSnapshot(s, key)
  {
    Resolves(Attempt(s.workers[key].job, SnapshotOf(s.workers[key].phase).value, host))
  }

  /** In every run from the start of a validated definition, whatever the host queued, and for any outcome of host
      code: an attempt fails to resolve a node, a stage, a form, a timer or a visit if and only if its task carries
      a node that differs from the published one. */
  lemma ResolvesExactly(start: State, compiles: string -> bool, steps: seq<Step>, key: LockKey, host: Host)
    requires Initial(start) && Valid(start.db.definition, compiles) && HoldsSnapshot(Run(start, steps), key)
    ensures AttemptsResolve(Run(start, steps), key, host)
      <==> TaskPublished(start.db.definition, Run(start, steps).workers[key].job.task)
  {
    InitialKeeps(start);
    RunKeeps(start, steps);
    RunDefinition(start, steps);
    PosedSnapshot(Run(start, steps), key);
    var w := Run(start, steps).workers[key];
    AttemptResolves(start.db.definition, compiles, w.job, SnapshotOf(w.phase).value, host);
  }

  lemma PosedSnapshot(s: State, key: LockKey)
    requires Payloads(s) && Fresh(s) && HoldsSnapshot(s, key)
    ensures WellPosed(s.db.definition, s.workers[key].job, SnapshotOf(s.workers[key].phase).value)
  {
    assert SoundSnapshot(s.db, s.workers[key], SnapshotOf(s.workers[key].phase).value);
  }

  // ---- Runs in which the host queues published nodes ----

  predicate QueuesPublished(def: ProcessDefinition, steps: seq<Step>) {
    forall i :: 0 <= i < |steps| && steps[i].QueueNode? ==> Published(def, steps[i].node)
  }

  ghost predicate AllPublished(s: State) {
    && (forall u :: u in s.db.queue ==> TaskPublished(s.db.definition, s.db.queue[u].task))
    && (forall k :: k in s.workers ==> TaskPublished(s.db.definition, s.workers[k].job.task))
  }

  lemma QuietPublished(s: State, step: Step)
    requires AllPublished(s) && !step.Commit? && (step.QueueNode? ==> Published(s.db.definition, step.node))
    ensures AllPublished(After(s, step))
  {
    QuietDefinition(s, step);
    if ByWorker(step) {
      WorkerPublished(s, step);
    }
  }

  lemma WorkerPublished(s: State, step: Step)
    requires AllPublished(s) && ByWorker(step) && !step.Commit?
    ensures AllPublished(After(s, step))
  {
    WorkerRows(s, step);
    PublishedRows(s, After(s, step));
  }

  lemma PublishedRows(s: State, t: State)
    requires AllPublished(s) && SameRows(s, t)
    ensures AllPublished(t)
  {
  }

  /** A commit queues only nodes it resolved in the definition. */
  lemma CommitPublished(s: State, key: LockKey, now: int)
    requires Inv(s) && AllPublished(s) && key in s.workers && s.workers[key].phase.Proposed?
    ensures AllPublished(CommitStep(s, key, now))
  {
    CommitFacts(s, key, now);
    var w := s.workers[key];
    var r := Committed(s.db, w.job, w.phase.snap, w.phase.changes, now);
    if r.Ok? {
      assert SoundSnapshot(s.db, w, w.phase.snap);
      NewTaskPublished(s.db, w, now, r.value);
    }
  }

  lemma NewTaskPublished(db: Db, w: Worker, now: int, d: Db)
    requires Transition(db, w, now, d) && w.phase.snap.definition == db.definition
    requires TaskPublished(db.definition, w.job.task)
    requires forall u :: u in db.queue ==> TaskPublished(db.definition, db.queue[u].task)
    ensures forall u :: u in d.queue ==> TaskPublished(d.definition, d.queue[u].task)
  {
    var c := w.phase.changes;
    if c.tasks != [] {
      assert c.tasks[0] in c.tasks;
    }
  }

  lemma StepPublished(s: State, step: Step)
    requires Inv(s) && AllPublished(s) && (step.QueueNode? ==> Published(s.db.definition, step.node))
    ensures AllPublished(After(s, step))
  {
    if !step.Commit? {
      QuietPublished(s, step);
    } else if step.key in s.workers && s.workers[step.key].phase.Proposed? {
      CommitPublished(s, step.key, step.now);
    }
  }

  lemma {:induction false} RunPublished(s: State, steps: seq<Step>)
    requires Inv(s) && AllPublished(s) && QueuesPublished(s.db.definition, steps)
    ensures AllPublished(Run(s, steps))
  {
    if steps != [] {
      var before := steps[..|steps| - 1];
      RunPublished(s, before);
      RunKeeps(s, before);
      RunDefinition(s, before);
      StepPublished(Run(s, before), steps[|steps| - 1]);
    }
  }

  lemma ValidStartIsUnique(def: ProcessDefinition, compiles: string -> bool)
    requires Valid(def, compiles)
    ensures UniqueStart(def)
  {
    var ids := NodeIdList(def.nodes);
    forall i, j | 0 <= i < j < |def.nodes| ensures def.nodes[i].id != def.nodes[j].id {
      assert ids[i] != ids[j];
    }
    if StartNode(def).Some? {
      UniqueFind(def);
    }
  }

  lemma StartPublished(start: State, compiles: string -> bool)
    requires Initial(start) && Valid(start.db.definition, compiles)
    ensures AllPublished(start)
  {
    ValidStartIsUnique(start.db.definition, compiles);
  }

  /** For a validated definition, in every run in which every node the host queues is a published one, no attempt
      with any outcome of host code meets a missing node, stage, form, timer or visit, or a payload that differs. */
  lemma ValidDefinitionResolves(start: State, compiles: string -> bool, steps: seq<Step>, key: LockKey, host: Host)
    requires Initial(start) && Valid(start.db.definition, compiles) && QueuesPublished(start.db.definition, steps)
    requires HoldsSnapshot(Run(start, steps), key)
    ensures AttemptsResolve(Run(start, steps), key, host)
  {
    InitialKeeps(start);
    StartPublished(start, compiles);
    RunPublished(start, steps);
    RunDefinition(start, steps);
    ResolvesExactly(start, compiles, steps, key, host);
  }

  // ---- The fate of one queued node ----

  /** Whatever runs under the identity `u` carries `task`. */
  ghost predicate Carried(s: State, u: Uuid, task: Task) {
    && u < s.db.nextId
    && (u in s.db.queue ==> s.db.queue[u].task == task)
    && forall k :: k in s.workers && s.workers[k].job.uuid == u ==> s.workers[k].job.task == task
  }

  lemma QuietCarried(s: State, step: Step, u: Uuid, task: Task)
    requires Carried(s, u, task) && !step.Commit?
    ensures Carried(After(s, step), u, task)
  {
    if ByWorker(step) {
      WorkerCarried(s, step, u, task);
    }
  }

  lemma WorkerCarried(s: State, step: Step, u: Uuid, task: Task)
    requires Carried(s, u, task) && ByWorker(step) && !step.Commit?
    ensures Carried(After(s, step), u, task)
  {
    WorkerRows(s, step);
    CarriedRows(s, After(s, step), u, task);
  }

  lemma CarriedRows(s: State, t: State, u: Uuid, task: Task)
    requires Carried(s, u, task) && SameRows(s, t)
    ensures Carried(t, u, task)
  {
  }

  lemma StepCarried(s: State, step: Step, u: Uuid, task: Task)
    requires Inv(s) && Carried(s, u, task)
    ensures Carried(After(s, step), u, task)
  {
    if !step.Commit? {
      QuietCarried(s, step, u, task);
    } else if step.key in s.workers && s.workers[step.key].phase.Proposed? {
      CommitCarried(s, step.key, step.now, u, task);
    }
  }

  lemma CommitCarried(s: State, key: LockKey, now: int, u: Uuid, task: Task)
    requires Inv(s) && Carried(s, u, task) && key in s.workers && s.workers[key].phase.Proposed?
    ensures Carried(CommitStep(s, key, now), u, task)
  {
    CommitFacts(s, key, now);
    var w := s.workers[key];
    var r := Committed(s.db, w.job, w.phase.snap, w.phase.changes, now);
    if r.Ok? {
      CarriedByEffect(s.db, w.job, w.phase.snap, w.phase.changes, now, r.value, u, task);
    }
  }

  lemma CarriedByEffect(db: Db, job: Job, snap: Snapshot, c: Changes, now: int, d: Db, u: Uuid, task: Task)
    requires Effect(db, job, snap, c, now, d) && u < db.nextId && (u in db.queue ==> db.queue[u].task == task)
    ensures u < d.nextId && (u in d.queue ==> d.queue[u].task == task)
  {
  }

  lemma {:induction false} RunCarried(s: State, steps: seq<Step>, u: Uuid, task: Task)
    requires Inv(s) && Carried(s, u, task)
    ensures Carried(Run(s, steps), u, task)
  {
    if steps != [] {
      var before := steps[..|steps| - 1];
      RunCarried(s, before, u, task);
      RunKeeps(s, before);
      StepCarried(Run(s, before), steps[|steps| - 1], u, task);
    }
  }

  /** What the host can check before it queues a node: if the node is the published one, no attempt at the task it
      creates ever fails to resolve; if not, every attempt does. */
  lemma QueuedNodeDecides(s: State, compiles: string -> bool, node: Node, runAfter: int, steps: seq<Step>, key: LockKey,
                          host: Host)
    requires Reachable(s) && Valid(s.db.definition, compiles)
    requires var t := Run(After(s, QueueNode(node, runAfter)), steps);
      HoldsSnapshot(t, key) && t.workers[key].job.uuid == s.db.nextId
    ensures AttemptsResolve(Run(After(s, QueueNode(node, runAfter)), steps), key, host)
      <==> Published(s.db.definition, node)
  {
    ReachableInv(s);
    var queued := After(s, QueueNode(node, runAfter));
    StepKeeps(s, QueueNode(node, runAfter));
    RunKeeps(queued, steps);
    RunDefinition(queued, steps);
    QueueingCarries(s, node, runAfter);
    RunCarried(queued, steps, s.db.nextId, ProcessNode(node));
    var t := Run(queued, steps);
    PosedSnapshot(t, key);
    AttemptResolves(s.db.definition, compiles, t.workers[key].job, SnapshotOf(t.workers[key].phase).value, host);
  }

  lemma QueueingCarries(s: State, node: Node, runAfter: int)
    requires Identities(s)
    ensures Carried(After(s, QueueNode(node, runAfter)), s.db.nextId, ProcessNode(node))
    ensures After(s, QueueNode(node, runAfter)).db.definition == s.db.definition
  {
  }
}
