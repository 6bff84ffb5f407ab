/** One control token per instance, and where it can be, in runs whose node tasks all
    come from the engine itself. */
module Tokens {
  import opened Wrappers
  import opened Contexts
  import opened ProcessDefs
  import opened Reachability
  import opened Tasks
  import opened Database
  import opened Commits
  import opened Protocol
  import opened Invariants
  import opened Preservation
  import opened Transitions

  /** The current node, when the instance has entered one. */
  function Here(db: Db): Option<Node> {
    if db.inst.current.None? then None else FindNode(db.definition, db.inst.current.value)
  }

  /** The current visit is a wait that no signal or timeout has closed yet. */
  predicate OpenWait(db: Db) {
    Here(db).Some? && Here(db).value.IsWaiting() && !db.inst.waitCompleted
  }

  function NodeTasks(db: Db): set<Uuid> {
    set u | u in db.queue && db.queue[u].task.ProcessNode?
  }

  /** Control tokens: queued node tasks, and the open wait. */
  function TokenCount(db: Db): nat {
    |NodeTasks(db)| + (if OpenWait(db) then 1 else 0)
  }

  /** One thread of control: a queued node task or an open wait, never both. */
  ghost predicate Single(db: Db) {
    && (forall u, v :: u in NodeTasks(db) && v in NodeTasks(db) ==> u == v)
    && (OpenWait(db) ==> NodeTasks(db) == {})
  }

  /** Every queued timeout belongs to the visit that is open now. */
  ghost predicate TimeoutsHere(db: Db) {
    forall u :: u in db.queue && db.queue[u].task.ProcessEvent? ==>
      OpenWait(db) && db.queue[u].visit == db.inst.visit && Here(db) == Some(db.queue[u].task.origin)
  }

  /** Control is always somewhere Start leads to. */
  ghost predicate Placed(db: Db) {
    && (forall u :: u in NodeTasks(db) ==>
          && FindNode(db.definition, db.queue[u].task.node.id) == Some(db.queue[u].task.node)
          && Connected(db.definition, db.queue[u].task.node.id))
    && (db.inst.current.Some? ==> Connected(db.definition, db.inst.current.value))
  }

  ghost predicate Threaded(db: Db) {
    Single(db) && TimeoutsHere(db) && Placed(db)
  }

  /** No new node or timeout task, and no move of the instance. */
  ghost predicate SameThread(a: Db, b: Db) {
    && b.definition == a.definition && b.inst.current == a.inst.current
    && b.inst.visit == a.inst.visit && b.inst.waitCompleted == a.inst.waitCompleted
    && (forall u :: u in b.queue && !b.queue[u].task.ProcessSignal? ==>
          u in a.queue && b.queue[u].task == a.queue[u].task && (b.queue[u].task.ProcessEvent? ==> b.queue[u].visit == a.queue[u].visit))
  }

  lemma ThreadKept(a: Db, b: Db)
    requires Threaded(a) && SameThread(a, b)
    ensures Threaded(b)
  {
    assert NodeTasks(b) <= NodeTasks(a);
  }

  lemma QuietStep(s: State, step: Step)
    requires !step.Commit? && !step.QueueNode?
    ensures SameThread(s.db, After(s, step).db)
  {
    if ByWorker(step) {
      QuietWorker(s, step);
    } else if step.Post? {
      PostThread(s, step);
    }
  }

  lemma PostThread(s: State, step: Step)
    requires step.Post?
    ensures SameThread(s.db, After(s, step).db)
  {
  }

  lemma QuietWorker(s: State, step: Step)
    requires ByWorker(step) && !step.Commit?
    ensures SameThread(s.db, After(s, step).db) && NodeTasks(After(s, step).db) == NodeTasks(s.db)
  {
    WorkerRows(s, step);
    RowsThread(s, After(s, step));
  }

  lemma RowsThread(s: State, t: State)
    requires SameRows(s, t)
    ensures SameThread(s.db, t.db) && NodeTasks(t.db) == NodeTasks(s.db)
  {
  }

  lemma TargetConnected(def: ProcessDefinition, node: Node, target: Id)
    requires FindNode(def, node.id) == Some(node) && Connected(def, node.id)
    requires target in NodeTargets(node) && FindNode(def, target).Some?
    ensures Connected(def, target)
  {
    EdgeConnected(def, node.id, target);
  }

  lemma NodeTasksAfter(db: Db, w: Worker, now: int, d: Db)
    requires (forall u :: u in db.queue ==> u < db.nextId) && Transition(db, w, now, d)
    ensures var c := w.phase.changes;
            NodeTasks(d) == (NodeTasks(db) - (if Retained(c) then {} else {w.job.uuid}))
                            + (if c.tasks != [] && c.tasks[0].task.ProcessNode? then {db.nextId} else {})
    ensures forall u :: u in NodeTasks(d) && u != db.nextId ==> d.queue[u].task == db.queue[u].task
    ensures db.nextId in NodeTasks(d) ==> w.phase.changes.tasks != [] && d.queue[db.nextId].task == w.phase.changes.tasks[0].task
  {
  }

  lemma CommitSingle(db: Db, w: Worker, now: int, d: Db)
    requires SoundTimeout(db.definition, w.job.task)
    requires Single(db) && (forall u :: u in db.queue ==> u < db.nextId)
    requires Transition(db, w, now, d) && SoundSnapshot(db, w, w.phase.snap)
    ensures Single(d)
  {
    if w.job.task.ProcessNode? {
      assert w.job.uuid in NodeTasks(db);
      NodeSingle(db, w, now, d);
    } else {
      EventSingle(db, w, now, d);
    }
  }

  /** A signal or timeout turns the open wait into at most one node task. */
  lemma EventSingle(db: Db, w: Worker, now: int, d: Db)
    requires Single(db) && (forall u :: u in db.queue ==> u < db.nextId)
    requires Transition(db, w, now, d) && !w.job.task.ProcessNode? && SoundSnapshot(db, w, w.phase.snap)
    requires SoundTimeout(db.definition, w.job.task)
    ensures Single(d)
  {
    NodeTasksAfter(db, w, now, d);
    assert w.job.uuid !in NodeTasks(db);
    if w.phase.changes.closeWait {
      ClosingSingle(db, w, now, d);
    } else {
      IgnoringMoves(db, w, now, d);
      IgnoringNodes(db, w, now, d);
    }
  }

  lemma ClosingSingle(db: Db, w: Worker, now: int, d: Db)
    requires Single(db) && (forall u :: u in db.queue ==> u < db.nextId) && SoundTimeout(db.definition, w.job.task)
    requires Transition(db, w, now, d) && !w.job.task.ProcessNode? && SoundSnapshot(db, w, w.phase.snap)
    requires w.phase.changes.closeWait
    ensures OpenWait(db) && NodeTasks(db) == {} && !OpenWait(d)
    ensures NodeTasks(d) == if w.phase.changes.tasks == [] then {} else {db.nextId}
  {
    NodeTasksAfter(db, w, now, d);
  }

  /** A node task consumes the token and passes it to its successor, to the wait it
      opens, or to its own retry. */
  lemma NodeSingle(db: Db, w: Worker, now: int, d: Db)
    requires Single(db) && w.job.uuid in NodeTasks(db) && (forall u :: u in db.queue ==> u < db.nextId)
    requires Transition(db, w, now, d) && w.job.task.ProcessNode? && SoundSnapshot(db, w, w.phase.snap)
    ensures Single(d)
  {
    NodeTasksAfter(db, w, now, d);
    assert NodeTasks(db) == {w.job.uuid};
    assert !OpenWait(db);
  }

  lemma CommitTimeouts(db: Db, w: Worker, now: int, d: Db)
    requires Single(db) && TimeoutsHere(db) && Visiting(db) && (forall u :: u in db.queue ==> u < db.nextId)
    requires Transition(db, w, now, d) && SoundSnapshot(db, w, w.phase.snap)
    ensures TimeoutsHere(d)
  {
    if w.job.task.ProcessNode? {
      assert w.job.uuid in NodeTasks(db);
    }
  }

  lemma CommitPlaced(db: Db, w: Worker, now: int, d: Db)
    requires Placed(db) && (forall u :: u in db.queue ==> u < db.nextId)
    requires Transition(db, w, now, d) && SoundSnapshot(db, w, w.phase.snap)
    ensures Placed(d)
  {
    NodeTasksAfter(db, w, now, d);
    if w.job.task.ProcessNode? {
      NodePlaced(db, w, now, d);
    } else if w.phase.changes.tasks != [] {
      TargetConnected(db.definition, w.phase.snap.current.value, w.phase.changes.tasks[0].task.node.id);
    }
  }

  lemma NodePlaced(db: Db, w: Worker, now: int, d: Db)
    requires Placed(db) && (forall u :: u in db.queue ==> u < db.nextId) && w.job.task.ProcessNode?
    requires Transition(db, w, now, d) && SoundSnapshot(db, w, w.phase.snap)
    ensures Placed(d)
  {
    NodeTasksAfter(db, w, now, d);
    var c := w.phase.changes;
    assert w.job.uuid in NodeTasks(db);
    if c.tasks != [] && c.tasks[0].task.ProcessNode? && c.tasks[0].task.node.id in NodeTargets(w.job.task.node) {
      TargetConnected(db.definition, w.job.task.node, c.tasks[0].task.node.id);
    }
  }

  lemma CommitThreaded(s: State, key: LockKey, now: int, d: Db)
    requires Identities(s) && Payloads(s) && Fresh(s) && Visiting(s.db) && Threaded(s.db)
    requires key in s.workers && Transition(s.db, s.workers[key], now, d)
    ensures Threaded(d)
  {
    assert SoundSnapshot(s.db, s.workers[key], s.workers[key].phase.snap);
    CommitSingle(s.db, s.workers[key], now, d);
    CommitTimeouts(s.db, s.workers[key], now, d);
    CommitPlaced(s.db, s.workers[key], now, d);
  }

  // ---- Conservation ----

  lemma OneOrNone(db: Db)
    requires Single(db)
    ensures |NodeTasks(db)| == (if NodeTasks(db) == {} then 0 else 1)
    ensures TokenCount(db) <= 1
  {
    if NodeTasks(db) != {} {
      var u :| u in NodeTasks(db);
      assert NodeTasks(db) == {u};
    }
  }

  /** The transitions after which control is nowhere: an End, a service task without a
      successor, or a signal to a wait without a successor. */
  predicate EndsThread(w: Worker) {
    && w.phase.Proposed? && !Retained(w.phase.changes) && w.phase.changes.tasks == []
    && match w.job.task
       case ProcessNode(node) => node.End? || (node.ServiceTask? && node.successor.None?)
       case ProcessSignal(_) =>
         && w.phase.changes.closeWait && w.phase.snap.current.Some?
         && w.phase.snap.current.value.IsWaiting() && w.phase.snap.current.value.successor.None?
       case ProcessEvent(_, _) => false
  }

  lemma NodeConserved(db: Db, w: Worker, now: int, d: Db)
    requires Single(db) && Single(d) && Visiting(db) && (forall u :: u in db.queue ==> u < db.nextId)
    requires Transition(db, w, now, d) && w.job.task.ProcessNode? && SoundSnapshot(db, w, w.phase.snap)
    ensures TokenCount(db) == 1
    ensures TokenCount(d) == 0 ==> EndsThread(w)
  {
    OneOrNone(db);
    OneOrNone(d);
    NodeTasksAfter(db, w, now, d);
    assert w.job.uuid in NodeTasks(db);
    var node := w.job.task.node;
    if !Retained(w.phase.changes) && node.IsWaiting() {
      assert OpenWait(d);
    }
  }

  lemma EventConserved(db: Db, w: Worker, now: int, d: Db)
    requires Single(db) && Single(d) && SoundTimeout(db.definition, w.job.task)
    requires forall u :: u in db.queue ==> u < db.nextId
    requires Transition(db, w, now, d) && !w.job.task.ProcessNode? && SoundSnapshot(db, w, w.phase.snap)
    ensures TokenCount(d) <= TokenCount(db)
    ensures TokenCount(d) < TokenCount(db) ==> EndsThread(w)
  {
    if w.phase.changes.closeWait {
      OneOrNone(d);
      ClosingConserved(db, w, now, d);
    } else {
      IgnoringConserved(db, w, now, d);
    }
  }

  lemma IgnoringConserved(db: Db, w: Worker, now: int, d: Db)
    requires (forall u :: u in db.queue ==> u < db.nextId) && Transition(db, w, now, d) && !w.job.task.ProcessNode?
    requires !w.phase.changes.closeWait
    ensures TokenCount(d) == TokenCount(db)
  {
    IgnoringMoves(db, w, now, d);
    IgnoringNodes(db, w, now, d);
  }

  /** A signal or timeout that closes no wait moves nothing. */
  lemma IgnoringMoves(db: Db, w: Worker, now: int, d: Db)
    requires Transition(db, w, now, d) && !w.job.task.ProcessNode? && !w.phase.changes.closeWait
    ensures w.phase.changes.tasks == [] && OpenWait(d) == OpenWait(db)
    ensures w.job.uuid in db.queue && !db.queue[w.job.uuid].task.ProcessNode?
  {
  }

  lemma IgnoringNodes(db: Db, w: Worker, now: int, d: Db)
    requires (forall u :: u in db.queue ==> u < db.nextId) && Transition(db, w, now, d)
    requires w.phase.changes.tasks == [] && w.job.uuid in db.queue && !db.queue[w.job.uuid].task.ProcessNode?
    ensures NodeTasks(d) == NodeTasks(db)
  {
    NodeTasksAfter(db, w, now, d);
  }

  /** Closing a wait moves the token from the wait to the successor, if there is one. */
  lemma ClosingConserved(db: Db, w: Worker, now: int, d: Db)
    requires Single(db) && SoundTimeout(db.definition, w.job.task) && w.phase.Proposed? && w.phase.changes.closeWait
    requires forall u :: u in db.queue ==> u < db.nextId
    requires Transition(db, w, now, d) && !w.job.task.ProcessNode? && SoundSnapshot(db, w, w.phase.snap)
    ensures TokenCount(db) == 1
    ensures TokenCount(d) <= 1 && (TokenCount(d) == 0 ==> EndsThread(w))
  {
    ClosingSingle(db, w, now, d);
  }

  lemma QuietConserved(s: State, step: Step)
    requires Identities(s) && Single(s.db) && !step.Commit? && !step.QueueNode?
    ensures TokenCount(After(s, step).db) <= TokenCount(s.db)
    ensures !step.Cancel? ==> TokenCount(After(s, step).db) == TokenCount(s.db)
  {
    QuietStep(s, step);
    var d := After(s, step).db;
    assert OpenWait(d) == OpenWait(s.db);
    if step.Cancel? {
      assert NodeTasks(d) <= NodeTasks(s.db);
      OneOrNone(s.db);
      OneOrNone(d);
    } else {
      QuietNodes(s, step);
    }
  }

  lemma QuietNodes(s: State, step: Step)
    requires Identities(s) && !step.Commit? && !step.QueueNode? && !step.Cancel?
    ensures NodeTasks(After(s, step).db) == NodeTasks(s.db)
  {
    if ByWorker(step) {
      QuietWorker(s, step);
    } else if step.Post? {
      PostNodes(s, step);
    }
  }

  lemma PostNodes(s: State, step: Step)
    requires Identities(s) && step.Post?
    ensures NodeTasks(After(s, step).db) == NodeTasks(s.db)
  {
    var r := SignalPosted(s.db, step.signal, step.now);
    if r.Ok? && r.value.1 {
      AdmittedNodes(s.db, CurrentNode(s.db).value, step.signal, step.now);
    }
  }

  lemma AdmittedNodes(db: Db, current: Option<Node>, signal: PostSignal, now: int)
    requires db.nextId !in db.queue
    ensures NodeTasks(Admitted(db, current, signal, now)) == NodeTasks(db)
  {
  }

  /** No step of the engine, its operators or its producers creates a control token, and
      short of a cancellation only a transition with no successor gives one up. */
  lemma TokensConserved(s: State, step: Step)
    requires Inv(s) && Threaded(s.db) && !step.QueueNode?
    ensures TokenCount(After(s, step).db) <= TokenCount(s.db) <= 1
    ensures TokenCount(After(s, step).db) < TokenCount(s.db) && !step.Cancel? ==>
              step.Commit? && step.key in s.workers && EndsThread(s.workers[step.key])
  {
    OneOrNone(s.db);
    if !step.Commit? {
      QuietConserved(s, step);
    } else if step.key in s.workers && s.workers[step.key].phase.Proposed? {
      CommitStepConserved(s, step.key, step.now);
    }
  }

  lemma CommitStepConserved(s: State, key: LockKey, now: int)
    requires Inv(s) && Single(s.db) && key in s.workers && s.workers[key].phase.Proposed?
    ensures TokenCount(CommitStep(s, key, now).db) <= TokenCount(s.db)
    ensures TokenCount(CommitStep(s, key, now).db) < TokenCount(s.db) ==> EndsThread(s.workers[key])
  {
    var w := s.workers[key];
    CommitFacts(s, key, now);
    var r := Committed(s.db, w.job, w.phase.snap, w.phase.changes, now);
    if r.Ok? {
      assert SoundSnapshot(s.db, w, w.phase.snap);
      CommitConserved(s.db, w, now, r.value);
    }
  }

  lemma CommitConserved(db: Db, w: Worker, now: int, d: Db)
    requires Single(db) && Visiting(db) && SoundTimeout(db.definition, w.job.task)
    requires forall u :: u in db.queue ==> u < db.nextId
    requires Transition(db, w, now, d) && SoundSnapshot(db, w, w.phase.snap)
    ensures TokenCount(d) <= TokenCount(db)
    ensures TokenCount(d) < TokenCount(db) ==> EndsThread(w)
  {
    CommitSingle(db, w, now, d);
    OneOrNone(d);
    if w.job.task.ProcessNode? {
      NodeConserved(db, w, now, d);
    } else {
      EventConserved(db, w, now, d);
    }
  }

  // ---- Runs ----

  predicate EngineOnly(steps: seq<Step>) {
    forall i :: 0 <= i < |steps| ==> !steps[i].QueueNode?
  }

  lemma StepThreaded(s: State, step: Step)
    requires Inv(s) && Threaded(s.db) && !step.QueueNode?
    ensures Threaded(After(s, step).db)
  {
    if !step.Commit? {
      QuietStep(s, step);
      ThreadKept(s.db, After(s, step).db);
    } else if step.key in s.workers && s.workers[step.key].phase.Proposed? {
      CommitFacts(s, step.key, step.now);
      var w := s.workers[step.key];
      match Committed(s.db, w.job, w.phase.snap, w.phase.changes, step.now) {
        case Ok(d) => CommitThreaded(s, step.key, step.now, d);
        case Err(_) =>
      }
    }
  }

  /** The first node of a run is the definition's Start, found under its own identifier. */
  predicate UniqueStart(def: ProcessDefinition) {
    StartNode(def).Some? ==> FindNode(def, StartNode(def).value.id) == StartNode(def)
  }

  lemma InitialThreaded(s: State)
    requires Initial(s) && UniqueStart(s.db.definition)
    ensures Threaded(s.db)
  {
    var start := StartNode(s.db.definition).value;
    assert NodeTasks(s.db) == {0};
    StartConnected(s.db.definition, start.id);
  }

  lemma {:induction false} RunThreaded(s: State, steps: seq<Step>)
    requires Inv(s) && Threaded(s.db) && EngineOnly(steps)
    ensures Threaded(Run(s, steps).db) && Inv(Run(s, steps))
  {
    RunKeeps(s, steps);
    if steps != [] {
      var before := steps[..|steps| - 1];
      RunThreaded(s, before);
      StepThreaded(Run(s, before), steps[|steps| - 1]);
    }
  }

  /** In every run without externally queued nodes there is at most one control token,
      every queued timeout belongs to the visit that is open now, and control never
      leaves the part of the graph that Start leads to. */
  lemma SingleThreadOfControl(start: State, steps: seq<Step>)
    requires Initial(start) && UniqueStart(start.db.definition) && EngineOnly(steps)
    ensures var db := Run(start, steps).db;
            && TokenCount(db) <= 1
            && TimeoutsHere(db)
            && Placed(db)
  {
    InitialKeeps(start);
    InitialThreaded(start);
    RunThreaded(start, steps);
    OneOrNone(Run(start, steps).db);
  }
}
