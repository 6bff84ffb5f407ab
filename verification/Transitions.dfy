/** A committed transition keeps every invariant; hence so does every step and every run. */
module Transitions {
  import opened Wrappers
  import opened Contexts
  import opened ProcessDefs
  import opened Tasks
  import opened Database
  import opened Tables
  import opened Commits
  import opened Protocol
  import opened Invariants
  import opened Preservation

  /** A commit of the worker `w` that leads from tables `db` to tables `d`. */
  ghost predicate Transition(db: Db, w: Worker, now: int, d: Db) {
    && w.phase.Proposed?
    && |w.phase.changes.tasks| <= 1
    && Proposal(w.job, w.phase.snap, w.phase.changes)
    && Passes(db, w.job, w.phase.snap, w.phase.changes)
    && Effect(db, w.job, w.phase.snap, w.phase.changes, now, d)
  }

  function Moved(s: State, key: LockKey, d: Db): State
    requires key in s.workers
  {
    Advance(s, key, Finished).(db := d)
  }

  lemma CommitIdentities(s: State, key: LockKey, now: int, d: Db)
    requires Identities(s) && key in s.workers && Transition(s.db, s.workers[key], now, d)
    ensures Identities(Moved(s, key, d))
  {
  }

  lemma CommitOwnership(s: State, key: LockKey, now: int, d: Db)
    requires Identities(s) && Ownership(s) && key in s.workers && Transition(s.db, s.workers[key], now, d)
    ensures Ownership(Moved(s, key, d))
  {
  }

  lemma CommitExclusive(s: State, key: LockKey, now: int, d: Db)
    requires Identities(s) && Exclusive(s.db) && key in s.workers && Transition(s.db, s.workers[key], now, d)
    ensures Exclusive(d)
  {
  }

  /** While one worker holds the row it can commit, no other worker is running. */
  lemma OthersIdle(s: State, key: LockKey, other: LockKey)
    requires Ownership(s) && Exclusive(s.db) && Deadlines(s)
    requires key in s.workers && Holds(s.db, s.workers[key].job)
    requires other in s.workers && other != key
    ensures !Running(s.workers[other], s.db.clock)
  {
    if Running(s.workers[other], s.db.clock) {
      var u := s.workers[other].job.uuid;
      assert Backed(s.workers[other], s.db.queue);
      assert Active(s.db.queue[u], s.db.clock) && Active(s.db.queue[s.workers[key].job.uuid], s.db.clock);
    }
  }

  lemma CommitDeadlines(s: State, key: LockKey, now: int, d: Db)
    requires Identities(s) && Ownership(s) && Exclusive(s.db) && Deadlines(s)
    requires key in s.workers && Transition(s.db, s.workers[key], now, d)
    ensures Deadlines(Moved(s, key, d))
  {
    forall k | k in s.workers && k != key ensures !Running(s.workers[k], s.db.clock) {
      OthersIdle(s, key, k);
    }
  }

  lemma CommitRecovering(s: State, key: LockKey, now: int, d: Db)
    requires Identities(s) && Exclusive(s.db) && Recovering(s.db)
    requires key in s.workers && Transition(s.db, s.workers[key], now, d)
    ensures Recovering(d)
  {
    assert Active(s.db.queue[s.workers[key].job.uuid], s.db.clock);
    if s.workers[key].phase.changes.incident.Some? {
      assert d.incidents[s.db.nextId].open;
    }
  }

  lemma CommitBudgeted(s: State, key: LockKey, now: int, d: Db)
    requires Identities(s) && Ownership(s) && Budgeted(s.db)
    requires key in s.workers && Transition(s.db, s.workers[key], now, d)
    ensures Budgeted(d)
  {
  }

  lemma CommitPayloads(s: State, key: LockKey, now: int, d: Db)
    requires Identities(s) && Payloads(s) && Fresh(s) && key in s.workers && Transition(s.db, s.workers[key], now, d)
    ensures Payloads(Moved(s, key, d))
  {
    var w := s.workers[key];
    assert SoundSnapshot(s.db, w, w.phase.snap);
    if w.phase.changes.tasks != [] {
      NewPayload(s.db, w, now, d);
    }
  }

  /** A task a transition adds is a timeout of the node it enters, under the visit it opens, or a node task. */
  lemma NewPayload(db: Db, w: Worker, now: int, d: Db)
    requires Transition(db, w, now, d) && w.phase.changes.tasks != [] && w.phase.snap.definition == db.definition
    ensures db.nextId in d.queue && SoundTimeout(db.definition, d.queue[db.nextId].task)
    ensures d.queue[db.nextId].task.ProcessEvent? ==> d.queue[db.nextId].visit == Some(w.job.uuid)
  {
    assert w.phase.changes.tasks[0] in w.phase.changes.tasks;
  }

  lemma CommitVisiting(s: State, key: LockKey, now: int, d: Db)
    requires Identities(s) && Payloads(s) && Fresh(s) && Visiting(s.db)
    requires key in s.workers && Transition(s.db, s.workers[key], now, d)
    ensures Visiting(d)
  {
    var w := s.workers[key];
    assert SoundSnapshot(s.db, w, w.phase.snap);
    if w.phase.changes.enterNode.Some? {
      VisitOpens(s.db, w, now, d);
    } else {
      VisitStays(s.db, w, now, d);
    }
  }

  lemma VisitOpens(db: Db, w: Worker, now: int, d: Db)
    requires Transition(db, w, now, d) && w.phase.changes.enterNode.Some? && SoundSnapshot(db, w, w.phase.snap)
    requires forall u :: u in db.queue ==> u < db.nextId
    ensures Visiting(d)
  {
  }

  lemma VisitStays(db: Db, w: Worker, now: int, d: Db)
    requires Transition(db, w, now, d) && w.phase.changes.enterNode.None? && Visiting(db)
    requires forall u :: u in db.queue ==> u < db.nextId
    requires db.inst.visit.Some? ==> db.inst.visit.value < db.nextId
    ensures Visiting(d)
  {
  }

  /** The visit a commit closes was open until then and is spent from then on. */
  lemma CommitClosed(s: State, key: LockKey, now: int, d: Db)
    requires Identities(s) && Payloads(s) && Fresh(s) && Visiting(s.db) && ClosedOnce(s.db)
    requires key in s.workers && Transition(s.db, s.workers[key], now, d)
    requires Current(s.db, s.workers[key].phase.snap)
    ensures ClosedOnce(d)
  {
    var w := s.workers[key];
    var c := w.phase.changes;
    assert SoundSnapshot(s.db, w, w.phase.snap);
    forall v: Uuid
      ensures Closings(d.log, v) <= 1 && (Closings(d.log, v) == 1 ==> Spent(d, v))
    {
      CommitClosings(s.db, w, now, d, v);
      if Spent(s.db, v) {
        StaysSpent(s.db, w, now, d, v);
      }
    }
  }

  /** A commit adds one closing, of its own visit, when it closes the wait, and none otherwise. */
  lemma CommitClosings(db: Db, w: Worker, now: int, d: Db, v: Uuid)
    requires Transition(db, w, now, d)
    ensures Closings(d.log, v)
      == Closings(db.log, v) + (if w.phase.changes.closeWait && w.phase.snap.taskVisit == Some(v) then 1 else 0)
  {
    EventClosings(w.job, w.phase.snap, w.phase.changes, v);
    CountsAppend(db.log, w.phase.changes.events, v, "");
  }

  lemma EventClosings(job: Job, snap: Snapshot, c: Changes, v: Uuid)
    requires Proposal(job, snap, c)
    ensures Closings(c.events, v) == if c.closeWait && snap.taskVisit == Some(v) then 1 else 0
  {
    if c.closeWait {
      ClosingEvent(job, snap, c, v);
    } else {
      CountsOfNone(c.events, v, "");
    }
  }

  lemma ClosingEvent(job: Job, snap: Snapshot, c: Changes, v: Uuid)
    requires Proposal(job, snap, c) && c.closeWait
    ensures Closings(c.events, v) == if snap.taskVisit == Some(v) then 1 else 0
  {
    CountsOfOne(c.events[0], v, "");
  }

  lemma StaysSpent(db: Db, w: Worker, now: int, d: Db, v: Uuid)
    requires Transition(db, w, now, d) && Spent(db, v)
    ensures Spent(d, v)
  {
  }

  lemma CommitCounts(s: State, key: LockKey, now: int, d: Db, e: string)
    requires key in s.workers && Transition(s.db, s.workers[key], now, d)
    ensures var w := s.workers[key];
            && Queuings(d.log, e) == Queuings(s.db.log, e)
            && Acceptances(d.log, e)
               == Acceptances(s.db.log, e) + (if w.phase.changes.closeWait && Carries(w.job.task, e) then 1 else 0)
  {
    var c := s.workers[key].phase.changes;
    CountsAppend(s.db.log, c.events, 0, e);
    if c.closeWait {
      CountsOfOne(c.events[0], 0, e);
    } else {
      CountsOfNone(c.events, 0, e);
    }
  }

  /** No commit queues or rewrites a delivery, and one that accepts a delivery consumes it. */
  lemma CommitDeliveries(s: State, key: LockKey, now: int, d: Db)
    requires Identities(s) && key in s.workers && Transition(s.db, s.workers[key], now, d)
    ensures forall u :: u in d.queue && d.queue[u].task.ProcessSignal? ==> u in s.db.queue && d.queue[u].task == s.db.queue[u].task
    ensures s.workers[key].phase.changes.closeWait ==> s.workers[key].job.uuid !in d.queue
  {
  }

  lemma CommitReceipted(s: State, key: LockKey, now: int, d: Db)
    requires Identities(s) && Receipted(s.db)
    requires key in s.workers && Transition(s.db, s.workers[key], now, d)
    ensures Receipted(d)
  {
    CommitDeliveries(s, key, now, d);
    forall e: string
      ensures Queuings(d.log, e) == Queuings(s.db.log, e)
      ensures Acceptances(d.log, e)
              == Acceptances(s.db.log, e) + (if s.workers[key].phase.changes.closeWait && Carries(s.workers[key].job.task, e) then 1 else 0)
    {
      CommitCounts(s, key, now, d, e);
    }
    assert d.receipts == s.db.receipts;
    assert s.workers[key].job.uuid in s.db.queue && s.db.queue[s.workers[key].job.uuid].task == s.workers[key].job.task;
  }

  lemma CommitView(s: State, key: LockKey, now: int, d: Db)
    requires Identities(s) && Ownership(s) && key in s.workers && Transition(s.db, s.workers[key], now, d)
    ensures SameView(s, Moved(s, key, d))
  {
    CommitLeased(s.db, s.workers[key], now, d);
  }

  /** A row that is leased after a commit was leased before it, by the same key and under the same visit. */
  lemma CommitLeased(db: Db, w: Worker, now: int, d: Db)
    requires Transition(db, w, now, d)
    ensures d.inst.revision > db.inst.revision && d.definition == db.definition
    ensures forall u :: u in d.queue && d.queue[u].lease.Some? ==>
              u in db.queue && db.queue[u].lease == d.queue[u].lease && db.queue[u].visit == d.queue[u].visit
  {
  }

  lemma CommitKeeps(s: State, key: LockKey, now: int)
    requires Inv(s) && key in s.workers && s.workers[key].phase.Proposed?
    ensures Inv(CommitStep(s, key, now))
  {
    CommitFacts(s, key, now);
    var w := s.workers[key];
    match Committed(s.db, w.job, w.phase.snap, w.phase.changes, now) {
      case Ok(d) =>
        CommitIdentities(s, key, now, d);
        CommitOwnership(s, key, now, d);
        CommitExclusive(s, key, now, d);
        CommitDeadlines(s, key, now, d);
        CommitRecovering(s, key, now, d);
        CommitBudgeted(s, key, now, d);
        CommitPayloads(s, key, now, d);
        CommitVisiting(s, key, now, d);
        CommitClosed(s, key, now, d);
        CommitReceipted(s, key, now, d);
        CommitView(s, key, now, d);
        ViewKept(s, Moved(s, key, d));
      case Err(_) =>
        StoppedKeeps(s, key);
    }
  }

  predicate ByWorker(step: Step) {
    step.Fetch? || step.Load? || step.Prepare? || step.Commit? || step.Renew? || step.Release?
  }

  /** A commit step is a transition of a sound snapshot, or it only stops its worker. */
  lemma CommitCases(s: State, key: LockKey, now: int) returns (d: Option<Db>)
    requires Inv(s) && key in s.workers && s.workers[key].phase.Proposed?
    ensures SoundSnapshot(s.db, s.workers[key], s.workers[key].phase.snap)
    ensures d.None? ==> CommitStep(s, key, now) == Advance(s, key, Finished)
    ensures d.Some? ==> CommitStep(s, key, now) == Moved(s, key, d.value) && Transition(s.db, s.workers[key], now, d.value)
  {
    CommitFacts(s, key, now);
    var w := s.workers[key];
    assert SoundSnapshot(s.db, w, w.phase.snap);
    var r := Committed(s.db, w.job, w.phase.snap, w.phase.changes, now);
    d := if r.Ok? then Some(r.value) else None;
  }

  /** Short of a commit, a worker step changes leases, due times, attempts and the binding of a signal; a job is one a
      queued row describes. */
  ghost predicate SameRows(s: State, t: State) {
    && t.db.definition == s.db.definition && t.db.inst == s.db.inst && t.db.log == s.db.log
    && t.db.receipts == s.db.receipts && t.db.incidents == s.db.incidents && t.db.nextId >= s.db.nextId
    && (forall u :: u in t.db.queue <==> u in s.db.queue)
    && (forall u :: u in s.db.queue ==>
          && t.db.queue[u].task == s.db.queue[u].task && t.db.queue[u].retries == s.db.queue[u].retries
          && (s.db.queue[u].visit.Some? || !s.db.queue[u].task.ProcessSignal? ==>
                t.db.queue[u].visit == s.db.queue[u].visit))
    && (forall k :: k in t.workers ==>
          || (k in s.workers && t.workers[k].job == s.workers[k].job)
          || (t.workers[k].job.uuid in s.db.queue && t.workers[k].job.task == s.db.queue[t.workers[k].job.uuid].task))
  }

  lemma FetchRows(s: State, step: Step)
    requires step.Fetch?
    ensures SameRows(s, After(s, step))
  {
  }

  lemma LoadRows(s: State, step: Step)
    requires step.Load?
    ensures SameRows(s, After(s, step))
  {
  }

  lemma PrepareRows(s: State, step: Step)
    requires step.Prepare?
    ensures SameRows(s, After(s, step))
  {
  }

  lemma RenewRows(s: State, step: Step)
    requires step.Renew?
    ensures SameRows(s, After(s, step))
  {
  }

  lemma ReleaseRows(s: State, step: Step)
    requires step.Release?
    ensures SameRows(s, After(s, step))
  {
  }

  lemma WorkerRows(s: State, step: Step)
    requires ByWorker(step) && !step.Commit?
    ensures SameRows(s, After(s, step))
  {
    if step.Fetch? {
      FetchRows(s, step);
    } else if step.Load? {
      LoadRows(s, step);
    } else if step.Prepare? {
      PrepareRows(s, step);
    } else if step.Renew? {
      RenewRows(s, step);
    } else {
      ReleaseRows(s, step);
    }
  }

  lemma AttemptStepKeeps(s: State, step: Step)
    requires Inv(s) && (step.Load? || step.Prepare? || step.Commit?)
    ensures Inv(After(s, step))
  {
    match step {
      case Load(key) =>
        if key in s.workers && s.workers[key].phase.Dequeued? {
          LoadKeeps(s, key);
        }
      case Prepare(key, host) =>
        if key in s.workers && s.workers[key].phase.Snapshotted? {
          PrepareKeeps(s, key, host);
        }
      case Commit(key, now) =>
        if key in s.workers && s.workers[key].phase.Proposed? {
          CommitKeeps(s, key, now);
        }
    }
  }

  lemma LeaseStepKeeps(s: State, step: Step)
    requires Inv(s) && (step.Fetch? || step.Renew? || step.Release?)
    ensures Inv(After(s, step))
  {
    match step {
      case Fetch(u, startedAt) => FetchStepKeeps(s, u, startedAt);
      case Renew(key, startedAt, answered) => RenewStepKeeps(s, key, startedAt, answered);
      case Release(key, runAfter) => ReleaseStepKeeps(s, key, runAfter);
    }
  }

  lemma FetchStepKeeps(s: State, u: Uuid, startedAt: int)
    requires Inv(s)
    ensures Inv(After(s, Fetch(u, startedAt)))
  {
    if Claimable(s.db, u) && startedAt <= s.db.clock {
      FetchKeeps(s, u, startedAt);
    }
  }

  lemma RenewStepKeeps(s: State, key: LockKey, startedAt: int, answered: bool)
    requires Inv(s)
    ensures Inv(After(s, Renew(key, startedAt, answered)))
  {
    if key in s.workers && !s.workers[key].phase.Finished? && startedAt <= s.db.clock {
      RenewKeeps(s, key, startedAt, answered);
    }
  }

  lemma ReleaseStepKeeps(s: State, key: LockKey, runAfter: int)
    requires Inv(s)
    ensures Inv(After(s, Release(key, runAfter)))
  {
    if key in s.workers && !s.workers[key].phase.Finished? {
      ReleaseKeeps(s, key, runAfter);
    }
  }

  lemma WriterStepKeeps(s: State, step: Step)
    requires Inv(s) && (step.ApplyPatch? || step.SaveContext? || step.AssignStage?)
    ensures Inv(After(s, step))
  {
    var context := match step
      case ApplyPatch(patch) => Patched(s.db.context, patch)
      case SaveContext(supplied) => s.db.context + supplied
      case _ => s.db.context;
    var stage := if step.AssignStage? then Some(step.stage) else s.db.inst.stage;
    WriterForm(s, step, context, stage);
    WriteKeeps(s, context, stage);
  }

  lemma WriterForm(s: State, step: Step, context: ContextMap, stage: Option<StageRef>)
    requires step.ApplyPatch? || step.SaveContext? || step.AssignStage?
    requires context == match step
      case ApplyPatch(patch) => Patched(s.db.context, patch)
      case SaveContext(supplied) => s.db.context + supplied
      case _ => s.db.context
    requires stage == if step.AssignStage? then Some(step.stage) else s.db.inst.stage
    ensures After(s, step) == s || After(s, step) == Written(s, context, stage)
  {
  }

  lemma ProducerStepKeeps(s: State, step: Step)
    requires Inv(s) && (step.Tick? || step.Post? || step.QueueNode?)
    ensures Inv(After(s, step))
  {
    match step {
      case Tick(elapsed) => TickKeeps(s, elapsed);
      case Post(signal, now) => PostKeeps(s, signal, now);
      case QueueNode(node, runAfter) => QueueNodeKeeps(s, node, runAfter);
    }
  }

  lemma OperatorStepKeeps(s: State, step: Step)
    requires Inv(s) && (step.Resume? || step.MakeDue? || step.Cancel?)
    ensures Inv(After(s, step))
  {
    match step {
      case Resume(incident) => ResumeStepKeeps(s, incident);
      case MakeDue(u) => MakeDueStepKeeps(s, u);
      case Cancel(u) => CancelStepKeeps(s, u);
    }
  }

  lemma ResumeStepKeeps(s: State, incident: Uuid)
    requires Inv(s)
    ensures Inv(After(s, Resume(incident)))
  {
    if Resumed(s.db, incident).Ok? && Resumed(s.db, incident).value.Some? {
      ResumeKeeps(s, incident);
    }
  }

  lemma MakeDueStepKeeps(s: State, u: Uuid)
    requires Inv(s)
    ensures Inv(After(s, Step.MakeDue(u)))
  {
    if MadeDue(s.db, u).Some? {
      MakeDueKeeps(s, u);
    }
  }

  lemma CancelStepKeeps(s: State, u: Uuid)
    requires Inv(s)
    ensures Inv(After(s, Cancel(u)))
  {
    if Cancellable(s.db, u) {
      CancelKeeps(s, u);
    }
  }

  lemma StepKeeps(s: State, step: Step)
    requires Inv(s)
    ensures Inv(After(s, step))
  {
    if step.Load? || step.Prepare? || step.Commit? {
      AttemptStepKeeps(s, step);
    } else if step.Fetch? || step.Renew? || step.Release? {
      LeaseStepKeeps(s, step);
    } else if step.Resume? || step.MakeDue? || step.Cancel? {
      OperatorStepKeeps(s, step);
    } else if step.ApplyPatch? || step.SaveContext? || step.AssignStage? {
      WriterStepKeeps(s, step);
    } else {
      ProducerStepKeeps(s, step);
    }
  }

  lemma InitialKeeps(s: State)
    requires Initial(s)
    ensures Inv(s)
  {
    StartsRecorded(s);
  }

  lemma StartsRecorded(s: State)
    requires Initial(s)
    ensures Recorded(s)
  {
  }

  lemma {:induction false} RunKeeps(s: State, steps: seq<Step>)
    requires Inv(s)
    ensures Inv(Run(s, steps))
  {
    if steps != [] {
      RunKeeps(s, steps[..|steps| - 1]);
      StepKeeps(Run(s, steps[..|steps| - 1]), steps[|steps| - 1]);
    }
  }

  /** Runs exist: a definition with a Start node and an initial stage can be started, any other cannot. */
  lemma StartsReachable(def: ProcessDefinition, context: ContextMap, clock: int, now: int, leaseMs: nat)
    requires leaseMs > 0
    ensures Started(def, context, clock, now).Ok? <==> Startable(def)
    ensures Started(def, context, clock, now).Ok? ==>
              var s := State(leaseMs, Started(def, context, clock, now).value, map[]);
              Initial(s) && Reachable(s) && JustStarted(def, context, clock, now, s.db)
  {
    StartTables(def, context, clock, now);
    if Started(def, context, clock, now).Ok? {
      var s := State(leaseMs, Started(def, context, clock, now).value, map[]);
      assert Initial(s) && s == Run(s, []);
    }
  }

  /** Every state of every run, with any number of workers, satisfies the invariants. */
  lemma ReachableInv(s: State)
    requires Reachable(s)
    ensures Inv(s)
  {
    var start, steps :| Initial(start) && s == Run(start, steps);
    InitialKeeps(start);
    RunKeeps(start, steps);
  }
}
