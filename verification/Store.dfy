/** The persistence layer as it runs: rows are read, written and deleted in sequence
    inside a transaction, and a refused transaction is rolled back. Each method is proved
    against its counterpart in `Database`. */
module Stores {
  import opened Wrappers
  import opened Contexts
  import opened ProcessDefs
  import opened Tasks
  import opened Database
  import opened Tables

  class Store {
    var clock: int
    var nextId: nat
    var definition: ProcessDefinition
    var inst: Instance
    var context: ContextMap
    var queue: map<Uuid, QueueRow>
    var incidents: map<Uuid, Incident>
    var receipts: map<string, Receipt>
    var log: seq<Event>

    constructor (db: Db)
      ensures View() == db
    {
      clock, nextId, definition, inst, context := db.clock, db.nextId, db.definition, db.inst, db.context;
      queue, incidents, receipts, log := db.queue, db.incidents, db.receipts, db.log;
    }

    function View(): Db
      reads this
    {
      Db(clock, nextId, definition, inst, context, queue, incidents, receipts, log)
    }

    method Rollback(saved: Db)
      modifies this
      ensures View() == saved
    {
      clock, nextId, definition, inst, context := saved.clock, saved.nextId, saved.definition, saved.inst, saved.context;
      queue, incidents, receipts, log := saved.queue, saved.incidents, saved.receipts, saved.log;
    }

    // ---- Leases ----

    /** No lease of the instance is in force, and it is neither suspended nor recovering another task than `u`, which
        is due. */
    static predicate Free(db: Db, u: Uuid) {
      && u in db.queue && db.queue[u].runAfter <= db.clock && !db.inst.suspended
      && (db.inst.recovery.Some? ==> db.inst.recovery.value == u)
      && forall v :: v in db.queue && db.queue[v].lease.Some? ==> db.queue[v].lease.value.until < db.clock
    }

    /** The queue order: due time, then creation time, then identity. */
    static predicate Before(queue: map<Uuid, QueueRow>, u: Uuid, v: Uuid)
      requires u in queue && v in queue
    {
      || queue[u].runAfter < queue[v].runAfter
      || (queue[u].runAfter == queue[v].runAfter && queue[u].createdAt < queue[v].createdAt)
      || (queue[u].runAfter == queue[v].runAfter && queue[u].createdAt == queue[v].createdAt && u < v)
    }

    /** Claims the first due row of the order that no other transaction has locked. */
    method FetchQueueTask(locked: set<Uuid>, leaseMs: nat) returns (r: Result<Option<Job>, string>)
      modifies this`queue, this`nextId
      ensures r.Err? <==> leaseMs == 0
      ensures r.Err? || r == Ok(None) ==> View() == old(View())
      ensures leaseMs > 0 ==> (r == Ok(None) <==> forall v :: v !in locked ==> !Free(old(View()), v))
      ensures r.Ok? && r.value.Some? ==>
                var job := r.value.value;
                var db := old(View());
                && Claimable(db, job.uuid) && Free(db, job.uuid) && job.uuid !in locked
                && (forall v :: v !in locked && Free(db, v) ==>
                      var mine, other := db.queue[job.uuid], db.queue[v];
                      && mine.runAfter <= other.runAfter
                      && (mine.runAfter == other.runAfter ==> mine.createdAt <= other.createdAt)
                      && (mine.runAfter == other.runAfter && mine.createdAt == other.createdAt ==> job.uuid <= v))
                && View() == Claimed(db.(nextId := db.nextId + 1), job.uuid, db.nextId, leaseMs)
                && queue == db.queue[job.uuid := db.queue[job.uuid].(lease := Some(Lease(db.nextId, db.clock + leaseMs)),
                                                                     attempts := db.queue[job.uuid].attempts + 1)]
                && job == Job(job.uuid, db.nextId, queue[job.uuid].task, queue[job.uuid].attempts, queue[job.uuid].createdAt)
    {
      assert forall v :: Claimable(View(), v) <==> Free(View(), v);
      if leaseMs == 0 {
        return Err("task lease must be positive");
      }
      var best: Option<Uuid> := None;
      var left := queue.Keys - locked;
      while left != {}
        invariant left <= queue.Keys - locked
        invariant best.Some? ==> Claimable(View(), best.value) && best.value !in locked
        invariant forall v :: v in queue.Keys - locked - left && Claimable(View(), v) ==>
                    best.Some? && (v == best.value || Before(queue, best.value, v))
        decreases left
      {
        var u :| u in left;
        if Claimable(View(), u) && (best.None? || Before(queue, u, best.value)) {
          best := Some(u);
        }
        left := left - {u};
      }
      if best.None? {
        return Ok(None);
      }
      var u := best.value;
      var key := nextId;
      nextId := nextId + 1;
      var row := queue[u];
      queue := queue[u := row.(lease := Some(Lease(key, clock + leaseMs)), attempts := row.attempts + 1)];
      r := Ok(Some(JobOf(u, key, queue[u])));
    }

    /** The row is leased under the key, in force or not. */
    static predicate Leased(queue: map<Uuid, QueueRow>, u: Uuid, key: LockKey) {
      u in queue && queue[u].lease.Some? && queue[u].lease.value.key == key
    }

    /** Ownership is checked first and the clock after it, so waiting cannot revive a lease. */
    method RenewQueueTaskLock(u: Uuid, key: LockKey, leaseMs: nat) returns (r: Result<bool, string>)
      modifies this`queue
      ensures r.Err? <==> leaseMs == 0
      ensures r.Err? ==> View() == old(View())
      ensures r.Ok? ==>
                match Renewed(old(View()), u, key, leaseMs)
                case Some(d) => r.value && View() == d
                case None => !r.value && View() == old(View())
      ensures leaseMs > 0 ==> (r == Ok(true) <==> Leased(old(queue), u, key) && old(queue)[u].lease.value.until > clock)
      ensures r == Ok(true) ==> queue == old(queue)[u := old(queue)[u].(lease := Some(Lease(key, clock + leaseMs)))]
    {
      if leaseMs == 0 {
        return Err("task lease must be positive");
      }
      r := Ok(false);
      var owned := u in queue && queue[u].lease.Some? && queue[u].lease.value.key == key;
      if owned && queue[u].lease.value.until > clock {
        queue := queue[u := queue[u].(lease := Some(Lease(key, clock + leaseMs)))];
        r := Ok(true);
      }
    }

    method RetryQueueTask(u: Uuid, key: LockKey, runAfter: int) returns (r: Outcome<bool>)
      modifies this`queue
      ensures match Released(old(View()), u, key, runAfter)
              case Ok(d) => r == Ok(true) && View() == d
              case Err(e) => r == Err(e) && View() == old(View())
      ensures r == Ok(true) <==> Leased(old(queue), u, key) && old(queue)[u].lease.value.until >= clock
      ensures r == Ok(true) ==> queue == old(queue)[u := old(queue)[u].(lease := None, runAfter := runAfter)]
    {
      if !(u in queue && queue[u].lease.Some? && queue[u].lease.value.key == key && queue[u].lease.value.until >= clock) {
        return Err(LeaseLost);
      }
      queue := queue[u := queue[u].(lease := None, runAfter := runAfter)];
      r := Ok(true);
    }

    // ---- Snapshots ----

    /** Reads a consistent snapshot under the lease, binding an unbound signal to the
        visit of a node that accepts it. */
    method LoadTaskExecution(job: Job) returns (r: Outcome<Snapshot>)
      modifies this`queue
      ensures match Loaded(old(View()), job)
              case Ok((d, snap)) => r == Ok(snap) && View() == d
              case Err(e) => r == Err(e) && View() == old(View())
      ensures NodeKnown(old(View())) ==> (r.Ok? <==> !inst.suspended && Holds(old(View()), job))
      ensures NodeKnown(old(View())) && r.Ok? ==>
                && queue == old(queue)[job.uuid := old(queue)[job.uuid].(visit := VisitLoaded(old(View()), old(queue)[job.uuid]))]
                && r.value == Seen(View(), job.uuid)
    {
      if NodeKnown(View()) {
        LoadTables(View(), job);
      }
      if inst.suspended {
        return Err(InstanceSuspended);
      }
      if !Holds(View(), job) {
        return Err(LeaseLost);
      }
      var current :- CurrentNode(View());
      var taskVisit := queue[job.uuid].visit;
      if taskVisit.None? && job.task.ProcessSignal? && Accepting(current, job.task.posted.signal) {
        taskVisit := inst.visit;
      }
      queue := queue[job.uuid := queue[job.uuid].(visit := taskVisit)];
      r := Ok(Snapshot(inst.revision, inst.visit, inst.waitCompleted, taskVisit, definition, current, context));
    }

    // ---- Transition commit ----

    method ConsumeWait(job: Job, snap: Snapshot, c: Changes) returns (r: Outcome<bool>)
      modifies this`queue, this`inst
      ensures match WaitConsumed(old(View()), job, snap, c)
              case Ok(d) => r == Ok(true) && View() == d
              case Err(e) => r == Err(e) && View() == old(View())
    {
      if c.closeWait {
        if snap.visit.None? || inst.waitCompleted {
          return Err(WaitClosed);
        }
        if inst.visit != snap.visit {
          return Err(VisitChanged);
        }
        queue := WithoutSiblings(queue, job, snap.visit);
        inst := inst.(waitCompleted := true);
      }
      r := Ok(true);
    }

    method EnterVisit(job: Job, c: Changes) returns (r: Outcome<bool>)
      modifies this`inst
      ensures match NodeVisited(old(View()), job, c)
              case Ok(d) => r == Ok(true) && View() == d
              case Err(e) => r == Err(e) && View() == old(View())
    {
      if c.enterNode.Some? {
        if FindNode(definition, c.enterNode.value).None? {
          return Err(RowMissing);
        }
        inst := inst.(current := c.enterNode, visit := Some(job.uuid), waitCompleted := false);
      }
      r := Ok(true);
    }

    method WriteContext(c: Changes)
      modifies this`context
      ensures View() == old(View()).(context := StoredContext(old(context), c))
    {
      if c.patch.None? && c.context.Some? {
        context := MergeContext(context, c.context.value);
      }
      if c.patch.Some? {
        context := PersistPatch(context, c.patch.value);
      }
    }

    method WriteStage(c: Changes) returns (r: Outcome<bool>)
      modifies this`inst
      ensures match StageAssigned(old(View()), c)
              case Ok(d) => r == Ok(true) && View() == d
              case Err(e) => r == Err(e) && View() == old(View())
    {
      if c.stage.Some? {
        if !StageDeclared(definition, c.stage.value.stage) {
          return Err(RowMissing);
        }
        inst := inst.(stage := c.stage);
      }
      r := Ok(true);
    }

    method Enqueue(pending: Scheduled, now: int) returns (r: Outcome<Uuid>)
      modifies this`queue, this`nextId
      ensures match Enqueued(old(View()), pending, now)
              case Ok(d) => r == Ok(old(nextId)) && View() == d
              case Err(e) => r == Err(e) && View() == old(View())
    {
      var target := TargetOf(pending.task);
      if target.Some? && FindNode(definition, target.value).None? {
        return Err(RowMissing);
      }
      var uuid := nextId;
      nextId := nextId + 1;
      queue := queue[uuid := QueueRow(pending.task, clock, if pending.runAfter.Some? then pending.runAfter.value else now,
                                      0, None, pending.visit, 0)];
      r := Ok(uuid);
    }

    method EnqueueTasks(pending: seq<Scheduled>, now: int) returns (r: Outcome<bool>)
      modifies this`queue, this`nextId
      ensures match EnqueuedAll(old(View()), pending, now)
              case Ok(d) => r == Ok(true) && View() == d
              case Err(e) => r == Err(e)
    {
      for i := 0 to |pending|
        invariant EnqueuedAll(old(View()), pending[..i], now) == Ok(View())
      {
        assert pending[..i + 1][..i] == pending[..i];
        var inserted := Enqueue(pending[i], now);
        if inserted.Err? {
          EnqueueFails(old(View()), pending, i + 1, now);
          return Err(inserted.error);
        }
      }
      assert pending[..|pending|] == pending;
      r := Ok(true);
    }

    method Dispose(job: Job, c: Changes) returns (r: Outcome<bool>)
      modifies this`incidents, this`nextId, this`inst
      ensures match Disposed(old(View()), job, c)
              case Ok(d) => r == Ok(true) && View() == d
              case Err(e) => r == Err(e)
    {
      if c.incident.Some? {
        if c.tasks != [] || c.retryAt.Some? || HasOpenIncident(View()) {
          return Err(IncidentConflict);
        }
        incidents := incidents[nextId := Incident(job.uuid, true)];
        nextId := nextId + 1;
        inst := inst.(suspended := true);
      } else if c.retryAt.None? && inst.recovery == Some(job.uuid) {
        inst := inst.(recovery := None);
      }
      r := Ok(true);
    }

    method SettleSource(job: Job, c: Changes, now: int) returns (r: Outcome<bool>)
      modifies this`queue
      ensures match SourceSettled(old(View()), job, c, now)
              case Ok(d) => r == Ok(true) && View() == d
              case Err(e) => r == Err(e)
    {
      if !Holds(View(), job) {
        return Err(LeaseLost);
      }
      var row := queue[job.uuid];
      if c.retryAt.Some? {
        queue := queue[job.uuid := row.(runAfter := c.retryAt.value, lease := None, retries := row.retries + 1)];
      } else if c.incident.Some? {
        queue := queue[job.uuid := row.(runAfter := now, lease := None)];
      } else {
        queue := queue - {job.uuid};
      }
      r := Ok(true);
    }

    method ApplyChanges(job: Job, snap: Snapshot, c: Changes) returns (r: Outcome<bool>)
      modifies this`queue, this`inst, this`context
      ensures match Applied(old(View()), job, snap, c)
              case Ok(d) => r == Ok(true) && View() == d
              case Err(e) => r == Err(e)
    {
      var _ :- ConsumeWait(job, snap, c);
      var _ :- EnterVisit(job, c);
      WriteContext(c);
      r := WriteStage(c);
    }

    method RecordEvents(events: seq<Event>)
      modifies this`log
      ensures log == old(log) + events
    {
      for i := 0 to |events|
        invariant log == old(log) + events[..i]
      {
        log := log + [events[i]];
        assert events[..i + 1] == events[..i] + [events[i]];
      }
      assert events[..|events|] == events;
    }

    method Advance(events: seq<Event>)
      modifies this`log, this`inst
      ensures View() == old(View()).(log := old(log) + events, inst := old(inst).(revision := old(inst).revision + 1))
    {
      RecordEvents(events);
      inst := inst.(revision := inst.revision + 1);
    }

    /** Events and the revision are written first, then the state of the instance, then the source row. */
    method Conclude(job: Job, c: Changes, now: int) returns (r: Outcome<bool>)
      modifies this
      ensures match Concluded(old(View()), job, c, now)
              case Ok(d) => r == Ok(true) && View() == d
              case Err(e) => r == Err(e)
    {
      Advance(c.events);
      var _ :- Dispose(job, c);
      r := SettleSource(job, c, now);
    }

    /** All effects of an attempt, or none: any refusal restores every table. */
    method CommitTaskExecution(job: Job, snap: Snapshot, c: Changes, now: int) returns (r: Outcome<bool>)
      modifies this
      ensures match Committed(old(View()), job, snap, c, now)
              case Ok(d) => r == Ok(true) && View() == d
              case Err(e) => r == Err(e) && View() == old(View())
    {
      var saved := View();
      if !Holds(View(), job) {
        return Err(LeaseLost);
      }
      if inst.suspended {
        return Err(InstanceSuspended);
      }
      if inst.revision != snap.revision {
        return Err(StaleRevision);
      }
      r := ApplyChanges(job, snap, c);
      if r.Ok? {
        r := EnqueueTasks(c.tasks, now);
      }
      if r.Ok? {
        r := Conclude(job, c, now);
      }
      if r.Err? {
        Rollback(saved);
      }
    }

    // ---- Recovery and operators ----

    /** Resumes exactly the given incident: `false` when it is no longer open. */
    method ResumeInstance(incident: Uuid) returns (r: Outcome<bool>)
      modifies this
      ensures match Resumed(old(View()), incident)
              case Ok(Some(d)) => r == Ok(true) && View() == d
              case Ok(None) => r == Ok(false) && View() == old(View())
              case Err(e) => r == Err(e) && View() == old(View())
      ensures r == Ok(false) <==> !(incident in old(incidents) && old(incidents)[incident].open)
      ensures incident in old(incidents) && old(incidents)[incident].open ==>
                var task := old(incidents)[incident].task;
                if task in old(queue) && (old(queue)[task].lease.Some? ==> old(queue)[task].lease.value.until < clock)
                then && r == Ok(true)
                     && queue == old(queue)[task := old(queue)[task].(attempts := 0, lease := None, runAfter := clock,
                                                                      retries := 0)]
                     && incidents == old(incidents)[incident := Incident(task, false)]
                     && inst == old(inst).(suspended := false, revision := old(inst).revision + 1, recovery := Some(task))
                else r == Err(IncidentTaskBusy)
    {
      if incident !in incidents || !incidents[incident].open {
        return Ok(false);
      }
      var task := incidents[incident].task;
      if task !in queue || !Unleased(queue[task], clock) {
        return Err(IncidentTaskBusy);
      }
      queue := queue[task := queue[task].(attempts := 0, lease := None, runAfter := clock, retries := 0)];
      incidents := incidents[incident := incidents[incident].(open := false)];
      inst := inst.(suspended := false, revision := inst.revision + 1, recovery := Some(task));
      r := Ok(true);
    }

    method AdminRetryQueueTask(u: Uuid) returns (done: bool)
      modifies this`queue
      ensures match Database.MadeDue(old(View()), u)
              case Some(d) => done && View() == d
              case None => !done && View() == old(View())
      ensures done <==> u in old(queue) && (old(queue)[u].lease.Some? ==> old(queue)[u].lease.value.until < clock)
      ensures done ==> queue == old(queue)[u := old(queue)[u].(runAfter := clock, lease := None)]
    {
      done := u in queue && Unleased(queue[u], clock);
      if done {
        queue := queue[u := queue[u].(runAfter := clock, lease := None)];
      }
    }

    method AdminCancelQueueTask(u: Uuid) returns (done: bool)
      modifies this`queue
      ensures match Cancelled(old(View()), u)
              case Some(d) => done && View() == d
              case None => !done && View() == old(View())
      ensures done <==>
                && u in old(queue) && (old(queue)[u].lease.Some? ==> old(queue)[u].lease.value.until < clock)
                && (forall i :: i in incidents && incidents[i].open ==> incidents[i].task != u) && inst.recovery != Some(u)
      ensures queue == old(queue) - (if done then {u} else {})
    {
      done := Cancellable(View(), u);
      if done {
        queue := queue - {u};
      }
    }

    // ---- Signal admission ----

    method Admit(signal: PostSignal, current: Option<Node>, visit: Option<Uuid>, now: int)
      requires visit == AdmissionVisit(View(), current, signal)
      modifies this
      ensures View() == Admitted(old(View()), current, signal, now)
    {
      if signal.eventId.Some? {
        receipts := receipts[signal.eventId.value := Receipt(signal.signal, signal.context, signal.waitVisit)];
      }
      log := log + [SignalQueued(nextId, signal.eventId)];
      queue := queue[nextId := QueueRow(ProcessSignal(signal), clock, now, 0, None, visit, 0)];
      nextId := nextId + 1;
    }

    /** Receipt, history and delivery are written together; `false` reports a duplicate. */
    method EnqueueSignalIfNew(signal: PostSignal, now: int) returns (r: Outcome<bool>)
      modifies this
      ensures match SignalPosted(old(View()), signal, now)
              case Ok((d, isNew)) => r == Ok(isNew) && View() == d
              case Err(e) => r == Err(e) && View() == old(View())
      ensures NodeKnown(old(View())) ==>
                && (r == Ok(true) <==> Admissible(old(View()), signal))
                && (r == Ok(true) ==> AdmittedTo(old(View()), View(), signal, now))
                && (r == Ok(false) <==> Repeated(old(View()), signal))
      ensures r != Ok(true) ==> View() == old(View())
    {
      if NodeKnown(View()) {
        SubmissionTables(View(), signal, now);
      }
      var current :- CurrentNode(View());
      var visit := if Accepting(current, signal.signal) then inst.visit else None;
      if signal.waitVisit.Some? {
        visit := signal.waitVisit;
      }
      if signal.eventId.Some? {
        var event := signal.eventId.value;
        if !ValidEventId(event) {
          return Err(InvalidEventId);
        }
        if event in receipts {
          var receipt := receipts[event];
          if receipt.signal != signal.signal || receipt.payload != signal.context || receipt.requestedVisit != signal.waitVisit {
            return Err(EventConflict);
          }
          return Ok(false);
        }
      }
      Admit(signal, current, visit, now);
      r := Ok(true);
    }

    // ---- Direct writers ----

    method ApplyProcessInstancePatch(patch: Patch)
      modifies this`inst, this`context
      ensures View() == ContextPatched(old(View()), patch)
      ensures context == Patched(old(context), patch) && inst == old(inst).(revision := old(inst).revision + 1)
    {
      inst := inst.(revision := inst.revision + 1);
      context := PersistPatch(context, patch);
    }

    method SaveProcessInstanceContext(supplied: ContextMap)
      modifies this`inst, this`context
      ensures View() == ContextSaved(old(View()), supplied)
      ensures context == old(context) + supplied && inst == old(inst).(revision := old(inst).revision + 1)
    {
      inst := inst.(revision := inst.revision + 1);
      context := MergeContext(context, supplied);
    }

    method SetProcessInstanceStage(stage: StageRef) returns (r: Outcome<bool>)
      modifies this`inst
      ensures match StageSet(old(View()), stage)
              case Ok(d) => r == Ok(true) && View() == d
              case Err(e) => r == Err(e) && View() == old(View())
      ensures r.Ok? <==> exists x :: x in definition.stages && x.id == stage.stage
      ensures r.Ok? ==> inst == old(inst).(revision := old(inst).revision + 1, stage := Some(stage))
    {
      if !StageDeclared(definition, stage.stage) {
        return Err(RowMissing);
      }
      inst := inst.(revision := inst.revision + 1);
      inst := inst.(stage := Some(stage));
      r := Ok(true);
    }

    method QueueNode(node: Node, runAfter: int)
      modifies this`queue, this`nextId
      ensures View() == NodeQueued(old(View()), node, runAfter)
      ensures queue == old(queue)[old(nextId) := FreshRow(old(View()), ProcessNode(node), runAfter, None)]
    {
      queue := queue[nextId := QueueRow(ProcessNode(node), clock, runAfter, 0, None, None, 0)];
      nextId := nextId + 1;
    }
  }

  /** Once an insertion is refused, so is the whole list. */
  lemma {:induction false} EnqueueFails(db: Db, pending: seq<Scheduled>, i: nat, now: int)
    requires i <= |pending| && EnqueuedAll(db, pending[..i], now).Err?
    ensures EnqueuedAll(db, pending, now) == Err(EnqueuedAll(db, pending[..i], now).error)
    decreases |pending| - i
  {
    if i == |pending| {
      assert pending[..i] == pending;
    } else {
      assert pending[..i + 1][..i] == pending[..i];
      EnqueueFails(db, pending, i + 1, now);
    }
  }

  /** Instance, context, initial stage and Start task in one transaction. `published` says whether the definition
      is still active and in its effective period when its row is locked. */
  method StartProcessInstance(def: ProcessDefinition, published: bool, supplied: ContextMap, clock: int, now: int)
    returns (r: Outcome<Store>)
    ensures !published ==> r == Err(RowMissing)
    ensures published ==>
              match Started(def, supplied, clock, now)
              case Ok(d) => r.Ok? && fresh(r.value) && r.value.View() == d
              case Err(e) => r == Err(e)
    ensures r.Ok? <==> published && Startable(def)
    ensures r.Ok? ==> JustStarted(def, supplied, clock, now, r.value.View())
  {
    var start := StartNode(def);
    var initial := InitialStage(def);
    if start.None? || initial.None? || !published {
      StartTables(def, supplied, clock, now);
      return Err(RowMissing);
    }
    var store := new Store(Blank(def, map[], initial.value.id, clock));
    store.context := MergeContext(store.context, supplied);
    assert map[] + supplied == supplied;
    var queued := store.Enqueue(Scheduled(ProcessNode(start.value), None, None), now);
    r := if queued.Ok? then Ok(store) else Err(queued.error);
    StartTables(def, supplied, clock, now);
  }
}
