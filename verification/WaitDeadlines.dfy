/** No timeout fires before it is due. */
module WaitDeadlines {
  import opened Wrappers
  import opened ProcessDefs
  import opened Tasks
  import opened Outcomes
  import opened Database
  import opened Tables
  import opened Protocol
  import opened Invariants
  import opened Preservation
  import opened Transitions
  import opened Consequences

  // ---- A timeout that waits ----

  ghost predicate Expired(log: seq<Event>, visit: Uuid) {
    exists i :: 0 <= i < |log| && log[i].TimeoutAccepted? && log[i].visit == visit
  }

  /** `u` is the only timeout of the visit `v`, and until `due` it is neither due, nor leased, nor in anyone's hands. */
  ghost predicate TimeoutWaits(s: State, u: Uuid, v: Uuid, due: int) {
    && u < s.db.nextId && v < s.db.nextId && v !in s.db.queue
    && (forall x :: x in s.db.queue && s.db.queue[x].task.ProcessEvent? && s.db.queue[x].visit == Some(v) ==> x == u)
    && (u in s.db.queue ==>
          && s.db.queue[u].task.ProcessEvent?
          && (due <= s.db.queue[u].runAfter || due <= s.db.clock)
          && (s.db.queue[u].lease.Some? ==> due <= s.db.clock))
    && (forall k :: k in s.workers && s.workers[k].job.uuid == u ==> due <= s.db.clock)
    && (forall i :: i in s.db.incidents && s.db.incidents[i].open && s.db.incidents[i].task == u ==> due <= s.db.clock)
    && (Expired(s.db.log, v) ==> due <= s.db.clock)
  }

  lemma WaitsLeases(s: State, step: Step, u: Uuid, v: Uuid, due: int)
    requires TimeoutWaits(s, u, v, due) && ByWorker(step) && !step.Commit? && !step.Fetch?
    requires Ownership(s)
    ensures TimeoutWaits(After(s, step), u, v, due)
  {
    if step.Load? {
      WaitsLoad(s, step, u, v, due);
    } else if step.Prepare? {
      WaitsPrepare(s, step, u, v, due);
    } else if step.Renew? {
      WaitsRenew(s, step, u, v, due);
    } else {
      WaitsRelease(s, step, u, v, due);
    }
  }

  lemma WaitsLoad(s: State, step: Step, u: Uuid, v: Uuid, due: int)
    requires TimeoutWaits(s, u, v, due) && step.Load?
    ensures TimeoutWaits(After(s, step), u, v, due)
  {
  }

  lemma WaitsPrepare(s: State, step: Step, u: Uuid, v: Uuid, due: int)
    requires TimeoutWaits(s, u, v, due) && step.Prepare?
    ensures TimeoutWaits(After(s, step), u, v, due)
  {
  }

  lemma WaitsRenew(s: State, step: Step, u: Uuid, v: Uuid, due: int)
    requires TimeoutWaits(s, u, v, due) && step.Renew?
    ensures TimeoutWaits(After(s, step), u, v, due)
  {
  }

  lemma WaitsRelease(s: State, step: Step, u: Uuid, v: Uuid, due: int)
    requires TimeoutWaits(s, u, v, due) && step.Release?
    ensures TimeoutWaits(After(s, step), u, v, due)
  {
  }

  /** A claim needs the row to be due. */
  lemma WaitsFetch(s: State, x: Uuid, startedAt: int, u: Uuid, v: Uuid, due: int)
    requires TimeoutWaits(s, u, v, due) && Claimable(s.db, x)
    ensures TimeoutWaits(Fetched(s, x, startedAt), u, v, due)
  {
  }

  lemma WaitsOutside(s: State, step: Step, u: Uuid, v: Uuid, due: int)
    requires TimeoutWaits(s, u, v, due) && !ByWorker(step) && step != Step.MakeDue(u)
    requires !step.Post? && !step.Resume?
    ensures TimeoutWaits(After(s, step), u, v, due)
  {
  }

  lemma WaitsResume(s: State, incident: Uuid, u: Uuid, v: Uuid, due: int)
    requires TimeoutWaits(s, u, v, due)
    ensures TimeoutWaits(After(s, Resume(incident)), u, v, due)
  {
  }

  lemma LogOfSignal(log: seq<Event>, e: Event, v: Uuid)
    requires !e.TimeoutAccepted?
    ensures Expired(log + [e], v) ==> Expired(log, v)
  {
  }

  lemma WaitsPost(s: State, signal: PostSignal, now: int, u: Uuid, v: Uuid, due: int)
    requires TimeoutWaits(s, u, v, due)
    ensures TimeoutWaits(After(s, Post(signal, now)), u, v, due)
  {
    var r := SignalPosted(s.db, signal, now);
    if r.Ok? && r.value.1 {
      WaitsAdmission(s, CurrentNode(s.db).value, signal, now, u, v, due);
    }
  }

  lemma WaitsAdmission(s: State, current: Option<Node>, signal: PostSignal, now: int, u: Uuid, v: Uuid, due: int)
    requires TimeoutWaits(s, u, v, due)
    ensures TimeoutWaits(WithAdmission(s, current, signal, now), u, v, due)
  {
    LogOfSignal(s.db.log, SignalQueued(s.db.nextId, signal.eventId), v);
  }

  /** The timeouts a commit adds belong to the visit of its own task, and those it accepts are its own task. */
  lemma CommitTimes(db: Db, w: Worker, now: int, d: Db, v: Uuid)
    requires Transition(db, w, now, d) && SoundSnapshot(db, w, w.phase.snap) && v !in db.queue
    requires forall x :: x in db.queue ==> x < db.nextId
    ensures db.nextId in d.queue && d.queue[db.nextId].task.ProcessEvent? ==> d.queue[db.nextId].visit != Some(v)
    ensures Expired(w.phase.changes.events, v) ==>
              w.job.uuid in db.queue && db.queue[w.job.uuid].task.ProcessEvent? && db.queue[w.job.uuid].visit == Some(v)
  {
    var c := w.phase.changes;
    if c.tasks != [] {
      assert c.tasks[0] in c.tasks;
    }
    if i :| 0 <= i < |c.events| && c.events[i].TimeoutAccepted? && c.events[i].visit == v {
      assert c.events[i] in c.events;
    }
  }

  lemma ExpiredSplit(log: seq<Event>, events: seq<Event>, v: Uuid)
    requires Expired(log + events, v)
    ensures Expired(log, v) || Expired(events, v)
  {
    var i :| 0 <= i < |log + events| && (log + events)[i].TimeoutAccepted? && (log + events)[i].visit == v;
    if i >= |log| {
      assert events[i - |log|] == (log + events)[i];
    }
  }

  lemma WaitsCommit(s: State, key: LockKey, now: int, d: Db, u: Uuid, v: Uuid, due: int)
    requires TimeoutWaits(s, u, v, due) && Identities(s) && key in s.workers
    requires Transition(s.db, s.workers[key], now, d) && SoundSnapshot(s.db, s.workers[key], s.workers[key].phase.snap)
    ensures TimeoutWaits(Moved(s, key, d), u, v, due)
  {
    var w := s.workers[key];
    CommitTimes(s.db, w, now, d, v);
    if Expired(d.log, v) {
      ExpiredSplit(s.db.log, w.phase.changes.events, v);
    }
    WaitsRows(s.db, w, now, d, u, v);
  }

  /** What a commit leaves of the rows that matter to the timeout `u`. */
  lemma WaitsRows(db: Db, w: Worker, now: int, d: Db, u: Uuid, v: Uuid)
    requires Transition(db, w, now, d) && u < db.nextId && v < db.nextId && v !in db.queue
    requires forall x :: x in db.queue ==> x < db.nextId
    ensures d.clock == db.clock && d.nextId >= db.nextId && v !in d.queue
    ensures forall x :: x in d.queue && x != db.nextId ==>
              x in db.queue && d.queue[x].task == db.queue[x].task && d.queue[x].visit == db.queue[x].visit
    ensures u in d.queue && u != w.job.uuid ==> d.queue[u] == db.queue[u]
    ensures forall i :: i in d.incidents && d.incidents[i].open && d.incidents[i].task == u ==>
              u == w.job.uuid || (i in db.incidents && db.incidents[i] == d.incidents[i])
  {
  }

  lemma WaitsStep(s: State, step: Step, u: Uuid, v: Uuid, due: int)
    requires Inv(s) && TimeoutWaits(s, u, v, due) && step != Step.MakeDue(u)
    ensures TimeoutWaits(After(s, step), u, v, due)
  {
    if step.Commit? {
      if step.key in s.workers && s.workers[step.key].phase.Proposed? {
        WaitsCommitStep(s, step.key, step.now, u, v, due);
      }
    } else if step.Fetch? {
      if Claimable(s.db, step.task) && step.startedAt <= s.db.clock {
        WaitsFetch(s, step.task, step.startedAt, u, v, due);
      }
    } else if ByWorker(step) {
      WaitsLeases(s, step, u, v, due);
    } else if step.Post? {
      WaitsPost(s, step.signal, step.now, u, v, due);
    } else if step.Resume? {
      WaitsResume(s, step.incident, u, v, due);
    } else {
      WaitsOutside(s, step, u, v, due);
    }
  }

  lemma WaitsCommitStep(s: State, key: LockKey, now: int, u: Uuid, v: Uuid, due: int)
    requires Inv(s) && TimeoutWaits(s, u, v, due) && key in s.workers && s.workers[key].phase.Proposed?
    ensures TimeoutWaits(CommitStep(s, key, now), u, v, due)
  {
    var d := CommitCases(s, key, now);
    if d.Some? {
      WaitsCommit(s, key, now, d.value, u, v, due);
    } else {
      WaitsStopped(s, key, u, v, due);
    }
  }

  lemma WaitsStopped(s: State, key: LockKey, u: Uuid, v: Uuid, due: int)
    requires TimeoutWaits(s, u, v, due) && key in s.workers
    ensures TimeoutWaits(Advance(s, key, Finished), u, v, due)
  {
  }

  lemma {:induction false} WaitsRun(s: State, steps: seq<Step>, u: Uuid, v: Uuid, due: int)
    requires Inv(s) && TimeoutWaits(s, u, v, due)
    requires forall i :: 0 <= i < |steps| ==> steps[i] != Step.MakeDue(u)
    ensures TimeoutWaits(Run(s, steps), u, v, due)
  {
    if steps != [] {
      var before := steps[..|steps| - 1];
      WaitsRun(s, before, u, v, due);
      RunKeeps(s, before);
      WaitsStep(Run(s, before), steps[|steps| - 1], u, v, due);
    }
  }

  // ---- Timeouts outlive the task that opened their visit ----

  /** The node task under whose identity a timeout's visit was opened is gone. */
  ghost predicate Detached(db: Db) {
    forall x :: x in db.queue && db.queue[x].task.ProcessEvent? && db.queue[x].visit.Some? ==>
      db.queue[x].visit.value !in db.queue
  }

  lemma WorkerDetached(s: State, t: State)
    requires Detached(s.db) && SameRows(s, t)
    ensures Detached(t.db)
  {
  }

  lemma OutsideDetached(s: State, step: Step)
    requires Detached(s.db) && Identities(s) && !ByWorker(step)
    ensures Detached(After(s, step).db)
  {
    if step.Post? {
      PostDetached(s, step.signal, step.now);
    } else {
      PlainDetached(s, step);
    }
  }

  lemma PostDetached(s: State, signal: PostSignal, now: int)
    requires Detached(s.db) && Identities(s)
    ensures Detached(After(s, Post(signal, now)).db)
  {
  }

  lemma PlainDetached(s: State, step: Step)
    requires Detached(s.db) && Identities(s) && !ByWorker(step) && !step.Post?
    ensures Detached(After(s, step).db)
  {
  }

  lemma CommitDetached(db: Db, w: Worker, now: int, d: Db)
    requires Detached(db) && Transition(db, w, now, d)
    requires forall x :: x in db.queue ==> x < db.nextId
    requires forall x :: x in db.queue && db.queue[x].task.ProcessEvent? && db.queue[x].visit.Some? ==>
               db.queue[x].visit.value < db.nextId
    ensures Detached(d)
  {
    var c := w.phase.changes;
    if c.tasks != [] && c.tasks[0].task.ProcessEvent? {
      TimeoutReplaces(db, w, now, d);
    }
  }

  /** A commit that adds a timeout removes its own task, under whose identity the timeout is bound. */
  lemma TimeoutReplaces(db: Db, w: Worker, now: int, d: Db)
    requires Transition(db, w, now, d) && w.phase.changes.tasks != [] && w.phase.changes.tasks[0].task.ProcessEvent?
    requires forall x :: x in db.queue ==> x < db.nextId
    ensures w.phase.changes.tasks[0].visit == Some(w.job.uuid) && w.job.uuid !in d.queue
  {
    assert w.phase.changes.tasks[0] in w.phase.changes.tasks;
  }

  lemma StepDetached(s: State, step: Step)
    requires Inv(s) && Detached(s.db)
    ensures Detached(After(s, step).db)
  {
    if step.Commit? {
      if step.key in s.workers && s.workers[step.key].phase.Proposed? {
        CommitStepDetached(s, step.key, step.now);
      }
    } else if ByWorker(step) {
      WorkerRows(s, step);
      WorkerDetached(s, After(s, step));
    } else {
      OutsideDetached(s, step);
    }
  }

  lemma CommitStepDetached(s: State, key: LockKey, now: int)
    requires Inv(s) && Detached(s.db) && key in s.workers && s.workers[key].phase.Proposed?
    ensures Detached(CommitStep(s, key, now).db)
  {
    var d := CommitCases(s, key, now);
    if d.Some? {
      CommitDetached(s.db, s.workers[key], now, d.value);
    }
  }

  lemma {:induction false} RunDetached(s: State, steps: seq<Step>)
    requires Inv(s) && Detached(s.db)
    ensures Detached(Run(s, steps).db)
  {
    if steps != [] {
      var before := steps[..|steps| - 1];
      RunDetached(s, before);
      RunKeeps(s, before);
      StepDetached(Run(s, before), steps[|steps| - 1]);
    }
  }

  lemma StartDetached(s: State)
    requires Initial(s)
    ensures Detached(s.db)
  {
  }

  lemma ReachableDetached(s: State)
    requires Reachable(s)
    ensures Detached(s.db)
  {
    var start, steps :| Initial(start) && s == Run(start, steps);
    InitialKeeps(start);
    StartDetached(start);
    RunDetached(start, steps);
  }

  // ---- Main result ----

  lemma {:induction false} ExpiredCounts(log: seq<Event>, v: Uuid)
    requires Expired(log, v)
    ensures Closings(log, v) >= 1
  {
    var i :| 0 <= i < |log| && log[i].TimeoutAccepted? && log[i].visit == v;
    if i < |log| - 1 {
      assert log[..|log| - 1][i] == log[i];
      ExpiredCounts(log[..|log| - 1], v);
    }
  }

  /** Before a queued node task lands, its visit has not expired. */
  lemma NotYetExpired(db: Db, v: Uuid)
    requires ClosedOnce(db) && v in db.queue
    ensures !Expired(db.log, v)
  {
    if Expired(db.log, v) {
      ExpiredCounts(db.log, v);
    }
  }

  lemma EnteringExpiresNothing(db: Db, d: Db, u: Uuid, node: Node, v: Uuid)
    requires Visited(db, d, u, node)
    ensures Expired(d.log, v) ==> Expired(db.log, v)
  {
    if Expired(d.log, v) {
      var i :| 0 <= i < |d.log| && d.log[i].TimeoutAccepted? && d.log[i].visit == v;
      assert i < |db.log|;
      assert db.log[i] == d.log[i];
    }
  }

  /** The tables in which a fresh timeout waits. */
  lemma TimeoutStarts(s: State, t: State, v: Uuid, node: Node, due: int)
    requires Identities(s) && Detached(s.db) && v in s.db.queue && !Expired(t.db.log, v)
    requires TimerOf(node).Some? && Completes(s.db, t.db, v) && Identities(t)
    requires forall k :: k in t.workers ==> k in s.workers && t.workers[k].job == s.workers[k].job
    requires Rows(s.db, t.db, v, None, Some(FreshRow(s.db, ProcessEvent(node, TimerOf(node).value.onTimeout), due, Some(v))))
    ensures TimeoutWaits(t, s.db.nextId, v, due)
  {
  }

  lemma CommitWorkers(s: State, key: LockKey, now: int)
    requires key in s.workers && s.workers[key].phase.Proposed?
    ensures var t := After(s, Commit(key, now));
      forall k :: k in t.workers ==> k in s.workers && t.workers[k].job == s.workers[k].job
  {
  }

  /** Entering a node with a timer queues its timeout for the absolute time, or else for the time of the attempt plus
      the delay. In every further run in which no operator makes that row due, it cannot be claimed, and the visit does
      not expire, before that time on the clock. */
  lemma TimeoutNotEarly(s: State, key: LockKey, now: int, steps: seq<Step>, due: int)
    requires Reachable(s) && NodeLands(s, key) && TimerOf(NodeAt(s, key)).Some?
    requires DueAt(TimerOf(NodeAt(s, key)).value, HostOf(s, key).now, due)
    requires forall i :: 0 <= i < |steps| ==> steps[i] != Step.MakeDue(s.db.nextId)
    ensures var t, u, v := After(s, Commit(key, now)), s.db.nextId, JobAt(s, key).uuid;
      && u in t.db.queue
      && t.db.queue[u] == FreshRow(s.db, ProcessEvent(NodeAt(s, key), TimerOf(NodeAt(s, key)).value.onTimeout), due, Some(v))
      && (Run(t, steps).db.clock < due ==> !Claimable(Run(t, steps).db, u) && !Expired(Run(t, steps).db.log, v))
  {
    ReachableInv(s);
    ReachableDetached(s);
    WaitLands(s, key, now, due);
    var t, v := After(s, Commit(key, now)), JobAt(s, key).uuid;
    NotYetExpired(s.db, v);
    EnteringExpiresNothing(s.db, t.db, v, NodeAt(s, key), v);
    CommitWorkers(s, key, now);
    StepKeeps(s, Commit(key, now));
    TimeoutStarts(s, t, v, NodeAt(s, key), due);
    WaitsRun(t, steps, s.db.nextId, v, due);
    StillWaiting(Run(t, steps), s.db.nextId, v, due);
  }

  lemma StillWaiting(s: State, u: Uuid, v: Uuid, due: int)
    requires TimeoutWaits(s, u, v, due)
    ensures s.db.clock < due ==> !Claimable(s.db, u) && !Expired(s.db.log, v)
  {
  }
}
