/** What the invariants mean for a caller: statements about every reachable state and
    every run, with any number of workers and with hosts queueing nodes at will. */
module Guarantees {
  import opened Wrappers
  import opened Tasks
  import opened Dispatch
  import opened Database
  import opened Commits
  import opened Protocol
  import opened Invariants
  import opened Preservation
  import opened Transitions

  // ---- Leases ----

  /** Two rows of one instance are never leased at the same time. */
  lemma OneLiveLease(s: State, u: Uuid, v: Uuid)
    requires Reachable(s) && u in s.db.queue && v in s.db.queue
    requires Active(s.db.queue[u], s.db.clock) && Active(s.db.queue[v], s.db.clock)
    ensures u == v
  {
    ReachableInv(s);
  }

  /** Workers that stop at their own deadline never run host code of one instance
      together, even when a renewal's answer was lost or a lease was taken over. */
  lemma HostsNeverOverlap(s: State, a: LockKey, b: LockKey)
    requires Reachable(s) && a in s.workers && b in s.workers
    requires Running(s.workers[a], s.db.clock) && Running(s.workers[b], s.db.clock)
    ensures a == b
  {
    ReachableInv(s);
    assert Backed(s.workers[a], s.db.queue) && Backed(s.workers[b], s.db.queue);
    assert Active(s.db.queue[s.workers[a].job.uuid], s.db.clock) && Active(s.db.queue[s.workers[b].job.uuid], s.db.clock);
  }

  // ---- Visits ----

  /** No visit is closed twice in any run, through re-entry, replays, stale timeouts,
      several queued signals, and nodes the host queued itself. */
  lemma VisitClosedOnce(s: State, visit: Uuid)
    requires Reachable(s)
    ensures Closings(s.db.log, visit) <= 1
    ensures Closings(s.db.log, visit) == 1 && s.db.inst.visit == Some(visit) ==> s.db.inst.waitCompleted
  {
    ReachableInv(s);
  }

  /** A visit whose wait was closed is never the open visit of any later state. */
  lemma {:induction false} ClosedStaysClosed(s: State, steps: seq<Step>, visit: Uuid)
    requires Inv(s) && Closings(s.db.log, visit) == 1
    ensures Closings(Run(s, steps).db.log, visit) == 1
    ensures Run(s, steps).db.inst.visit == Some(visit) ==> Run(s, steps).db.inst.waitCompleted
  {
    RunKeeps(s, steps);
    if steps != [] {
      var before := steps[..|steps| - 1];
      ClosedStaysClosed(s, before, visit);
      RunKeeps(s, before);
      LogGrows(Run(s, before), steps[|steps| - 1], visit);
    }
  }

  lemma LogGrows(s: State, step: Step, visit: Uuid)
    requires Inv(s)
    ensures Closings(After(s, step).db.log, visit) >= Closings(s.db.log, visit)
  {
    match step {
      case Post(signal, now) => PostLog(s, signal, now, visit);
      case Commit(key, now) =>
        if key in s.workers && s.workers[key].phase.Proposed? {
          CommitLog(s, key, now, visit);
        }
      case _ => QuietLog(s, step);
    }
  }

  lemma PostLog(s: State, signal: PostSignal, now: int, visit: Uuid)
    ensures Closings(After(s, Post(signal, now)).db.log, visit) >= Closings(s.db.log, visit)
  {
    CountsAppend(s.db.log, [SignalQueued(s.db.nextId, signal.eventId)], visit, "");
  }

  lemma CommitLog(s: State, key: LockKey, now: int, visit: Uuid)
    requires Inv(s) && key in s.workers && s.workers[key].phase.Proposed?
    ensures Closings(CommitStep(s, key, now).db.log, visit) >= Closings(s.db.log, visit)
  {
    CommitFacts(s, key, now);
    CountsAppend(s.db.log, s.workers[key].phase.changes.events, visit, "");
  }

  lemma QuietLog(s: State, step: Step)
    requires !step.Commit? && !step.Post?
    ensures After(s, step).db.log == s.db.log
  {
  }

  lemma CommitRow(db: Db, w: Worker, now: int, d: Db, u: Uuid)
    requires Transition(db, w, now, d) && u in db.queue && u in d.queue && u < db.nextId
    ensures d.queue[u].visit == db.queue[u].visit && d.queue[u].task == db.queue[u].task
    ensures d.queue[u].retries == db.queue[u].retries + (if u == w.job.uuid && w.phase.changes.retryAt.Some? then 1 else 0)
  {
  }

  lemma OtherRow(s: State, step: Step, u: Uuid)
    requires Identities(s) && Visiting(s.db) && !step.Commit? && u in s.db.queue && u in After(s, step).db.queue
    ensures s.db.queue[u].visit.Some? ==> After(s, step).db.queue[u].visit == s.db.queue[u].visit
    ensures After(s, step).db.queue[u].retries == s.db.queue[u].retries
            || (step.Resume? && After(s, step).db.queue[u].retries == 0)
  {
    if ByWorker(step) {
      WorkerRow(s, step, u);
    } else {
      OutsideRow(s, step, u);
    }
  }

  lemma OutsideRow(s: State, step: Step, u: Uuid)
    requires !ByWorker(step) && u in s.db.queue && u < s.db.nextId && u in After(s, step).db.queue
    ensures s.db.queue[u].visit.Some? ==> After(s, step).db.queue[u].visit == s.db.queue[u].visit
    ensures After(s, step).db.queue[u].retries == s.db.queue[u].retries
            || (step.Resume? && After(s, step).db.queue[u].retries == 0)
  {
  }

  lemma WorkerRow(s: State, step: Step, u: Uuid)
    requires ByWorker(step) && !step.Commit? && u in s.db.queue && u in After(s, step).db.queue
    ensures s.db.queue[u].visit.Some? ==> After(s, step).db.queue[u].visit == s.db.queue[u].visit
    ensures After(s, step).db.queue[u].retries == s.db.queue[u].retries
  {
    WorkerRows(s, step);
  }

  /** The visit a queued task is bound to never changes once it is set. */
  lemma BindingKept(s: State, step: Step, u: Uuid)
    requires Inv(s) && u in s.db.queue && s.db.queue[u].visit.Some?
    requires u in After(s, step).db.queue
    ensures After(s, step).db.queue[u].visit == s.db.queue[u].visit
  {
    if !step.Commit? {
      OtherRow(s, step, u);
    } else if step.key in s.workers && s.workers[step.key].phase.Proposed? {
      var w := s.workers[step.key];
      CommitFacts(s, step.key, step.now);
      match Committed(s.db, w.job, w.phase.snap, w.phase.changes, step.now) {
        case Ok(d) => CommitRow(s.db, w, step.now, d, u);
        case Err(_) =>
      }
    }
  }

  // ---- Suspension and recovery ----

  /** Suspended means one open incident, whose task is queued and unleased. */
  lemma SuspendedHasOneIncident(s: State)
    requires Reachable(s)
    ensures s.db.inst.suspended <==> exists i :: i in s.db.incidents && s.db.incidents[i].open
    ensures forall i, j :: i in s.db.incidents && j in s.db.incidents && s.db.incidents[i].open && s.db.incidents[j].open ==> i == j
    ensures forall i :: i in s.db.incidents && s.db.incidents[i].open ==>
              s.db.incidents[i].task in s.db.queue && s.db.queue[s.db.incidents[i].task].lease.None?
  {
    ReachableInv(s);
  }

  /** The task of an open incident starts over: no attempts, no lease, due now; the incident is closed, the instance
      runs, and the task goes first. */
  ghost predicate StartedOver(db: Db, d: Db, incident: Uuid)
    requires incident in db.incidents && db.incidents[incident].task in db.queue
  {
    var task := db.incidents[incident].task;
    && d.queue == db.queue[task := db.queue[task].(attempts := 0, lease := None, runAfter := db.clock, retries := 0)]
    && d.incidents == db.incidents[incident := Incident(task, false)]
    && d.inst == db.inst.(suspended := false, revision := db.inst.revision + 1, recovery := Some(task))
    && d == db.(queue := d.queue, incidents := d.incidents, inst := d.inst)
  }

  /** In a reachable state a resume of an open incident takes effect, and any other resume changes nothing. */
  lemma ResumeMeans(s: State, incident: Uuid)
    requires Reachable(s)
    ensures var t := After(s, Resume(incident));
      if incident in s.db.incidents && s.db.incidents[incident].open
      then && s.db.incidents[incident].task in s.db.queue && StartedOver(s.db, t.db, incident) && t.workers == s.workers
           && Claimable(t.db, s.db.incidents[incident].task)
      else t == s
  {
    ReachableInv(s);
    ResumeSucceeds(s, incident);
    if incident in s.db.incidents && s.db.incidents[incident].open {
      ResumeTables(s.db, incident);
    }
  }

  lemma ResumeTables(db: Db, incident: Uuid)
    requires Recovering(db) && incident in db.incidents && db.incidents[incident].open
    ensures Resumed(db, incident).Ok? && Resumed(db, incident).value.Some?
    ensures StartedOver(db, Resumed(db, incident).value.value, incident)
    ensures Claimable(Resumed(db, incident).value.value, db.incidents[incident].task)
  {
  }

  /** Resuming an open incident always succeeds, and resuming it again is a no-op. */
  lemma ResumeSucceeds(s: State, incident: Uuid)
    requires Reachable(s)
    ensures var r := Resumed(s.db, incident);
            && r.Ok?
            && (r.value.Some? <==> incident in s.db.incidents && s.db.incidents[incident].open)
            && (r.value.Some? ==>
                  && !r.value.value.inst.suspended
                  && r.value.value.inst.recovery == Some(s.db.incidents[incident].task)
                  && Resumed(r.value.value, incident) == Ok(None))
  {
    ReachableInv(s);
  }

  /** From the resumption of an incident until its task has completed or suspended again,
      no other task is claimed or committed. */
  lemma RecoveryGoesFirst(s: State, u: Uuid)
    requires Reachable(s) && s.db.inst.recovery.Some? && u != s.db.inst.recovery.value
    ensures s.db.inst.recovery.value in s.db.queue
    ensures !Claimable(s.db, u)
    ensures u in s.db.queue ==> !Active(s.db.queue[u], s.db.clock)
    ensures forall k: LockKey, now: int :: k in s.workers && s.workers[k].job.uuid == u && s.workers[k].phase.Proposed? ==>
              After(s, Commit(k, now)).db == s.db
  {
    ReachableInv(s);
    forall k: LockKey, now: int | k in s.workers && s.workers[k].job.uuid == u && s.workers[k].phase.Proposed?
      ensures After(s, Commit(k, now)).db == s.db
    {
      NotHeldRefused(s, k, now);
    }
  }

  lemma NotHeldRefused(s: State, key: LockKey, now: int)
    requires key in s.workers && s.workers[key].phase.Proposed? && !Holds(s.db, s.workers[key].job)
    ensures After(s, Commit(key, now)).db == s.db
  {
  }

  /** Recovery ends only when the recovered task itself commits to completion. */
  lemma RecoveryEndsByItsTask(s: State, step: Step)
    requires Inv(s) && s.db.inst.recovery.Some?
    ensures After(s, step).db.inst.recovery != s.db.inst.recovery ==>
              && step.Commit? && step.key in s.workers
              && s.workers[step.key].job.uuid == s.db.inst.recovery.value
              && s.db.inst.recovery.value !in After(s, step).db.queue
  {
    if !step.Commit? {
      QuietRecovery(s.db, s, step);
    } else if step.key in s.workers && s.workers[step.key].phase.Proposed? {
      CommitFacts(s, step.key, step.now);
    }
  }

  /** Short of a commit, recovery changes only by resuming the task it already names. */
  lemma QuietRecovery(db: Db, s: State, step: Step)
    requires s.db == db && Recovering(db) && db.inst.recovery.Some? && !step.Commit?
    ensures After(s, step).db.inst.recovery == db.inst.recovery
  {
  }

  // ---- Commits ----

  /** Which checks of a transition can fail: only the fence. Every other refusal in the
      commit is unreachable for a proposal computed from a snapshot of the same run. */
  lemma OnlyTheFenceRefuses(s: State, key: LockKey, now: int)
    requires Reachable(s) && key in s.workers && s.workers[key].phase.Proposed?
    ensures var w := s.workers[key];
            Committed(s.db, w.job, w.phase.snap, w.phase.changes, now).Ok?
            <==> Holds(s.db, w.job) && w.phase.snap.revision == s.db.inst.revision
  {
    ReachableInv(s);
    CommitFacts(s, key, now);
    if Holds(s.db, s.workers[key].job) {
      HeldMeansRunning(s.db, s.workers[key].job);
      CurrentProposalPasses(s, key);
    }
  }

  /** A task whose lease is live is not the task of a suspended instance. */
  lemma HeldMeansRunning(db: Db, job: Job)
    requires Recovering(db) && Holds(db, job)
    ensures !db.inst.suspended && !HasOpenIncident(db)
  {
    assert Active(db.queue[job.uuid], db.clock);
  }

  lemma CurrentProposalPasses(s: State, key: LockKey)
    requires Fresh(s) && key in s.workers && s.workers[key].phase.Proposed?
    requires var w := s.workers[key];
      Proposal(w.job, w.phase.snap, w.phase.changes) && Holds(s.db, w.job)
    requires !s.db.inst.suspended && !HasOpenIncident(s.db)
    ensures var w := s.workers[key];
      w.phase.snap.revision == s.db.inst.revision ==> Passes(s.db, w.job, w.phase.snap, w.phase.changes)
  {
    var w := s.workers[key];
    assert SoundSnapshot(s.db, w, w.phase.snap);
    if w.phase.snap.revision == s.db.inst.revision {
      ProposalPasses(s.db, w);
    }
  }

  lemma ProposalPasses(db: Db, w: Worker)
    requires w.phase.Proposed? && Proposal(w.job, w.phase.snap, w.phase.changes)
    requires SoundSnapshot(db, w, w.phase.snap) && w.phase.snap.revision == db.inst.revision
    requires Holds(db, w.job) && !db.inst.suspended && !HasOpenIncident(db)
    ensures Passes(db, w.job, w.phase.snap, w.phase.changes)
  {
  }

  /** The context a commit stores is the very map its successor was chosen on: neither
      patching row by row nor merging leaves a stored key out or in. */
  lemma StoredContextIsComputed(s: State, key: LockKey, now: int)
    requires Reachable(s) && key in s.workers && s.workers[key].phase.Proposed?
    ensures var w := s.workers[key];
            var r := Committed(s.db, w.job, w.phase.snap, w.phase.changes, now);
            r.Ok? ==> r.value.context == (if w.phase.changes.context.Some? then w.phase.changes.context.value else s.db.context)
  {
    ReachableInv(s);
    CommitFacts(s, key, now);
    var w := s.workers[key];
    if Committed(s.db, w.job, w.phase.snap, w.phase.changes, now).Ok? {
      ContextFromSnapshot(s.db, w);
    }
  }

  lemma ContextFromSnapshot(db: Db, w: Worker)
    requires w.phase.Proposed? && Proposal(w.job, w.phase.snap, w.phase.changes) && w.phase.snap.context == db.context
    ensures StoredContext(db.context, w.phase.changes)
            == (if w.phase.changes.context.Some? then w.phase.changes.context.value else db.context)
  {
    var c := w.phase.changes;
    if c.context.Some? && c.patch.None? {
      assert db.context + c.context.value == c.context.value;
    }
  }

  /** Node, visit, wait, stage, recovery, context, log and the set of tasks are the same,
      and so is the row of `u` unless `u` is the given task. */
  predicate Untouched(db: Db, d: Db, task: Uuid, u: Uuid) {
    && d.inst == db.inst.(revision := d.inst.revision, suspended := d.inst.suspended)
    && d.context == db.context && d.log == db.log
    && d.queue.Keys == db.queue.Keys
    && (u in db.queue && u != task ==> d.queue[u] == db.queue[u])
  }

  /** A preparation that failed, for whatever reason, keeps the node, the visit, the wait,
      the context, the log and every other task; it only stops or delays its own task. */
  lemma FailedPreparationIsInert(s: State, key: LockKey, now: int, u: Uuid)
    requires Reachable(s) && key in s.workers && s.workers[key].phase.Proposed?
    requires Attempt(s.workers[key].job, s.workers[key].phase.snap, s.workers[key].phase.host).Err?
    ensures Untouched(s.db, After(s, Commit(key, now)).db, s.workers[key].job.uuid, u)
  {
    AfterCommit(s, key, now);
    ReachableInv(s);
    FailedCommitIsInert(s, key, now, u);
  }

  lemma AfterCommit(s: State, key: LockKey, now: int)
    requires key in s.workers && s.workers[key].phase.Proposed?
    ensures After(s, Commit(key, now)) == CommitStep(s, key, now)
  {
  }

  lemma FailedCommitIsInert(s: State, key: LockKey, now: int, u: Uuid)
    requires Inv(s) && key in s.workers && s.workers[key].phase.Proposed?
    requires Attempt(s.workers[key].job, s.workers[key].phase.snap, s.workers[key].phase.host).Err?
    ensures Untouched(s.db, CommitStep(s, key, now).db, s.workers[key].job.uuid, u)
  {
    CommitFacts(s, key, now);
    var w := s.workers[key];
    assert w.phase.changes == Prepared(w.job, w.phase.snap, w.phase.host);
    FailureStops(w.job, w.phase.snap, w.phase.host);
    var r := Committed(s.db, w.job, w.phase.snap, w.phase.changes, now);
    if r.Ok? {
      StopsOnly(s.db, w, now, r.value, u);
    }
  }

  lemma FailureStops(job: Job, snap: Snapshot, host: Host)
    requires Attempt(job, snap, host).Err?
    ensures OnlyStops(Prepared(job, snap, host))
  {
  }

  lemma StopsOnly(db: Db, w: Worker, now: int, d: Db, u: Uuid)
    requires Transition(db, w, now, d) && OnlyStops(w.phase.changes)
    ensures Untouched(db, d, w.job.uuid, u)
  {
  }

  // ---- Budgets and identities ----

  /** Between resumptions a node task commits at most `max(retries.max, 2)` retries,
      whatever mix of handler and preparation failures occurs. */
  lemma RetriesWithinBudget(s: State, u: Uuid)
    requires Reachable(s) && u in s.db.queue && s.db.queue[u].task.ProcessNode?
    ensures s.db.queue[u].retries <= Budget(s.db.queue[u].task)
  {
    ReachableInv(s);
  }

  /** Counting retries in the row is counting committed retry releases. */
  lemma RetriesCountCommits(s: State, step: Step, u: Uuid)
    requires Inv(s) && u in s.db.queue && u in After(s, step).db.queue
    ensures var before := s.db.queue[u].retries; var later := After(s, step).db.queue[u].retries;
            || later == before
            || (step.Resume? && later == 0)
            || (&& later == before + 1 && step.Commit? && step.key in s.workers
                && s.workers[step.key].job.uuid == u && s.workers[step.key].phase.Proposed?
                && s.workers[step.key].phase.changes.retryAt.Some?)
  {
    if !step.Commit? {
      OtherRow(s, step, u);
    } else if step.key in s.workers && s.workers[step.key].phase.Proposed? {
      var w := s.workers[step.key];
      CommitFacts(s, step.key, step.now);
      match Committed(s.db, w.job, w.phase.snap, w.phase.changes, step.now) {
        case Ok(d) => CommitRow(s.db, w, step.now, d, u);
        case Err(_) =>
      }
    }
  }

  /** One event identity queues one delivery and closes at most one wait, in every run. */
  lemma EventDeliveredOnce(s: State, event: string)
    requires Reachable(s)
    ensures Queuings(s.db.log, event) <= 1
    ensures Acceptances(s.db.log, event) <= Queuings(s.db.log, event)
    ensures Queuings(s.db.log, event) == 1 <==> event in s.db.receipts
  {
    ReachableInv(s);
  }

  /** After an identified signal was admitted, in every later state an identical
      submission reports a duplicate and a different one is refused; neither has an effect. */
  lemma ResubmissionRefused(s: State, signal: PostSignal, other: PostSignal, steps: seq<Step>, now: int, later: int)
    requires Reachable(s) && signal.eventId.Some? && other.eventId == signal.eventId
    requires SignalPosted(s.db, signal, now).Ok? && SignalPosted(s.db, signal, now).value.1
    ensures var t := Run(After(s, Post(signal, now)), steps);
            var r := SignalPosted(t.db, other, later);
            && (ReceiptOf(other) == ReceiptOf(signal) ==> r == Ok((t.db, false)))
            && (ReceiptOf(other) != ReceiptOf(signal) ==> r == Err(EventConflict))
  {
    ReachableInv(s);
    var posted := After(s, Post(signal, now));
    StepKeeps(s, Post(signal, now));
    AdmissionLeavesReceipt(s, signal, now);
    ReceiptKept(posted, steps, signal.eventId.value);
    RunKeeps(posted, steps);
    ReceiptAnswers(Run(posted, steps).db, other, later);
  }

  lemma AdmissionLeavesReceipt(s: State, signal: PostSignal, now: int)
    requires signal.eventId.Some? && SignalPosted(s.db, signal, now).Ok? && SignalPosted(s.db, signal, now).value.1
    ensures var db := After(s, Post(signal, now)).db;
      && ValidEventId(signal.eventId.value) && signal.eventId.value in db.receipts
      && db.receipts[signal.eventId.value] == ReceiptOf(signal)
  {
  }

  /** What a receipt decides about a later submission under its identity. */
  lemma ReceiptAnswers(db: Db, signal: PostSignal, now: int)
    requires Visiting(db) && signal.eventId.Some? && ValidEventId(signal.eventId.value)
    requires signal.eventId.value in db.receipts
    ensures SignalPosted(db, signal, now)
      == if db.receipts[signal.eventId.value] == ReceiptOf(signal) then Ok((db, false)) else Err(EventConflict)
  {
  }

  lemma {:induction false} ReceiptKept(s: State, steps: seq<Step>, event: string)
    requires Inv(s) && event in s.db.receipts
    ensures event in Run(s, steps).db.receipts && Run(s, steps).db.receipts[event] == s.db.receipts[event]
  {
    if steps != [] {
      var before := steps[..|steps| - 1];
      ReceiptKept(s, before, event);
      RunKeeps(s, before);
      ReceiptStep(Run(s, before), steps[|steps| - 1], event);
    }
  }

  lemma ReceiptStep(s: State, step: Step, event: string)
    requires Inv(s) && event in s.db.receipts
    ensures event in After(s, step).db.receipts && After(s, step).db.receipts[event] == s.db.receipts[event]
  {
    if !step.Commit? {
      QuietReceipts(s, step, event);
    } else if step.key in s.workers && s.workers[step.key].phase.Proposed? {
      CommitFacts(s, step.key, step.now);
    }
  }

  lemma QuietReceipts(s: State, step: Step, event: string)
    requires !step.Commit? && event in s.db.receipts
    ensures event in After(s, step).db.receipts && After(s, step).db.receipts[event] == s.db.receipts[event]
  {
  }
}
