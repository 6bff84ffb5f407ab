/** Which visit a signal is delivered to: the requested one, or the one that was open when a node first accepted it. */
module Bindings {
  import opened Wrappers
  import opened ProcessDefs
  import opened Tasks
  import opened Tables
  import opened Database
  import opened Protocol
  import opened Invariants
  import opened Preservation
  import opened Transitions
  import opened Consequences

  // ---- Requested visits ----

  /** The visit a task asks for. */
  function Requested(task: Task): Option<Uuid> {
    if task.ProcessSignal? then task.posted.waitVisit else None
  }

  /** Every acceptance of the signal `u` closed the visit `v`. */
  ghost predicate AcceptedOnly(log: seq<Event>, u: Uuid, v: Uuid) {
    forall i :: 0 <= i < |log| && log[i].SignalAccepted? && log[i].task == u ==> log[i].visit == v
  }

  ghost predicate LogIssued(db: Db) {
    forall i :: 0 <= i < |db.log| && db.log[i].SignalAccepted? ==> db.log[i].task < db.nextId
  }

  /** A signal that names a visit is bound to it, and was accepted by no other. */
  ghost predicate RequestsKept(s: State) {
    && LogIssued(s.db)
    && (forall u :: u in s.db.queue && Requested(s.db.queue[u].task).Some? ==> RowKept(s.db, u))
    && (forall k :: k in s.workers && Requested(s.workers[k].job.task).Some? ==> JobKept(s.db, s.workers[k].job))
  }

  ghost predicate RowKept(db: Db, u: Uuid)
    requires u in db.queue && Requested(db.queue[u].task).Some?
  {
    && db.queue[u].visit == Requested(db.queue[u].task)
    && AcceptedOnly(db.log, u, Requested(db.queue[u].task).value)
  }

  ghost predicate JobKept(db: Db, job: Job)
    requires Requested(job.task).Some?
  {
    AcceptedOnly(db.log, job.uuid, Requested(job.task).value)
  }

  lemma WorkerKeepsRequests(s: State, t: State)
    requires RequestsKept(s) && SameRows(s, t)
    ensures RequestsKept(t)
  {
    forall u | u in t.db.queue && Requested(t.db.queue[u].task).Some? ensures RowKept(t.db, u) {
      assert RowKept(s.db, u);
    }
    forall k | k in t.workers && Requested(t.workers[k].job.task).Some? ensures JobKept(t.db, t.workers[k].job) {
      var u := t.workers[k].job.uuid;
      if u in s.db.queue && s.db.queue[u].task == t.workers[k].job.task {
        assert RowKept(s.db, u);
      } else {
        assert JobKept(s.db, s.workers[k].job);
      }
    }
  }

  lemma OutsideKeepsRequests(s: State, step: Step)
    requires RequestsKept(s) && Identities(s) && !ByWorker(step) && !step.Post?
    ensures RequestsKept(After(s, step))
  {
  }

  lemma AcceptedBefore(db: Db, u: Uuid, v: Uuid)
    requires LogIssued(db) && db.nextId <= u
    ensures AcceptedOnly(db.log, u, v)
  {
  }

  lemma AppendKeeps(log: seq<Event>, e: Event, u: Uuid, v: Uuid)
    requires AcceptedOnly(log, u, v) && (e.SignalAccepted? && e.task == u ==> e.visit == v)
    ensures AcceptedOnly(log + [e], u, v)
  {
  }

  lemma AdmitKeepsRequests(s: State, current: Option<Node>, signal: PostSignal, now: int)
    requires RequestsKept(s) && Identities(s)
    ensures RequestsKept(WithAdmission(s, current, signal, now))
  {
    var t := WithAdmission(s, current, signal, now);
    var e := SignalQueued(s.db.nextId, signal.eventId);
    forall u | u in t.db.queue && Requested(t.db.queue[u].task).Some? ensures RowKept(t.db, u) {
      var v := Requested(t.db.queue[u].task).value;
      if u == s.db.nextId {
        AcceptedBefore(s.db, u, v);
      } else {
        assert RowKept(s.db, u);
      }
      AppendKeeps(s.db.log, e, u, v);
    }
    forall k | k in t.workers && Requested(t.workers[k].job.task).Some? ensures JobKept(t.db, t.workers[k].job) {
      assert JobKept(s.db, s.workers[k].job);
      AppendKeeps(s.db.log, e, t.workers[k].job.uuid, Requested(t.workers[k].job.task).value);
    }
  }

  /** Events a commit appends: acceptances only of its own task, at the visit the row is bound to. */
  ghost predicate OwnAcceptances(events: seq<Event>, db: Db, u: Uuid) {
    forall i :: 0 <= i < |events| && events[i].SignalAccepted? ==>
      events[i].task == u && u in db.queue && db.queue[u].visit == Some(events[i].visit)
  }

  lemma CommitAccepts(db: Db, w: Worker, now: int, d: Db)
    requires Transition(db, w, now, d) && SoundSnapshot(db, w, w.phase.snap)
    ensures OwnAcceptances(w.phase.changes.events, db, w.job.uuid)
  {
    var c := w.phase.changes;
    forall i | 0 <= i < |c.events| && c.events[i].SignalAccepted?
      ensures c.events[i].task == w.job.uuid && w.job.uuid in db.queue
              && db.queue[w.job.uuid].visit == Some(c.events[i].visit)
    {
      assert c.events[i] in c.events;
    }
  }

  lemma MovedAccepted(db: Db, d: Db, events: seq<Event>, u: Uuid, x: Uuid, v: Uuid)
    requires d.log == db.log + events && OwnAcceptances(events, db, u) && AcceptedOnly(db.log, x, v)
    requires x == u ==> u in db.queue && db.queue[u].visit == Some(v)
    ensures AcceptedOnly(d.log, x, v)
  {
  }

  lemma CommitKeepsRequests(s: State, key: LockKey, now: int, d: Db)
    requires RequestsKept(s) && Identities(s) && Ownership(s) && key in s.workers
    requires Transition(s.db, s.workers[key], now, d) && SoundSnapshot(s.db, s.workers[key], s.workers[key].phase.snap)
    ensures RequestsKept(Moved(s, key, d))
  {
    var w := s.workers[key];
    CommitAccepts(s.db, w, now, d);
    CommitIssues(s.db, w, now, d);
    CommitDeliveries(s, key, now, d);
    forall u | u in d.queue && Requested(d.queue[u].task).Some? ensures RowKept(d, u) {
      CommitKeepsRow(s, key, now, d, u);
    }
    forall k | k in s.workers && Requested(s.workers[k].job.task).Some? ensures JobKept(d, s.workers[k].job) {
      CommitKeepsJob(s, key, now, d, k);
    }
  }

  lemma CommitKeepsRow(s: State, key: LockKey, now: int, d: Db, u: Uuid)
    requires Identities(s) && key in s.workers && Transition(s.db, s.workers[key], now, d)
    requires OwnAcceptances(s.workers[key].phase.changes.events, s.db, s.workers[key].job.uuid)
    requires u in s.db.queue && u in d.queue && d.queue[u].task == s.db.queue[u].task
    requires Requested(d.queue[u].task).Some? && RowKept(s.db, u)
    ensures RowKept(d, u)
  {
    var w := s.workers[key];
    CommitBinding(s.db, w, now, d, u);
    MovedAccepted(s.db, d, w.phase.changes.events, w.job.uuid, u, Requested(d.queue[u].task).value);
  }

  lemma CommitKeepsJob(s: State, key: LockKey, now: int, d: Db, k: LockKey)
    requires RequestsKept(s) && Ownership(s) && key in s.workers && Transition(s.db, s.workers[key], now, d)
    requires OwnAcceptances(s.workers[key].phase.changes.events, s.db, s.workers[key].job.uuid)
    requires k in s.workers && Requested(s.workers[k].job.task).Some?
    ensures JobKept(d, s.workers[k].job)
  {
    var w, job := s.workers[key], s.workers[k].job;
    assert JobKept(s.db, job);
    if job.uuid == w.job.uuid {
      assert job.uuid in s.db.queue && RowKept(s.db, job.uuid);
    }
    MovedAccepted(s.db, d, w.phase.changes.events, w.job.uuid, job.uuid, Requested(job.task).value);
  }

  lemma CommitIssues(db: Db, w: Worker, now: int, d: Db)
    requires Transition(db, w, now, d) && LogIssued(db) && OwnAcceptances(w.phase.changes.events, db, w.job.uuid)
    requires w.job.uuid < db.nextId
    ensures LogIssued(d)
  {
  }

  lemma CommitBinding(db: Db, w: Worker, now: int, d: Db, u: Uuid)
    requires Transition(db, w, now, d) && u in db.queue && u in d.queue && u < db.nextId
    ensures d.queue[u].visit == db.queue[u].visit
  {
  }

  lemma StepKeepsRequests(s: State, step: Step)
    requires Inv(s) && RequestsKept(s)
    ensures RequestsKept(After(s, step))
  {
    if step.Commit? {
      if step.key in s.workers && s.workers[step.key].phase.Proposed? {
        CommitStepKeepsRequests(s, step.key, step.now);
      }
    } else if ByWorker(step) {
      WorkerRows(s, step);
      WorkerKeepsRequests(s, After(s, step));
    } else if step.Post? {
      PostKeepsRequests(s, step.signal, step.now);
    } else {
      OutsideKeepsRequests(s, step);
    }
  }

  lemma CommitStepKeepsRequests(s: State, key: LockKey, now: int)
    requires Inv(s) && RequestsKept(s) && key in s.workers && s.workers[key].phase.Proposed?
    ensures RequestsKept(CommitStep(s, key, now))
  {
    var d := CommitCases(s, key, now);
    if d.Some? {
      CommitKeepsRequests(s, key, now, d.value);
    }
  }

  lemma PostKeepsRequests(s: State, signal: PostSignal, now: int)
    requires Inv(s) && RequestsKept(s)
    ensures RequestsKept(After(s, Post(signal, now)))
  {
    var r := SignalPosted(s.db, signal, now);
    if r.Ok? && r.value.1 {
      AdmitKeepsRequests(s, CurrentNode(s.db).value, signal, now);
    }
  }

  lemma {:induction false} RunKeepsRequests(s: State, steps: seq<Step>)
    requires Inv(s) && RequestsKept(s)
    ensures RequestsKept(Run(s, steps))
  {
    if steps != [] {
      var before := steps[..|steps| - 1];
      RunKeepsRequests(s, before);
      RunKeeps(s, before);
      StepKeepsRequests(Run(s, before), steps[|steps| - 1]);
    }
  }

  lemma StartKeepsRequests(s: State)
    requires Initial(s)
    ensures RequestsKept(s)
  {
  }

  /** In every reachable state a signal that names a visit is bound to that visit while it is queued, and whatever any
      worker did with it, it closed no other visit. */
  lemma RequestedVisitKept(s: State, u: Uuid, visit: Uuid)
    requires Reachable(s)
    ensures u in s.db.queue && Requested(s.db.queue[u].task) == Some(visit) ==>
              s.db.queue[u].visit == Some(visit) && AcceptedOnly(s.db.log, u, visit)
    ensures forall k :: k in s.workers && s.workers[k].job.uuid == u && Requested(s.workers[k].job.task) == Some(visit) ==>
              AcceptedOnly(s.db.log, u, visit)
  {
    ReachableRequests(s);
    assert u in s.db.queue && Requested(s.db.queue[u].task) == Some(visit) ==> RowKept(s.db, u);
    assert forall k :: k in s.workers && Requested(s.workers[k].job.task).Some? ==> JobKept(s.db, s.workers[k].job);
  }

  lemma ReachableRequests(s: State)
    requires Reachable(s)
    ensures RequestsKept(s)
  {
    var start, steps :| Initial(start) && s == Run(start, steps);
    InitialKeeps(start);
    StartKeepsRequests(start);
    RunKeepsRequests(start, steps);
  }

  // ---- Admission and loading ----

  /** A submission without an identity, or with a new one of 1 to 256 characters that are not all white space, is
      admitted, due at once and bound to the visit it names or else to the open visit of a node that awaits it. Any
      other submission changes nothing. */
  lemma SubmissionMeans(s: State, signal: PostSignal, now: int)
    requires Reachable(s)
    ensures var d := After(s, Post(signal, now)).db;
      if Admissible(s.db, signal) then AdmittedTo(s.db, d, signal, now) else d == s.db
  {
    ReachableInv(s);
    SubmissionTables(s.db, signal, now);
  }

  /** Loading a held task of a running instance binds its row and nothing else, and shows the worker the instance and
      the row exactly as they are then. */
  lemma LoadMeans(s: State, key: LockKey)
    requires Reachable(s) && key in s.workers && s.workers[key].phase.Dequeued? && Holds(s.db, s.workers[key].job)
    ensures var u, t := s.workers[key].job.uuid, After(s, Load(key));
      && t.db == s.db.(queue := s.db.queue[u := s.db.queue[u].(visit := VisitLoaded(s.db, s.db.queue[u]))])
      && t.workers == s.workers[key := s.workers[key].(phase := Snapshotted(Seen(t.db, u)))]
  {
    ReachableInv(s);
    HeldRuns(s.db, s.workers[key].job);
    LoadTables(s.db, s.workers[key].job);
  }
}
