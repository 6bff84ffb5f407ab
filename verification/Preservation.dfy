/** Every step keeps every invariant. */
module Preservation {
  import opened Wrappers
  import opened Contexts
  import opened ProcessDefs
  import opened Tasks
  import opened Dispatch
  import opened Database
  import opened Commits
  import opened Protocol
  import opened Invariants

  /** What is known about a commit step: the proposal has a known shape, and a
      successful commit has exactly the effect of its proposal. */
  lemma CommitFacts(s: State, key: LockKey, now: int)
    requires Inv(s) && key in s.workers && s.workers[key].phase.Proposed?
    ensures var w := s.workers[key];
            var r := Committed(s.db, w.job, w.phase.snap, w.phase.changes, now);
            && Proposal(w.job, w.phase.snap, w.phase.changes) && |w.phase.changes.tasks| <= 1
            && (r.Ok? <==> Passes(s.db, w.job, w.phase.snap, w.phase.changes))
            && (r.Ok? ==>
                  && Effect(s.db, w.job, w.phase.snap, w.phase.changes, now, r.value)
                  && CommitStep(s, key, now) == Advance(s, key, Finished).(db := r.value)
                  && Current(s.db, w.phase.snap))
            && (r.Err? ==> CommitStep(s, key, now) == Advance(s, key, Finished))
  {
    var w := s.workers[key];
    assert SoundSnapshot(s.db, w, w.phase.snap);
    PreparedProposal(w.job, w.phase.snap, w.phase.host);
    CommitEffect(s.db, w.job, w.phase.snap, w.phase.changes, now);
  }

  /** Rows, visits and records that a change of leases leaves alone. */
  ghost predicate SameRecords(s: State, t: State) {
    && t.db.definition == s.db.definition && t.db.nextId >= s.db.nextId
    && t.db.log == s.db.log && t.db.receipts == s.db.receipts
    && t.db.inst.current == s.db.inst.current && t.db.inst.visit == s.db.inst.visit
    && t.db.inst.waitCompleted == s.db.inst.waitCompleted
    && (forall u :: u in t.db.queue <==> u in s.db.queue)
    && (forall u :: u in s.db.queue ==>
          t.db.queue[u].task == s.db.queue[u].task && (s.db.queue[u].visit.Some? ==> t.db.queue[u].visit.Some?))
    && (forall k :: k in t.workers ==>
          (k in s.workers && t.workers[k].job == s.workers[k].job)
          || (t.workers[k].job.uuid in s.db.queue && t.workers[k].job.task == s.db.queue[t.workers[k].job.uuid].task))
  }

  lemma RecordsKept(s: State, t: State)
    requires Recorded(s) && SameRecords(s, t)
    ensures Recorded(t)
  {
  }

  /** Snapshots stay sound when no snapshotted field changes without a new revision,
      and leased rows keep their owner and binding. */
  ghost predicate SameView(s: State, t: State) {
    && t.db.definition == s.db.definition
    && (|| t.db.inst.revision > s.db.inst.revision
        || (&& t.db.inst.revision == s.db.inst.revision
            && t.db.inst.visit == s.db.inst.visit && t.db.inst.current == s.db.inst.current
            && t.db.inst.waitCompleted == s.db.inst.waitCompleted && t.db.context == s.db.context))
    && (forall k :: k in t.workers && SnapshotOf(t.workers[k].phase).Some? ==>
          k in s.workers && t.workers[k].job == s.workers[k].job && t.workers[k].phase == s.workers[k].phase)
    && (forall k :: k in t.workers && SnapshotOf(t.workers[k].phase).Some? ==>
          var u := t.workers[k].job.uuid;
          u in t.db.queue && t.db.queue[u].lease.Some? && t.db.queue[u].lease.value.key == t.workers[k].job.key ==>
            u in s.db.queue && s.db.queue[u].lease.Some? && s.db.queue[u].lease.value.key == t.workers[k].job.key
            && s.db.queue[u].visit == t.db.queue[u].visit)
  }

  lemma ViewKept(s: State, t: State)
    requires Fresh(s) && SameView(s, t)
    ensures Fresh(t)
  {
    forall k | k in t.workers && SnapshotOf(t.workers[k].phase).Some?
      ensures SoundSnapshot(t.db, t.workers[k], SnapshotOf(t.workers[k].phase).value)
    {
      assert SoundSnapshot(s.db, s.workers[k], SnapshotOf(s.workers[k].phase).value);
    }
  }

  /** The common effect of the direct writers: a new revision with any context and stage. */
  function Written(s: State, context: ContextMap, stage: Option<StageRef>): State {
    s.(db := s.db.(context := context, inst := s.db.inst.(revision := s.db.inst.revision + 1, stage := stage)))
  }

  /** The worker-independent part of a step: only the tables change. */
  function WithDb(s: State, db: Db): State {
    s.(db := db)
  }

  /** Failures and retries, as far as the tables show them. */
  ghost predicate Failing(db: Db) {
    Recovering(db) && Budgeted(db)
  }

  function Later(db: Db, clock: int): Db {
    db.(clock := clock)
  }

  lemma TickFrame(s: State, clock: int)
    ensures SameRecords(s, WithDb(s, Later(s.db, clock))) && SameView(s, WithDb(s, Later(s.db, clock)))
  {
  }

  lemma TickClaims(s: State, clock: int)
    requires Claiming(s) && s.db.clock <= clock
    ensures Claiming(WithDb(s, Later(s.db, clock)))
  {
  }

  lemma TickFailures(db: Db, clock: int)
    requires Failing(db) && db.clock <= clock
    ensures Failing(Later(db, clock))
  {
  }

  lemma LaterKeeps(s: State, clock: int)
    requires Inv(s) && s.db.clock <= clock
    ensures Inv(WithDb(s, Later(s.db, clock)))
  {
    TickFrame(s, clock);
    TickClaims(s, clock);
    TickFailures(s.db, clock);
    RecordsKept(s, WithDb(s, Later(s.db, clock)));
    ViewKept(s, WithDb(s, Later(s.db, clock)));
  }

  lemma TickKeeps(s: State, elapsed: nat)
    requires Inv(s)
    ensures Inv(After(s, Tick(elapsed)))
  {
    // A name for the sum keeps the arithmetic out of the checks below.
    var clock :| clock == s.db.clock + elapsed;
    TickIsLater(s, elapsed, clock);
    LaterKeeps(s, clock);
  }

  lemma TickIsLater(s: State, elapsed: nat, clock: int)
    requires clock == s.db.clock + elapsed
    ensures After(s, Tick(elapsed)) == WithDb(s, Later(s.db, clock)) && s.db.clock <= clock
  {
  }

  lemma FetchRecords(s: State, u: Uuid, startedAt: int)
    requires Identities(s) && Claimable(s.db, u)
    ensures SameRecords(s, Fetched(s, u, startedAt))
  {
  }

  lemma FetchView(s: State, u: Uuid, startedAt: int)
    requires Identities(s) && Ownership(s) && Claimable(s.db, u)
    ensures SameView(s, Fetched(s, u, startedAt))
  {
  }

  lemma FetchOwnership(s: State, u: Uuid, startedAt: int)
    requires Identities(s) && Ownership(s) && Claimable(s.db, u)
    ensures Identities(Fetched(s, u, startedAt)) && Ownership(Fetched(s, u, startedAt))
  {
  }

  lemma FetchDeadlines(s: State, u: Uuid, startedAt: int)
    requires Identities(s) && Ownership(s) && Deadlines(s) && Claimable(s.db, u) && startedAt <= s.db.clock
    ensures Exclusive(Fetched(s, u, startedAt).db) && Deadlines(Fetched(s, u, startedAt))
  {
  }

  lemma FetchFailures(s: State, u: Uuid, startedAt: int)
    requires Failing(s.db) && Claimable(s.db, u)
    ensures Failing(Fetched(s, u, startedAt).db)
  {
  }

  lemma FetchKeeps(s: State, u: Uuid, startedAt: int)
    requires Inv(s) && Claimable(s.db, u) && startedAt <= s.db.clock
    ensures Inv(Fetched(s, u, startedAt))
  {
    FetchRecords(s, u, startedAt);
    FetchView(s, u, startedAt);
    FetchOwnership(s, u, startedAt);
    FetchDeadlines(s, u, startedAt);
    FetchFailures(s, u, startedAt);
    RecordsKept(s, Fetched(s, u, startedAt));
    ViewKept(s, Fetched(s, u, startedAt));
  }

  predicate Renewable(s: State, key: LockKey) {
    && key in s.workers && s.workers[key].job.uuid in s.db.queue
    && var row := s.db.queue[s.workers[key].job.uuid];
    && row.lease.Some? && row.lease.value.key == key && row.lease.value.until > s.db.clock
  }

  /** The worker's lease ends one full period from now. */
  function LeaseMoved(s: State, key: LockKey): State
    requires Renewable(s, key)
  {
    var u := s.workers[key].job.uuid;
    s.(db := s.db.(queue := s.db.queue[u := s.db.queue[u].(lease := Some(Lease(key, s.db.clock + s.leaseMs)))]))
  }

  lemma LeaseMovedClaims(s: State, key: LockKey)
    requires Claiming(s) && Renewable(s, key)
    ensures Claiming(LeaseMoved(s, key)) && Renewable(LeaseMoved(s, key), key)
  {
  }

  lemma LeaseMovedFrame(s: State, key: LockKey)
    requires Renewable(s, key)
    ensures SameRecords(s, LeaseMoved(s, key)) && SameView(s, LeaseMoved(s, key))
  {
  }

  lemma LeaseMovedFailures(s: State, key: LockKey)
    requires Failing(s.db) && Renewable(s, key)
    ensures Failing(LeaseMoved(s, key).db)
  {
  }

  lemma LeaseMovedKeeps(s: State, key: LockKey)
    requires Inv(s) && Renewable(s, key)
    ensures Inv(LeaseMoved(s, key)) && Renewable(LeaseMoved(s, key), key)
  {
    LeaseMovedClaims(s, key);
    LeaseMovedFrame(s, key);
    LeaseMovedFailures(s, key);
    RecordsKept(s, LeaseMoved(s, key));
    ViewKept(s, LeaseMoved(s, key));
  }

  lemma DeadlineMovedClaims(s: State, key: LockKey, deadline: int)
    requires Claiming(s) && Renewable(s, key) && deadline <= s.db.clock + s.leaseMs
    requires deadline <= s.db.queue[s.workers[key].job.uuid].lease.value.until
    ensures Claiming(WithDeadline(s, key, deadline))
  {
  }

  lemma DeadlineMovedFrame(s: State, key: LockKey, deadline: int)
    requires key in s.workers
    ensures SameRecords(s, WithDeadline(s, key, deadline))
    ensures Fresh(s) ==> Fresh(WithDeadline(s, key, deadline))
  {
  }

  lemma DeadlineMovedKeeps(s: State, key: LockKey, deadline: int)
    requires Inv(s) && Renewable(s, key) && deadline <= s.db.clock + s.leaseMs
    requires deadline <= s.db.queue[s.workers[key].job.uuid].lease.value.until
    ensures Inv(WithDeadline(s, key, deadline))
  {
    DeadlineMovedClaims(s, key, deadline);
    DeadlineMovedFrame(s, key, deadline);
    RecordsKept(s, WithDeadline(s, key, deadline));
  }

  lemma FinishedClaims(s: State, key: LockKey)
    requires Claiming(s) && key in s.workers
    ensures Claiming(Advance(s, key, Finished))
  {
  }

  /** A renewal stops the worker, is lost without an effect, or moves the lease and perhaps the deadline. */
  function RenewOutcome(s: State, key: LockKey, deadline: int, answered: bool): State
    requires key in s.workers
  {
    if !Renewable(s, key) then (if answered then Advance(s, key, Finished) else s)
    else if answered then WithDeadline(LeaseMoved(s, key), key, deadline)
    else LeaseMoved(s, key)
  }

  lemma RenewCases(s: State, key: LockKey, startedAt: int, answered: bool, deadline: int)
    requires key in s.workers && s.workers[key].job.key == key && deadline == startedAt + s.leaseMs
    ensures RenewStep(s, key, startedAt, answered) == RenewOutcome(s, key, deadline, answered)
  {
  }

  function WithDeadline(s: State, key: LockKey, deadline: int): State
    requires key in s.workers
  {
    s.(workers := s.workers[key := s.workers[key].(deadline := deadline)])
  }

  lemma RenewKeeps(s: State, key: LockKey, startedAt: int, answered: bool)
    requires Inv(s) && key in s.workers && startedAt <= s.db.clock
    ensures Inv(RenewStep(s, key, startedAt, answered))
  {
    // A name for the sum keeps the arithmetic out of the checks below.
    var deadline :| deadline == startedAt + s.leaseMs;
    RenewOutcomeKeeps(s, key, deadline, answered);
    RenewCases(s, key, startedAt, answered, deadline);
  }

  lemma RenewOutcomeKeeps(s: State, key: LockKey, deadline: int, answered: bool)
    requires Inv(s) && key in s.workers && deadline <= s.db.clock + s.leaseMs
    ensures Inv(RenewOutcome(s, key, deadline, answered))
  {
    if Renewable(s, key) {
      RenewedKeeps(s, key, deadline);
    } else {
      StoppedKeeps(s, key);
    }
  }

  lemma RenewedKeeps(s: State, key: LockKey, deadline: int)
    requires Inv(s) && Renewable(s, key) && deadline <= s.db.clock + s.leaseMs
    ensures Inv(LeaseMoved(s, key)) && Inv(WithDeadline(LeaseMoved(s, key), key, deadline))
  {
    LeaseMovedKeeps(s, key);
    LeaseMovedEnds(s, key);
    DeadlineMovedKeeps(LeaseMoved(s, key), key, deadline);
  }

  lemma LeaseMovedEnds(s: State, key: LockKey)
    requires Renewable(s, key)
    ensures var t := LeaseMoved(s, key);
      && t.workers == s.workers && t.db.clock == s.db.clock && t.leaseMs == s.leaseMs
      && s.workers[key].job.uuid in t.db.queue
      && t.db.queue[s.workers[key].job.uuid].lease == Some(Lease(key, s.db.clock + s.leaseMs))
  {
  }

  /** A worker that stops leaves everything to the others. */
  lemma StoppedKeeps(s: State, key: LockKey)
    requires Inv(s) && key in s.workers
    ensures Inv(Advance(s, key, Finished))
  {
    StoppedFrame(s, key);
    FinishedClaims(s, key);
    RecordsKept(s, Advance(s, key, Finished));
    ViewKept(s, Advance(s, key, Finished));
  }

  lemma StoppedFrame(s: State, key: LockKey)
    requires key in s.workers
    ensures SameRecords(s, Advance(s, key, Finished)) && SameView(s, Advance(s, key, Finished))
  {
  }

  lemma ReleasedClaims(s: State, u: Uuid, key: LockKey, runAfter: int)
    requires Claiming(s) && Released(s.db, u, key, runAfter).Ok? && key in s.workers && s.workers[key].job.uuid == u
    ensures Claiming(Advance(s, key, Finished).(db := Released(s.db, u, key, runAfter).value))
  {
  }

  lemma ReleasedFrame(s: State, u: Uuid, key: LockKey, runAfter: int)
    requires Released(s.db, u, key, runAfter).Ok? && key in s.workers && s.workers[key].job.uuid == u
    ensures var t := Advance(s, key, Finished).(db := Released(s.db, u, key, runAfter).value);
            SameRecords(s, t) && SameView(s, t)
  {
  }

  lemma ReleasedFailures(db: Db, u: Uuid, key: LockKey, runAfter: int)
    requires Failing(db) && Released(db, u, key, runAfter).Ok?
    ensures Failing(Released(db, u, key, runAfter).value)
  {
  }

  lemma ReleaseKeeps(s: State, key: LockKey, runAfter: int)
    requires Inv(s) && key in s.workers && !s.workers[key].phase.Finished?
    ensures Inv(ReleaseStep(s, key, runAfter))
  {
    var u := s.workers[key].job.uuid;
    if Released(s.db, u, key, runAfter).Ok? {
      ReleasedClaims(s, u, key, runAfter);
      ReleasedFrame(s, u, key, runAfter);
      ReleasedFailures(s.db, u, key, runAfter);
      RecordsKept(s, ReleaseStep(s, key, runAfter));
      ViewKept(s, ReleaseStep(s, key, runAfter));
    }
  }

  lemma ResumeFrame(s: State, incident: Uuid)
    requires Resumed(s.db, incident).Ok? && Resumed(s.db, incident).value.Some?
    ensures var t := WithDb(s, Resumed(s.db, incident).value.value); SameRecords(s, t) && SameView(s, t)
  {
  }

  lemma ResumeClaims(s: State, incident: Uuid)
    requires Claiming(s) && Resumed(s.db, incident).Ok? && Resumed(s.db, incident).value.Some?
    ensures Claiming(WithDb(s, Resumed(s.db, incident).value.value))
  {
  }

  lemma ResumeFailures(db: Db, incident: Uuid)
    requires Failing(db) && Resumed(db, incident).Ok? && Resumed(db, incident).value.Some?
    ensures Failing(Resumed(db, incident).value.value)
  {
  }

  lemma ResumeKeeps(s: State, incident: Uuid)
    requires Inv(s) && Resumed(s.db, incident).Ok? && Resumed(s.db, incident).value.Some?
    ensures Inv(WithDb(s, Resumed(s.db, incident).value.value))
  {
    var t := WithDb(s, Resumed(s.db, incident).value.value);
    ResumeFrame(s, incident);
    ResumeClaims(s, incident);
    ResumeFailures(s.db, incident);
    RecordsKept(s, t);
    ViewKept(s, t);
  }

  lemma MakeDueFrame(s: State, u: Uuid)
    requires MadeDue(s.db, u).Some?
    ensures SameRecords(s, WithDb(s, MadeDue(s.db, u).value)) && SameView(s, WithDb(s, MadeDue(s.db, u).value))
  {
  }

  lemma MakeDueClaims(s: State, u: Uuid)
    requires Claiming(s) && MadeDue(s.db, u).Some?
    ensures Claiming(WithDb(s, MadeDue(s.db, u).value))
  {
  }

  lemma MakeDueFailures(db: Db, u: Uuid)
    requires Failing(db) && MadeDue(db, u).Some?
    ensures Failing(MadeDue(db, u).value)
  {
  }

  lemma MakeDueKeeps(s: State, u: Uuid)
    requires Inv(s) && MadeDue(s.db, u).Some?
    ensures Inv(WithDb(s, MadeDue(s.db, u).value))
  {
    MakeDueFrame(s, u);
    MakeDueClaims(s, u);
    MakeDueFailures(s.db, u);
    RecordsKept(s, WithDb(s, MadeDue(s.db, u).value));
    ViewKept(s, WithDb(s, MadeDue(s.db, u).value));
  }

  lemma WriteFrame(s: State, context: ContextMap, stage: Option<StageRef>)
    ensures SameRecords(s, Written(s, context, stage)) && SameView(s, Written(s, context, stage))
  {
  }

  lemma WriteClaims(s: State, context: ContextMap, stage: Option<StageRef>)
    requires Claiming(s)
    ensures Claiming(Written(s, context, stage))
  {
  }

  lemma WriteKeeps(s: State, context: ContextMap, stage: Option<StageRef>)
    requires Inv(s)
    ensures Inv(Written(s, context, stage))
  {
    WriteFrame(s, context, stage);
    WriteClaims(s, context, stage);
    RecordsKept(s, Written(s, context, stage));
    ViewKept(s, Written(s, context, stage));
  }

  /** The row of one task, bound to a visit or not. */
  function Bound(db: Db, u: Uuid, visit: Option<Uuid>): Db
    requires u in db.queue
  {
    db.(queue := db.queue[u := db.queue[u].(visit := visit)])
  }

  lemma LoadForm(s: State, key: LockKey) returns (phase: Phase, visit: Option<Uuid>)
    requires key in s.workers
    ensures var u := s.workers[key].job.uuid;
      || LoadStep(s, key) == Advance(s, key, Finished)
      || (&& u in s.db.queue && (visit == s.db.queue[u].visit || s.db.queue[u].task.ProcessSignal?)
          && LoadStep(s, key) == AtPhase(WithDb(s, Bound(s.db, u, visit)), key, phase))
  {
    var w := s.workers[key];
    phase, visit := Finished, None;
    match Loaded(s.db, w.job) {
      case Ok((db, snap)) => phase, visit := Snapshotted(snap), snap.taskVisit;
      case Err(_) =>
    }
  }

  lemma BoundClaims(s: State, key: LockKey, phase: Phase, u: Uuid, visit: Option<Uuid>)
    requires Claiming(s) && key in s.workers && s.workers[key].phase.Dequeued?
    requires u in s.db.queue && (visit == s.db.queue[u].visit || s.db.queue[u].task.ProcessSignal?)
    ensures Claiming(AtPhase(WithDb(s, Bound(s.db, u, visit)), key, phase))
  {
    BoundQueueClaims(s, u, visit);
    PhaseClaims(WithDb(s, Bound(s.db, u, visit)), key, phase);
  }

  function AtPhase(s: State, key: LockKey, phase: Phase): State
    requires key in s.workers
  {
    Advance(s, key, phase)
  }

  lemma BoundQueueClaims(s: State, u: Uuid, visit: Option<Uuid>)
    requires Claiming(s) && u in s.db.queue && (visit == s.db.queue[u].visit || s.db.queue[u].task.ProcessSignal?)
    ensures Claiming(WithDb(s, Bound(s.db, u, visit)))
  {
  }

  /** The phase of a worker matters only once it has finished. */
  lemma PhaseClaims(s: State, key: LockKey, phase: Phase)
    requires Claiming(s) && key in s.workers && !s.workers[key].phase.Finished?
    ensures Claiming(Advance(s, key, phase))
  {
  }

  lemma BoundFailures(db: Db, u: Uuid, visit: Option<Uuid>)
    requires Failing(db) && u in db.queue
    ensures Failing(Bound(db, u, visit))
  {
  }

  lemma LoadLeases(s: State, key: LockKey)
    requires Leasing(s) && key in s.workers && s.workers[key].phase.Dequeued?
    ensures Leasing(LoadStep(s, key))
  {
    var phase, visit := LoadForm(s, key);
    var u := s.workers[key].job.uuid;
    FinishedClaims(s, key);
    if u in s.db.queue && (visit == s.db.queue[u].visit || s.db.queue[u].task.ProcessSignal?) {
      BoundClaims(s, key, phase, u, visit);
      BoundFailures(s.db, u, visit);
    }
  }

  lemma LoadFrame(s: State, key: LockKey)
    requires key in s.workers
    ensures SameRecords(s, LoadStep(s, key))
  {
  }

  lemma LoadFresh(s: State, key: LockKey)
    requires Ownership(s) && Payloads(s) && Visiting(s.db) && Fresh(s)
    requires key in s.workers && s.workers[key].phase.Dequeued?
    ensures Fresh(LoadStep(s, key))
  {
    var job := s.workers[key].job;
    if Loaded(s.db, job).Ok? {
      OthersStayFresh(s, key);
      LoadedSound(s.db, s.workers[key]);
    }
  }

  /** What a load shows is sound for its own worker. */
  lemma LoadedSound(db: Db, w: Worker)
    requires Visiting(db) && Loaded(db, w.job).Ok?
    requires w.job.uuid in db.queue && db.queue[w.job.uuid].task == w.job.task
    requires w.job.task.ProcessEvent? ==> db.queue[w.job.uuid].visit.Some?
    ensures var (d, snap) := Loaded(db, w.job).value; SoundSnapshot(d, w.(phase := Snapshotted(snap)), snap)
  {
  }

  /** Binding one row leaves the snapshots of the other workers sound. */
  lemma OthersStayFresh(s: State, key: LockKey)
    requires Ownership(s) && Fresh(s) && key in s.workers && s.workers[key].phase.Dequeued?
    requires Loaded(s.db, s.workers[key].job).Ok?
    ensures var d := Loaded(s.db, s.workers[key].job).value.0;
      forall k :: k in s.workers && k != key && SnapshotOf(s.workers[k].phase).Some? ==>
        SoundSnapshot(d, s.workers[k], SnapshotOf(s.workers[k].phase).value)
  {
  }

  lemma LoadKeeps(s: State, key: LockKey)
    requires Inv(s) && key in s.workers && s.workers[key].phase.Dequeued?
    ensures Inv(LoadStep(s, key))
  {
    LoadLeases(s, key);
    LoadFrame(s, key);
    RecordsKept(s, LoadStep(s, key));
    LoadFresh(s, key);
  }

  // ---- Rows inserted and removed ----

  lemma {:induction false} CountsAppend(log: seq<Event>, more: seq<Event>, visit: Uuid, event: string)
    ensures Closings(log + more, visit) == Closings(log, visit) + Closings(more, visit)
    ensures Queuings(log + more, event) == Queuings(log, event) + Queuings(more, event)
    ensures Acceptances(log + more, event) == Acceptances(log, event) + Acceptances(more, event)
  {
    if more == [] {
      assert log + more == log;
    } else {
      var front := more[..|more| - 1];
      assert (log + more)[..|log + more| - 1] == log + front;
      CountsAppend(log, front, visit, event);
    }
  }

  lemma CountsOfOne(e: Event, visit: Uuid, event: string)
    ensures Closings([e], visit) == if Closes(e, visit) then 1 else 0
    ensures Queuings([e], event) == if e.SignalQueued? && e.eventId == Some(event) then 1 else 0
    ensures Acceptances([e], event) == if e.SignalAccepted? && e.eventId == Some(event) then 1 else 0
  {
    assert [e][..0] == [];
  }

  lemma {:induction false} CountsOfNone(events: seq<Event>, visit: Uuid, event: string)
    requires forall e :: e in events ==> e.NodeEntered? || e.StageChanged?
    ensures Closings(events, visit) == Queuings(events, event) == Acceptances(events, event) == 0
  {
    if events != [] {
      CountsOfNone(events[..|events| - 1], visit, event);
      assert events[|events| - 1] in events;
    }
  }

  function NodeAdded(s: State, node: Node, runAfter: int): State {
    WithDb(s, NodeQueued(s.db, node, runAfter))
  }

  lemma QueueNodeClaims(s: State, node: Node, runAfter: int)
    requires Claiming(s)
    ensures Claiming(NodeAdded(s, node, runAfter))
  {
  }

  lemma QueueNodeFailures(db: Db, node: Node, runAfter: int)
    requires Failing(db) && (forall u :: u in db.queue ==> u < db.nextId)
    ensures Failing(NodeQueued(db, node, runAfter))
  {
  }

  lemma QueueNodeRecords(s: State, node: Node, runAfter: int)
    requires Identities(s) && Recorded(s)
    ensures Recorded(NodeAdded(s, node, runAfter))
  {
  }

  lemma QueueNodeView(s: State, node: Node, runAfter: int)
    requires Identities(s)
    ensures SameView(s, NodeAdded(s, node, runAfter))
  {
  }

  lemma QueueNodeKeeps(s: State, node: Node, runAfter: int)
    requires Inv(s)
    ensures Inv(NodeAdded(s, node, runAfter))
  {
    QueueNodeClaims(s, node, runAfter);
    QueueNodeFailures(s.db, node, runAfter);
    QueueNodeRecords(s, node, runAfter);
    QueueNodeView(s, node, runAfter);
    ViewKept(s, NodeAdded(s, node, runAfter));
  }

  function WithAdmission(s: State, current: Option<Node>, signal: PostSignal, now: int): State {
    s.(db := Admitted(s.db, current, signal, now))
  }

  lemma AdmitClaims(s: State, current: Option<Node>, signal: PostSignal, now: int)
    requires Claiming(s)
    ensures Claiming(WithAdmission(s, current, signal, now))
  {
  }

  lemma AdmitFailures(db: Db, current: Option<Node>, signal: PostSignal, now: int)
    requires Failing(db) && (forall u :: u in db.queue ==> u < db.nextId)
    ensures Failing(Admitted(db, current, signal, now))
  {
  }

  lemma AdmitVisits(s: State, current: Option<Node>, signal: PostSignal, now: int)
    requires Identities(s) && Payloads(s) && Visiting(s.db) && ClosedOnce(s.db)
    ensures var t := WithAdmission(s, current, signal, now);
            Payloads(t) && Visiting(t.db) && ClosedOnce(t.db)
  {
    forall v: Uuid ensures Closings(s.db.log + [SignalQueued(s.db.nextId, signal.eventId)], v) == Closings(s.db.log, v) {
      CountsAppend(s.db.log, [SignalQueued(s.db.nextId, signal.eventId)], v, "");
      CountsOfOne(SignalQueued(s.db.nextId, signal.eventId), v, "");
    }
  }

  lemma AdmitReceipts(s: State, current: Option<Node>, signal: PostSignal, now: int)
    requires Identities(s) && Receipted(s.db)
    requires signal.eventId.Some? ==> signal.eventId.value !in s.db.receipts
    ensures Receipted(WithAdmission(s, current, signal, now).db)
  {
    var queued := SignalQueued(s.db.nextId, signal.eventId);
    forall e: string
      ensures Queuings(s.db.log + [queued], e) == Queuings(s.db.log, e) + (if signal.eventId == Some(e) then 1 else 0)
      ensures Acceptances(s.db.log + [queued], e) == Acceptances(s.db.log, e)
    {
      CountsAppend(s.db.log, [queued], 0, e);
      CountsOfOne(queued, 0, e);
    }
  }

  lemma AdmitView(s: State, current: Option<Node>, signal: PostSignal, now: int)
    requires Identities(s) && Ownership(s)
    ensures SameView(s, WithAdmission(s, current, signal, now))
  {
  }

  lemma AdmitKeeps(s: State, current: Option<Node>, signal: PostSignal, now: int)
    requires Inv(s) && (signal.eventId.Some? ==> signal.eventId.value !in s.db.receipts)
    ensures Inv(WithAdmission(s, current, signal, now))
  {
    AdmitClaims(s, current, signal, now);
    AdmitFailures(s.db, current, signal, now);
    AdmitVisits(s, current, signal, now);
    AdmitReceipts(s, current, signal, now);
    AdmitView(s, current, signal, now);
    ViewKept(s, WithAdmission(s, current, signal, now));
  }

  lemma PostKeeps(s: State, signal: PostSignal, now: int)
    requires Inv(s)
    ensures Inv(After(s, Post(signal, now)))
  {
    var r := SignalPosted(s.db, signal, now);
    if r.Ok? && r.value.1 {
      AdmitKeeps(s, CurrentNode(s.db).value, signal, now);
    }
  }

  function Without(s: State, u: Uuid): State {
    WithDb(s, s.db.(queue := s.db.queue - {u}))
  }

  lemma CancelClaims(s: State, u: Uuid)
    requires Claiming(s) && Cancellable(s.db, u)
    ensures Claiming(Without(s, u))
  {
  }

  lemma CancelFailures(s: State, u: Uuid)
    requires Failing(s.db) && Cancellable(s.db, u)
    ensures Failing(Without(s, u).db)
  {
  }

  lemma CancelRecords(s: State, u: Uuid)
    requires Recorded(s)
    ensures Recorded(Without(s, u))
  {
  }

  lemma CancelView(s: State, u: Uuid)
    ensures SameView(s, Without(s, u))
  {
  }

  lemma CancelKeeps(s: State, u: Uuid)
    requires Inv(s) && Cancellable(s.db, u)
    ensures Inv(Without(s, u))
  {
    CancelClaims(s, u);
    CancelFailures(s, u);
    CancelRecords(s, u);
    CancelView(s, u);
    ViewKept(s, Without(s, u));
  }

  lemma PrepareFrame(s: State, key: LockKey, phase: Phase)
    requires key in s.workers
    ensures SameRecords(s, Advance(s, key, phase))
  {
  }

  lemma PrepareFresh(s: State, key: LockKey, host: Host)
    requires Fresh(s) && key in s.workers && s.workers[key].phase.Snapshotted?
    ensures Fresh(Proposing(s, key, host))
  {
    var t := Proposing(s, key, host);
    forall k | k in t.workers && SnapshotOf(t.workers[k].phase).Some?
      ensures SoundSnapshot(t.db, t.workers[k], SnapshotOf(t.workers[k].phase).value)
    {
      assert SoundSnapshot(s.db, s.workers[k], SnapshotOf(s.workers[k].phase).value);
    }
  }

  function Proposing(s: State, key: LockKey, host: Host): State
    requires key in s.workers && s.workers[key].phase.Snapshotted?
  {
    var w := s.workers[key];
    Advance(s, key, Proposed(w.phase.snap, host, Prepared(w.job, w.phase.snap, host)))
  }

  lemma PrepareKeeps(s: State, key: LockKey, host: Host)
    requires Inv(s) && key in s.workers && s.workers[key].phase.Snapshotted?
    ensures Inv(Proposing(s, key, host))
  {
    var phase := Proposing(s, key, host).workers[key].phase;
    PrepareFrame(s, key, phase);
    PhaseClaims(s, key, phase);
    RecordsKept(s, Proposing(s, key, host));
    PrepareFresh(s, key, host);
  }
}
