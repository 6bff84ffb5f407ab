/** Racing attempts refine a machine in which a task is loaded, computed and committed
    in one indivisible step. */
module Refinement {
  import opened Wrappers
  import opened Tasks
  import opened Dispatch
  import opened Database
  import opened Protocol
  import opened Invariants
  import opened Preservation
  import opened Transitions

  /** Steps of the atomic machine. It has no snapshots and no proposals: `Execute` reads,
      computes and writes at once. `Bind` gives a signal the visit it was loaded under. */
  datatype AtomicStep =
    | Stutter
    | Elapse(elapsed: nat)
    | Claim(task: Uuid)
    | Bind(task: Uuid, key: LockKey)
    | Execute(task: Uuid, key: LockKey, host: Host, now: int)
    | Extend(task: Uuid, key: LockKey)
    | GiveBack(task: Uuid, key: LockKey, runAfter: int)
    | Outside(step: Step)

  /** One leased task, from reading its input to writing its effects, with nothing between. */
  function Executed(db: Db, u: Uuid, key: LockKey, host: Host, now: int): Outcome<Db> {
    if u !in db.queue then Err(LeaseLost)
    else
      var job := JobOf(u, key, db.queue[u]);
      var (loaded, snap) :- Loaded(db, job);
      Committed(loaded, job, snap, Prepared(job, snap, host), now)
  }

  function AtomicAfter(leaseMs: nat, db: Db, step: AtomicStep): Db {
    match step
    case Stutter => db
    case Elapse(elapsed) => db.(clock := db.clock + elapsed)
    case Claim(u) => if Claimable(db, u) then Claimed(db.(nextId := db.nextId + 1), u, db.nextId, leaseMs) else db
    case Bind(u, key) =>
      if u in db.queue then
        match Loaded(db, JobOf(u, key, db.queue[u]))
        case Ok((bound, _)) => bound
        case Err(_) => db
      else db
    case Execute(u, key, host, now) =>
      (match Executed(db, u, key, host, now) case Ok(d) => d case Err(_) => db)
    case Extend(u, key) => (match Renewed(db, u, key, leaseMs) case Some(d) => d case None => db)
    case GiveBack(u, key, runAfter) => (match Released(db, u, key, runAfter) case Ok(d) => d case Err(_) => db)
    case Outside(outside) => if ByWorker(outside) then db else After(State(leaseMs, db, map[]), outside).db
  }

  function AtomicRun(leaseMs: nat, db: Db, steps: seq<AtomicStep>): Db {
    if steps == [] then db else AtomicAfter(leaseMs, AtomicRun(leaseMs, db, steps[..|steps| - 1]), steps[|steps| - 1])
  }

  /** A successful commit read nothing that has changed since: running the whole attempt
      now, on the tables as they are, would have had the same outcome. */
  lemma CommitIsAtomic(s: State, key: LockKey, now: int)
    requires Inv(s) && key in s.workers && s.workers[key].phase.Proposed?
    ensures var w := s.workers[key];
            var r := Committed(s.db, w.job, w.phase.snap, w.phase.changes, now);
            r.Ok? ==> Executed(s.db, w.job.uuid, key, w.phase.host, now) == r
  {
    var w := s.workers[key];
    var snap := w.phase.snap;
    CommitFacts(s, key, now);
    assert SoundSnapshot(s.db, w, snap);
    if Committed(s.db, w.job, snap, w.phase.changes, now).Ok? {
      assert JobOf(w.job.uuid, key, s.db.queue[w.job.uuid]) == w.job;
      LoadAgain(s.db, w, snap);
    }
  }

  /** Loading again at an unchanged revision shows the same snapshot and binds nothing new. */
  lemma LoadAgain(db: Db, w: Worker, snap: Snapshot)
    requires Holds(db, w.job) && !db.inst.suspended && SoundSnapshot(db, w, snap) && db.inst.revision == snap.revision
    ensures Loaded(db, w.job) == Ok((db, snap))
  {
    var row := db.queue[w.job.uuid];
    assert Binding(row, snap.current, db.inst.visit) == row.visit;
    assert db.queue[w.job.uuid := row] == db.queue;
  }

  /** The atomic step that a step of the racing workers amounts to. */
  function Abstracted(s: State, step: Step): AtomicStep {
    match step
    case Tick(elapsed) => Elapse(elapsed)
    case Fetch(u, startedAt) => if startedAt <= s.db.clock then Claim(u) else Stutter
    case Load(key) =>
      if key in s.workers && s.workers[key].phase.Dequeued? then Bind(s.workers[key].job.uuid, key) else Stutter
    case Prepare(_, _) => Stutter
    case Commit(key, now) =>
      if key in s.workers && s.workers[key].phase.Proposed?
         && Committed(s.db, s.workers[key].job, s.workers[key].phase.snap, s.workers[key].phase.changes, now).Ok?
      then Execute(s.workers[key].job.uuid, key, s.workers[key].phase.host, now)
      else Stutter
    case Renew(key, startedAt, _) =>
      if key in s.workers && !s.workers[key].phase.Finished? && startedAt <= s.db.clock
      then Extend(s.workers[key].job.uuid, key) else Stutter
    case Release(key, runAfter) =>
      if key in s.workers && !s.workers[key].phase.Finished?
      then GiveBack(s.workers[key].job.uuid, key, runAfter) else Stutter
    case _ => Outside(step)
  }

  /** The only step that needs an argument about time passing between reading and
      writing is the commit; a commit that is refused changes nothing. */
  lemma StepRefines(s: State, step: Step)
    requires Inv(s)
    ensures After(s, step).db == AtomicAfter(s.leaseMs, s.db, Abstracted(s, step))
    ensures After(s, step).leaseMs == s.leaseMs
  {
    match step {
      case Commit(key, now) => CommitRefines(s, key, now);
      case Load(key) =>
        if key in s.workers && s.workers[key].phase.Dequeued? {
          LoadRefines(s, key);
        }
      case _ => QuietRefines(s, step);
    }
  }

  lemma CommitRefines(s: State, key: LockKey, now: int)
    requires Inv(s)
    ensures After(s, Commit(key, now)).db == AtomicAfter(s.leaseMs, s.db, Abstracted(s, Commit(key, now)))
    ensures After(s, Commit(key, now)).leaseMs == s.leaseMs
  {
    if key in s.workers && s.workers[key].phase.Proposed? {
      CommitIsAtomic(s, key, now);
    }
  }

  lemma QuietRefines(s: State, step: Step)
    requires !step.Commit? && !step.Load?
    ensures After(s, step).db == AtomicAfter(s.leaseMs, s.db, Abstracted(s, step))
    ensures After(s, step).leaseMs == s.leaseMs
  {
    if step.Tick? || step.Fetch? || step.Prepare? {
      PlainRefines(s, step);
    } else if step.Renew? || step.Release? {
      LeaseRefines(s, step);
    } else {
      OutsideRefines(s, step);
    }
  }

  lemma PlainRefines(s: State, step: Step)
    requires step.Tick? || step.Fetch? || step.Prepare?
    ensures After(s, step).db == AtomicAfter(s.leaseMs, s.db, Abstracted(s, step))
    ensures After(s, step).leaseMs == s.leaseMs
  {
  }

  lemma LeaseRefines(s: State, step: Step)
    requires step.Renew? || step.Release?
    ensures After(s, step).db == AtomicAfter(s.leaseMs, s.db, Abstracted(s, step))
    ensures After(s, step).leaseMs == s.leaseMs
  {
  }

  /** Steps that involve no worker do not look at any. */
  lemma OutsideRefines(s: State, step: Step)
    requires !ByWorker(step) && !step.Tick?
    ensures After(s, step).db == AtomicAfter(s.leaseMs, s.db, Abstracted(s, step))
    ensures After(s, step).leaseMs == s.leaseMs
  {
  }

  lemma LoadRefines(s: State, key: LockKey)
    requires Ownership(s) && key in s.workers && s.workers[key].phase.Dequeued?
    ensures LoadStep(s, key).db == AtomicAfter(s.leaseMs, s.db, Bind(s.workers[key].job.uuid, key))
  {
    var w := s.workers[key];
    if Holds(s.db, w.job) {
      assert JobOf(w.job.uuid, key, s.db.queue[w.job.uuid]) == w.job;
    } else if w.job.uuid in s.db.queue {
      var job := JobOf(w.job.uuid, key, s.db.queue[w.job.uuid]);
      assert !Holds(s.db, job);
    }
  }

  function AbstractedRun(s: State, steps: seq<Step>): (atomic: seq<AtomicStep>)
    ensures |atomic| == |steps|
  {
    if steps == [] then []
    else
      AbstractedRun(s, steps[..|steps| - 1]) + [Abstracted(Run(s, steps[..|steps| - 1]), steps[|steps| - 1])]
  }

  /** Every run of racing workers leaves the tables exactly as some run of the atomic
      machine does, step for step. */
  lemma {:induction false} RunRefines(s: State, steps: seq<Step>)
    requires Inv(s)
    ensures Run(s, steps).db == AtomicRun(s.leaseMs, s.db, AbstractedRun(s, steps))
    ensures Run(s, steps).leaseMs == s.leaseMs
  {
    if steps != [] {
      var before := steps[..|steps| - 1];
      RunRefines(s, before);
      RunKeeps(s, before);
      StepRefines(Run(s, before), steps[|steps| - 1]);
      var atomic := AbstractedRun(s, steps);
      assert atomic[..|atomic| - 1] == AbstractedRun(s, before);
    }
  }
}
