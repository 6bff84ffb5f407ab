/** How often a queued signal can be deferred in a run. The spacing of its decisions is what the claim guard of the
    queue gives; only an operator who makes the row due again can shorten it. */
module SignalRuns {
  import opened Wrappers
  import opened SignalDelivery
  import opened Tasks
  import opened Dispatch
  import opened Database
  import opened Protocol
  import opened Invariants
  import opened Preservation
  import opened Transitions

  // ---- Deferrals of a row ----

  /** The step commits a retry that the delivery policy decided for the signal task `u`. */
  predicate Defers(s: State, step: Step, u: Uuid) {
    && step.Commit? && step.key in s.workers && s.workers[step.key].phase.Proposed?
    && var w := s.workers[step.key];
    && w.job.uuid == u && w.job.task.ProcessSignal?
    && Attempt(w.job, w.phase.snap, w.phase.host).Ok?
    && Attempt(w.job, w.phase.snap, w.phase.host).value.retryAt.Some?
    && Committed(s.db, w.job, w.phase.snap, w.phase.changes, step.now).Ok?
  }

  /** The times at which the deferrals of `u` in a run were decided. */
  function DecisionTimes(s: State, steps: seq<Step>, u: Uuid): seq<int> {
    if steps == [] then []
    else
      var before, last := steps[..|steps| - 1], steps[|steps| - 1];
      var t := Run(s, before);
      DecisionTimes(s, before, u) + (if Defers(t, last, u) then [t.workers[last.key].phase.host.now] else [])
  }

  /** Attempts at `u` decide by one policy and read the one clock. */
  predicate StepClocked(s: State, step: Step, policy: Policy, u: Uuid) {
    step.Prepare? && step.key in s.workers && s.workers[step.key].job.uuid == u ==>
      step.host.policy == policy && step.host.now == s.db.clock
  }

  predicate Clocked(s: State, steps: seq<Step>, policy: Policy, u: Uuid) {
    steps == []
    || (&& Clocked(s, steps[..|steps| - 1], policy, u)
        && StepClocked(Run(s, steps[..|steps| - 1]), steps[|steps| - 1], policy, u))
  }

  /** How often an operator made `u` due. */
  function Hurries(steps: seq<Step>, u: Uuid): nat {
    if steps == [] then 0
    else Hurries(steps[..|steps| - 1], u) + (if steps[|steps| - 1] == Step.MakeDue(u) then 1 else 0)
  }

  // ---- No decision before a given time ----

  /** An attempt that may still commit decided between `low` and now. */
  predicate DecidedSince(w: Worker, policy: Policy, low: int, clock: int) {
    w.phase.Proposed? ==> w.phase.host.policy == policy && low <= w.phase.host.now <= clock
  }

  /** The row of `u` lets no decision before `low` commit: until then it is not due, and it is not leased. */
  ghost predicate Guarded(s: State, u: Uuid, policy: Policy, created: int, low: int) {
    && u < s.db.nextId && created <= s.db.clock
    && (u in s.db.queue ==>
          && s.db.queue[u].task.ProcessSignal? && s.db.queue[u].createdAt == created
          && (low <= s.db.queue[u].runAfter || low <= s.db.clock)
          && (s.db.queue[u].lease.Some? ==> low <= s.db.clock)
          && (s.db.queue[u].lease.Some? && s.db.queue[u].lease.value.key in s.workers ==>
                DecidedSince(s.workers[s.db.queue[u].lease.value.key], policy, low, s.db.clock)))
    && (forall i :: i in s.db.incidents && s.db.incidents[i].open && s.db.incidents[i].task == u ==> low <= s.db.clock)
  }

  lemma GuardOutside(s: State, step: Step, u: Uuid, policy: Policy, created: int, low: int)
    requires Guarded(s, u, policy, created, low) && !ByWorker(step)
    requires step == Step.MakeDue(u) ==> low <= s.db.clock
    ensures Guarded(After(s, step), u, policy, created, low)
  {
  }

  /** A claim needs the row to be due, so it cannot come before `low`. */
  lemma GuardClaim(s: State, v: Uuid, startedAt: int, u: Uuid, policy: Policy, created: int, low: int)
    requires Guarded(s, u, policy, created, low) && Identities(s) && Ownership(s) && Claimable(s.db, v)
    ensures Guarded(Fetched(s, v, startedAt), u, policy, created, low)
  {
  }

  lemma GuardWorker(s: State, step: Step, u: Uuid, policy: Policy, created: int, low: int)
    requires Guarded(s, u, policy, created, low) && Identities(s) && Ownership(s)
    requires ByWorker(step) && !step.Commit? && !step.Fetch? && StepClocked(s, step, policy, u)
    ensures Guarded(After(s, step), u, policy, created, low)
  {
    if step.Prepare? {
      GuardPrepare(s, step.key, step.host, u, policy, created, low);
    } else if step.Load? {
      GuardLoad(s, step.key, u, policy, created, low);
    } else {
      GuardLease(s, step, u, policy, created, low);
    }
  }

  lemma GuardLoad(s: State, key: LockKey, u: Uuid, policy: Policy, created: int, low: int)
    requires Guarded(s, u, policy, created, low)
    ensures Guarded(After(s, Load(key)), u, policy, created, low)
  {
  }

  lemma GuardLease(s: State, step: Step, u: Uuid, policy: Policy, created: int, low: int)
    requires Guarded(s, u, policy, created, low)
    requires ByWorker(step) && !step.Commit? && !step.Fetch? && !step.Load? && !step.Prepare?
    ensures Guarded(After(s, step), u, policy, created, low)
  {
  }

  lemma GuardPrepare(s: State, key: LockKey, host: Host, u: Uuid, policy: Policy, created: int, low: int)
    requires Guarded(s, u, policy, created, low) && Ownership(s) && StepClocked(s, Prepare(key, host), policy, u)
    ensures Guarded(After(s, Prepare(key, host)), u, policy, created, low)
  {
  }

  /** A commit of another task leaves the row alone; one of `u` needs a lease, so it comes after `low`. */
  lemma GuardCommit(s: State, key: LockKey, now: int, u: Uuid, policy: Policy, created: int, low: int)
    requires Inv(s) && Guarded(s, u, policy, created, low) && key in s.workers && s.workers[key].phase.Proposed?
    ensures Guarded(CommitStep(s, key, now), u, policy, created, low)
  {
    CommitFacts(s, key, now);
    var w := s.workers[key];
    var r := Committed(s.db, w.job, w.phase.snap, w.phase.changes, now);
    if r.Ok? {
      GuardTransition(s, key, now, r.value, u, policy, created, low);
    } else {
      GuardStopped(s, key, u, policy, created, low);
    }
  }

  lemma GuardStopped(s: State, key: LockKey, u: Uuid, policy: Policy, created: int, low: int)
    requires Guarded(s, u, policy, created, low) && key in s.workers
    ensures Guarded(Advance(s, key, Finished), u, policy, created, low)
  {
  }

  lemma GuardTransition(s: State, key: LockKey, now: int, d: Db, u: Uuid, policy: Policy, created: int, low: int)
    requires Guarded(s, u, policy, created, low) && key in s.workers && Transition(s.db, s.workers[key], now, d)
    requires Ownership(s) && Identities(s)
    ensures Guarded(Moved(s, key, d), u, policy, created, low)
  {
  }

  lemma GuardKept(s: State, step: Step, u: Uuid, policy: Policy, created: int, low: int)
    requires Inv(s) && Guarded(s, u, policy, created, low) && StepClocked(s, step, policy, u)
    requires step == Step.MakeDue(u) ==> low <= s.db.clock
    ensures Guarded(After(s, step), u, policy, created, low) && s.db.clock <= After(s, step).db.clock
  {
    ClockAdvances(s, step);
    if !ByWorker(step) {
      GuardOutside(s, step, u, policy, created, low);
    } else if step.Fetch? {
      if Claimable(s.db, step.task) && step.startedAt <= s.db.clock {
        GuardClaim(s, step.task, step.startedAt, u, policy, created, low);
      }
    } else if step.Commit? {
      if step.key in s.workers && s.workers[step.key].phase.Proposed? {
        GuardCommit(s, step.key, step.now, u, policy, created, low);
      }
    } else {
      GuardWorker(s, step, u, policy, created, low);
    }
  }

  lemma ClockAdvances(s: State, step: Step)
    requires Inv(s)
    ensures s.db.clock <= After(s, step).db.clock
  {
    if !step.Commit? {
      QuietClock(s, step);
    } else if step.key in s.workers && s.workers[step.key].phase.Proposed? {
      CommitFacts(s, step.key, step.now);
    }
  }

  lemma QuietClock(s: State, step: Step)
    requires !step.Commit?
    ensures s.db.clock <= After(s, step).db.clock
  {
  }

  /** A deferral was decided since `low`, and from then on nothing is decided before its retry time. */
  lemma DeferralMoves(s: State, step: Step, u: Uuid, policy: Policy, created: int, low: int)
    requires Inv(s) && Guarded(s, u, policy, created, low) && created <= low && Defers(s, step, u)
    ensures var t := s.workers[step.key].phase.host.now;
      && created <= t && low <= t <= s.db.clock && Decide(policy, created, t).Some?
      && Guarded(After(s, step), u, policy, created, Decide(policy, created, t).value.retryAt)
  {
    var w := s.workers[step.key];
    CommitFacts(s, step.key, step.now);
    DeferralDecided(s, step.key, u, policy, created, low);
    assert w.phase.changes == Prepared(w.job, w.phase.snap, w.phase.host);
    var d := Committed(s.db, w.job, w.phase.snap, w.phase.changes, step.now).value;
    DeferralSettles(s, step.key, step.now, d, u, policy, created, Decide(policy, created, w.phase.host.now).value.retryAt);
  }

  lemma DeferralDecided(s: State, key: LockKey, u: Uuid, policy: Policy, created: int, low: int)
    requires Guarded(s, u, policy, created, low) && created <= low && Ownership(s)
    requires key in s.workers && s.workers[key].phase.Proposed?
    requires var w := s.workers[key];
      && w.job.uuid == u && w.job.task.ProcessSignal? && Holds(s.db, w.job)
      && Attempt(w.job, w.phase.snap, w.phase.host).Ok? && Attempt(w.job, w.phase.snap, w.phase.host).value.retryAt.Some?
    ensures var w := s.workers[key]; var t := w.phase.host.now;
      && low <= t <= s.db.clock && Decide(policy, created, t).Some?
      && Attempt(w.job, w.phase.snap, w.phase.host)
         == Ok(NO_CHANGES.(retryAt := Some(Decide(policy, created, t).value.retryAt)))
  {
  }

  lemma DeferralSettles(s: State, key: LockKey, now: int, d: Db, u: Uuid, policy: Policy, created: int, retryAt: int)
    requires Recovering(s.db) && Identities(s) && key in s.workers && s.workers[key].job.uuid == u
    requires Transition(s.db, s.workers[key], now, d) && u in s.db.queue && created <= s.db.clock
    requires s.db.queue[u].task.ProcessSignal? && s.db.queue[u].createdAt == created
    requires s.workers[key].phase.changes == NO_CHANGES.(retryAt := Some(retryAt))
    ensures Guarded(Moved(s, key, d), u, policy, created, retryAt)
  {
  }

  // ---- The bound over a run ----

  function Last(times: seq<int>, created: int): int {
    if times == [] then created else times[|times| - 1]
  }

  /** The decisions so far, `credits` operator retries among them; without a spare credit the next one must wait. */
  ghost predicate Paced(s: State, u: Uuid, policy: Policy, created: int, times: seq<int>, credits: nat) {
    && Decisions(policy, created, times) && created <= Last(times, created) <= s.db.clock
    && Guarded(s, u, policy, created, Last(times, created))
    && Hurried(policy, created, times) <= credits
    && (times != [] && Hurried(policy, created, times) == credits ==>
          Guarded(s, u, policy, created, Decide(policy, created, Last(times, created)).value.retryAt))
  }

  lemma PacedWaits(s: State, step: Step, u: Uuid, policy: Policy, created: int, times: seq<int>, credits: nat)
    requires Inv(s) && Paced(s, u, policy, created, times, credits) && StepClocked(s, step, policy, u)
    requires !Defers(s, step, u)
    ensures Paced(After(s, step), u, policy, created, times, credits + (if step == Step.MakeDue(u) then 1 else 0))
  {
    GuardKept(s, step, u, policy, created, Last(times, created));
    if times != [] && Hurried(policy, created, times) == credits && step != Step.MakeDue(u) {
      GuardKept(s, step, u, policy, created, Decide(policy, created, Last(times, created)).value.retryAt);
    }
  }

  lemma PacedDefers(s: State, step: Step, u: Uuid, policy: Policy, created: int, times: seq<int>, credits: nat)
    requires Inv(s) && Paced(s, u, policy, created, times, credits) && Defers(s, step, u)
    requires Ordered(policy.tiers, 0)
    ensures Paced(After(s, step), u, policy, created, times + [s.workers[step.key].phase.host.now], credits)
  {
    var t, last := s.workers[step.key].phase.host.now, Last(times, created);
    ClockAdvances(s, step);
    DeferralMoves(s, step, u, policy, created, last);
    if times != [] && Hurried(policy, created, times) == credits {
      DecideLater(policy, created, last);
      DeferralMoves(s, step, u, policy, created, Decide(policy, created, last).value.retryAt);
    }
    DecideLater(policy, created, t);
    GuardLowered(After(s, step), u, policy, created, Decide(policy, created, t).value.retryAt, t);
    DecisionAdded(policy, created, times, t, credits);
  }

  /** A decision that waited costs no credit, one that did not costs one. */
  lemma DecisionAdded(policy: Policy, created: int, times: seq<int>, t: int, credits: nat)
    requires Decisions(policy, created, times) && created <= t && Last(times, created) <= t
    requires Decide(policy, created, t).Some? && Hurried(policy, created, times) <= credits
    requires times != [] && Hurried(policy, created, times) == credits ==>
      Decide(policy, created, Last(times, created)).value.retryAt <= t
    ensures Decisions(policy, created, times + [t]) && Hurried(policy, created, times + [t]) <= credits
  {
    assert (times + [t])[..|times|] == times;
  }

  lemma DecideLater(policy: Policy, created: int, t: int)
    requires Ordered(policy.tiers, 0) && created <= t && Decide(policy, created, t).Some?
    ensures Decide(policy, created, t).value.retryAt > t
  {
    TierDelay(policy.tiers, 0, t - created);
  }

  lemma GuardLowered(s: State, u: Uuid, policy: Policy, created: int, low: int, lower: int)
    requires Guarded(s, u, policy, created, low) && lower <= low
    ensures Guarded(s, u, policy, created, lower)
  {
  }

  lemma {:induction false} RunPaced(s: State, steps: seq<Step>, u: Uuid, policy: Policy)
    requires Inv(s) && Waiting(s, u) && Ordered(policy.tiers, 0) && Clocked(s, steps, policy, u)
    ensures Paced(Run(s, steps), u, policy, s.db.queue[u].createdAt, DecisionTimes(s, steps, u), Hurries(steps, u))
  {
    if steps == [] {
      PacedAtFirst(s, u, policy);
    } else {
      var before, last := steps[..|steps| - 1], steps[|steps| - 1];
      RunPaced(s, before, u, policy);
      RunKeeps(s, before);
      PacedStep(Run(s, before), last, u, policy, s.db.queue[u].createdAt, DecisionTimes(s, before, u), Hurries(before, u));
    }
  }

  lemma PacedAtFirst(s: State, u: Uuid, policy: Policy)
    requires Waiting(s, u)
    ensures Paced(s, u, policy, s.db.queue[u].createdAt, [], 0)
  {
  }

  lemma PacedStep(s: State, step: Step, u: Uuid, policy: Policy, created: int, times: seq<int>, credits: nat)
    requires Inv(s) && Paced(s, u, policy, created, times, credits) && StepClocked(s, step, policy, u)
    requires Ordered(policy.tiers, 0)
    ensures Paced(After(s, step), u, policy, created,
                  times + (if Defers(s, step, u) then [s.workers[step.key].phase.host.now] else []),
                  credits + (if step == Step.MakeDue(u) then 1 else 0))
  {
    if Defers(s, step, u) {
      PacedDefers(s, step, u, policy, created, times, credits);
    } else {
      PacedWaits(s, step, u, policy, created, times, credits);
      assert times + [] == times;
    }
  }

  /** A queued signal that no worker holds. */
  ghost predicate Waiting(s: State, u: Uuid) {
    && u in s.db.queue && u < s.db.nextId && s.db.queue[u].task.ProcessSignal? && s.db.queue[u].lease.None?
    && s.db.queue[u].createdAt <= s.db.clock
  }

  /** In any run the deferrals of a waiting signal number at most the bound of its policy, plus one for every time an
      operator made it due. Releases, renewals, resumed incidents and racing workers add none. */
  lemma DeferralsInRun(s: State, steps: seq<Step>, u: Uuid, policy: Policy)
    requires Inv(s) && Waiting(s, u) && Ordered(policy.tiers, 0) && Clocked(s, steps, policy, u)
    ensures |DecisionTimes(s, steps, u)| <= DeferralBound(policy.tiers, 0) + Hurries(steps, u)
  {
    RunPaced(s, steps, u, policy);
    HurriedBounded(policy, s.db.queue[u].createdAt, DecisionTimes(s, steps, u));
  }

  lemma AdmissionWaits(s: State, signal: PostSignal, now: int)
    requires SignalPosted(s.db, signal, now).Ok? && SignalPosted(s.db, signal, now).value.1
    ensures Waiting(After(s, Post(signal, now)), s.db.nextId)
  {
  }

  /** From its admission to the end of any run, a signal under the default policy is deferred at most 441 times plus
      once for every time an operator made it due. */
  lemma AdmittedDeferrals(s: State, signal: PostSignal, now: int, steps: seq<Step>)
    requires Reachable(s) && SignalPosted(s.db, signal, now).Ok? && SignalPosted(s.db, signal, now).value.1
    requires Clocked(After(s, Post(signal, now)), steps, DEFAULT_POLICY, s.db.nextId)
    ensures |DecisionTimes(After(s, Post(signal, now)), steps, s.db.nextId)| <= 441 + Hurries(steps, s.db.nextId)
  {
    ReachableInv(s);
    StepKeeps(s, Post(signal, now));
    AdmissionWaits(s, signal, now);
    DefaultBound();
    DeferralsInRun(After(s, Post(signal, now)), steps, s.db.nextId, DEFAULT_POLICY);
  }

  // ---- Operators can defer a signal without end ----

  /** The signal `u` is due and would be deferred, nothing is leased, and no node has been entered. */
  ghost predicate Idle(s: State, u: Uuid, host: Host) {
    && !s.db.inst.suspended && s.db.inst.recovery.None? && s.db.inst.current.None? && s.leaseMs > 0
    && u in s.db.queue && s.db.queue[u].task.ProcessSignal? && s.db.queue[u].visit.None?
    && s.db.queue[u].runAfter <= s.db.clock
    && (forall v :: v in s.db.queue ==> s.db.queue[v].lease.None?)
    && host.now == s.db.clock && Decide(host.policy, s.db.queue[u].createdAt, host.now).Some?
  }

  /** `t` differs from `s` by one more deferral of `u`, and by nothing a deferral depends on. */
  ghost predicate OneMore(s: State, t: State, u: Uuid, host: Host) {
    && u in s.db.queue && Idle(t, u, host)
    && t.db.clock == s.db.clock && t.db.queue[u].retries == s.db.queue[u].retries + 1
  }

  function AttemptSteps(s: State, u: Uuid, host: Host): seq<Step> {
    [Fetch(u, s.db.clock), Load(s.db.nextId), Prepare(s.db.nextId, host), Commit(s.db.nextId, s.db.clock), Step.MakeDue(u)]
  }

  function Claimant(s: State, u: Uuid): Worker
    requires u in s.db.queue
  {
    var row := s.db.queue[u];
    Worker(JobOf(u, s.db.nextId, row.(attempts := row.attempts + 1)), Dequeued, s.db.clock + s.leaseMs)
  }

  lemma HurryClaims(s: State, u: Uuid, host: Host)
    requires Idle(s, u, host)
    ensures var key := s.db.nextId; var row := s.db.queue[u];
      After(s, Fetch(u, s.db.clock))
      == s.(db := s.db.(nextId := key + 1,
                        queue := s.db.queue[u := row.(lease := Some(Lease(key, s.db.clock + s.leaseMs)),
                                                      attempts := row.attempts + 1)]),
            workers := s.workers[key := Claimant(s, u)])
  {
  }

  lemma HurryLoads(s: State, u: Uuid, key: LockKey)
    requires u in s.db.queue && key in s.workers && s.workers[key].phase.Dequeued? && s.workers[key].job.uuid == u
    requires Holds(s.db, s.workers[key].job) && !s.db.inst.suspended && s.db.inst.current.None?
    requires s.db.queue[u].visit.None?
    ensures var snap := Snapshot(s.db.inst.revision, s.db.inst.visit, s.db.inst.waitCompleted, None, s.db.definition, None,
                                 s.db.context);
      After(s, Load(key)) == Advance(s, key, Snapshotted(snap))
  {
    var row := s.db.queue[u];
    assert s.db.queue[u := row.(visit := None)] == s.db.queue;
  }

  /** A signal that no node can accept yet is deferred by its policy. */
  lemma DeferralProposed(job: Job, snap: Snapshot, host: Host)
    requires job.task.ProcessSignal? && snap.current.None? && snap.taskVisit.None?
    requires Decide(host.policy, job.createdAt, host.now).Some?
    ensures var retryAt := Decide(host.policy, job.createdAt, host.now).value.retryAt;
      Attempt(job, snap, host) == Ok(NO_CHANGES.(retryAt := Some(retryAt)))
      && Prepared(job, snap, host) == NO_CHANGES.(retryAt := Some(retryAt))
  {
  }

  lemma DeferralCommits(db: Db, job: Job, snap: Snapshot, retryAt: int, now: int)
    requires Holds(db, job) && !db.inst.suspended && db.inst.revision == snap.revision
    ensures var row := db.queue[job.uuid];
      Committed(db, job, snap, NO_CHANGES.(retryAt := Some(retryAt)), now)
      == Ok(db.(inst := db.inst.(revision := db.inst.revision + 1),
                queue := db.queue[job.uuid := row.(runAfter := retryAt, lease := None, retries := row.retries + 1)]))
  {
    assert db.log + [] == db.log;
  }

  /** The attempt decided by `host` for an idle signal: snapshot, job and deferral. */
  ghost predicate Deciding(s: State, key: LockKey, u: Uuid, host: Host) {
    && key in s.workers && s.workers[key].phase.Proposed? && s.workers[key].phase.host == host
    && s.workers[key].job.uuid == u && s.workers[key].job.task.ProcessSignal?
    && Holds(s.db, s.workers[key].job) && s.db.inst.revision == s.workers[key].phase.snap.revision
    && Decide(host.policy, s.workers[key].job.createdAt, host.now).Some?
    && var retryAt := Decide(host.policy, s.workers[key].job.createdAt, host.now).value.retryAt;
       && Attempt(s.workers[key].job, s.workers[key].phase.snap, host) == Ok(NO_CHANGES.(retryAt := Some(retryAt)))
       && s.workers[key].phase.changes == NO_CHANGES.(retryAt := Some(retryAt))
  }

  lemma HurryPrepares(s: State, u: Uuid, host: Host)
    requires Idle(s, u, host)
    ensures var key := s.db.nextId;
      var a := After(s, Fetch(u, s.db.clock)); var b := After(a, Load(key)); var c := After(b, Prepare(key, host));
      StepClocked(b, Prepare(key, host), host.policy, u) && Deciding(c, key, u, host) && c.db == a.db
  {
    var key := s.db.nextId;
    HurryClaims(s, u, host);
    var a := After(s, Fetch(u, s.db.clock));
    HurryLoads(a, u, key);
    var b := After(a, Load(key));
    DeferralProposed(b.workers[key].job, b.workers[key].phase.snap, host);
  }

  /** The commit of the deferral, followed by an operator's retry. */
  lemma HurryCommits(s: State, key: LockKey, u: Uuid, host: Host)
    requires Deciding(s, key, u, host) && !s.db.inst.suspended && host.now == s.db.clock
    requires forall v :: v in s.db.queue && v != u ==> s.db.queue[v].lease.None?
    requires s.db.inst.recovery.None? && s.db.inst.current.None? && s.leaseMs > 0
    requires s.db.queue[u].task.ProcessSignal? && s.db.queue[u].visit.None?
    requires s.db.queue[u].createdAt == s.workers[key].job.createdAt
    ensures var d := After(s, Commit(key, s.db.clock)); var e := After(d, Step.MakeDue(u));
      && Defers(s, Commit(key, s.db.clock), u) && Idle(e, u, host)
      && e.db.clock == s.db.clock && u in e.db.queue && e.db.queue[u].retries == s.db.queue[u].retries + 1
  {
    var w := s.workers[key];
    var retryAt := Decide(host.policy, w.job.createdAt, host.now).value.retryAt;
    DeferralCommits(s.db, w.job, w.phase.snap, retryAt, s.db.clock);
  }

  lemma HurryOnce(s: State, u: Uuid, host: Host)
    requires Idle(s, u, host)
    ensures var a := After(s, Fetch(u, s.db.clock)); var b := After(a, Load(s.db.nextId));
      var c := After(b, Prepare(s.db.nextId, host)); var d := After(c, Commit(s.db.nextId, s.db.clock));
      && StepClocked(b, Prepare(s.db.nextId, host), host.policy, u)
      && Defers(c, Commit(s.db.nextId, s.db.clock), u)
      && OneMore(s, After(d, Step.MakeDue(u)), u, host)
  {
    var key, clock := s.db.nextId, s.db.clock;
    HurryClaims(s, u, host);
    HurryPrepares(s, u, host);
    HurryCommits(After(After(After(s, Fetch(u, clock)), Load(key)), Prepare(key, host)), key, u, host);
  }

  // ---- Runs of several parts ----

  lemma {:induction false} RunAppend(s: State, a: seq<Step>, b: seq<Step>, u: Uuid, policy: Policy)
    ensures Run(s, a + b) == Run(Run(s, a), b)
    ensures DecisionTimes(s, a + b, u) == DecisionTimes(s, a, u) + DecisionTimes(Run(s, a), b, u)
    ensures Clocked(s, a, policy, u) && Clocked(Run(s, a), b, policy, u) ==> Clocked(s, a + b, policy, u)
    decreases |b|
  {
    if b == [] {
      assert a + b == a;
    } else {
      var front := b[..|b| - 1];
      assert (a + b)[..|a + b| - 1] == a + front;
      RunAppend(s, a, front, u, policy);
    }
  }

  /** The run leads from `s` to `t`, under the clock, and defers `u` at the given times. */
  ghost predicate Yields(s: State, steps: seq<Step>, t: State, times: seq<int>, u: Uuid, policy: Policy) {
    Run(s, steps) == t && DecisionTimes(s, steps, u) == times && Clocked(s, steps, policy, u)
  }

  lemma YieldsNothing(t: State, u: Uuid, policy: Policy)
    ensures Yields(t, [], t, [], u, policy)
  {
  }

  lemma YieldsStep(s: State, step: Step, rest: seq<Step>, t: State, times: seq<int>, u: Uuid, policy: Policy)
    requires Yields(After(s, step), rest, t, times, u, policy) && StepClocked(s, step, policy, u)
    ensures Yields(s, [step] + rest, t,
                   (if Defers(s, step, u) then [s.workers[step.key].phase.host.now] else []) + times, u, policy)
  {
    RunOne(s, step, u, policy);
    RunAppend(s, [step], rest, u, policy);
  }

  lemma RunOne(s: State, step: Step, u: Uuid, policy: Policy)
    ensures Run(s, [step]) == After(s, step)
    ensures DecisionTimes(s, [step], u) == if Defers(s, step, u) then [s.workers[step.key].phase.host.now] else []
    ensures Clocked(s, [step], policy, u) <==> StepClocked(s, step, policy, u)
  {
    assert [step][..0] == [];
  }

  /** A step at which `u` is not deferred. */
  lemma YieldsQuietly(s: State, step: Step, rest: seq<Step>, t: State, times: seq<int>, u: Uuid, policy: Policy)
    requires Yields(After(s, step), rest, t, times, u, policy) && !step.Commit? && StepClocked(s, step, policy, u)
    ensures Yields(s, [step] + rest, t, times, u, policy)
  {
    YieldsStep(s, step, rest, t, times, u, policy);
    assert [] + times == times;
  }

  /** The commit of a deferral, followed by an operator's retry. */
  lemma DeferralYields(s: State, commit: Step, u: Uuid, policy: Policy)
    requires commit.Commit? && Defers(s, commit, u)
    ensures Yields(s, [commit, Step.MakeDue(u)], After(After(s, commit), Step.MakeDue(u)),
                   [s.workers[commit.key].phase.host.now], u, policy)
  {
    var d, due := After(s, commit), Step.MakeDue(u);
    var t, times := After(d, due), [s.workers[commit.key].phase.host.now];
    YieldsNothing(t, u, policy);
    YieldsQuietly(d, due, [], t, [], u, policy);
    YieldsStep(s, commit, [due] + [], t, [], u, policy);
    assert times + [] == times && [commit] + ([due] + []) == [commit, due];
  }

  /** Three quiet steps before a run of two. */
  lemma QuietlyBefore(s: State, a: Step, b: Step, c: Step, d: Step, e: Step, t: State, times: seq<int>, u: Uuid,
                      policy: Policy)
    requires !a.Commit? && !b.Commit? && !c.Commit?
    requires StepClocked(s, a, policy, u) && StepClocked(After(s, a), b, policy, u)
    requires StepClocked(After(After(s, a), b), c, policy, u)
    requires Yields(After(After(After(s, a), b), c), [d, e], t, times, u, policy)
    ensures Yields(s, [a, b, c, d, e], t, times, u, policy)
  {
    YieldsQuietly(After(After(s, a), b), c, [d, e], t, times, u, policy);
    YieldsQuietly(After(s, a), b, [c] + [d, e], t, times, u, policy);
    YieldsQuietly(s, a, [b] + ([c] + [d, e]), t, times, u, policy);
    assert [a] + ([b] + ([c] + [d, e])) == [a, b, c, d, e];
  }

  lemma AttemptRuns(s: State, u: Uuid, host: Host)
    requires Idle(s, u, host)
    ensures var steps := AttemptSteps(s, u, host);
      OneMore(s, Run(s, steps), u, host) && |DecisionTimes(s, steps, u)| == 1 && Clocked(s, steps, host.policy, u)
  {
    var key, clock := s.db.nextId, s.db.clock;
    HurryOnce(s, u, host);
    var c := After(After(After(s, Fetch(u, clock)), Load(key)), Prepare(key, host));
    var commit, due := Commit(key, clock), Step.MakeDue(u);
    DeferralYields(c, commit, u, host.policy);
    QuietlyBefore(s, Fetch(u, clock), Load(key), Prepare(key, host), commit, due, After(After(c, commit), due),
                  [c.workers[key].phase.host.now], u, host.policy);
  }

  /** Without an end to operator retries there is no end to deferrals: any number of them, all at one instant. */
  lemma {:induction false} OperatorDefersForever(s: State, u: Uuid, host: Host, n: nat) returns (steps: seq<Step>)
    requires Idle(s, u, host)
    ensures |DecisionTimes(s, steps, u)| == n && Clocked(s, steps, host.policy, u)
    ensures Run(s, steps).db.clock == s.db.clock && Idle(Run(s, steps), u, host)
  {
    steps := [];
    if n > 0 {
      var before := OperatorDefersForever(s, u, host, n - 1);
      var t := Run(s, before);
      AttemptRuns(t, u, host);
      RunAppend(s, before, AttemptSteps(t, u, host), u, host.policy);
      steps := before + AttemptSteps(t, u, host);
    }
  }

  /** Such a state is one admission away from the start of any instance. */
  lemma AdmissionIsIdle(start: State, signal: PostSignal, now: int, host: Host)
    requires Initial(start) && signal.waitVisit.None? && now <= start.db.clock
    requires SignalPosted(start.db, signal, now).Ok?
    requires host.now == start.db.clock && Decide(host.policy, start.db.clock, host.now).Some?
    ensures Idle(After(start, Post(signal, now)), start.db.nextId, host)
  {
  }
}
