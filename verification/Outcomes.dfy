/** What an attempt amounts to, said of the node, the snapshot and the outcomes of host code, without the order in
    which the dispatcher computes it. */
module Outcomes {
  import opened Wrappers
  import opened Contexts
  import opened ProcessDefs
  import opened SignalDelivery
  import opened Tasks
  import opened Dispatch

  // ---- Choices ----

  /** The conditions before the `i`-th branch are all false. */
  predicate RefutedBefore(host: Host, context: ContextMap, branches: seq<Branch>, i: nat)
    requires i <= |branches|
  {
    forall j :: 0 <= j < i ==> host.evaluate(branches[j].when, context) == Some(false)
  }

  /** The `i`-th condition is the first that is not false, and it has the given value. */
  predicate FirstDecided(host: Host, context: ContextMap, branches: seq<Branch>, i: int, value: Option<bool>) {
    0 <= i < |branches| && host.evaluate(branches[i].when, context) == value && RefutedBefore(host, context, branches, i)
  }

  /** The target of the first true branch, or the fallback when every condition is false. */
  ghost predicate Chooses(host: Host, context: ContextMap, branches: seq<Branch>, fallback: Option<Id>, target: Id) {
    || (exists i :: FirstDecided(host, context, branches, i, Some(true)) && branches[i].next == target)
    || (RefutedBefore(host, context, branches, |branches|) && fallback == Some(target))
  }

  /** A condition that cannot be evaluated comes before any true one. */
  ghost predicate ConditionBreaks(host: Host, context: ContextMap, branches: seq<Branch>) {
    exists i :: FirstDecided(host, context, branches, i, None)
  }

  predicate NothingChosen(host: Host, context: ContextMap, branches: seq<Branch>, fallback: Option<Id>) {
    RefutedBefore(host, context, branches, |branches|) && fallback.None?
  }

  lemma FirstDecidedOnce(host: Host, context: ContextMap, branches: seq<Branch>, i: int, v: Option<bool>, j: int,
                         w: Option<bool>)
    requires FirstDecided(host, context, branches, i, v) && FirstDecided(host, context, branches, j, w)
    requires v != Some(false) && w != Some(false)
    ensures i == j && v == w && !RefutedBefore(host, context, branches, |branches|)
  {
  }

  /** Exactly one of three things happens: one target is chosen, a condition breaks, or nothing is chosen. */
  lemma ChoiceExclusive(host: Host, context: ContextMap, branches: seq<Branch>, fallback: Option<Id>, a: Id, b: Id)
    requires Chooses(host, context, branches, fallback, a)
    ensures Chooses(host, context, branches, fallback, b) ==> a == b
    ensures !ConditionBreaks(host, context, branches) && !NothingChosen(host, context, branches, fallback)
  {
    if i :| FirstDecided(host, context, branches, i, Some(true)) && branches[i].next == a {
      if j :| FirstDecided(host, context, branches, j, Some(true)) && branches[j].next == b {
        FirstDecidedOnce(host, context, branches, i, Some(true), j, Some(true));
      }
      if j :| FirstDecided(host, context, branches, j, None) {
        FirstDecidedOnce(host, context, branches, i, Some(true), j, None);
      }
    }
  }

  lemma BreakExclusive(host: Host, context: ContextMap, branches: seq<Branch>, fallback: Option<Id>)
    requires ConditionBreaks(host, context, branches)
    ensures !NothingChosen(host, context, branches, fallback)
  {
  }

  lemma ShiftDecided(host: Host, context: ContextMap, branches: seq<Branch>, i: int, value: Option<bool>)
    requires branches != [] && host.evaluate(branches[0].when, context) == Some(false)
    requires FirstDecided(host, context, branches[1..], i, value)
    ensures FirstDecided(host, context, branches, i + 1, value)
  {
    forall j | 0 <= j < i + 1 ensures host.evaluate(branches[j].when, context) == Some(false) {
      if j > 0 {
        assert branches[1..][j - 1] == branches[j];
      }
    }
  }

  lemma ShiftRefuted(host: Host, context: ContextMap, branches: seq<Branch>)
    requires branches != [] && host.evaluate(branches[0].when, context) == Some(false)
    requires RefutedBefore(host, context, branches[1..], |branches| - 1)
    ensures RefutedBefore(host, context, branches, |branches|)
  {
    forall j | 0 <= j < |branches| ensures host.evaluate(branches[j].when, context) == Some(false) {
      if j > 0 {
        assert branches[1..][j - 1] == branches[j];
      }
    }
  }

  /** What the selection returns, by the values of the conditions alone. */
  ghost predicate Selected(host: Host, context: ContextMap, branches: seq<Branch>, fallback: Option<Id>, r: Attempted<Id>) {
    match r
    case Ok(target) => Chooses(host, context, branches, fallback, target)
    case Err(ConditionFailed) => ConditionBreaks(host, context, branches)
    case Err(NoBranch) => NothingChosen(host, context, branches, fallback)
    case Err(_) => false
  }

  lemma {:induction false} SelectMeans(host: Host, context: ContextMap, branches: seq<Branch>, fallback: Option<Id>)
    ensures Selected(host, context, branches, fallback, Select(host, context, branches, fallback))
  {
    if branches != [] {
      var first := host.evaluate(branches[0].when, context);
      if first == Some(false) {
        SelectMeans(host, context, branches[1..], fallback);
        var r := Select(host, context, branches[1..], fallback);
        if RefutedBefore(host, context, branches[1..], |branches| - 1) {
          ShiftRefuted(host, context, branches);
        }
        if i :| FirstDecided(host, context, branches[1..], i, Some(true)) && r == Ok(branches[1..][i].next) {
          ShiftDecided(host, context, branches, i, Some(true));
        }
        if i :| FirstDecided(host, context, branches[1..], i, None) {
          ShiftDecided(host, context, branches, i, None);
        }
      } else {
        assert FirstDecided(host, context, branches, 0, first);
      }
    }
  }

  /** The selection returns the target that the conditions choose, and fails as they fail. */
  lemma SelectExactly(host: Host, context: ContextMap, branches: seq<Branch>, fallback: Option<Id>)
    ensures var r := Select(host, context, branches, fallback);
      && (forall id :: Chooses(host, context, branches, fallback, id) <==> r == Ok(id))
      && (r == Err(ConditionFailed) <==> ConditionBreaks(host, context, branches))
      && (r == Err(NoBranch) <==> NothingChosen(host, context, branches, fallback))
      && (r.Err? ==> r.error == ConditionFailed || r.error == NoBranch)
  {
    SelectMeans(host, context, branches, fallback);
    var r := Select(host, context, branches, fallback);
    forall id | Chooses(host, context, branches, fallback, id) ensures r == Ok(id) {
      ChoiceExclusive(host, context, branches, fallback, id, if r.Ok? then r.value else id);
    }
    if ConditionBreaks(host, context, branches) {
      BreakExclusive(host, context, branches, fallback);
    }
  }

  /** The target a successor leads to. */
  ghost predicate Leads(host: Host, context: ContextMap, next: Next, target: Id) {
    match next
    case To(id) => target == id
    case Routes(fallback, branches) => Chooses(host, context, branches, fallback, target)
  }

  ghost predicate RouteBreaks(host: Host, context: ContextMap, successor: Option<Next>) {
    successor.Some? && successor.value.Routes? && ConditionBreaks(host, context, successor.value.branches)
  }

  /** Some declared node follows, or none has to. */
  ghost predicate Followable(def: ProcessDefinition, host: Host, context: ContextMap, successor: Option<Next>) {
    successor.Some? ==> exists id :: Leads(host, context, successor.value, id) && FindNode(def, id).Some?
  }

  /** The one task for the node declared under `id`, due at once and bound to no visit. */
  predicate Queues(def: ProcessDefinition, id: Id, tasks: seq<Scheduled>) {
    FindNode(def, id).Some? && tasks == [Scheduled(ProcessNode(FindNode(def, id).value), None, None)]
  }

  ghost predicate Follows(def: ProcessDefinition, host: Host, context: ContextMap, successor: Option<Next>,
                          tasks: seq<Scheduled>) {
    if successor.None? then tasks == []
    else exists id :: Leads(host, context, successor.value, id) && Queues(def, id, tasks)
  }

  /** What following a successor returns. */
  ghost predicate Followed(def: ProcessDefinition, host: Host, context: ContextMap, successor: Option<Next>,
                           r: Attempted<seq<Scheduled>>) {
    && (r.Ok? <==> Followable(def, host, context, successor))
    && (r.Ok? ==> Follows(def, host, context, successor, r.value))
    && (r == Err(ConditionFailed) <==> RouteBreaks(host, context, successor))
    && r != Err(Uncertain)
  }

  lemma SuccessorsMean(snap: Snapshot, host: Host, context: ContextMap, successor: Option<Next>)
    ensures Followed(snap.definition, host, context, successor, Successors(snap, host, context, successor))
  {
    if successor.Some? && successor.value.Routes? {
      SelectExactly(host, context, successor.value.branches, successor.value.fallback);
    }
  }

  // ---- Timers ----

  /** An absolute time, or else a positive delay from now. */
  predicate DueAt(timer: Timer, now: int, due: int) {
    timer.at == Some(due) || (timer.at.None? && timer.after.Some? && timer.after.value > 0 && due == now + timer.after.value)
  }

  predicate TimerReady(def: ProcessDefinition, timer: Option<Timer>) {
    timer.Some? ==>
      && FindNode(def, timer.value.onTimeout).Some?
      && (timer.value.at.Some? || (timer.value.after.Some? && timer.value.after.value > 0))
  }

  /** The timeout of the visit that `job` opens, if the node has one. */
  ghost predicate TimeoutQueued(job: Job, node: Node, timer: Option<Timer>, now: int, tasks: seq<Scheduled>) {
    if timer.None? then tasks == []
    else exists due :: DueAt(timer.value, now, due)
           && tasks == [Scheduled(ProcessEvent(node, timer.value.onTimeout), Some(due), Some(job.uuid))]
  }

  // ---- Entering a node ----

  predicate NewVisit(job: Job, snap: Snapshot) {
    snap.visit != Some(job.uuid)
  }

  /** A callback that runs succeeds. */
  predicate Passed(hook: Option<Id>, outcome: HookOutcome) {
    hook.Some? ==> outcome == HookSucceeded
  }

  predicate Unsure(hook: Option<Id>, outcome: HookOutcome) {
    hook.Some? && outcome == HookUncertain
  }

  /** The form of the user task being left is hidden. */
  predicate LeavesForm(job: Job, snap: Snapshot) {
    NewVisit(job, snap) && snap.current.Some? && snap.current.value.UserTask?
  }

  predicate FormHidden(job: Job, snap: Snapshot, host: Host) {
    LeavesForm(job, snap) ==> Passed(snap.definition.hooks.hide, host.hide)
  }

  /** The stage change of a new visit is announced. */
  predicate StageAnnounced(job: Job, snap: Snapshot, host: Host, node: Node) {
    && NewVisit(job, snap) && FormHidden(job, snap, host)
    && node.setStage.Some? && StageDeclared(snap.definition, node.setStage.value.stage)
  }

  predicate EntryPasses(job: Job, snap: Snapshot, host: Host, node: Node) {
    NewVisit(job, snap) ==>
      && FormHidden(job, snap, host)
      && (node.setStage.Some? ==>
            StageDeclared(snap.definition, node.setStage.value.stage) && Passed(snap.definition.hooks.stage, host.stage))
  }

  predicate EntryUnsure(job: Job, snap: Snapshot, host: Host, node: Node) {
    || (LeavesForm(job, snap) && Unsure(snap.definition.hooks.hide, host.hide))
    || (StageAnnounced(job, snap, host, node) && Unsure(snap.definition.hooks.stage, host.stage))
  }

  /** A new visit is announced with its stage; a continued one proposes nothing. */
  predicate Announced(job: Job, snap: Snapshot, node: Node, c: Changes) {
    if NewVisit(job, snap) then
      && c.enterNode == Some(node.id) && c.stage == node.setStage
      && c.events == [NodeEntered(node.id, job.uuid)]
                     + (if node.setStage.Some? then [StageChanged(node.setStage.value.stage)] else [])
    else
      c.enterNode == None && c.stage == None && c.events == []
  }

  /** The callbacks a node runs after the entry are not certain to have run once. */
  predicate HandlingUnsure(snap: Snapshot, host: Host, node: Node) {
    match node
    case End(_, _) => Unsure(snap.definition.hooks.complete, host.complete)
    case UserTask(_, form, _, _, timer, _, _) =>
      TimerReady(snap.definition, timer) && FormDeclared(snap.definition, form)
      && Unsure(snap.definition.hooks.show, host.show)
    case ServiceTask(_, _, _, _, _, _, _) => host.handler == HandlerUncertain
    case _ => false
  }

  ghost predicate HandlingBreaks(snap: Snapshot, host: Host, node: Node) {
    match node
    case Gateway(_, _, branches, _) => ConditionBreaks(host, snap.context, branches)
    case ServiceTask(_, _, _, _, _, successor, _) =>
      host.handler.HandlerSucceeded? && RouteBreaks(host, Patched(snap.context, host.handler.patch), successor)
    case _ => false
  }

  /** Attempts remain for a failed handler. */
  predicate AttemptsRemain(job: Job, node: Node)
    requires node.ServiceTask?
  {
    node.retries.Some? && job.attempts <= node.retries.value.max
  }

  function ErrorRoute(node: Node): Option<Id>
    requires node.ServiceTask?
  {
    if node.onError.Some? then node.onError.value.next else None
  }

  ghost predicate ServicePasses(job: Job, snap: Snapshot, host: Host, node: Node)
    requires node.ServiceTask?
  {
    match host.handler
    case HandlerUncertain => false
    case HandlerRepeat(_) => true
    case HandlerSucceeded(patch) => Followable(snap.definition, host, Patched(snap.context, patch), node.successor)
    case HandlerFailed =>
      if AttemptsRemain(job, node) then node.retries.value.backoff > 0
      else ErrorRoute(node).Some? ==> FindNode(snap.definition, ErrorRoute(node).value).Some?
  }

  ghost predicate HandlingPasses(job: Job, snap: Snapshot, host: Host, node: Node) {
    match node
    case Start(_, first, _) => FindNode(snap.definition, first).Some?
    case End(_, _) => Passed(snap.definition.hooks.complete, host.complete)
    case Gateway(_, _, branches, fallback) =>
      exists id :: Chooses(host, snap.context, branches, fallback, id) && FindNode(snap.definition, id).Some?
    case Wait(_, _, _, timer, _) => TimerReady(snap.definition, timer)
    case UserTask(_, form, _, _, timer, _, _) =>
      TimerReady(snap.definition, timer) && FormDeclared(snap.definition, form)
      && Passed(snap.definition.hooks.show, host.show)
    case ServiceTask(_, _, _, _, _, _, _) => ServicePasses(job, snap, host, node)
  }

  /** The instance keeps its context, and nothing is retried or stopped. */
  predicate Plain(c: Changes) {
    c.context == None && c.patch == None && c.incident == None && c.retryAt == None
  }

  /** A failed handler: a retry while attempts remain, else the error route, else an incident. */
  predicate FailureProposes(job: Job, snap: Snapshot, host: Host, node: Node, c: Changes)
    requires node.ServiceTask?
  {
    && c.context == None && c.patch == None
    && (if AttemptsRemain(job, node) then
          c.retryAt == Some(host.now + node.retries.value.backoff) && c.tasks == [] && c.incident == None
        else if ErrorRoute(node).Some? then
          Queues(snap.definition, ErrorRoute(node).value, c.tasks) && c.retryAt == None && c.incident == None
        else
          c.incident == Some(HandlerExhausted) && c.tasks == [] && c.retryAt == None)
  }

  ghost predicate ServiceProposes(job: Job, snap: Snapshot, host: Host, node: Node, c: Changes)
    requires node.ServiceTask?
  {
    match host.handler
    case HandlerUncertain => false
    case HandlerRepeat(at) => Plain(c) && c.tasks == [Scheduled(ProcessNode(node), Some(at), None)]
    case HandlerSucceeded(patch) =>
      && c.context == Some(Patched(snap.context, patch)) && c.patch == Some(patch)
      && c.incident == None && c.retryAt == None
      && Follows(snap.definition, host, Patched(snap.context, patch), node.successor, c.tasks)
    case HandlerFailed => FailureProposes(job, snap, host, node, c)
  }

  ghost predicate HandlingProposes(job: Job, snap: Snapshot, host: Host, node: Node, c: Changes) {
    match node
    case Start(_, first, _) => Plain(c) && Queues(snap.definition, first, c.tasks)
    case End(_, _) => Plain(c) && c.tasks == []
    case Gateway(_, _, branches, fallback) =>
      Plain(c) && exists id :: Chooses(host, snap.context, branches, fallback, id) && Queues(snap.definition, id, c.tasks)
    case Wait(_, _, _, timer, _) => Plain(c) && TimeoutQueued(job, node, timer, host.now, c.tasks)
    case UserTask(_, _, _, _, timer, _, _) => Plain(c) && TimeoutQueued(job, node, timer, host.now, c.tasks)
    case ServiceTask(_, _, _, _, _, _, _) => ServiceProposes(job, snap, host, node, c)
  }

  // ---- Timeouts and signals ----

  /** The row is bound to the visit that is open. */
  predicate AtOpenVisit(snap: Snapshot) {
    snap.taskVisit.Some? && snap.visit == snap.taskVisit && !snap.waitCompleted
  }

  predicate OnTime(snap: Snapshot, origin: Node) {
    AtOpenVisit(snap) && snap.current.Some? && snap.current.value.id == origin.id
  }

  function TimerOf(node: Node): Option<Timer> {
    match node
    case UserTask(_, _, _, _, timer, _, _) => timer
    case Wait(_, _, _, timer, _) => timer
    case _ => None
  }

  /** The node waits for the signal. */
  predicate Awaits(node: Node, signal: Id) {
    match node
    case UserTask(_, _, Some(Single(s)), _, _, _, _) => s == signal
    case UserTask(_, _, Some(Multi(ss)), _, _, _, _) => signal in ss
    case Wait(_, Single(s), _, _, _) => s == signal
    case Wait(_, Multi(ss), _, _, _) => signal in ss
    case _ => false
  }

  predicate Answered(snap: Snapshot, posted: PostSignal) {
    AtOpenVisit(snap) && snap.current.Some? && Awaits(snap.current.value, posted.signal)
  }

  /** `after` is `before` with the payload added and the marks set last; every other key keeps its value. */
  predicate Extended(before: ContextMap, payload: ContextMap, marks: ContextMap, after: ContextMap) {
    && after.Keys == before.Keys + payload.Keys + marks.Keys
    && forall k :: k in after ==>
         after[k] == if k in marks then marks[k] else if k in payload then payload[k] else before[k]
  }

  function SignalMarks(posted: PostSignal): ContextMap {
    map["_last_signal" := Text(posted.signal)]
  }

  function TimeoutMarks(origin: Node, onTime: Id, now: int): ContextMap {
    map["_last_event" := Text("timeout"), "_timeout_node" := Text(origin.id),
        "_timeout_target" := Text(onTime), "_timeout_at" := Stamp(now)]
  }

  lemma ExtendedOnce(before: ContextMap, payload: ContextMap, marks: ContextMap, a: ContextMap, b: ContextMap)
    requires Extended(before, payload, marks, a) && Extended(before, payload, marks, b)
    ensures a == b
  {
  }

  lemma SignalContextMeans(snap: Snapshot, posted: PostSignal)
    ensures Extended(snap.context, posted.context, SignalMarks(posted), SignalContext(snap, posted))
  {
  }

  lemma TimeoutContextMeans(snap: Snapshot, origin: Node, timer: Timer, now: int)
    ensures Extended(snap.context, timer.context, TimeoutMarks(origin, timer.onTimeout, now),
                     TimeoutContext(snap, origin, timer, now))
  {
    MarksDistinct();
  }

  lemma MarksDistinct()
    ensures "_last_event"[1] == 'l' && "_timeout_node"[1] == 't' && "_timeout_target"[1] == 't' && "_timeout_at"[1] == 't'
    ensures "_timeout_node"[9] == 'n' && "_timeout_target"[9] == 't' && "_timeout_at"[9] == 'a'
  {
  }

  /** The first tier that covers the age of the signal. */
  predicate TierFor(policy: Policy, age: int, i: int) {
    && 0 <= i < |policy.tiers| && age < policy.expiresAfter && age < policy.tiers[i].until
    && forall j :: 0 <= j < i ==> policy.tiers[j].until <= age
  }

  /** A signal nobody can accept yet: deferred by the tier of its age, or expired. */
  ghost predicate Postponed(job: Job, host: Host, c: Changes) {
    var age := if host.now < job.createdAt then 0 else host.now - job.createdAt;
    || (exists i :: TierFor(host.policy, age, i) && c == NO_CHANGES.(retryAt := Some(host.now + host.policy.tiers[i].delay)))
    || ((forall i :: !TierFor(host.policy, age, i)) && c == NO_CHANGES)
  }

  ghost predicate EventProposes(job: Job, snap: Snapshot, host: Host, origin: Node, onTime: Id, c: Changes) {
    if OnTime(snap, origin) then
      && TimerOf(origin).Some? && snap.taskVisit.Some? && c.context.Some?
      && Extended(snap.context, TimerOf(origin).value.context, TimeoutMarks(origin, onTime, host.now), c.context.value)
      && Queues(snap.definition, onTime, c.tasks)
      && c == NO_CHANGES.(closeWait := true, context := c.context, tasks := c.tasks,
                          events := [TimeoutAccepted(job.uuid, snap.taskVisit.value)])
    else
      c == NO_CHANGES
  }

  ghost predicate SignalProposes(job: Job, snap: Snapshot, host: Host, posted: PostSignal, c: Changes) {
    if Answered(snap, posted) then
      && snap.taskVisit.Some? && c.context.Some?
      && Extended(snap.context, posted.context, SignalMarks(posted), c.context.value)
      && Follows(snap.definition, host, c.context.value, SuccessorOf(snap.current.value), c.tasks)
      && c == NO_CHANGES.(closeWait := true, context := c.context, tasks := c.tasks,
                          events := [SignalAccepted(job.uuid, posted.eventId, snap.taskVisit.value)])
    else if snap.taskVisit.Some? || (snap.current.Some? && snap.current.value.End?) then
      c == NO_CHANGES
    else
      Postponed(job, host, c)
  }

  function SuccessorOf(node: Node): Option<Next> {
    match node
    case ServiceTask(_, _, _, _, _, successor, _) => successor
    case UserTask(_, _, _, _, _, successor, _) => successor
    case Wait(_, _, _, _, successor) => successor
    case _ => None
  }

  // ---- Whole attempts ----

  /** The node is the one the definition declares under its identifier. */
  predicate Published(def: ProcessDefinition, node: Node) {
    FindNode(def, node.id) == Some(node)
  }

  /** A callback or handler that was called timed out or panicked. */
  predicate MeetsUncertainty(job: Job, snap: Snapshot, host: Host) {
    && job.task.ProcessNode? && Published(snap.definition, job.task.node)
    && (|| EntryUnsure(job, snap, host, job.task.node)
        || (EntryPasses(job, snap, host, job.task.node) && HandlingUnsure(snap, host, job.task.node)))
  }

  /** A condition that had to be evaluated could not be. */
  ghost predicate MeetsBrokenCondition(job: Job, snap: Snapshot, host: Host) {
    match job.task
    case ProcessNode(node) =>
      Published(snap.definition, node) && EntryPasses(job, snap, host, node) && HandlingBreaks(snap, host, node)
    case ProcessEvent(_, _) => false
    case ProcessSignal(posted) =>
      Answered(snap, posted)
      && exists context :: Extended(snap.context, posted.context, SignalMarks(posted), context)
           && RouteBreaks(host, context, SuccessorOf(snap.current.value))
  }

  /** Everything the attempt needs is there and every call succeeds. */
  ghost predicate Prepares(job: Job, snap: Snapshot, host: Host) {
    match job.task
    case ProcessNode(node) =>
      Published(snap.definition, node) && EntryPasses(job, snap, host, node) && HandlingPasses(job, snap, host, node)
    case ProcessEvent(origin, onTime) =>
      && snap.taskVisit.Some?
      && (OnTime(snap, origin) ==>
            TimerOf(origin).Some? && TimerOf(origin).value.onTimeout == onTime && FindNode(snap.definition, onTime).Some?)
    case ProcessSignal(posted) =>
      Answered(snap, posted) ==>
        exists context :: Extended(snap.context, posted.context, SignalMarks(posted), context)
          && Followable(snap.definition, host, context, SuccessorOf(snap.current.value))
  }

  /** What an attempt that prepares proposes. */
  ghost predicate Proposes(job: Job, snap: Snapshot, host: Host, c: Changes) {
    match job.task
    case ProcessNode(node) =>
      Announced(job, snap, node, c) && !c.closeWait && HandlingProposes(job, snap, host, node, c)
    case ProcessEvent(origin, onTime) => EventProposes(job, snap, host, origin, onTime, c)
    case ProcessSignal(posted) => SignalProposes(job, snap, host, posted, c)
  }

  /** How an attempt ends, by what it met. */
  ghost predicate Judged(r: Attempted<Changes>, passes: bool, unsure: bool, breaks: bool) {
    && (r.Ok? <==> passes)
    && (r == Err(Uncertain) <==> unsure)
    && (r == Err(ConditionFailed) <==> breaks)
  }

  lemma EntryMeans(job: Job, snap: Snapshot, host: Host, node: Node)
    ensures var r := Entered(job, snap, host, node);
      && Judged(r, EntryPasses(job, snap, host, node), EntryUnsure(job, snap, host, node), false)
      && (r.Ok? ==> Announced(job, snap, node, r.value)
                    && r.value == NO_CHANGES.(enterNode := r.value.enterNode, stage := r.value.stage, events := r.value.events))
  {
  }

  /** What handling adds to the announcement `c`. */
  ghost predicate HandledWell(job: Job, snap: Snapshot, host: Host, node: Node, c: Changes, r: Attempted<Changes>) {
    && Judged(r, HandlingPasses(job, snap, host, node), HandlingUnsure(snap, host, node), HandlingBreaks(snap, host, node))
    && (r.Ok? ==>
          && HandlingProposes(job, snap, host, node, r.value)
          && r.value.enterNode == c.enterNode && r.value.stage == c.stage && r.value.events == c.events
          && !r.value.closeWait)
  }

  predicate OnlyAnnounces(c: Changes) {
    c == NO_CHANGES.(enterNode := c.enterNode, stage := c.stage, events := c.events)
  }

  lemma WaitMeans(job: Job, snap: Snapshot, host: Host, node: Node, c: Changes)
    requires OnlyAnnounces(c) && (node.Wait? || node.UserTask?)
    ensures HandledWell(job, snap, host, node, c, Handled(job, snap, host, node, c))
  {
  }

  lemma GatewayMeans(job: Job, snap: Snapshot, host: Host, node: Node, c: Changes)
    requires OnlyAnnounces(c) && node.Gateway?
    ensures HandledWell(job, snap, host, node, c, Handled(job, snap, host, node, c))
  {
    SelectExactly(host, snap.context, node.branches, node.fallback);
  }

  lemma ServiceMeans(job: Job, snap: Snapshot, host: Host, node: Node, c: Changes)
    requires OnlyAnnounces(c) && node.ServiceTask?
    ensures HandledWell(job, snap, host, node, c, Handled(job, snap, host, node, c))
  {
    if host.handler.HandlerSucceeded? {
      SuccessorsMean(snap, host, Patched(snap.context, host.handler.patch), node.successor);
    }
  }

  lemma EndsMean(job: Job, snap: Snapshot, host: Host, node: Node, c: Changes)
    requires OnlyAnnounces(c) && (node.Start? || node.End?)
    ensures HandledWell(job, snap, host, node, c, Handled(job, snap, host, node, c))
  {
  }

  lemma HandlingMeans(job: Job, snap: Snapshot, host: Host, node: Node, c: Changes)
    requires OnlyAnnounces(c)
    ensures HandledWell(job, snap, host, node, c, Handled(job, snap, host, node, c))
  {
    match node {
      case Gateway(_, _, _, _) => GatewayMeans(job, snap, host, node, c);
      case ServiceTask(_, _, _, _, _, _, _) => ServiceMeans(job, snap, host, node, c);
      case Start(_, _, _) => EndsMean(job, snap, host, node, c);
      case End(_, _) => EndsMean(job, snap, host, node, c);
      case _ => WaitMeans(job, snap, host, node, c);
    }
  }

  /** How an attempt at a task ends, and what it proposes when it succeeds. */
  ghost predicate AttemptedWell(job: Job, snap: Snapshot, host: Host, r: Attempted<Changes>) {
    && Judged(r, Prepares(job, snap, host), MeetsUncertainty(job, snap, host), MeetsBrokenCondition(job, snap, host))
    && (r.Ok? ==> Proposes(job, snap, host, r.value))
  }

  lemma NodeMeans(job: Job, snap: Snapshot, host: Host)
    requires job.task.ProcessNode?
    ensures AttemptedWell(job, snap, host, Attempt(job, snap, host))
  {
    var node := job.task.node;
    if Published(snap.definition, node) {
      EntryMeans(job, snap, host, node);
      var entered := Entered(job, snap, host, node);
      if entered.Ok? {
        HandlingMeans(job, snap, host, node, entered.value);
      }
    }
  }

  lemma EventMeans(job: Job, snap: Snapshot, host: Host)
    requires job.task.ProcessEvent?
    ensures AttemptedWell(job, snap, host, Attempt(job, snap, host))
  {
    var origin := job.task.origin;
    assert origin.Timeout() == TimerOf(origin);
    if TimerOf(origin).Some? {
      TimeoutContextMeans(snap, origin, TimerOf(origin).value, host.now);
    }
  }

  lemma AwaitsMeans(node: Node, signal: Id)
    ensures node.Accepts(signal) <==> Awaits(node, signal)
    ensures Awaits(node, signal) ==> (node.UserTask? || node.Wait?) && SuccessorOf(node) == node.successor
  {
  }

  lemma AnswerMeans(job: Job, snap: Snapshot, host: Host)
    requires job.task.ProcessSignal? && Answered(snap, job.task.posted)
    ensures AttemptedWell(job, snap, host, Attempt(job, snap, host))
  {
    var posted := job.task.posted;
    AwaitsMeans(snap.current.value, posted.signal);
    var context := SignalContext(snap, posted);
    SignalContextMeans(snap, posted);
    forall other | Extended(snap.context, posted.context, SignalMarks(posted), other) ensures other == context {
      ExtendedOnce(snap.context, posted.context, SignalMarks(posted), context, other);
    }
    SuccessorsMean(snap, host, context, SuccessorOf(snap.current.value));
  }

  lemma {:induction false} TierFound(tiers: seq<Tier>, age: int)
    ensures var r := FirstTier(tiers, age);
      if r.None? then forall j :: 0 <= j < |tiers| ==> tiers[j].until <= age
      else exists i :: 0 <= i < |tiers| && r.value == tiers[i] && age < tiers[i].until
             && forall j :: 0 <= j < i ==> tiers[j].until <= age
  {
    if tiers != [] && tiers[0].until <= age {
      TierFound(tiers[1..], age);
      var r := FirstTier(tiers[1..], age);
      if r.Some? {
        var i :| 0 <= i < |tiers[1..]| && r.value == tiers[1..][i] && age < tiers[1..][i].until
                 && forall j :: 0 <= j < i ==> tiers[1..][j].until <= age;
        assert tiers[i + 1] == tiers[1..][i];
        forall j | 0 <= j < i + 1 ensures tiers[j].until <= age {
          if j > 0 {
            assert tiers[1..][j - 1].until <= age;
          }
        }
      } else {
        forall j | 0 <= j < |tiers| ensures tiers[j].until <= age {
          if j > 0 {
            assert tiers[1..][j - 1].until <= age;
          }
        }
      }
    }
  }

  /** A decision goes by the first tier that covers the age, and there is one exactly when some tier does. */
  lemma DecideMeans(policy: Policy, queuedAt: int, now: int)
    ensures var r := Decide(policy, queuedAt, now); var age := if now < queuedAt then 0 else now - queuedAt;
      if r.None? then forall i :: !TierFor(policy, age, i)
      else exists i :: TierFor(policy, age, i) && r.value.retryAt == now + policy.tiers[i].delay
  {
    var age := if now < queuedAt then 0 else now - queuedAt;
    TierFound(policy.tiers, age);
    var r := FirstTier(policy.tiers, age);
    if r.Some? && age < policy.expiresAfter {
      var i :| 0 <= i < |policy.tiers| && r.value == policy.tiers[i] && age < policy.tiers[i].until
               && forall j :: 0 <= j < i ==> policy.tiers[j].until <= age;
      assert TierFor(policy, age, i);
    }
  }

  lemma DeferralMeans(job: Job, snap: Snapshot, host: Host)
    requires job.task.ProcessSignal? && !Answered(snap, job.task.posted)
    ensures AttemptedWell(job, snap, host, Attempt(job, snap, host))
  {
    if snap.current.Some? {
      AwaitsMeans(snap.current.value, job.task.posted.signal);
    }
    DecideMeans(host.policy, job.createdAt, host.now);
  }

  /** Every attempt ends as what it met demands, and an attempt that prepares proposes exactly the consequence of its
      task. */
  lemma AttemptMeans(job: Job, snap: Snapshot, host: Host)
    ensures AttemptedWell(job, snap, host, Attempt(job, snap, host))
  {
    match job.task {
      case ProcessNode(_) => NodeMeans(job, snap, host);
      case ProcessEvent(_, _) => EventMeans(job, snap, host);
      case ProcessSignal(posted) =>
        if Answered(snap, posted) {
          AnswerMeans(job, snap, host);
        } else {
          DeferralMeans(job, snap, host);
        }
    }
  }

  /** What is proposed in place of a preparation that failed. */
  ghost predicate FailureAnswered(job: Job, snap: Snapshot, host: Host, c: Changes) {
    if MeetsUncertainty(job, snap, host) then c == NO_CHANGES.(incident := Some(UncertainIncident))
    else if MeetsBrokenCondition(job, snap, host) then c == NO_CHANGES.(incident := Some(ConditionIncident))
    else if job.attempts >= 3 then c == NO_CHANGES.(incident := Some(ExecutionExhausted))
    else c == NO_CHANGES.(retryAt := Some(host.now + 5000))
  }

  lemma PreparedMeans(job: Job, snap: Snapshot, host: Host)
    ensures var c := Prepared(job, snap, host);
      if Prepares(job, snap, host) then Proposes(job, snap, host, c) else FailureAnswered(job, snap, host, c)
  {
    AttemptMeans(job, snap, host);
  }
}
