/** What one execution attempt proposes, as a function of the dequeued task, its
    snapshot, and the outcomes of host code. */
module Dispatch {
  import opened Wrappers
  import opened Contexts
  import opened ProcessDefs
  import opened SignalDelivery
  import opened Tasks

  datatype HookOutcome = HookSucceeded | HookFailed | HookUncertain

  /** `HandlerFailed` covers a failure, an illegal state, a missing handler and a returned error. */
  datatype HandlerOutcome = HandlerSucceeded(patch: Patch) | HandlerFailed | HandlerRepeat(at: int) | HandlerUncertain

  /** Everything the engine takes from outside an attempt. A condition evaluates to a
      boolean, or to `None` when it does not compile or fails. */
  datatype Host = Host(
    evaluate: (string, ContextMap) -> Option<bool>,
    hide: HookOutcome, stage: HookOutcome, show: HookOutcome, complete: HookOutcome,
    handler: HandlerOutcome, now: int, policy: Policy)

  datatype ExecError =
    | Uncertain
    | ConditionFailed
    | NoBranch
    | HookError
    | BadTimer
    | NodeMissing(node: Id)
    | StageMissing(stage: Id)
    | FormMissing(form: Id)
    | PayloadDiffers
    | VisitMissing
    | TimerMissing
    | TargetDiffers
  {
    /** Failures that say the definition and the stored task disagree. */
    predicate Dangling() {
      NodeMissing? || StageMissing? || FormMissing? || PayloadDiffers? || VisitMissing?
      || TimerMissing? || TargetDiffers? || BadTimer?
    }
  }

  type Attempted<+T> = Result<T, ExecError>

  function RunHook(handler: Option<Id>, outcome: HookOutcome): Attempted<bool> {
    if handler.None? then Ok(true)
    else
      match outcome
      case HookSucceeded => Ok(true)
      case HookFailed => Err(HookError)
      case HookUncertain => Err(Uncertain)
  }

  function Lookup(snap: Snapshot, id: Id): Attempted<Node> {
    match FindNode(snap.definition, id)
    case Some(node) => Ok(node)
    case None => Err(NodeMissing(id))
  }

  /** The first true condition wins; a failing condition is never read as false. */
  function Select(host: Host, context: ContextMap, branches: seq<Branch>, fallback: Option<Id>): Attempted<Id> {
    if branches == [] then
      (if fallback.Some? then Ok(fallback.value) else Err(NoBranch))
    else
      match host.evaluate(branches[0].when, context)
      case None => Err(ConditionFailed)
      case Some(true) => Ok(branches[0].next)
      case Some(false) => Select(host, context, branches[1..], fallback)
  }

  function Route(host: Host, context: ContextMap, next: Next): Attempted<Id> {
    match next
    case To(target) => Ok(target)
    case Routes(fallback, branches) => Select(host, context, branches, fallback)
  }

  function NodeTask(node: Node, at: Option<int>): Scheduled {
    Scheduled(ProcessNode(node), at, None)
  }

  /** The successor tasks of a completed node or wait: at most one. */
  function Successors(snap: Snapshot, host: Host, context: ContextMap, successor: Option<Next>): Attempted<seq<Scheduled>> {
    if successor.None? then Ok([])
    else
      var target :- Route(host, context, successor.value);
      var node :- Lookup(snap, target);
      Ok([NodeTask(node, None)])
  }

  function TimeoutTasks(job: Job, snap: Snapshot, host: Host, origin: Node, timer: Option<Timer>): Attempted<seq<Scheduled>> {
    if timer.None? then Ok([])
    else
      var _ :- Lookup(snap, timer.value.onTimeout);
      match timer.value.Due(host.now)
      case None => Err(BadTimer)
      case Some(due) => Ok([Scheduled(ProcessEvent(origin, timer.value.onTimeout), Some(due), Some(job.uuid))])
  }

  /** Hide the previous form, announce the visit, and assign the stage. A retry of the
      same queue item continues its visit, so none of this is repeated. */
  function Entered(job: Job, snap: Snapshot, host: Host, target: Node): Attempted<Changes> {
    if snap.visit == Some(job.uuid) then Ok(NO_CHANGES)
    else
      var hooks := snap.definition.hooks;
      var _ :- if snap.current.Some? && snap.current.value.UserTask? then RunHook(hooks.hide, host.hide) else Ok(true);
      var c := NO_CHANGES.(enterNode := Some(target.id), events := [NodeEntered(target.id, job.uuid)]);
      if target.setStage.None? then Ok(c)
      else if !StageDeclared(snap.definition, target.setStage.value.stage) then Err(StageMissing(target.setStage.value.stage))
      else
        var _ :- RunHook(hooks.stage, host.stage);
        Ok(c.(stage := target.setStage, events := c.events + [StageChanged(target.setStage.value.stage)]))
  }

  function Failed(job: Job, snap: Snapshot, host: Host, target: Node, c: Changes): Attempted<Changes>
    requires target.ServiceTask?
  {
    if target.retries.Some? && job.attempts <= target.retries.value.max then
      match target.retries.value.NextAttempt(host.now)
      case None => Err(BadTimer)
      case Some(at) => Ok(c.(retryAt := Some(at)))
    else if target.onError.Some? && target.onError.value.next.Some? then
      var node :- Lookup(snap, target.onError.value.next.value);
      Ok(c.(tasks := c.tasks + [NodeTask(node, None)]))
    else
      Ok(c.(incident := Some(HandlerExhausted)))
  }

  function Served(job: Job, snap: Snapshot, host: Host, target: Node, c: Changes): Attempted<Changes>
    requires target.ServiceTask?
  {
    match host.handler
    case HandlerUncertain => Err(Uncertain)
    case HandlerSucceeded(patch) =>
      var context := Patched(snap.context, patch);
      var tasks :- Successors(snap, host, context, target.successor);
      Ok(c.(context := Some(context), patch := Some(patch), tasks := c.tasks + tasks))
    case HandlerRepeat(at) =>
      Ok(c.(tasks := c.tasks + [NodeTask(target, Some(at))]))
    case HandlerFailed =>
      Failed(job, snap, host, target, c)
  }

  function Handled(job: Job, snap: Snapshot, host: Host, target: Node, c: Changes): Attempted<Changes> {
    match target
    case Start(_, first, _) =>
      var node :- Lookup(snap, first);
      Ok(c.(tasks := c.tasks + [NodeTask(node, None)]))
    case End(_, _) =>
      var _ :- RunHook(snap.definition.hooks.complete, host.complete);
      Ok(c)
    case Gateway(_, _, branches, fallback) =>
      var selected :- Select(host, snap.context, branches, fallback);
      var node :- Lookup(snap, selected);
      Ok(c.(tasks := c.tasks + [NodeTask(node, None)]))
    case Wait(_, _, _, timer, _) =>
      var tasks :- TimeoutTasks(job, snap, host, target, timer);
      Ok(c.(tasks := c.tasks + tasks))
    case UserTask(_, form, _, _, timer, _, _) =>
      var tasks :- TimeoutTasks(job, snap, host, target, timer);
      if !FormDeclared(snap.definition, form) then Err(FormMissing(form))
      else
        var _ :- RunHook(snap.definition.hooks.show, host.show);
        Ok(c.(tasks := c.tasks + tasks))
    case ServiceTask(_, _, _, _, _, _, _) =>
      Served(job, snap, host, target, c)
  }

  function Enter(job: Job, snap: Snapshot, host: Host, target: Node): Attempted<Changes> {
    var c :- Entered(job, snap, host, target);
    Handled(job, snap, host, target, c)
  }

  /** The wait a timeout or a signal is bound to is still the open one. */
  predicate BoundToOpenVisit(snap: Snapshot) {
    snap.taskVisit.Some? && snap.taskVisit == snap.visit && !snap.waitCompleted
  }

  function TimeoutContext(snap: Snapshot, origin: Node, timer: Timer, now: int): ContextMap {
    (snap.context + timer.context)
      ["_last_event" := Text("timeout")]
      ["_timeout_node" := Text(origin.id)]
      ["_timeout_target" := Text(timer.onTimeout)]
      ["_timeout_at" := Stamp(now)]
  }

  function Expire(job: Job, snap: Snapshot, host: Host, origin: Node, onTime: Id): Attempted<Changes> {
    if snap.taskVisit.None? then Err(VisitMissing)
    else if BoundToOpenVisit(snap) && snap.current.Some? && snap.current.value.id == origin.id then
      (match origin.Timeout()
       case None => Err(TimerMissing)
       case Some(timer) =>
         if timer.onTimeout != onTime then Err(TargetDiffers)
         else
           var node :- Lookup(snap, onTime);
           Ok(NO_CHANGES.(closeWait := true,
                          context := Some(TimeoutContext(snap, origin, timer, host.now)),
                          tasks := [NodeTask(node, None)],
                          events := [TimeoutAccepted(job.uuid, snap.taskVisit.value)])))
    else
      Ok(NO_CHANGES)
  }

  function SignalContext(snap: Snapshot, posted: PostSignal): ContextMap {
    (snap.context + posted.context)["_last_signal" := Text(posted.signal)]
  }

  function Deliver(job: Job, snap: Snapshot, host: Host, posted: PostSignal): Attempted<Changes> {
    if snap.current.Some? && snap.current.value.Accepts(posted.signal) && BoundToOpenVisit(snap) then
      var context := SignalContext(snap, posted);
      var tasks :- Successors(snap, host, context, snap.current.value.successor);
      Ok(NO_CHANGES.(closeWait := true, context := Some(context), tasks := tasks,
                     events := [SignalAccepted(job.uuid, posted.eventId, snap.taskVisit.value)]))
    else if snap.taskVisit.Some? || (snap.current.Some? && snap.current.value.End?) then
      Ok(NO_CHANGES)
    else
      match Decide(host.policy, job.createdAt, host.now)
      case Some(retry) => Ok(NO_CHANGES.(retryAt := Some(retry.retryAt)))
      case None => Ok(NO_CHANGES)
  }

  function Attempt(job: Job, snap: Snapshot, host: Host): Attempted<Changes> {
    match job.task
    case ProcessNode(node) =>
      var declared :- Lookup(snap, node.id);
      if node != declared then Err(PayloadDiffers)
      else Enter(job, snap, host, declared)
    case ProcessEvent(origin, onTime) => Expire(job, snap, host, origin, onTime)
    case ProcessSignal(posted) => Deliver(job, snap, host, posted)
  }

  const MAX_PREPARATION_ATTEMPTS := 3
  const PREPARATION_DELAY := 5 * SECOND

  /** A failed preparation keeps none of its proposed effects. */
  function Recovered(job: Job, error: ExecError, now: int): Changes {
    match error
    case Uncertain => NO_CHANGES.(incident := Some(UncertainIncident))
    case ConditionFailed => NO_CHANGES.(incident := Some(ConditionIncident))
    case _ =>
      if job.attempts >= MAX_PREPARATION_ATTEMPTS then NO_CHANGES.(incident := Some(ExecutionExhausted))
      else NO_CHANGES.(retryAt := Some(now + PREPARATION_DELAY))
  }

  function Prepared(job: Job, snap: Snapshot, host: Host): Changes {
    match Attempt(job, snap, host)
    case Ok(changes) => changes
    case Err(error) => Recovered(job, error, host.now)
  }
}
