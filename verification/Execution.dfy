/** The dispatcher as it runs: proposed changes are filled in step by step and thrown
    away when a step fails. Each method is proved against its counterpart in `Dispatch`. */
module Execution {
  import opened Wrappers
  import opened Contexts
  import opened ProcessDefs
  import opened SignalDelivery
  import opened Tasks
  import opened Dispatch
  import opened Outcomes

  /** Database effects prepared without holding a transaction across host calls. */
  class TaskExecutionChanges {
    var enterNode: Option<Id>
    var stage: Option<StageRef>
    var context: Option<ContextMap>
    var patch: Option<Patch>
    var incident: Option<IncidentKind>
    var closeWait: bool
    var tasks: seq<Scheduled>
    var events: seq<Event>
    var retryAt: Option<int>

    constructor ()
      ensures View() == NO_CHANGES
    {
      enterNode, stage, context, patch, incident := None, None, None, None, None;
      closeWait, tasks, events, retryAt := false, [], [], None;
    }

    function View(): Changes
      reads this
    {
      Changes(enterNode, stage, context, patch, incident, closeWait, tasks, events, retryAt)
    }

    method QueueNode(node: Node, at: Option<int>)
      modifies this`tasks
      ensures View() == old(View()).(tasks := old(tasks) + [NodeTask(node, at)])
    {
      tasks := tasks + [Scheduled(ProcessNode(node), at, None)];
    }

    method Record(event: Event)
      modifies this`events
      ensures View() == old(View()).(events := old(events) + [event])
    {
      events := events + [event];
    }
  }

  /** Branches are tried in order and the first true one ends the search. */
  method SelectBranch(host: Host, context: ContextMap, branches: seq<Branch>, fallback: Option<Id>) returns (r: Attempted<Id>)
    ensures r.Ok? ==> Chooses(host, context, branches, fallback, r.value)
    ensures r == Err(ConditionFailed) <==> ConditionBreaks(host, context, branches)
    ensures r == Err(NoBranch) <==> NothingChosen(host, context, branches, fallback)
    ensures r.Err? ==> r.error == ConditionFailed || r.error == NoBranch
    ensures r == Select(host, context, branches, fallback)
  {
    SelectExactly(host, context, branches, fallback);
    var i := 0;
    while i < |branches|
      invariant 0 <= i <= |branches|
      invariant RefutedBefore(host, context, branches, i)
      invariant Select(host, context, branches[i..], fallback) == Select(host, context, branches, fallback)
    {
      match host.evaluate(branches[i].when, context) {
        case None => return Err(ConditionFailed);
        case Some(true) => return Ok(branches[i].next);
        case Some(false) =>
      }
      i := i + 1;
    }
    r := if fallback.Some? then Ok(fallback.value) else Err(NoBranch);
  }

  predicate Added(before: seq<Scheduled>, after: seq<Scheduled>) {
    |before| <= |after| && after[..|before|] == before
  }

  /** What an attempt came to, as a value. */
  function Ending(r: Attempted<bool>, c: Changes): Attempted<Changes> {
    if r.Ok? then Ok(c) else Err(r.error)
  }

  /** Routes are chosen on the context the same changes will store, if they store one. */
  method AddNext(snap: Snapshot, host: Host, changes: TaskExecutionChanges, successor: Option<Next>) returns (r: Attempted<bool>)
    modifies changes`tasks
    ensures var context := if old(changes.context).Some? then old(changes.context).value else snap.context;
            match Successors(snap, host, context, successor)
            case Ok(tasks) => r == Ok(true) && changes.View() == old(changes.View()).(tasks := old(changes.tasks) + tasks)
            case Err(e) => r == Err(e)
    ensures var context := if old(changes.context).Some? then old(changes.context).value else snap.context;
            && (r.Ok? <==> Followable(snap.definition, host, context, successor))
            && (r.Ok? ==> Added(old(changes.tasks), changes.tasks)
                          && Follows(snap.definition, host, context, successor, changes.tasks[|old(changes.tasks)|..]))
            && (r == Err(ConditionFailed) <==> RouteBreaks(host, context, successor))
  {
    SuccessorsMean(snap, host, if changes.context.Some? then changes.context.value else snap.context, successor);
    if successor.Some? {
      var target: Id;
      match successor.value {
        case To(id) => target := id;
        case Routes(fallback, branches) =>
          var context := if changes.context.Some? then changes.context.value else snap.context;
          target :- SelectBranch(host, context, branches, fallback);
      }
      var node :- Lookup(snap, target);
      changes.QueueNode(node, None);
    } else {
      assert changes.tasks + [] == changes.tasks;
    }
    r := Ok(true);
  }

  method AddTimeout(job: Job, snap: Snapshot, host: Host, changes: TaskExecutionChanges, origin: Node, timer: Option<Timer>)
    returns (r: Attempted<bool>)
    modifies changes`tasks
    ensures match TimeoutTasks(job, snap, host, origin, timer)
            case Ok(tasks) => r == Ok(true) && changes.View() == old(changes.View()).(tasks := old(changes.tasks) + tasks)
            case Err(e) => r == Err(e)
    ensures r.Ok? <==> TimerReady(snap.definition, timer)
    ensures r.Ok? ==> Added(old(changes.tasks), changes.tasks)
                      && TimeoutQueued(job, origin, timer, host.now, changes.tasks[|old(changes.tasks)|..])
  {
    if timer.Some? {
      var _ :- Lookup(snap, timer.value.onTimeout);
      var due := timer.value.Due(host.now);
      if due.None? {
        return Err(BadTimer);
      }
      changes.tasks := changes.tasks + [Scheduled(ProcessEvent(origin, timer.value.onTimeout), due, Some(job.uuid))];
    } else {
      assert changes.tasks + [] == changes.tasks;
    }
    r := Ok(true);
  }

  /** Entry hooks run once per visit; a retry of the same item continues its visit. */
  method Announce(job: Job, snap: Snapshot, host: Host, changes: TaskExecutionChanges, target: Node) returns (r: Attempted<bool>)
    requires changes.View() == NO_CHANGES
    modifies changes
    ensures match Entered(job, snap, host, target)
            case Ok(c) => r == Ok(true) && changes.View() == c
            case Err(e) => r == Err(e)
    ensures Judged(Ending(r, changes.View()), EntryPasses(job, snap, host, target), EntryUnsure(job, snap, host, target), false)
    ensures r.Ok? ==> Announced(job, snap, target, changes.View()) && OnlyAnnounces(changes.View())
  {
    EntryMeans(job, snap, host, target);
    var hooks := snap.definition.hooks;
    if snap.visit != Some(job.uuid) {
      if snap.current.Some? && snap.current.value.UserTask? {
        var _ :- RunHook(hooks.hide, host.hide);
      }
      changes.enterNode := Some(target.id);
      changes.Record(NodeEntered(target.id, job.uuid));
      if target.setStage.Some? {
        var stage := target.setStage.value;
        if !StageDeclared(snap.definition, stage.stage) {
          return Err(StageMissing(stage.stage));
        }
        var _ :- RunHook(hooks.stage, host.stage);
        changes.Record(StageChanged(stage.stage));
        changes.stage := Some(stage);
      }
    }
    r := Ok(true);
  }

  method HandleFailure(job: Job, snap: Snapshot, host: Host, changes: TaskExecutionChanges, target: Node) returns (r: Attempted<bool>)
    requires target.ServiceTask?
    modifies changes
    ensures match Failed(job, snap, host, target, old(changes.View()))
            case Ok(c) => r == Ok(true) && changes.View() == c
            case Err(e) => r == Err(e)
    ensures r.Ok? && OnlyAnnounces(old(changes.View())) ==> FailureProposes(job, snap, host, target, changes.View())
  {
    if target.retries.Some? && job.attempts <= target.retries.value.max {
      var at := target.retries.value.NextAttempt(host.now);
      if at.None? {
        return Err(BadTimer);
      }
      changes.retryAt := at;
    } else if target.onError.Some? && target.onError.value.next.Some? {
      var node :- Lookup(snap, target.onError.value.next.value);
      changes.QueueNode(node, None);
    } else {
      changes.incident := Some(HandlerExhausted);
    }
    r := Ok(true);
  }

  method Serve(job: Job, snap: Snapshot, host: Host, changes: TaskExecutionChanges, target: Node) returns (r: Attempted<bool>)
    requires target.ServiceTask?
    modifies changes
    ensures match Served(job, snap, host, target, old(changes.View()))
            case Ok(c) => r == Ok(true) && changes.View() == c
            case Err(e) => r == Err(e)
  {
    match host.handler {
      case HandlerUncertain =>
        r := Err(Uncertain);
      case HandlerSucceeded(patch) =>
        var context := ApplyPatcher(snap.context, patch);
        changes.context := Some(context);
        changes.patch := Some(patch);
        r := AddNext(snap, host, changes, target.successor);
      case HandlerRepeat(at) =>
        changes.QueueNode(target, Some(at));
        r := Ok(true);
      case HandlerFailed =>
        r := HandleFailure(job, snap, host, changes, target);
    }
  }

  method Handle(job: Job, snap: Snapshot, host: Host, changes: TaskExecutionChanges, target: Node) returns (r: Attempted<bool>)
    modifies changes
    ensures match Handled(job, snap, host, target, old(changes.View()))
            case Ok(c) => r == Ok(true) && changes.View() == c
            case Err(e) => r == Err(e)
    ensures OnlyAnnounces(old(changes.View())) ==>
              HandledWell(job, snap, host, target, old(changes.View()), Ending(r, changes.View()))
  {
    if OnlyAnnounces(changes.View()) {
      HandlingMeans(job, snap, host, target, changes.View());
    }
    r := Ok(true);
    match target {
      case Start(_, first, _) =>
        var node :- Lookup(snap, first);
        changes.QueueNode(node, None);
      case End(_, _) =>
        var _ :- RunHook(snap.definition.hooks.complete, host.complete);
      case Gateway(_, _, branches, fallback) =>
        var selected :- SelectBranch(host, snap.context, branches, fallback);
        var node :- Lookup(snap, selected);
        changes.QueueNode(node, None);
      case Wait(_, _, _, timer, _) =>
        r := AddTimeout(job, snap, host, changes, target, timer);
      case UserTask(_, form, _, _, timer, _, _) =>
        var _ :- AddTimeout(job, snap, host, changes, target, timer);
        if !FormDeclared(snap.definition, form) {
          return Err(FormMissing(form));
        }
        var _ :- RunHook(snap.definition.hooks.show, host.show);
      case ServiceTask(_, _, _, _, _, _, _) =>
        r := Serve(job, snap, host, changes, target);
    }
  }

  method ExpireWait(job: Job, snap: Snapshot, host: Host, changes: TaskExecutionChanges, origin: Node, onTime: Id) returns (r: Attempted<bool>)
    requires changes.View() == NO_CHANGES
    modifies changes
    ensures match Expire(job, snap, host, origin, onTime)
            case Ok(c) => r == Ok(true) && changes.View() == c
            case Err(e) => r == Err(e)
    ensures AttemptedWell(job.(task := ProcessEvent(origin, onTime)), snap, host, Ending(r, changes.View()))
  {
    AttemptMeans(job.(task := ProcessEvent(origin, onTime)), snap, host);
    if snap.taskVisit.None? {
      return Err(VisitMissing);
    }
    if BoundToOpenVisit(snap) && snap.current.Some? && snap.current.value.id == origin.id {
      changes.closeWait := true;
      var timer := origin.Timeout();
      if timer.None? {
        return Err(TimerMissing);
      }
      if timer.value.onTimeout != onTime {
        return Err(TargetDiffers);
      }
      var context := snap.context + timer.value.context;
      context := context["_last_event" := Text("timeout")];
      context := context["_timeout_node" := Text(origin.id)];
      context := context["_timeout_target" := Text(onTime)];
      context := context["_timeout_at" := Stamp(host.now)];
      changes.context := Some(context);
      var node :- Lookup(snap, onTime);
      changes.QueueNode(node, None);
      changes.Record(TimeoutAccepted(job.uuid, snap.taskVisit.value));
    }
    r := Ok(true);
  }

  method DeliverSignal(job: Job, snap: Snapshot, host: Host, changes: TaskExecutionChanges, posted: PostSignal) returns (r: Attempted<bool>)
    requires changes.View() == NO_CHANGES
    modifies changes
    ensures match Deliver(job, snap, host, posted)
            case Ok(c) => r == Ok(true) && changes.View() == c
            case Err(e) => r == Err(e)
    ensures AttemptedWell(job.(task := ProcessSignal(posted)), snap, host, Ending(r, changes.View()))
  {
    AttemptMeans(job.(task := ProcessSignal(posted)), snap, host);
    if snap.current.Some? && snap.current.value.Accepts(posted.signal) && BoundToOpenVisit(snap) {
      changes.closeWait := true;
      var context := snap.context + posted.context;
      context := context["_last_signal" := Text(posted.signal)];
      changes.context := Some(context);
      var _ :- AddNext(snap, host, changes, snap.current.value.successor);
      changes.Record(SignalAccepted(job.uuid, posted.eventId, snap.taskVisit.value));
    } else if snap.taskVisit.None? && !(snap.current.Some? && snap.current.value.End?) {
      var retry := Decide(host.policy, job.createdAt, host.now);
      if retry.Some? {
        changes.retryAt := Some(retry.value.retryAt);
      }
    }
    r := Ok(true);
  }

  method EnterNode(job: Job, snap: Snapshot, host: Host, changes: TaskExecutionChanges, node: Node) returns (r: Attempted<bool>)
    requires changes.View() == NO_CHANGES
    modifies changes
    ensures match (var declared :- Lookup(snap, node.id);
                   if node != declared then Err(PayloadDiffers) else Enter(job, snap, host, declared))
            case Ok(c) => r == Ok(true) && changes.View() == c
            case Err(e) => r == Err(e)
  {
    var declared :- Lookup(snap, node.id);
    if node != declared {
      return Err(PayloadDiffers);
    }
    var _ :- Announce(job, snap, host, changes, declared);
    r := Handle(job, snap, host, changes, declared);
  }

  method Dispatched(job: Job, snap: Snapshot, host: Host, changes: TaskExecutionChanges) returns (r: Attempted<bool>)
    requires changes.View() == NO_CHANGES
    modifies changes
    ensures match Attempt(job, snap, host)
            case Ok(c) => r == Ok(true) && changes.View() == c
            case Err(e) => r == Err(e)
    ensures AttemptedWell(job, snap, host, Ending(r, changes.View()))
  {
    AttemptMeans(job, snap, host);
    match job.task {
      case ProcessNode(node) => r := EnterNode(job, snap, host, changes, node);
      case ProcessEvent(origin, onTime) => r := ExpireWait(job, snap, host, changes, origin, onTime);
      case ProcessSignal(posted) => r := DeliverSignal(job, snap, host, changes, posted);
    }
  }

  /** `process` between load and commit: a failed attempt discards every proposed effect
      and proposes an incident or a delayed retry instead. */
  method Process(job: Job, snap: Snapshot, host: Host) returns (changes: TaskExecutionChanges)
    ensures fresh(changes) && changes.View() == Prepared(job, snap, host)
    ensures if Prepares(job, snap, host) then Proposes(job, snap, host, changes.View())
            else FailureAnswered(job, snap, host, changes.View())
  {
    PreparedMeans(job, snap, host);
    changes := new TaskExecutionChanges();
    var r := Dispatched(job, snap, host, changes);
    if r.Err? {
      changes := new TaskExecutionChanges();
      match r.error {
        case Uncertain => changes.incident := Some(UncertainIncident);
        case ConditionFailed => changes.incident := Some(ConditionIncident);
        case _ =>
          if job.attempts >= MAX_PREPARATION_ATTEMPTS {
            changes.incident := Some(ExecutionExhausted);
          } else {
            changes.retryAt := Some(host.now + PREPARATION_DELAY);
          }
      }
    }
  }
}
