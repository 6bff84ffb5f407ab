/** What the tables mean to a worker and to a producer, said without the statements that read and write them. */
module Tables {
  import opened Wrappers
  import opened Contexts
  import opened ProcessDefs
  import opened Tasks
  import opened Outcomes
  import opened Database

  /** The node the instance is at. */
  function NodeHere(db: Db): Option<Node> {
    if db.inst.current.None? then None else FindNode(db.definition, db.inst.current.value)
  }

  /** The node the instance is at is declared. */
  predicate NodeKnown(db: Db) {
    db.inst.current.Some? ==> NodeHere(db).Some?
  }

  /** The instance and one row of its queue, as they are in the tables. */
  function Seen(db: Db, u: Uuid): Snapshot
    requires u in db.queue
  {
    Snapshot(db.inst.revision, db.inst.visit, db.inst.waitCompleted, db.queue[u].visit, db.definition,
             NodeHere(db), db.context)
  }

  function FreshRow(db: Db, task: Task, at: int, visit: Option<Uuid>): QueueRow {
    QueueRow(task, db.clock, at, 0, None, visit, 0)
  }

  predicate AwaitedNow(db: Db, signal: Id) {
    NodeHere(db).Some? && Awaits(NodeHere(db).value, signal)
  }

  /** The requested visit, or else the open visit if its node awaits the signal now. */
  function VisitFor(db: Db, signal: PostSignal): Option<Uuid> {
    if signal.waitVisit.Some? then signal.waitVisit
    else if AwaitedNow(db, signal.signal) then db.inst.visit
    else None
  }

  /** One more row, receipt and history entry for the signal. */
  predicate AdmittedTo(db: Db, d: Db, signal: PostSignal, now: int) {
    d == db.(
      queue := db.queue[db.nextId := FreshRow(db, ProcessSignal(signal), now, VisitFor(db, signal))],
      nextId := db.nextId + 1,
      receipts := if signal.eventId.None? then db.receipts
                  else db.receipts[signal.eventId.value := Receipt(signal.signal, signal.context, signal.waitVisit)],
      log := db.log + [SignalQueued(db.nextId, signal.eventId)])
  }

  /** An event identity of 1 to 256 characters that are not all white space. */
  predicate WellFormedId(id: string) {
    |id| <= 256 && exists i :: 0 <= i < |id| && !IsWhitespace(id[i])
  }

  /** The signal has no identity, or one that is well formed and new. */
  predicate Admissible(db: Db, signal: PostSignal) {
    signal.eventId.None? || (WellFormedId(signal.eventId.value) && signal.eventId.value !in db.receipts)
  }

  /** The signal repeats an admitted one: same identity, signal, payload and requested visit. */
  predicate Repeated(db: Db, signal: PostSignal) {
    && signal.eventId.Some? && WellFormedId(signal.eventId.value) && signal.eventId.value in db.receipts
    && db.receipts[signal.eventId.value] == Receipt(signal.signal, signal.context, signal.waitVisit)
  }

  /** Exactly the admissible signals are admitted and exactly the repeated ones are reported as such. */
  lemma SubmissionTables(db: Db, signal: PostSignal, now: int)
    requires NodeKnown(db)
    ensures var r := SignalPosted(db, signal, now);
      && (r.Ok? && r.value.1 <==> Admissible(db, signal))
      && (r.Ok? && r.value.1 ==> AdmittedTo(db, r.value.0, signal, now))
      && (r.Ok? && !r.value.1 <==> Repeated(db, signal))
      && (r.Ok? && !r.value.1 ==> r.value.0 == db)
  {
    if NodeHere(db).Some? {
      AwaitsMeans(NodeHere(db).value, signal.signal);
    }
  }

  /** The binding after a load: an unbound signal takes the open visit of a node that awaits it. */
  function VisitLoaded(db: Db, row: QueueRow): Option<Uuid> {
    if row.visit.None? && row.task.ProcessSignal? && AwaitedNow(db, row.task.posted.signal) then db.inst.visit
    else row.visit
  }

  lemma LoadTables(db: Db, job: Job)
    requires NodeKnown(db)
    ensures Loaded(db, job).Ok? <==> !db.inst.suspended && Holds(db, job)
    ensures Loaded(db, job).Ok? ==>
      var (d, snap) := Loaded(db, job).value;
      && d == db.(queue := db.queue[job.uuid := db.queue[job.uuid].(visit := VisitLoaded(db, db.queue[job.uuid]))])
      && snap == Seen(d, job.uuid)
  {
    if Holds(db, job) && NodeHere(db).Some? && job.task.ProcessSignal? {
      AwaitsMeans(NodeHere(db).value, job.task.posted.signal);
    }
  }

  // ---- Lookups and startup ----

  /** The first node declared under an ID. */
  predicate FirstNode(nodes: seq<Node>, id: Id, i: int) {
    0 <= i < |nodes| && nodes[i].id == id && forall j :: 0 <= j < i ==> nodes[j].id != id
  }

  /** Of several nodes with one ID every lookup finds the first. */
  lemma FindsFirst(def: ProcessDefinition, id: Id)
    ensures FindNode(def, id).Some? ==> exists i :: FirstNode(def.nodes, id, i) && FindNode(def, id) == Some(def.nodes[i])
    ensures FindNode(def, id).None? ==> forall i :: !FirstNode(def.nodes, id, i)
  {
    FindsFirstIn(def.nodes, id);
  }

  lemma {:induction false} FindsFirstIn(nodes: seq<Node>, id: Id)
    ensures FindIn(nodes, id).Some? ==> exists i :: FirstNode(nodes, id, i) && FindIn(nodes, id) == Some(nodes[i])
  {
    if nodes != [] {
      if nodes[0].id == id {
        assert FirstNode(nodes, id, 0);
      } else if FindIn(nodes[1..], id).Some? {
        FindsFirstIn(nodes[1..], id);
        var i :| FirstNode(nodes[1..], id, i) && FindIn(nodes[1..], id) == Some(nodes[1..][i]);
        assert FirstNode(nodes, id, i + 1) by {
          forall j | 0 <= j < i + 1 ensures nodes[j].id != id {
            assert j > 0 ==> nodes[1..][j - 1] == nodes[j];
          }
        }
      }
    }
  }

  predicate FirstStartAt(nodes: seq<Node>, i: int) {
    0 <= i < |nodes| && nodes[i].Start? && forall j :: 0 <= j < i ==> !nodes[j].Start?
  }

  predicate FirstInitialAt(stages: seq<Stage>, i: int) {
    0 <= i < |stages| && stages[i].initial && forall j :: 0 <= j < i ==> !stages[j].initial
  }

  /** The tables of a fresh instance: at no node, in the first initial stage, with the supplied context, and with one
      row, for the first Start node, due now. */
  ghost predicate JustStarted(def: ProcessDefinition, context: ContextMap, clock: int, now: int, d: Db) {
    exists i, j :: FirstStartAt(def.nodes, i) && FirstInitialAt(def.stages, j)
      && d == Db(clock, 1, def, Instance(false, 0, None, None, false, None, Some(StageRef(def.stages[j].id, None))), context,
                 map[0 := QueueRow(ProcessNode(def.nodes[i]), clock, now, 0, None, None, 0)], map[], map[], [])
  }

  predicate Startable(def: ProcessDefinition) {
    (exists n :: n in def.nodes && n.Start?) && (exists x :: x in def.stages && x.initial)
  }

  lemma {:induction false} StartAt(nodes: seq<Node>)
    ensures if FirstStart(nodes).Some? then exists i :: FirstStartAt(nodes, i) && FirstStart(nodes) == Some(nodes[i])
            else forall n :: n in nodes ==> !n.Start?
  {
    if nodes != [] {
      if nodes[0].Start? {
        assert FirstStartAt(nodes, 0);
      } else {
        StartAt(nodes[1..]);
        if FirstStart(nodes[1..]).Some? {
          var i :| FirstStartAt(nodes[1..], i) && FirstStart(nodes[1..]) == Some(nodes[1..][i]);
          assert FirstStartAt(nodes, i + 1) by {
            forall j | 0 <= j < i + 1 ensures !nodes[j].Start? {
              assert j > 0 ==> nodes[1..][j - 1] == nodes[j];
            }
          }
        }
      }
    }
  }

  lemma {:induction false} InitialAt(stages: seq<Stage>)
    ensures if FirstInitial(stages).Some? then exists i :: FirstInitialAt(stages, i) && FirstInitial(stages) == Some(stages[i])
            else forall x :: x in stages ==> !x.initial
  {
    if stages != [] {
      if stages[0].initial {
        assert FirstInitialAt(stages, 0);
      } else {
        InitialAt(stages[1..]);
        if FirstInitial(stages[1..]).Some? {
          var i :| FirstInitialAt(stages[1..], i) && FirstInitial(stages[1..]) == Some(stages[1..][i]);
          assert FirstInitialAt(stages, i + 1) by {
            forall j | 0 <= j < i + 1 ensures !stages[j].initial {
              assert j > 0 ==> stages[1..][j - 1] == stages[j];
            }
          }
        }
      }
    }
  }

  lemma StartTables(def: ProcessDefinition, context: ContextMap, clock: int, now: int)
    ensures Started(def, context, clock, now).Ok? <==> Startable(def)
    ensures Started(def, context, clock, now).Ok? ==>
              JustStarted(def, context, clock, now, Started(def, context, clock, now).value)
  {
    StartAt(def.nodes);
    InitialAt(def.stages);
  }
}
