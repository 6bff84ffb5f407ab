/** Planning a repair from a table of definitions and applying the reviewed plan to it. */
module LegacyApply {
  import opened Wrappers
  import opened Orders
  import opened LegacyVersions
  import opened LegacyGuarantees
  import opened LegacyRepair

  datatype Plan = Plan(formatVersion: nat, database: string, observedAt: int, originalRows: seq<Row>,
                       changes: seq<Change>)

  datatype Outcome = Applied(changed: nat) | AlreadyApplied

  // ---- Rewriting a list of rows ----

  predicate Rewritable(rows: seq<Row>, changes: seq<Change>) {
    forall i :: 0 <= i < |rows| ==> Passes(rows[i], changes)
  }

  function RewrittenAll(rows: seq<Row>, changes: seq<Change>): seq<Row> {
    seq(|rows|, i requires 0 <= i < |rows| => Rewritten(rows[i], changes))
  }

  /** The first `n` rows pass and are rewritten in `result`; the others are still as they were. */
  ghost predicate RewrittenUpTo(rows: seq<Row>, changes: seq<Change>, result: seq<Row>, n: nat) {
    && |result| == |rows|
    && forall k :: 0 <= k < |rows| ==> if k < n then Passes(rows[k], changes) && result[k] == Rewritten(rows[k], changes)
                                       else result[k] == rows[k]
  }

  predicate Passes(row: Row, changes: seq<Change>) {
    FindChange(changes, row.uuid).Some? ==> Consistent(row)
  }

  method RepairedRows(rows: seq<Row>, changes: seq<Change>) returns (r: Result<seq<Row>, Failure>)
    ensures r.Ok? <==> Rewritable(rows, changes)
    ensures r.Ok? ==> r.value == RewrittenAll(rows, changes)
  {
    var result := rows;
    for i := 0 to |rows|
      invariant RewrittenUpTo(rows, changes, result, i)
    {
      var change := FindChange(changes, rows[i].uuid);
      if change.None? {
        continue;
      }
      if !Consistent(rows[i]) {
        return Err(InconsistentSource);
      }
      result := result[i := Renumbered(rows[i], change.value.newVersion)];
    }
    r := Ok(result);
  }

  // ---- Snapshots ----

  function UuidOrder(): (Row, Row) -> bool {
    (a: Row, b: Row) => a.uuid < b.uuid
  }

  ghost function ByUuid(rows: set<Row>): (q: seq<Row>)
    requires Identified(rows)
    ensures Elements(q) == rows && Strict(q, UuidOrder()) && DistinctUuids(q)
  {
    var q := Arranged(rows, UuidOrder());
    assert forall i, j :: 0 <= i < j < |q| ==> UuidOrder()(q[i], q[j]);
    q
  }

  lemma ByUuidIs(rows: set<Row>, q: seq<Row>)
    requires Identified(rows) && Elements(q) == rows && Strict(q, UuidOrder())
    ensures q == ByUuid(rows)
  {
    StrictUnique(q, ByUuid(rows), rows, UuidOrder());
  }

  ghost function OfKeys(rows: set<Row>, originals: seq<Row>): set<Row> {
    set r | r in rows && exists o :: o in originals && o.key == r.key
  }

  ghost predicate Ambiguous(rows: set<Row>, key: string) {
    exists a, b :: a in rows && b in rows && a != b && a.key == key && LabelOf(a) == LabelOf(b)
  }

  /** All definitions of the keys that have a duplicate version. */
  ghost function Affected(rows: set<Row>): set<Row> {
    set r | r in rows && Ambiguous(rows, r.key)
  }

  lemma KeysSelect(rows: set<Row>, originals: seq<Row>, keys: set<string>)
    requires keys == set o | o in originals :: o.key
    ensures (set r | r in rows && r.key in keys) == OfKeys(rows, originals)
  {
  }

  // ---- What applying a plan does ----

  ghost predicate Genuine(plan: Plan) {
    && plan.formatVersion == 1 && Repairable(plan.originalRows)
    && plan.changes == Planned(Elements(plan.originalRows), plan.observedAt)
    && Rewritable(plan.originalRows, plan.changes)
  }

  /** The outcome and the rows left behind, or nothing when the plan is refused. */
  ghost function Effect(rows: set<Row>, plan: Plan, database: string, now: int): Option<(Outcome, set<Row>)>
    requires Identified(rows)
  {
    if !Genuine(plan) || database != plan.database then None
    else Settlement(rows, plan.originalRows, plan.changes, now)
  }

  ghost function Settlement(rows: set<Row>, originals: seq<Row>, changes: seq<Change>, now: int)
    : Option<(Outcome, set<Row>)>
    requires Identified(rows)
  {
    var current := ByUuid(OfKeys(rows, originals));
    if changes == [] then Confirmed(rows)
    else match StandingOf(current, originals, RewrittenAll(originals, changes))
      case AsPlanned => Confirmed(rows)
      case Other => None
      case AsPreviewed =>
        if Planned(Elements(originals), now) == changes && Unambiguous(AfterRepair(rows, changes))
        then Some((Applied(|changes|), AfterRepair(rows, changes))) else None
  }

  ghost function Confirmed(rows: set<Row>): Option<(Outcome, set<Row>)> {
    if Unambiguous(rows) then Some((AlreadyApplied, rows)) else None
  }

  datatype Standing = AsPlanned | AsPreviewed | Other

  function StandingOf(current: seq<Row>, originals: seq<Row>, expected: seq<Row>): Standing {
    if current == expected then AsPlanned else if current == originals then AsPreviewed else Other
  }

  lemma RewrittenIdentity(rows: set<Row>, changes: seq<Change>)
    requires Identified(rows)
    ensures Identified(AfterRepair(rows, changes))
    ensures forall r :: r in rows ==> Rewritten(r, changes).uuid == r.uuid && Rewritten(r, changes).key == r.key
  {
  }

  lemma RewrittenSnapshot(rows: set<Row>, changes: seq<Change>)
    requires Identified(rows)
    ensures Identified(AfterRepair(rows, changes))
    ensures ByUuid(AfterRepair(rows, changes)) == RewrittenAll(ByUuid(rows), changes)
  {
    RewrittenIdentity(rows, changes);
    var q := ByUuid(rows);
    var p := RewrittenAll(q, changes);
    forall i, j | 0 <= i < j < |p| ensures UuidOrder()(p[i], p[j]) {
      assert UuidOrder()(q[i], q[j]);
    }
    forall x ensures x in p <==> x in AfterRepair(rows, changes) {
      if x in AfterRepair(rows, changes) {
        var r :| r in rows && Rewritten(r, changes) == x;
        assert r in Elements(q);
        var i :| 0 <= i < |q| && q[i] == r;
        assert p[i] == x;
      }
      if x in p {
        var i :| 0 <= i < |p| && p[i] == x;
        assert q[i] in Elements(q);
      }
    }
    ByUuidIs(AfterRepair(rows, changes), p);
  }

  lemma KeysSurvive(rows: set<Row>, changes: seq<Change>, originals: seq<Row>)
    requires Identified(rows)
    ensures OfKeys(AfterRepair(rows, changes), originals) == AfterRepair(OfKeys(rows, originals), changes)
  {
    RewrittenIdentity(rows, changes);
  }

  /** Applying a plan again, at any later time, finds its own result and changes nothing. */
  lemma ApplyTwice(rows: set<Row>, plan: Plan, database: string, now: int, later: int)
    requires Identified(rows) && Effect(rows, plan, database, now).Some?
    ensures var after := Effect(rows, plan, database, now).value.1;
      Identified(after) && Unambiguous(after)
      && Effect(after, plan, database, later) == Some((AlreadyApplied, after))
  {
    var (outcome, after) := Effect(rows, plan, database, now).value;
    if outcome.Applied? {
      RewrittenIdentity(rows, plan.changes);
      KeysSurvive(rows, plan.changes, plan.originalRows);
      RewrittenSnapshot(OfKeys(rows, plan.originalRows), plan.changes);
    }
  }

  lemma OthersUntouched(rows: set<Row>, planned: set<Row>, at: int, r: Row)
    requires Identified(rows) && planned <= rows && r in rows && r !in planned
    ensures Rewritten(r, Planned(planned, at)) == r
  {
    var changes, q := Planned(planned, at), SurplusList(planned, at);
    forall c | c in changes ensures c.uuid != r.uuid {
      var i :| 0 <= i < |changes| && changes[i] == c;
      assert q[i] in q;
    }
  }

  /** An applied plan renumbers the surplus rows of its own snapshot and leaves every other row as it was. */
  lemma ApplyTouchesSurplusOnly(rows: set<Row>, plan: Plan, database: string, now: int, r: Row)
    requires Identified(rows) && Effect(rows, plan, database, now).Some? && r in rows
    requires Effect(rows, plan, database, now).value.0.Applied?
    ensures var surplus := Surplus(Elements(plan.originalRows), plan.observedAt);
      Rewritten(r, plan.changes) == r <==> r !in surplus
    ensures SameButVersion(Rewritten(r, plan.changes), r)
  {
    var original := Elements(plan.originalRows);
    assert original == OfKeys(rows, plan.originalRows);
    if r in original {
      RepairTouchesVersionsOnly(original, plan.observedAt, r);
    } else {
      OthersUntouched(rows, original, plan.observedAt, r);
    }
  }

  /** A key of the plan is repaired as a table of its own rows would be; any other key is left alone. */
  lemma CandidatesOfKey(rows: set<Row>, planned: set<Row>, at: int, key: string, version: string, now: int)
    requires Identified(rows) && planned <= rows
    requires forall r, o :: r in rows && o in planned && r.key == o.key ==> r in planned
    ensures var changes := Planned(planned, at);
      if OfKey(planned, key) == {}
      then Candidates(AfterRepair(rows, changes), key, Some(version), now) == Candidates(rows, key, Some(version), now)
      else Candidates(AfterRepair(rows, changes), key, Some(version), now)
           == Candidates(AfterRepair(planned, changes), key, Some(version), now)
           && Candidates(rows, key, Some(version), now) == Candidates(planned, key, Some(version), now)
  {
    var changes := Planned(planned, at);
    RewrittenIdentity(rows, changes);
    forall r | r in rows && r !in planned ensures Rewritten(r, changes) == r {
      OthersUntouched(rows, planned, at, r);
    }
    if OfKey(planned, key) != {} {
      var o :| o in OfKey(planned, key);
      assert forall r :: r in rows && r.key == key ==> r in planned;
    } else {
      assert forall r :: r in planned && r.key == key ==> r in OfKey(planned, key);
    }
  }

  lemma RecheckedSelectionKept(rows: set<Row>, planned: set<Row>, now: int, key: string, version: string)
    requires Identified(rows) && planned <= rows && HasRoom(planned) && Parsable(planned)
    requires forall r, o :: r in rows && o in planned && r.key == o.key ==> r in planned
    requires Group(rows, (key, version)) != {} && Untied(rows, (key, version), now)
    ensures SameSelection(rows, AfterRepair(rows, Planned(planned, now)), key, version, now)
  {
    CandidatesOfKey(rows, planned, now, key, version, now);
    if OfKey(planned, key) != {} {
      SameGroup(rows, planned, key, version);
      ExplicitSelectionKept(planned, now, key, version, now);
      SelectionByCandidates(rows, planned, key, version, now);
      SelectionByCandidates(AfterRepair(rows, Planned(planned, now)), AfterRepair(planned, Planned(planned, now)),
                            key, version, now);
    } else {
      SelectionByCandidates(rows, AfterRepair(rows, Planned(planned, now)), key, version, now);
    }
  }

  lemma SelectionByCandidates(a: set<Row>, b: set<Row>, key: string, version: string, now: int)
    requires Candidates(a, key, Some(version), now) == Candidates(b, key, Some(version), now)
    ensures SameSelection(a, b, key, version, now)
  {
  }

  /** When a plan is applied, no untied selection of an existing version changes at that moment, in any key: the apply
      step checks the choice of retained members again at its own time. */
  lemma AppliedSelectionKept(rows: set<Row>, plan: Plan, database: string, now: int, key: string, version: string)
    requires Identified(rows) && Effect(rows, plan, database, now).Some?
    requires Group(rows, (key, version)) != {} && Untied(rows, (key, version), now)
    ensures SameSelection(rows, Effect(rows, plan, database, now).value.1, key, version, now)
  {
    if Effect(rows, plan, database, now).value.0.Applied? {
      AppliedSnapshot(rows, plan, database, now);
      RecheckedSelectionKept(rows, Elements(plan.originalRows), now, key, version);
    }
  }

  lemma AppliedSnapshot(rows: set<Row>, plan: Plan, database: string, now: int)
    requires Identified(rows) && Effect(rows, plan, database, now).Some?
    requires Effect(rows, plan, database, now).value.0.Applied?
    ensures var planned := Elements(plan.originalRows);
      && planned <= rows && HasRoom(planned) && Parsable(planned)
      && (forall r, o :: r in rows && o in planned && r.key == o.key ==> r in planned)
      && Effect(rows, plan, database, now).value.1 == AfterRepair(rows, Planned(planned, now))
  {
    assert Elements(plan.originalRows) == OfKeys(rows, plan.originalRows);
    assert forall r :: r in Elements(plan.originalRows) ==> r in plan.originalRows;
  }

  lemma SameGroup(rows: set<Row>, planned: set<Row>, key: string, version: string)
    requires planned <= rows && OfKey(planned, key) != {}
    requires forall r, o :: r in rows && o in planned && r.key == o.key ==> r in planned
    ensures Group(planned, (key, version)) == Group(rows, (key, version))
  {
    var o :| o in OfKey(planned, key);
  }

  /** The affected rows can be numbered and their sources agree with them. */
  ghost predicate Plannable(rows: set<Row>, at: int)
    requires Identified(rows)
  {
    Repairable(ByUuid(Affected(rows))) && Rewritable(ByUuid(Affected(rows)), Planned(Affected(rows), at))
  }

  ghost function PlanOf(rows: set<Row>, database: string, at: int): (plan: Plan)
    requires Identified(rows) && Plannable(rows, at)
    ensures Genuine(plan)
  {
    Plan(1, database, at, ByUuid(Affected(rows)), Planned(Affected(rows), at))
  }

  lemma AffectedKeys(rows: set<Row>)
    requires Identified(rows)
    ensures OfKeys(rows, ByUuid(Affected(rows))) == Affected(rows)
  {
    var q := ByUuid(Affected(rows));
    forall r ensures r in OfKeys(rows, q) <==> r in Affected(rows) {
      if r in OfKeys(rows, q) {
        var o :| o in q && o.key == r.key;
        assert o in Elements(q);
      }
      if r in Affected(rows) {
        assert r in Elements(q);
      }
    }
  }

  /** Repairing the affected keys removes every duplicate of the table. */
  lemma AffectedSuffice(rows: set<Row>, at: int)
    requires Identified(rows) && HasRoom(Affected(rows)) && Parsable(Affected(rows))
    ensures Unambiguous(AfterRepair(rows, Planned(Affected(rows), at)))
  {
    var hit := Affected(rows);
    var changes := Planned(hit, at);
    forall a, b | a in rows && b in rows && LabelOf(Rewritten(a, changes)) == LabelOf(Rewritten(b, changes))
      ensures a == b
    {
      assert a.key == b.key;
      if a in hit {
        Distinguished(hit, at, a, b);
      } else {
        OthersUntouched(rows, hit, at, a);
        OthersUntouched(rows, hit, at, b);
        assert a == b || !Ambiguous(rows, a.key);
      }
    }
  }

  lemma SomeRowMoves(rows: set<Row>, at: int)
    requires Identified(rows) && HasRoom(rows) && Planned(rows, at) != []
    ensures RewrittenAll(ByUuid(rows), Planned(rows, at)) != ByUuid(rows)
  {
    var q := SurplusList(rows, at);
    assert q[0] in q;
    assert q[0] in Elements(ByUuid(rows));
    var i :| 0 <= i < |ByUuid(rows)| && ByUuid(rows)[i] == q[0];
    RepairTouchesVersionsOnly(rows, at, q[0]);
    assert RewrittenAll(ByUuid(rows), Planned(rows, at))[i] != q[0];
  }

  lemma AffectedAmbiguity(rows: set<Row>)
    requires Identified(rows)
    ensures Unambiguous(Affected(rows)) <==> Unambiguous(rows)
  {
    forall a, b | a in rows && b in rows && LabelOf(a) == LabelOf(b) && a != b
      ensures a in Affected(rows) && b in Affected(rows)
    {
      assert Ambiguous(rows, a.key);
    }
  }

  lemma NothingToDo(rows: set<Row>)
    ensures AfterRepair(rows, []) == rows
  {
  }

  /** A fresh plan applied while the same members are still preferred succeeds and removes every duplicate. */
  lemma PlanThenApply(rows: set<Row>, database: string, at: int, now: int)
    requires Identified(rows) && Plannable(rows, at) && Planned(Affected(rows), now) == Planned(Affected(rows), at)
    ensures var plan := PlanOf(rows, database, at);
      var after := AfterRepair(rows, plan.changes);
      && Unambiguous(after)
      && (plan.changes == [] <==> Unambiguous(rows))
      && Effect(rows, plan, database, now)
         == Some((if plan.changes == [] then AlreadyApplied else Applied(|plan.changes|), after))
  {
    AffectedAmbiguity(rows);
    UnambiguousNeedsNothing(Affected(rows), at);
    FreshSettlement(rows, at, now);
  }

  lemma FreshSettlement(rows: set<Row>, at: int, now: int)
    requires Identified(rows) && Plannable(rows, at) && Planned(Affected(rows), now) == Planned(Affected(rows), at)
    ensures var changes := Planned(Affected(rows), at);
      var after := AfterRepair(rows, changes);
      && Unambiguous(after)
      && Settlement(rows, ByUuid(Affected(rows)), changes, now)
         == Some((if changes == [] then AlreadyApplied else Applied(|changes|), after))
  {
    AffectedKeys(rows);
    AffectedSuffice(rows, at);
    NothingToDo(rows);
    var originals, changes := ByUuid(Affected(rows)), Planned(Affected(rows), at);
    if changes != [] {
      SomeRowMoves(Affected(rows), at);
      SettlesFresh(rows, originals, changes, now);
    }
  }

  lemma SettlesFresh(rows: set<Row>, originals: seq<Row>, changes: seq<Change>, now: int)
    requires Identified(rows) && changes != [] && ByUuid(OfKeys(rows, originals)) == originals
    requires RewrittenAll(originals, changes) != originals && Unambiguous(AfterRepair(rows, changes))
    requires Identified(Elements(originals)) && Planned(Elements(originals), now) == changes
    ensures Settlement(rows, originals, changes, now) == Some((Applied(|changes|), AfterRepair(rows, changes)))
  {
  }

  // ---- Which plans are accepted ----

  /** The plan is of this format and database, and says what planning said of its own rows, whose sources agree with
      them wherever they change. */
  ghost predicate Reviewed(plan: Plan, database: string) {
    && plan.formatVersion == 1 && database == plan.database
    && DistinctUuids(plan.originalRows) && AllParse(plan.originalRows) && HasRoom(Elements(plan.originalRows))
    && plan.changes == Planned(Elements(plan.originalRows), plan.observedAt)
    && forall i :: 0 <= i < |plan.originalRows| && (exists c :: c in plan.changes && c.uuid == plan.originalRows[i].uuid)
         ==> Consistent(plan.originalRows[i])
  }

  lemma ReviewedMeans(plan: Plan, database: string)
    ensures Reviewed(plan, database) <==> Genuine(plan) && database == plan.database
  {
    if Repairable(plan.originalRows) {
      forall i | 0 <= i < |plan.originalRows|
        ensures FindChange(plan.changes, plan.originalRows[i].uuid).Some?
          <==> exists c :: c in plan.changes && c.uuid == plan.originalRows[i].uuid
      {
      }
    }
  }

  lemma ListedInOrder(rows: set<Row>, q: seq<Row>)
    requires Identified(rows)
    ensures ByUuid(rows) == q <==> Strict(q, UuidOrder()) && rows == Elements(q)
  {
    if Strict(q, UuidOrder()) && rows == Elements(q) {
      ByUuidIs(rows, q);
    }
  }

  lemma RewrittenOrder(q: seq<Row>, changes: seq<Change>)
    ensures Strict(RewrittenAll(q, changes), UuidOrder()) <==> Strict(q, UuidOrder())
    ensures Elements(RewrittenAll(q, changes)) == AfterRepair(Elements(q), changes)
  {
    var p := RewrittenAll(q, changes);
    if Strict(p, UuidOrder()) {
      forall i, j | 0 <= i < j < |q| ensures UuidOrder()(q[i], q[j]) {
        assert UuidOrder()(p[i], p[j]);
      }
    }
    if Strict(q, UuidOrder()) {
      forall i, j | 0 <= i < j < |q| ensures UuidOrder()(p[i], p[j]) {
        assert UuidOrder()(q[i], q[j]);
      }
    }
    forall x ensures x in Elements(p) <==> x in AfterRepair(Elements(q), changes) {
      if x in Elements(p) {
        var i :| 0 <= i < |p| && p[i] == x;
        assert q[i] in Elements(q);
      }
      if x in AfterRepair(Elements(q), changes) {
        var r :| r in Elements(q) && Rewritten(r, changes) == x;
        var i :| 0 <= i < |q| && q[i] == r;
        assert p[i] == x;
      }
    }
  }

  /** What the table holds of the plan's keys. */
  ghost predicate Holding(rows: set<Row>, originals: seq<Row>, expected: set<Row>) {
    Strict(originals, UuidOrder()) && OfKeys(rows, originals) == expected
  }

  lemma StandingMeans(rows: set<Row>, originals: seq<Row>, changes: seq<Change>)
    requires Identified(rows)
    ensures var current := ByUuid(OfKeys(rows, originals));
      && (current == originals <==> Holding(rows, originals, Elements(originals)))
      && (current == RewrittenAll(originals, changes) <==> Holding(rows, originals, AfterRepair(Elements(originals), changes)))
  {
    ListedInOrder(OfKeys(rows, originals), originals);
    ListedInOrder(OfKeys(rows, originals), RewrittenAll(originals, changes));
    RewrittenOrder(originals, changes);
  }

  /** Which plans are accepted and to what end. A reviewed plan without changes, or whose result the table already holds,
      is confirmed as long as the table has no duplicate. One whose original rows the table still holds is applied if
      the same members are retained now and no duplicate remains. Any other plan is refused. */
  lemma ApplyDecides(rows: set<Row>, plan: Plan, database: string, now: int)
    requires Identified(rows)
    ensures var originals, after := Elements(plan.originalRows), AfterRepair(rows, plan.changes);
      Effect(rows, plan, database, now)
      == if !Reviewed(plan, database) then None
         else if plan.changes == [] || Holding(rows, plan.originalRows, AfterRepair(originals, plan.changes)) then
           if Unambiguous(rows) then Some((AlreadyApplied, rows)) else None
         else if Holding(rows, plan.originalRows, originals) && Planned(originals, now) == plan.changes && Unambiguous(after)
         then Some((Applied(|plan.changes|), after))
         else None
  {
    ReviewedMeans(plan, database);
    StandingMeans(rows, plan.originalRows, plan.changes);
  }

  // ---- Updating row by row ----

  /** What the first `i + 1` changes say of an identity, from what the first `i` say. */
  lemma {:induction false} FindInPrefix(changes: seq<Change>, i: nat, uuid: nat)
    requires i < |changes|
    ensures var before := FindChange(changes[..i], uuid);
      FindChange(changes[..i + 1], uuid)
      == if before.Some? then before else if changes[i].uuid == uuid then Some(changes[i]) else None
  {
    if i > 0 {
      FindInPrefix(changes[1..], i - 1, uuid);
      assert changes[..i][1..] == changes[1..][..i - 1] && changes[..i + 1][1..] == changes[1..][..i];
    } else {
      assert changes[..1] == [changes[0]];
    }
  }

  function FindRow(rows: seq<Row>, uuid: nat): (r: Option<Row>)
    ensures r.Some? ==> r.value in rows && r.value.uuid == uuid
    ensures r.None? <==> forall x :: x in rows ==> x.uuid != uuid
  {
    if rows == [] then None
    else if rows[0].uuid == uuid then Some(rows[0])
    else FindRow(rows[1..], uuid)
  }

  /** Each change of a genuine plan is the only one for one of the plan's rows. */
  lemma ChangedRow(plan: Plan, i: nat) returns (o: Row)
    requires Genuine(plan) && i < |plan.changes|
    ensures o in plan.originalRows && o.uuid == plan.changes[i].uuid
    ensures forall j :: 0 <= j < |plan.changes| && j != i ==> plan.changes[j].uuid != o.uuid
  {
    var all, at := Elements(plan.originalRows), plan.observedAt;
    var q := SurplusList(all, at);
    o := q[i];
    assert o in q;
    SurplusDistinct(all, at);
    forall j | 0 <= j < |q| && j != i ensures q[j].uuid != o.uuid {
      assert q[j] in q;
    }
  }

  lemma ExpectedRow(originals: seq<Row>, changes: seq<Change>, o: Row)
    requires DistinctUuids(originals) && o in originals
    ensures FindRow(RewrittenAll(originals, changes), o.uuid) == Some(Rewritten(o, changes))
  {
    var expected := RewrittenAll(originals, changes);
    var k :| 0 <= k < |originals| && originals[k] == o;
    assert expected[k] in expected && expected[k].uuid == o.uuid;
    var found := FindRow(expected, o.uuid).value;
    var j :| 0 <= j < |expected| && expected[j] == found;
    assert originals[j].uuid == originals[k].uuid;
  }

  ghost function RowsOf(table: map<nat, Row>): set<Row> {
    set u | u in table :: table[u]
  }

  /** `after` holds the rows of `before`, rewritten as the changes say. */
  ghost predicate RewrittenTo(before: map<nat, Row>, after: map<nat, Row>, changes: seq<Change>) {
    && before.Keys == after.Keys
    && forall u :: u in before ==> before[u].uuid == u && after[u] == Rewritten(before[u], changes)
  }

  lemma UpdateOne(before: map<nat, Row>, after: map<nat, Row>, changes: seq<Change>, i: nat, o: Row)
    requires i < |changes| && RewrittenTo(before, after, changes[..i])
    requires o.uuid == changes[i].uuid && o.uuid in before && before[o.uuid] == o
    requires forall j :: 0 <= j < |changes| && j != i ==> changes[j].uuid != o.uuid
    ensures after[o.uuid] == o && Rewritten(o, changes) == Renumbered(o, changes[i].newVersion)
    ensures RewrittenTo(before, after[o.uuid := Rewritten(o, changes)], changes[..i + 1])
  {
    FindDistinct(changes, i);
    forall u | u in before ensures var x := FindChange(changes[..i], u);
        FindChange(changes[..i + 1], u) == if x.Some? then x else if u == o.uuid then Some(changes[i]) else None
    {
      FindInPrefix(changes, i, u);
    }
    assert FindChange(changes[..i], o.uuid).None?;
  }

  lemma AllRewritten(before: map<nat, Row>, after: map<nat, Row>, changes: seq<Change>)
    requires RewrittenTo(before, after, changes)
    ensures RowsOf(after) == AfterRepair(RowsOf(before), changes)
  {
    forall u | u in before ensures before[u] in RowsOf(before) {
    }
  }

  /** The checks made on a plan before the database is looked at. */
  method Review(plan: Plan) returns (r: Result<seq<Row>, Failure>)
    ensures r.Ok? <==> Genuine(plan)
    ensures r.Ok? ==> r.value == RewrittenAll(plan.originalRows, plan.changes)
  {
    if plan.formatVersion != 1 {
      return Err(UnknownFormat);
    }
    var computed := Assignments(plan.originalRows, plan.observedAt);
    if computed.Err? {
      return Err(computed.error);
    }
    if computed.value != plan.changes {
      return Err(ModifiedPlan);
    }
    r := RepairedRows(plan.originalRows, plan.changes);
  }

  // ---- The table ----

  class DefinitionTable {
    const database: string
    var rows: map<nat, Row>

    ghost predicate Valid()
      reads this
    {
      forall u :: u in rows ==> rows[u].uuid == u
    }

    ghost function Contents(): (all: set<Row>)
      reads this
      requires Valid()
      ensures Identified(all)
    {
      RowsOf(rows)
    }

    method HasDuplicates() returns (found: bool)
      requires Valid()
      ensures found <==> !Unambiguous(Contents())
    {
      found := exists a, b | a in rows && b in rows :: a != b && LabelOf(rows[a]) == LabelOf(rows[b]);
    }

    /** The rows of the given keys, in identity order. */
    method Snapshot(keys: set<string>) returns (q: seq<Row>)
      requires Valid()
      ensures q == ByUuid(set r | r in Contents() && r.key in keys)
    {
      var wanted := set u | u in rows && rows[u].key in keys :: rows[u];
      assert wanted == set r | r in Contents() && r.key in keys;
      q := SortSet(wanted, UuidOrder());
    }

    method PlanLegacyVersions(at: int) returns (r: Result<Plan, Failure>)
      requires Valid()
      ensures r.Ok? <==> Plannable(Contents(), at)
      ensures r.Ok? ==> r.value == PlanOf(Contents(), database, at)
    {
      var keys := set a, b | a in rows && b in rows && a != b && LabelOf(rows[a]) == LabelOf(rows[b]) :: rows[a].key;
      var original := Snapshot(keys);
      assert (set x | x in Contents() && x.key in keys) == Affected(Contents());
      var changes := Assignments(original, at);
      if changes.Err? {
        return Err(changes.error);
      }
      var rewritten := RepairedRows(original, changes.value);
      if rewritten.Err? {
        return Err(rewritten.error);
      }
      r := Ok(Plan(1, database, at, original, changes.value));
    }

    method ApplyLegacyVersionPlan(plan: Plan, now: int) returns (r: Result<Outcome, Failure>)
      requires Valid()
      modifies this
      ensures Valid()
      ensures r.Ok? <==> Effect(old(Contents()), plan, database, now).Some?
      ensures r.Ok? ==> Effect(old(Contents()), plan, database, now) == Some((r.value, Contents()))
      ensures r.Err? ==> Contents() == old(Contents())
    {
      var expected :- Review(plan);
      if database != plan.database {
        return Err(OtherDatabase);
      }
      if plan.changes == [] {
        r := Confirm();
      } else {
        r := Settle(plan, expected, now);
      }
    }

    /** The part of applying a plan that runs under the table lock. */
    method Settle(plan: Plan, expected: seq<Row>, now: int) returns (r: Result<Outcome, Failure>)
      requires Valid() && Genuine(plan) && plan.changes != []
      requires expected == RewrittenAll(plan.originalRows, plan.changes)
      modifies this
      ensures Valid()
      ensures var s := Settlement(old(Contents()), plan.originalRows, plan.changes, now);
        if r.Ok? then s == Some((r.value, Contents())) else s.None? && Contents() == old(Contents())
    {
      var standing := Compare(plan.originalRows, expected);
      match standing
      case AsPlanned => r := Confirm();
      case Other => r := Err(Stale);
      case AsPreviewed => r := Overwrite(plan, expected, now);
    }

    /** How the current rows of the plan's keys compare with the expected and the original ones. */
    method Compare(originals: seq<Row>, expected: seq<Row>) returns (standing: Standing)
      requires Valid()
      ensures standing == StandingOf(ByUuid(OfKeys(Contents(), originals)), originals, expected)
      ensures standing == AsPreviewed ==> forall r :: r in originals ==> r in Contents()
    {
      var keys := set o | o in originals :: o.key;
      KeysSelect(Contents(), originals, keys);
      var current := Snapshot(keys);
      assert forall x :: x in current ==> x in Elements(current);
      standing := StandingOf(current, originals, expected);
    }

    /** The planned result is already in place: only duplicates of other keys can be wrong. */
    method Confirm() returns (r: Result<Outcome, Failure>)
      requires Valid()
      ensures r.Ok? <==> Unambiguous(Contents())
      ensures r.Ok? ==> r.value == AlreadyApplied
    {
      var found := HasDuplicates();
      r := if found then Err(DuplicatesExist) else Ok(AlreadyApplied);
    }

    /** The original rows are in place: the choice of retained members is checked again at `now`. */
    method Overwrite(plan: Plan, expected: seq<Row>, now: int) returns (r: Result<Outcome, Failure>)
      requires Valid() && Genuine(plan) && expected == RewrittenAll(plan.originalRows, plan.changes)
      requires forall r :: r in plan.originalRows ==> r in Contents()
      modifies this
      ensures Valid()
      ensures r.Ok? <==> Planned(Elements(plan.originalRows), now) == plan.changes
                         && Unambiguous(AfterRepair(old(Contents()), plan.changes))
      ensures r.Ok? ==> r.value == Applied(|plan.changes|)
      ensures Contents() == if r.Ok? then AfterRepair(old(Contents()), plan.changes) else old(Contents())
    {
      var again := Assignments(plan.originalRows, now);
      if again.Err? || again.value != plan.changes {
        return Err(EligibilityChanged);
      }
      var kept := UpdateOrRollBack(plan, expected);
      r := if kept then Ok(Applied(|plan.changes|)) else Err(DuplicatesExist);
    }

    /** All updates together, undone when the table still holds duplicates. */
    method UpdateOrRollBack(plan: Plan, expected: seq<Row>) returns (kept: bool)
      requires Valid() && Genuine(plan) && expected == RewrittenAll(plan.originalRows, plan.changes)
      requires forall r :: r in plan.originalRows ==> r in Contents()
      modifies this
      ensures Valid()
      ensures kept <==> Unambiguous(AfterRepair(old(Contents()), plan.changes))
      ensures Contents() == if kept then AfterRepair(old(Contents()), plan.changes) else old(Contents())
    {
      var before := rows;
      UpdateRows(plan, expected);
      var found := HasDuplicates();
      if found {
        rows := before;
      }
      kept := !found;
    }

    /** One update statement per change, taking the rewritten fields from the expected rows. */
    method UpdateRows(plan: Plan, expected: seq<Row>)
      requires Valid() && Genuine(plan) && expected == RewrittenAll(plan.originalRows, plan.changes)
      requires forall r :: r in plan.originalRows ==> r in Contents()
      modifies this
      ensures Valid() && Contents() == AfterRepair(old(Contents()), plan.changes)
    {
      for i := 0 to |plan.changes|
        invariant RewrittenTo(old(rows), rows, plan.changes[..i])
      {
        var change := plan.changes[i];
        ghost var o := ChangedRow(plan, i);
        ExpectedRow(plan.originalRows, plan.changes, o);
        UpdateOne(old(rows), rows, plan.changes, i, o);
        var row := FindRow(expected, change.uuid).value;
        rows := rows[change.uuid := rows[change.uuid].(version := change.newVersion, definition := row.definition,
                                                       source := row.source)];
      }
      assert plan.changes[..|plan.changes|] == plan.changes;
      AllRewritten(old(rows), rows, plan.changes);
    }
  }
}
