/** The maintenance operations that plan and apply a version repair. */
module LegacyRepair {
  import opened Wrappers
  import opened VersionIds
  import opened Orders
  import opened LegacyVersions
  import opened LegacyGuarantees

  datatype Failure = RepeatedUuid | InvalidVersion | NoFreeVersion | InconsistentSource
                   | UnknownFormat | ModifiedPlan | OtherDatabase | Stale | EligibilityChanged | DuplicatesExist

  // ---- Collecting groups and maxima ----

  predicate DistinctUuids(rows: seq<Row>) {
    forall i, j :: 0 <= i < j < |rows| ==> rows[i].uuid != rows[j].uuid
  }

  predicate AllParse(rows: seq<Row>) {
    forall i :: 0 <= i < |rows| ==> Parse(rows[i].version).Some?
  }

  /** The first `n` rows have distinct identities, collected in `identities`. */
  ghost predicate Distinct(rows: seq<Row>, n: nat, identities: set<nat>)
    requires n <= |rows|
  {
    && (forall i, j :: 0 <= i < j < n ==> rows[i].uuid != rows[j].uuid)
    && (forall i :: 0 <= i < n ==> rows[i].uuid in identities)
    && (forall u :: u in identities ==> exists i :: 0 <= i < n && rows[i].uuid == u)
  }

  lemma DistinctGrows(rows: seq<Row>, n: nat, identities: set<nat>)
    requires n < |rows| && Distinct(rows, n, identities)
    ensures rows[n].uuid in identities ==> !DistinctUuids(rows)
    ensures rows[n].uuid !in identities ==> Distinct(rows, n + 1, identities + {rows[n].uuid})
    ensures rows[n].uuid !in identities ==> forall i :: 0 <= i < n ==> rows[i].uuid != rows[n].uuid
  {
  }

  lemma ElementsGrow(rows: seq<Row>, n: nat)
    requires n < |rows|
    ensures Elements(rows[..n + 1]) == Elements(rows[..n]) + {rows[n]}
  {
    assert rows[..n + 1] == rows[..n] + [rows[n]];
  }

  ghost predicate Grouped(all: set<Row>, groups: map<Label, seq<Row>>) {
    && (forall r :: r in all ==> LabelOf(r) in groups)
    && (forall id :: id in groups ==> groups[id] != [] && Elements(groups[id]) == Group(all, id))
  }

  ghost predicate Maximal(all: set<Row>, maxima: map<string, VersionId>) {
    && (forall r :: r in all ==> r.key in maxima)
    && (forall key :: key in maxima ==> Tops(OfKey(all, key), Num(maxima[key])))
  }

  lemma GroupedGrows(all: set<Row>, groups: map<Label, seq<Row>>, r: Row, members: seq<Row>)
    requires Grouped(all, groups) && r !in all
    requires members == (if LabelOf(r) in groups then groups[LabelOf(r)] else []) + [r]
    ensures Grouped(all + {r}, groups[LabelOf(r) := members])
  {
    var id := LabelOf(r);
    var before := if id in groups then groups[id] else [];
    assert Elements(before) == Group(all, id);
    assert Elements(members) == Elements(before) + {r};
    forall other | other in groups && other != id ensures Group(all + {r}, other) == Group(all, other) {
    }
    assert Group(all + {r}, id) == Group(all, id) + {r};
  }

  lemma MaximalGrows(all: set<Row>, maxima: map<string, VersionId>, r: Row, best: VersionId)
    requires Maximal(all, maxima)
    requires Num(best) == if r.key in maxima && Num(maxima[r.key]) > NumOf(r) then Num(maxima[r.key]) else NumOf(r)
    ensures Maximal(all + {r}, maxima[r.key := best])
  {
    KeyGrows(all, r);
    if r.key in maxima {
      TopGrows(OfKey(all, r.key), Num(maxima[r.key]), r);
    } else {
      assert OfKey(all, r.key) == {};
      TopGrows({}, 0, r);
    }
  }

  lemma KeyGrows(all: set<Row>, r: Row)
    ensures OfKey(all + {r}, r.key) == OfKey(all, r.key) + {r}
    ensures forall other :: other != r.key ==> OfKey(all + {r}, other) == OfKey(all, other)
  {
  }

  lemma TopGrows(rows: set<Row>, n: nat, r: Row)
    requires if rows == {} then n == 0 else Tops(rows, n)
    ensures Tops(rows + {r}, if n > NumOf(r) then n else NumOf(r))
  {
    assert r in rows + {r};
    if rows != {} {
      var top :| top in rows && NumOf(top) == n;
      assert top in rows + {r};
    }
  }

  /** The groups and maxima of the first `n` rows. */
  ghost predicate Gathered(rows: seq<Row>, n: nat, groups: map<Label, seq<Row>>, maxima: map<string, VersionId>)
    requires n <= |rows|
  {
    Grouped(Elements(rows[..n]), groups) && Maximal(Elements(rows[..n]), maxima)
  }

  lemma CollectsOne(rows: seq<Row>, n: nat, groups: map<Label, seq<Row>>, maxima: map<string, VersionId>,
                    members: seq<Row>, v: VersionId, best: VersionId)
    requires n < |rows| && Gathered(rows, n, groups, maxima)
    requires forall i :: 0 <= i < n ==> rows[i].uuid != rows[n].uuid
    requires Parse(rows[n].version) == Some(v)
    requires members == (if LabelOf(rows[n]) in groups then groups[LabelOf(rows[n])] else []) + [rows[n]]
    requires best == if rows[n].key in maxima && Compare(v, maxima[rows[n].key]) < 0 then maxima[rows[n].key] else v
    ensures Gathered(rows, n + 1, groups[LabelOf(rows[n]) := members], maxima[rows[n].key := best])
  {
    ElementsGrow(rows, n);
    assert rows[n] !in Elements(rows[..n]);
    GroupedGrows(Elements(rows[..n]), groups, rows[n], members);
    if rows[n].key in maxima {
      CompareIsNumeric(v, maxima[rows[n].key]);
    }
    MaximalGrows(Elements(rows[..n]), maxima, rows[n], best);
  }

  method Collect(rows: seq<Row>)
    returns (failure: Option<Failure>, groups: map<Label, seq<Row>>, maxima: map<string, VersionId>)
    ensures failure.None? <==> DistinctUuids(rows) && AllParse(rows)
    ensures failure.None? ==> Gathered(rows, |rows|, groups, maxima)
  {
    failure, groups, maxima := None, map[], map[];
    var identities: set<nat> := {};
    for n := 0 to |rows|
      invariant Distinct(rows, n, identities)
      invariant forall i :: 0 <= i < n ==> Parse(rows[i].version).Some?
      invariant Gathered(rows, n, groups, maxima)
    {
      var row := rows[n];
      DistinctGrows(rows, n, identities);
      if row.uuid in identities {
        failure := Some(RepeatedUuid);
        return;
      }
      identities := identities + {row.uuid};
      var version := Parse(row.version);
      if version.None? {
        failure := Some(InvalidVersion);
        return;
      }
      var best := version.value;
      if row.key in maxima && Compare(best, maxima[row.key]) < 0 {
        best := maxima[row.key];
      }
      var members := (if LabelOf(row) in groups then groups[LabelOf(row)] else []) + [row];
      CollectsOne(rows, n, groups, maxima, members, version.value, best);
      maxima := maxima[row.key := best];
      groups := groups[LabelOf(row) := members];
    }
  }

  // ---- Assigning versions ----

  /** What the assignment loop has established after handing out versions to the rows `done`. */
  ghost predicate Progress(all: set<Row>, at: int, done: seq<Row>, maxima: map<string, VersionId>,
                           changes: seq<Change>)
    requires Identified(all)
  {
    && (forall x :: x in done ==> x in Surplus(all, at)) && Strict(done, Listing(at))
    && (forall r :: r in all ==> r.key in maxima)
    && (forall key :: key in maxima ==> Num(maxima[key]) == Highest(all, key) + |Taken(done, key)|)
    && changes == Listed(all, done, at)
  }

  lemma Advance(all: set<Row>, at: int, done: seq<Row>, maxima: map<string, VersionId>, changes: seq<Change>,
                x: Row, next: VersionId)
    requires Identified(all) && Progress(all, at, done, maxima, changes)
    requires x in Surplus(all, at) && forall y :: y in done ==> Listing(at)(y, x) && y != x
    requires Num(next) == Num(maxima[x.key]) + 1
    ensures Progress(all, at, done + [x], maxima[x.key := next], changes + [ChangeFor(all, done, x, at)])
    ensures ChangeFor(all, done, x, at).newVersion == Print(next)
  {
    AdvanceCounts(all, done, maxima, x, next);
    ListedGrows(all, done, x, at);
    StrictGrows(done, x, Listing(at));
    ReservedIs(all, done, x, at, next);
  }

  lemma ReservedIs(all: set<Row>, done: seq<Row>, x: Row, at: int, next: VersionId)
    requires Identified(all) && x in all && Reserved(all, done, x) == Num(next)
    ensures ChangeFor(all, done, x, at).newVersion == Print(next)
  {
    NumFromNum(Num(next));
    CompareIsNumeric(FromNum(Num(next)), next);
  }

  lemma StrictGrows<T>(q: seq<T>, x: T, less: (T, T) -> bool)
    requires Strict(q, less) && forall y :: y in q ==> less(y, x)
    ensures Strict(q + [x], less)
  {
  }

  lemma AdvanceCounts(all: set<Row>, done: seq<Row>, maxima: map<string, VersionId>, x: Row, next: VersionId)
    requires x !in done && x.key in maxima && Num(next) == Num(maxima[x.key]) + 1
    requires forall key :: key in maxima ==> Num(maxima[key]) == Highest(all, key) + |Taken(done, key)|
    ensures var m := maxima[x.key := next];
      forall key :: key in m ==> Num(m[key]) == Highest(all, key) + |Taken(done + [x], key)|
  {
    assert Taken(done + [x], x.key) == Taken(done, x.key) + {x};
    forall other | other != x.key ensures Taken(done + [x], other) == Taken(done, other) {
    }
  }

  /** When a key runs out of numbers in the middle of the loop, it had no room to begin with. */
  lemma RanOut(all: set<Row>, at: int, done: seq<Row>, maxima: map<string, VersionId>, changes: seq<Change>, x: Row)
    requires Identified(all) && Progress(all, at, done, maxima, changes)
    requires x in Surplus(all, at) && x !in done && Num(maxima[x.key]) + 1 >= U96
    ensures !HasRoom(all)
  {
    var key := x.key;
    assert Taken(done, key) + {x} <= OfKey(Surplus(all, at), key);
    Smaller(Taken(done, key) + {x}, OfKey(Surplus(all, at), key));
    SurplusCount(all, key, at);
    assert x in OfKey(all, key);
  }

  lemma Finished(all: set<Row>, at: int, done: seq<Row>, maxima: map<string, VersionId>, changes: seq<Change>)
    requires Identified(all) && Progress(all, at, done, maxima, changes) && Elements(done) == Surplus(all, at)
    ensures changes == Planned(all, at) && HasRoom(all)
  {
    ListingTotal(Surplus(all, at), at);
    StrictUnique(done, SurplusList(all, at), Surplus(all, at), Listing(at));
    forall key | OfKey(all, key) != {}
      ensures Highest(all, key) + |OfKey(all, key)| - |Versions(all, key)| < U96
    {
      var r :| r in OfKey(all, key);
      assert Taken(done, key) == OfKey(Surplus(all, at), key) by {
        forall x ensures x in done <==> x in Elements(done) {
        }
      }
      SurplusCount(all, key, at);
    }
  }

  ghost function SurplusIn(all: set<Row>, at: int, id: Label): set<Row> {
    set r | r in Surplus(all, at) && LabelOf(r) == id
  }

  /** In a sorted group the first row is retained and the others are surplus. */
  lemma SortedGroup(all: set<Row>, at: int, id: Label, q: seq<Row>)
    requires Identified(all) && Group(all, id) != {} && TotalOn(Group(all, id), Ranking(at))
    requires q == Arranged(Group(all, id), Ranking(at))
    ensures q != [] && q[0] == Retained(all, id, at) && q[0] !in Elements(q[1..])
    ensures Elements(q[1..]) == SurplusIn(all, at, id)
    ensures forall i, j :: 0 <= i < j < |q| ==> Ahead(q[i], q[j], at) && q[i] != q[j]
  {
    FirstLeads(Group(all, id), at);
    StrictTail(q, Ranking(at));
    forall i, j | 0 <= i < j < |q| ensures Ahead(q[i], q[j], at) && q[i] != q[j] {
      assert Ranking(at)(q[i], q[j]);
    }
    assert SurplusIn(all, at, id) == Group(all, id) - {q[0]};
  }

  lemma Follows(all: set<Row>, at: int, id: Label, done: seq<Row>, sorted: seq<Row>, k: nat)
    requires 1 <= k < |sorted| && Elements(sorted) == Group(all, id)
    requires forall y :: y in done ==> LabelLess(LabelOf(y), id)
    requires forall i, j :: 0 <= i < j < |sorted| ==> Ahead(sorted[i], sorted[j], at) && sorted[i] != sorted[j]
    ensures forall y :: y in done + sorted[1..k] ==> Listing(at)(y, sorted[k]) && y != sorted[k]
  {
    assert sorted[k] in Elements(sorted);
    LabelTotal(id, id);
    forall y | y in sorted[1..k] ensures Listing(at)(y, sorted[k]) && y != sorted[k] {
      var i :| 1 <= i < k && sorted[i] == y;
      assert y in Elements(sorted);
    }
  }

  lemma SliceGrows<T>(done: seq<T>, sorted: seq<T>, k: nat)
    requires 1 <= k < |sorted|
    ensures done + sorted[1..k + 1] == done + sorted[1..k] + [sorted[k]]
  {
  }

  lemma SliceElements<T>(done: seq<T>, sorted: seq<T>)
    requires sorted != []
    ensures Elements(done + sorted[1..|sorted|]) == Elements(done) + Elements(sorted[1..])
    ensures done + sorted[1..1] == done
  {
    assert sorted[1..|sorted|] == sorted[1..];
  }

  /** One turn of the group loop: the successor of the key's maximum goes to the next surplus row. */
  lemma AssignOne(all: set<Row>, at: int, id: Label, done: seq<Row>, sorted: seq<Row>, k: nat,
                  maxima: map<string, VersionId>, changes: seq<Change>)
    requires Identified(all) && Group(all, id) != {} && TotalOn(Group(all, id), Ranking(at))
    requires sorted == Arranged(Group(all, id), Ranking(at)) && 1 <= k < |sorted|
    requires forall y :: y in done ==> LabelLess(LabelOf(y), id)
    requires Progress(all, at, done + sorted[1..k], maxima, changes)
    ensures sorted[k].key in maxima
    ensures var next := Successor(maxima[sorted[k].key]);
      if next.None? then !HasRoom(all)
      else
        var c := Change(sorted[k].uuid, sorted[k].key, sorted[k].version, Print(next.value), sorted[0].uuid);
        Progress(all, at, done + sorted[1..k + 1], maxima[sorted[k].key := next.value], changes + [c])
  {
    var row := sorted[k];
    var so := done + sorted[1..k];
    SortedGroup(all, at, id, sorted);
    assert row in SurplusIn(all, at, id) by {
      assert sorted[1..][k - 1] == row;
    }
    assert row in all && LabelOf(row) == id;
    Follows(all, at, id, done, sorted, k);
    var next := Successor(maxima[row.key]);
    SuccessorAddsOne(maxima[row.key]);
    if next.None? {
      RanOut(all, at, so, maxima, changes, row);
    } else {
      SliceGrows(done, sorted, k);
      Advance(all, at, so, maxima, changes, row, next.value);
    }
  }

  method AssignGroup(ghost all: set<Row>, at: int, ghost id: Label, group: seq<Row>, ghost done: seq<Row>,
                     maxima: map<string, VersionId>, changes: seq<Change>)
    returns (fits: bool, maxima': map<string, VersionId>, changes': seq<Change>, ghost done': seq<Row>)
    requires Identified(all) && Progress(all, at, done, maxima, changes)
    requires Group(all, id) != {} && Elements(group) == Group(all, id)
    requires forall y :: y in done ==> LabelLess(LabelOf(y), id)
    ensures fits ==> Progress(all, at, done', maxima', changes')
    ensures fits ==> Elements(done') == Elements(done) + SurplusIn(all, at, id)
    ensures !fits ==> !HasRoom(all)
  {
    maxima', changes', done' := maxima, changes, done;
    RankingTotal(Group(all, id), at);
    var sorted := SortSet(Elements(group), Ranking(at));
    SortedGroup(all, at, id, sorted);
    SliceElements(done, sorted);
    for k := 1 to |sorted|
      invariant Progress(all, at, done', maxima', changes')
      invariant done' == done + sorted[1..k]
    {
      var row := sorted[k];
      AssignOne(all, at, id, done, sorted, k, maxima', changes');
      var next := Successor(maxima'[row.key]);
      if next.None? {
        fits := false;
        return;
      }
      done' := done + sorted[1..k + 1];
      maxima' := maxima'[row.key := next.value];
      changes' := changes' + [Change(row.uuid, row.key, row.version, Print(next.value), sorted[0].uuid)];
    }
    fits := true;
  }

  lemma Earlier(done: seq<Row>, order: seq<Label>, g: nat)
    requires g < |order| && Strict(order, LabelOrder())
    requires forall y :: y in Elements(done) ==> LabelOf(y) in order[..g]
    ensures forall y :: y in done ==> LabelLess(LabelOf(y), order[g])
  {
    forall y | y in done ensures LabelLess(LabelOf(y), order[g]) {
      assert y in Elements(done);
      var i :| 0 <= i < g && order[i] == LabelOf(y);
      assert LabelOrder()(order[i], order[g]);
    }
  }

  lemma StartsEmpty(all: set<Row>, at: int, maxima: map<string, VersionId>)
    requires Identified(all) && Maximal(all, maxima)
    ensures Progress(all, at, [], maxima, [])
  {
    forall key | key in maxima ensures Num(maxima[key]) == Highest(all, key) + |Taken([], key)| {
      HighestIs(all, key, Num(maxima[key]));
      NothingTaken(key);
    }
    NothingListed(all, at);
  }

  lemma NothingTaken(key: string)
    ensures |Taken([], key)| == 0
  {
    assert Taken([], key) == {};
  }

  lemma NothingListed(all: set<Row>, at: int)
    requires Identified(all)
    ensures Listed(all, [], at) == [] && Strict<Row>([], Listing(at))
  {
  }

  ghost function SurplusUpTo(all: set<Row>, at: int, order: seq<Label>, g: nat): set<Row>
    requires g <= |order|
  {
    set r | r in Surplus(all, at) && LabelOf(r) in order[..g]
  }

  lemma UpToNext(all: set<Row>, at: int, order: seq<Label>, g: nat)
    requires g < |order|
    ensures SurplusUpTo(all, at, order, g + 1) == SurplusUpTo(all, at, order, g) + SurplusIn(all, at, order[g])
  {
    assert order[..g + 1] == order[..g] + [order[g]];
  }

  lemma AllCovered(all: set<Row>, at: int, groups: map<Label, seq<Row>>, order: seq<Label>)
    requires Grouped(all, groups) && Elements(order) == groups.Keys
    ensures SurplusUpTo(all, at, order, |order|) == Surplus(all, at)
  {
    forall r | r in Surplus(all, at) ensures LabelOf(r) in order[..|order|] {
      assert order[..|order|] == order && LabelOf(r) in Elements(order);
    }
  }

  lemma LonelyGroup(all: set<Row>, at: int, id: Label, group: seq<Row>)
    requires |group| == 1 && Elements(group) == Group(all, id)
    ensures SurplusIn(all, at, id) == {}
  {
    forall a, b | a in Group(all, id) && b in Group(all, id) ensures a == b {
      assert a in Elements(group) && b in Elements(group);
    }
    forall r | r in SurplusIn(all, at, id) ensures r in Group(all, id) {
    }
    forall b | b in all && LabelOf(b) == id ensures b in Group(all, id) {
    }
  }

  ghost predicate Repairable(rows: seq<Row>) {
    DistinctUuids(rows) && AllParse(rows) && HasRoom(Elements(rows))
  }

  method Assignments(rows: seq<Row>, at: int) returns (r: Result<seq<Change>, Failure>)
    ensures r.Ok? <==> Repairable(rows)
    ensures r.Ok? ==> r.value == Planned(Elements(rows), at)
  {
    var failure, groups, maxima := Collect(rows);
    if failure.Some? {
      return Err(failure.value);
    }
    ghost var all := Elements(rows);
    assert rows[..|rows|] == rows;
    LabelsOrdered(groups.Keys);
    var order := SortSet(groups.Keys, LabelOrder());
    var changes: seq<Change> := [];
    ghost var done: seq<Row> := [];
    StartsEmpty(all, at, maxima);
    for g := 0 to |order|
      invariant Progress(all, at, done, maxima, changes)
      invariant Elements(done) == SurplusUpTo(all, at, order, g)
    {
      var id := order[g];
      assert id in Elements(order);
      var group := groups[id];
      UpToNext(all, at, order, g);
      if |group| < 2 {
        LonelyGroup(all, at, id, group);
        continue;
      }
      Earlier(done, order, g);
      assert group[0] in Elements(group);
      var fits;
      fits, maxima, changes, done := AssignGroup(all, at, id, group, done, maxima, changes);
      if !fits {
        return Err(NoFreeVersion);
      }
    }
    AllCovered(all, at, groups, order);
    Finished(all, at, done, maxima, changes);
    r := Ok(changes);
  }
}
