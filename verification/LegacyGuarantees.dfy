/** What a version repair achieves: distinct versions, idempotence, untouched fields and stable selection. */
module LegacyGuarantees {
  import opened Wrappers
  import opened VersionIds
  import opened LegacyVersions

  // ---- Rewriting rows ----

  function FindChange(changes: seq<Change>, uuid: nat): (c: Option<Change>)
    ensures c.Some? ==> c.value in changes && c.value.uuid == uuid
    ensures c.None? <==> forall x :: x in changes ==> x.uuid != uuid
  {
    if changes == [] then None
    else if changes[0].uuid == uuid then Some(changes[0])
    else FindChange(changes[1..], uuid)
  }

  /** The JSON and YAML of a row name the row's own key and version. */
  predicate Consistent(r: Row) {
    && r.definition.isObject && r.definition.key == Some(r.key) && SameVersion(r.definition.version, r)
    && match r.source
       case None => true
       case Some(Mapping(key, version, _)) => key == Some(r.key) && SameVersion(version, r)
       case Some(_) => false
  }

  predicate SameVersion(text: Option<string>, r: Row) {
    text.Some? && Parse(text.value).Some? && Parse(text.value) == Parse(r.version)
  }

  function Renumbered(r: Row, version: string): Row {
    r.(version := version, definition := r.definition.(version := Some(version)),
       source := match r.source
                 case Some(Mapping(key, _, body)) => Some(Mapping(key, Some(version), body))
                 case other => other)
  }

  function Rewritten(r: Row, changes: seq<Change>): Row {
    match FindChange(changes, r.uuid)
    case None => r
    case Some(c) => Renumbered(r, c.newVersion)
  }

  ghost function AfterRepair(rows: set<Row>, changes: seq<Change>): set<Row> {
    set r | r in rows :: Rewritten(r, changes)
  }

  /** Everything but the version fields. */
  predicate SameButVersion(a: Row, b: Row) {
    && Renumbered(a, b.version) == Renumbered(b, b.version)
  }

  // ---- Finding a row's change in the plan ----

  lemma {:induction false} FindDistinct(changes: seq<Change>, i: nat)
    requires i < |changes| && forall j :: 0 <= j < i ==> changes[j].uuid != changes[i].uuid
    ensures FindChange(changes, changes[i].uuid) == Some(changes[i])
  {
    if i > 0 {
      FindDistinct(changes[1..], i - 1);
    }
  }

  /** A surplus row has exactly its own change, carrying the number reserved at its place in the list. */
  lemma ChangeOf(rows: set<Row>, at: int, r: Row) returns (i: nat)
    requires Identified(rows) && r in Surplus(rows, at)
    ensures i < |SurplusList(rows, at)| && SurplusList(rows, at)[i] == r
    ensures FindChange(Planned(rows, at), r.uuid) == Some(ChangeFor(rows, SurplusList(rows, at)[..i], r, at))
  {
    var q := SurplusList(rows, at);
    var plan := Planned(rows, at);
    assert r in q;
    i :| 0 <= i < |q| && q[i] == r;
    SurplusDistinct(rows, at);
    forall j | 0 <= j < i ensures plan[j].uuid != plan[i].uuid {
      assert q[j] in q;
    }
    FindDistinct(plan, i);
  }

  lemma SurplusDistinct(rows: set<Row>, at: int)
    requires Identified(rows)
    ensures var q := SurplusList(rows, at); forall i, j :: 0 <= i < j < |q| ==> q[i] != q[j]
  {
    var q := SurplusList(rows, at);
    ListingTotal(rows, at);
    forall i, j | 0 <= i < j < |q| ensures q[i] != q[j] {
      assert q[i] in q;
      assert Listing(at)(q[i], q[j]);
    }
  }

  lemma KeptUnchanged(rows: set<Row>, at: int, r: Row)
    requires Identified(rows) && r in rows && r !in Surplus(rows, at)
    ensures Rewritten(r, Planned(rows, at)) == r
  {
    var plan := Planned(rows, at);
    forall c | c in plan ensures c.uuid != r.uuid {
      var i :| 0 <= i < |plan| && plan[i] == c;
      assert SurplusList(rows, at)[i] in SurplusList(rows, at);
    }
  }

  /** The plan gives `r` the normalized text of `n`, a number above every version its key had. */
  ghost predicate Moved(rows: set<Row>, at: int, r: Row, n: nat)
    requires Identified(rows)
  {
    && n < U96 && Num(FromNum(n)) == n && Parse(Print(FromNum(n))) == Some(FromNum(n))
    && Rewritten(r, Planned(rows, at)) == Renumbered(r, Print(FromNum(n)))
    && forall x :: x in OfKey(rows, r.key) ==> NumOf(x) < n
  }

  /** A surplus row's new version is the normalized text of a number above every version its key had. */
  lemma NewVersion(rows: set<Row>, at: int, r: Row) returns (i: nat)
    requires Identified(rows) && HasRoom(rows) && r in Surplus(rows, at)
    ensures i < |SurplusList(rows, at)| && SurplusList(rows, at)[i] == r
    ensures Moved(rows, at, r, Reserved(rows, SurplusList(rows, at)[..i], r))
  {
    i := ChangeOf(rows, at, r);
    var q := SurplusList(rows, at);
    RoomAt(rows, at, q, i);
    var n := Reserved(rows, q[..i], r);
    NumFromNum(n);
    ParsePrint(FromNum(n));
    assert r in OfKey(rows, r.key);
  }

  lemma RoomAt(rows: set<Row>, at: int, q: seq<Row>, i: nat)
    requires Identified(rows) && HasRoom(rows) && q == SurplusList(rows, at) && i < |q|
    ensures Reserved(rows, q[..i], q[i]) < U96
  {
    var r := q[i];
    var before := Taken(q[..i], r.key);
    assert r in q && r in OfKey(rows, r.key);
    SurplusDistinct(rows, at);
    assert r !in before;
    assert before + {r} <= OfKey(Surplus(rows, at), r.key) by {
      forall x | x in before ensures x in q {
      }
    }
    Smaller(before + {r}, OfKey(Surplus(rows, at), r.key));
    SurplusCount(rows, r.key, at);
  }

  lemma {:induction false} Smaller<T>(a: set<T>, b: set<T>)
    requires a <= b
    ensures |a| <= |b|
  {
    if a != {} {
      var x :| x in a;
      Smaller(a - {x}, b - {x});
    }
  }

  /** Within a key, a later row in the list is given a larger number. */
  lemma LaterIsLarger(rows: set<Row>, at: int, i: nat, j: nat)
    requires Identified(rows)
    requires var q := SurplusList(rows, at); i < j < |q| && q[i].key == q[j].key
    ensures var q := SurplusList(rows, at); Reserved(rows, q[..i], q[i]) < Reserved(rows, q[..j], q[j])
  {
    var q := SurplusList(rows, at);
    var early, late := Taken(q[..i], q[i].key), Taken(q[..j], q[j].key);
    SurplusDistinct(rows, at);
    assert q[i] !in early;
    assert q[..j][i] == q[i];
    forall x | x in early ensures x in late {
      var k :| 0 <= k < i && q[k] == x;
      assert q[..j][k] == x;
    }
    assert early + {q[i]} <= late;
    Smaller(early + {q[i]}, late);
  }

  /** Eligible members come before others, then the higher index, then the later creation, then the larger identity. */
  predicate Preferred(a: Row, b: Row, at: int) {
    if a.Eligible(at) != b.Eligible(at) then a.Eligible(at)
    else || a.index > b.index
         || (a.index == b.index && a.createdAt > b.createdAt)
         || (a.index == b.index && a.createdAt == b.createdAt && a.uuid > b.uuid)
  }

  /** The retained member is the one preferred to every other member of its group. */
  lemma RetainedIsPreferred(rows: set<Row>, id: Label, at: int, r: Row)
    requires Identified(rows) && Group(rows, id) != {} && r in Group(rows, id)
    ensures r == Retained(rows, id, at) <==> forall b :: b in Group(rows, id) && b != r ==> Preferred(r, b, at)
  {
    var kept := Retained(rows, id, at);
    if r != kept {
      assert Ahead(kept, r, at) && !Preferred(r, kept, at);
    }
  }

  /** Within a key, the smaller version text is renumbered first, and of one text the preferred member. */
  lemma NumbersFollowOrder(rows: set<Row>, at: int, a: Row, b: Row)
    requires Identified(rows) && HasRoom(rows) && a in Surplus(rows, at) && b in Surplus(rows, at) && a.key == b.key
    requires TextLess(a.version, b.version) || (a.version == b.version && Preferred(a, b, at))
    ensures NumOf(Rewritten(a, Planned(rows, at))) < NumOf(Rewritten(b, Planned(rows, at)))
  {
    var i := NewVersion(rows, at, a);
    var j := NewVersion(rows, at, b);
    InOrder(rows, at, i, j);
    LaterIsLarger(rows, at, i, j);
  }

  lemma InOrder(rows: set<Row>, at: int, i: nat, j: nat)
    requires Identified(rows)
    requires var q := SurplusList(rows, at);
      && i < |q| && j < |q| && q[i].key == q[j].key
      && (TextLess(q[i].version, q[j].version) || (q[i].version == q[j].version && Preferred(q[i], q[j], at)))
    ensures i < j
  {
    var q := SurplusList(rows, at);
    TextTotal(q[i].key, q[j].key);
    TextTotal(q[i].version, q[j].version);
    TextTotal(q[j].version, q[i].version);
    assert !Listing(at)(q[j], q[i]);
  }

  // ---- Main results ----

  lemma OneMoved(rows: set<Row>, at: int, a: Row, b: Row)
    requires Identified(rows) && HasRoom(rows) && Parsable(rows)
    requires a in Surplus(rows, at) && b in rows && b !in Surplus(rows, at)
    ensures var plan := Planned(rows, at); LabelOf(Rewritten(a, plan)) != LabelOf(Rewritten(b, plan))
  {
    var i := NewVersion(rows, at, a);
    KeptUnchanged(rows, at, b);
    if a.key == b.key {
      assert b in OfKey(rows, a.key);
    }
  }

  lemma BothMoved(rows: set<Row>, at: int, a: Row, b: Row)
    requires Identified(rows) && HasRoom(rows)
    requires a in Surplus(rows, at) && b in Surplus(rows, at) && a != b && a.key == b.key
    ensures var plan := Planned(rows, at); Rewritten(a, plan).version != Rewritten(b, plan).version
  {
    var i := NewVersion(rows, at, a);
    var j := NewVersion(rows, at, b);
    if i < j {
      LaterIsLarger(rows, at, i, j);
    } else {
      LaterIsLarger(rows, at, j, i);
    }
  }

  lemma NeitherMoved(rows: set<Row>, at: int, a: Row, b: Row)
    requires Identified(rows) && a in rows && b in rows && a !in Surplus(rows, at) && b !in Surplus(rows, at)
    requires LabelOf(a) == LabelOf(b)
    ensures a == b
  {
    assert a in Group(rows, LabelOf(a)) && b in Group(rows, LabelOf(a));
    var x := Retained(rows, LabelOf(a), at);
  }

  /** After a repair no two rows share a key and a version string. */
  lemma RepairRemovesDuplicates(rows: set<Row>, at: int)
    requires Identified(rows) && HasRoom(rows) && Parsable(rows)
    ensures Unambiguous(AfterRepair(rows, Planned(rows, at)))
    ensures Identified(AfterRepair(rows, Planned(rows, at)))
    ensures Parsable(AfterRepair(rows, Planned(rows, at)))
  {
    var plan := Planned(rows, at);
    forall a, b | a in rows && b in rows && LabelOf(Rewritten(a, plan)) == LabelOf(Rewritten(b, plan))
      ensures a == b
    {
      Distinguished(rows, at, a, b);
    }
    forall a | a in rows ensures Parse(Rewritten(a, plan).version).Some? {
      if a in Surplus(rows, at) {
        var i := NewVersion(rows, at, a);
      } else {
        KeptUnchanged(rows, at, a);
      }
    }
  }

  lemma Distinguished(rows: set<Row>, at: int, a: Row, b: Row)
    requires Identified(rows) && HasRoom(rows) && Parsable(rows) && a in rows && b in rows
    requires var plan := Planned(rows, at); LabelOf(Rewritten(a, plan)) == LabelOf(Rewritten(b, plan))
    ensures a == b
  {
    if a != b {
      if a in Surplus(rows, at) && b in Surplus(rows, at) {
        BothMoved(rows, at, a, b);
      } else if a in Surplus(rows, at) {
        OneMoved(rows, at, a, b);
      } else if b in Surplus(rows, at) {
        OneMoved(rows, at, b, a);
      } else {
        KeptUnchanged(rows, at, a);
        KeptUnchanged(rows, at, b);
        NeitherMoved(rows, at, a, b);
      }
    }
  }

  /** Rows without duplicates need no changes, whatever the time of planning. */
  lemma UnambiguousNeedsNothing(rows: set<Row>, at: int)
    requires Identified(rows)
    ensures Planned(rows, at) == [] <==> Unambiguous(rows)
  {
    var q := SurplusList(rows, at);
    assert q != [] ==> q[0] in q;
    if Unambiguous(rows) {
      assert Surplus(rows, at) == {};
    }
    if q == [] {
      forall a, b | a in rows && b in rows && LabelOf(a) == LabelOf(b) ensures a == b {
        assert a !in q && b !in q;
        NeitherMoved(rows, at, a, b);
      }
    }
  }

  /** Planning again after a repair finds nothing to do. */
  lemma RepairIsIdempotent(rows: set<Row>, at: int, later: int)
    requires Identified(rows) && HasRoom(rows) && Parsable(rows)
    ensures var after := AfterRepair(rows, Planned(rows, at)); Identified(after) && Planned(after, later) == []
  {
    RepairRemovesDuplicates(rows, at);
    UnambiguousNeedsNothing(AfterRepair(rows, Planned(rows, at)), later);
  }

  /** A repair changes the version fields of surplus rows and nothing else; retained rows stay as they were. */
  lemma RepairTouchesVersionsOnly(rows: set<Row>, at: int, r: Row)
    requires Identified(rows) && HasRoom(rows) && r in rows
    ensures SameButVersion(Rewritten(r, Planned(rows, at)), r)
    ensures Rewritten(r, Planned(rows, at)) == r <==> r !in Surplus(rows, at)
  {
    if r in Surplus(rows, at) {
      var i := NewVersion(rows, at, r);
      assert r in OfKey(rows, r.key);
    } else {
      KeptUnchanged(rows, at, r);
    }
  }

  /** The JSON and YAML of a repaired row name its new version. */
  lemma RepairKeepsSourcesConsistent(rows: set<Row>, at: int, r: Row)
    requires Identified(rows) && HasRoom(rows) && r in rows && Consistent(r)
    ensures Consistent(Rewritten(r, Planned(rows, at)))
  {
    if r in Surplus(rows, at) {
      var i := NewVersion(rows, at, r);
    } else {
      KeptUnchanged(rows, at, r);
    }
  }

  // ---- Selection ----

  ghost function Candidates(rows: set<Row>, key: string, version: Option<string>, now: int): set<Row> {
    set r | r in rows && r.key == key && r.Eligible(now) && (version.None? || r.version == version.value)
  }

  /** `r` may be picked for a key and an optional version: no eligible candidate has a higher index. */
  ghost predicate Selected(rows: set<Row>, key: string, version: Option<string>, now: int, r: Row) {
    && r in Candidates(rows, key, version, now)
    && forall c :: c in Candidates(rows, key, version, now) ==> c.index <= r.index
  }

  /** Selection without a version picks the same definition before and after, at every time. */
  lemma DefaultSelectionKept(rows: set<Row>, at: int, key: string, now: int, r: Row)
    requires Identified(rows) && HasRoom(rows) && r in rows
    ensures var plan := Planned(rows, at);
      Selected(rows, key, None, now, r) <==> Selected(AfterRepair(rows, plan), key, None, now, Rewritten(r, plan))
  {
    var plan := Planned(rows, at);
    var after := AfterRepair(rows, plan);
    forall x | x in rows
      ensures Rewritten(x, plan) in after && Rewritten(x, plan).index == x.index
      ensures x in Candidates(rows, key, None, now) <==> Rewritten(x, plan) in Candidates(after, key, None, now)
    {
      RepairTouchesVersionsOnly(rows, at, x);
    }
    if Selected(rows, key, None, now, r) {
      forall c | c in Candidates(after, key, None, now) ensures c.index <= r.index {
        var x :| x in rows && Rewritten(x, plan) == c;
      }
    }
    if Selected(after, key, None, now, Rewritten(r, plan)) {
      forall x | x in Candidates(rows, key, None, now) ensures x.index <= r.index {
        assert Rewritten(x, plan) in Candidates(after, key, None, now);
      }
    }
  }

  ghost predicate Untied(rows: set<Row>, id: Label, now: int) {
    forall a, b | a in Group(rows, id) && b in Group(rows, id) ::
      a.Eligible(now) && b.Eligible(now) && a.index == b.index ==> a == b
  }

  lemma KeepsItsLabel(rows: set<Row>, at: int, id: Label, r: Row)
    requires Identified(rows) && HasRoom(rows) && Parsable(rows) && Group(rows, id) != {} && r in rows
    requires LabelOf(Rewritten(r, Planned(rows, at))) == id
    ensures r == Retained(rows, id, at) && Rewritten(r, Planned(rows, at)) == r
  {
    var x := Retained(rows, id, at);
    KeptUnchanged(rows, at, x);
    Distinguished(rows, at, r, x);
  }

  /** A version that existed before names only the retained member after a repair planned at `at`. It is selected
      exactly while it is eligible, so a member selected before stays selected exactly if it is the retained one. */
  lemma ExplicitSelection(rows: set<Row>, at: int, key: string, version: string, now: int, r: Row)
    requires Identified(rows) && HasRoom(rows) && Parsable(rows) && Group(rows, (key, version)) != {}
    ensures Selected(AfterRepair(rows, Planned(rows, at)), key, Some(version), now, r)
      <==> r == Retained(rows, (key, version), at) && r.Eligible(now)
    ensures Selected(rows, key, Some(version), now, r)
      ==> (Selected(AfterRepair(rows, Planned(rows, at)), key, Some(version), now, r)
           <==> r == Retained(rows, (key, version), at))
  {
    var plan := Planned(rows, at);
    var after := AfterRepair(rows, plan);
    var kept := Retained(rows, (key, version), at);
    KeptUnchanged(rows, at, kept);
    assert kept in after;
    forall c | c in after && LabelOf(c) == (key, version) ensures c == kept {
      var x :| x in rows && Rewritten(x, plan) == c;
      KeepsItsLabel(rows, at, (key, version), x);
    }
  }

  /** Among the members of a group, the one retained at `now` is the one an untied selection finds at `now`. */
  lemma SelectedIsRetained(rows: set<Row>, key: string, version: string, now: int, r: Row)
    requires Identified(rows) && Group(rows, (key, version)) != {} && Untied(rows, (key, version), now)
    ensures Selected(rows, key, Some(version), now, r) <==> r == Retained(rows, (key, version), now) && r.Eligible(now)
  {
    var kept := Retained(rows, (key, version), now);
    forall c | c in Candidates(rows, key, Some(version), now) ensures c in Group(rows, (key, version)) {
    }
  }

  ghost predicate SameSelection(before: set<Row>, after: set<Row>, key: string, version: string, now: int) {
    forall r :: Selected(before, key, Some(version), now, r) <==> Selected(after, key, Some(version), now, r)
  }

  /** At a time without ties, a repair planned at `at` leaves the answer for a version as it was exactly if no member
      of the group is eligible or the member retained at `at` would be retained now as well. */
  lemma ExplicitSelectionKept(rows: set<Row>, at: int, key: string, version: string, now: int)
    requires Identified(rows) && HasRoom(rows) && Parsable(rows) && Group(rows, (key, version)) != {}
    requires Untied(rows, (key, version), now)
    ensures SameSelection(rows, AfterRepair(rows, Planned(rows, at)), key, version, now)
      <==> ((forall r :: r in Group(rows, (key, version)) ==> !r.Eligible(now))
            || Retained(rows, (key, version), at) == Retained(rows, (key, version), now))
  {
    var after := AfterRepair(rows, Planned(rows, at));
    var early, late := Retained(rows, (key, version), at), Retained(rows, (key, version), now);
    forall r
      ensures Selected(rows, key, Some(version), now, r) <==> r == late && r.Eligible(now)
      ensures Selected(after, key, Some(version), now, r) <==> r == early && r.Eligible(now)
    {
      SelectedIsRetained(rows, key, version, now, r);
      ExplicitSelection(rows, at, key, version, now, r);
    }
    SoleSelections(rows, after, key, version, now, late, early);
    AnyEligible(rows, (key, version), now);
  }

  /** Two tables that each select at most one row for a version agree exactly if they mean the same row or neither
      is eligible. */
  lemma SoleSelections(before: set<Row>, after: set<Row>, key: string, version: string, now: int, late: Row, early: Row)
    requires forall r :: Selected(before, key, Some(version), now, r) <==> r == late && r.Eligible(now)
    requires forall r :: Selected(after, key, Some(version), now, r) <==> r == early && r.Eligible(now)
    ensures SameSelection(before, after, key, version, now)
      <==> (!late.Eligible(now) && !early.Eligible(now)) || early == late
  {
    if SameSelection(before, after, key, version, now) {
      assert Selected(before, key, Some(version), now, late) <==> Selected(after, key, Some(version), now, late);
      assert Selected(before, key, Some(version), now, early) <==> Selected(after, key, Some(version), now, early);
    }
  }

  /** The retained member is eligible if any member of its group is. */
  lemma AnyEligible(rows: set<Row>, id: Label, now: int)
    requires Identified(rows) && Group(rows, id) != {}
    ensures Retained(rows, id, now).Eligible(now) <==> exists r :: r in Group(rows, id) && r.Eligible(now)
  {
    var late := Retained(rows, id, now);
    if r :| r in Group(rows, id) && r.Eligible(now) {
      assert r == late || Ahead(late, r, now);
    }
  }

  lemma PairHasRoom(a: Row, b: Row)
    requires a != b && LabelOf(a) == LabelOf(b) && NumOf(a) + 1 < U96
    ensures HasRoom({a, b})
  {
    assert OfKey({a, b}, a.key) == {a, b};
    assert |{a, b}| == 2 by {
      assert {a, b} - {a} == {b};
    }
    assert Versions({a, b}, a.key) == {a.version};
    assert Tops({a, b}, NumOf(a)) by {
      assert a in {a, b};
    }
    HighestIs({a, b}, a.key, NumOf(a));
  }

  /** Selection can be lost later: when `a` is retained, expires, and `b` of the same group becomes eligible, a request
      for their version found `b` before the repair and finds nothing after it. */
  lemma LaterSelectionLost(a: Row, b: Row, at: int, later: int)
    requires LabelOf(a) == LabelOf(b) && a.uuid != b.uuid && Parse(a.version).Some? && NumOf(a) + 1 < U96
    requires a.Eligible(at) && !b.Eligible(at) && !a.Eligible(later) && b.Eligible(later)
    ensures Selected({a, b}, a.key, Some(a.version), later, b)
    ensures forall r :: !Selected(AfterRepair({a, b}, Planned({a, b}, at)), a.key, Some(a.version), later, r)
  {
    PairHasRoom(a, b);
    assert a in Group({a, b}, LabelOf(a)) && b in Group({a, b}, LabelOf(a));
    assert Ahead(a, b, at);
    forall r ensures !Selected(AfterRepair({a, b}, Planned({a, b}, at)), a.key, Some(a.version), later, r) {
      ExplicitSelection({a, b}, at, a.key, a.version, later, r);
    }
  }
}
