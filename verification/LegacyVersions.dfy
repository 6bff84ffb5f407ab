/** Deterministic reassignment of duplicate process definition versions: the row model, the plan as a function of
    the set of rows, and what the plan guarantees. */
module LegacyVersions {
  import opened Wrappers
  import opened VersionIds
  import opened Orders

  // ---- Rows ----

  /** A stored JSON definition; `body` stands for everything besides the two identifying fields. */
  datatype Document = Document(isObject: bool, key: Option<string>, version: Option<string>, body: string)

  /** The optional YAML source text of a definition. */
  datatype Source = Unparsable(text: string) | NotMapping(text: string)
                  | Mapping(key: Option<string>, version: Option<string>, body: string)

  datatype Row = Row(uuid: nat, key: string, version: string, index: int, createdAt: int, active: bool,
                     from: int, until: Option<int>, definition: Document, source: Option<Source>)
  {
    predicate Eligible(at: int) {
      active && from <= at && (until.None? || until.value > at)
    }
  }

  datatype Change = Change(uuid: nat, key: string, oldVersion: string, newVersion: string, retained: nat)

  type Label = (string, string)

  function LabelOf(r: Row): Label {
    (r.key, r.version)
  }

  ghost predicate Identified(rows: set<Row>) {
    forall a, b :: a in rows && b in rows && a.uuid == b.uuid ==> a == b
  }

  ghost predicate Unambiguous(rows: set<Row>) {
    forall a, b :: a in rows && b in rows && LabelOf(a) == LabelOf(b) ==> a == b
  }

  // ---- Orders on text, labels and rows ----

  predicate TextLess(a: string, b: string) {
    b != [] && (a == [] || a[0] < b[0] || (a[0] == b[0] && TextLess(a[1..], b[1..])))
  }

  lemma {:induction false} TextTotal(a: string, b: string)
    ensures !TextLess(a, a)
    ensures a != b ==> (TextLess(a, b) <==> !TextLess(b, a))
  {
    if a != [] {
      if b != [] {
        TextTotal(a[1..], b[1..]);
        assert a == [a[0]] + a[1..] && b == [b[0]] + b[1..];
      } else {
        TextTotal(a[1..], a[1..]);
      }
    }
  }

  lemma {:induction false} TextTransitive(a: string, b: string, c: string)
    requires TextLess(a, b) && TextLess(b, c)
    ensures TextLess(a, c)
  {
    if a != [] && a[0] == b[0] && b[0] == c[0] {
      TextTransitive(a[1..], b[1..], c[1..]);
    }
  }

  predicate LabelLess(a: Label, b: Label) {
    TextLess(a.0, b.0) || (a.0 == b.0 && TextLess(a.1, b.1))
  }

  function LabelOrder(): (Label, Label) -> bool {
    (a, b) => LabelLess(a, b)
  }

  lemma LabelTotal(a: Label, b: Label)
    ensures !LabelLess(a, a)
    ensures a != b ==> (LabelLess(a, b) <==> !LabelLess(b, a))
  {
    TextTotal(a.0, b.0);
    TextTotal(a.1, b.1);
    TextTotal(b.0, a.0);
    TextTotal(b.1, a.1);
  }

  lemma LabelTransitive(a: Label, b: Label, c: Label)
    requires LabelLess(a, b) && LabelLess(b, c)
    ensures LabelLess(a, c)
  {
    TextTotal(a.0, a.0);
    TextTotal(b.0, b.0);
    if a.0 == b.0 && b.0 == c.0 {
      TextTransitive(a.1, b.1, c.1);
    } else if TextLess(a.0, b.0) && TextLess(b.0, c.0) {
      TextTransitive(a.0, b.0, c.0);
    }
  }

  lemma LabelsOrdered(labels: set<Label>)
    ensures TotalOn(labels, LabelOrder())
  {
    forall a, b ensures !LabelLess(a, a) && (a != b ==> (LabelLess(a, b) <==> !LabelLess(b, a))) {
      LabelTotal(a, b);
    }
    forall a, b, c | LabelLess(a, b) && LabelLess(b, c) ensures LabelLess(a, c) {
      LabelTransitive(a, b, c);
    }
  }

  /** Whether `a` is listed before `b` in a group: eligible first, then latest registered. */
  predicate Ahead(a: Row, b: Row, at: int) {
    if a.Eligible(at) != b.Eligible(at) then a.Eligible(at)
    else if a.index != b.index then a.index > b.index
    else if a.createdAt != b.createdAt then a.createdAt > b.createdAt
    else a.uuid > b.uuid
  }

  function Ranking(at: int): (Row, Row) -> bool {
    (a, b) => Ahead(a, b, at)
  }

  function Listing(at: int): (Row, Row) -> bool {
    (a, b) => LabelLess(LabelOf(a), LabelOf(b)) || (LabelOf(a) == LabelOf(b) && Ahead(a, b, at))
  }

  lemma RankingTotal(rows: set<Row>, at: int)
    requires Identified(rows)
    ensures TotalOn(rows, Ranking(at))
  {
  }

  lemma ListingTotal(rows: set<Row>, at: int)
    requires Identified(rows)
    ensures TotalOn(rows, Listing(at))
  {
    forall a, b ensures !LabelLess(a, a) && (a != b ==> (LabelLess(a, b) <==> !LabelLess(b, a))) {
      LabelTotal(a, b);
    }
    forall a, b, c | LabelLess(a, b) && LabelLess(b, c) ensures LabelLess(a, c) {
      LabelTransitive(a, b, c);
    }
  }

  // ---- The plan as a function of the set of rows ----

  ghost function Group(rows: set<Row>, id: Label): set<Row> {
    set r | r in rows && LabelOf(r) == id
  }

  ghost function OfKey(rows: set<Row>, key: string): set<Row> {
    set r | r in rows && r.key == key
  }

  /** The members that lose their version: someone in their group is ahead of them. */
  ghost function Surplus(rows: set<Row>, at: int): set<Row> {
    set r | r in rows && exists b :: b in rows && LabelOf(b) == LabelOf(r) && Ahead(b, r, at)
  }

  /** The member of a group that keeps the version. */
  ghost function Retained(rows: set<Row>, id: Label, at: int): (r: Row)
    requires Identified(rows) && Group(rows, id) != {}
    ensures r in Group(rows, id) && r !in Surplus(rows, at)
    ensures forall b :: b in Group(rows, id) && b != r ==> Ahead(r, b, at) && b in Surplus(rows, at)
  {
    RankingTotal(Group(rows, id), at);
    var q := Arranged(Group(rows, id), Ranking(at));
    FirstLeads(Group(rows, id), at);
    q[0]
  }

  lemma FirstLeads(group: set<Row>, at: int)
    requires Identified(group) && group != {} && TotalOn(group, Ranking(at))
    ensures var q := Arranged(group, Ranking(at));
      q != [] && q[0] in group && forall b :: b in group && b != q[0] ==> Ahead(q[0], b, at) && !Ahead(b, q[0], at)
  {
    var q := Arranged(group, Ranking(at));
    var some :| some in group;
    assert some in Elements(q);
    assert q[0] in Elements(q);
    forall b | b in group && b != q[0] ensures Ahead(q[0], b, at) && !Ahead(b, q[0], at) {
      assert b in Elements(q);
      var k :| 0 <= k < |q| && q[k] == b;
      assert Ranking(at)(q[0], q[k]);
    }
  }

  function NumOf(r: Row): nat {
    if Parse(r.version).Some? then Num(Parse(r.version).value) else 0
  }

  ghost predicate Tops(rows: set<Row>, n: nat) {
    (exists r :: r in rows && NumOf(r) == n) && (forall r :: r in rows ==> NumOf(r) <= n)
  }

  lemma {:induction false} TopExists(rows: set<Row>) returns (n: nat)
    requires rows != {}
    ensures Tops(rows, n)
  {
    var r :| r in rows;
    n := NumOf(r);
    if rows != {r} {
      var m := TopExists(rows - {r});
      n := if n < m then m else n;
    }
  }

  /** The largest version of a key, read as a number. */
  ghost function Highest(rows: set<Row>, key: string): (n: nat)
    ensures OfKey(rows, key) != {} ==> Tops(OfKey(rows, key), n)
  {
    if OfKey(rows, key) == {} then 0
    else
      assert exists n: nat :: Tops(OfKey(rows, key), n) by {
        var n := TopExists(OfKey(rows, key));
      }
      var n: nat :| Tops(OfKey(rows, key), n);
      n
  }

  lemma HighestIs(rows: set<Row>, key: string, n: nat)
    requires Tops(OfKey(rows, key), n)
    ensures Highest(rows, key) == n
  {
  }

  ghost function Taken(q: seq<Row>, key: string): set<Row> {
    set r | r in q && r.key == key
  }

  /** The number reserved for `x` when the rows `earlier` have been given theirs. */
  ghost function Reserved(rows: set<Row>, earlier: seq<Row>, x: Row): nat {
    Highest(rows, x.key) + |Taken(earlier, x.key)| + 1
  }

  ghost function ChangeFor(rows: set<Row>, earlier: seq<Row>, x: Row, at: int): Change
    requires Identified(rows) && x in rows
  {
    assert x in Group(rows, LabelOf(x));
    Change(x.uuid, x.key, x.version, Print(FromNum(Reserved(rows, earlier, x))), Retained(rows, LabelOf(x), at).uuid)
  }

  ghost function Listed(rows: set<Row>, q: seq<Row>, at: int): (changes: seq<Change>)
    requires Identified(rows) && forall x :: x in q ==> x in rows
    ensures |changes| == |q|
  {
    seq(|q|, i requires 0 <= i < |q| => ChangeFor(rows, q[..i], q[i], at))
  }

  lemma ListedGrows(rows: set<Row>, q: seq<Row>, x: Row, at: int)
    requires Identified(rows) && x in rows && forall y :: y in q ==> y in rows
    ensures Listed(rows, q + [x], at) == Listed(rows, q, at) + [ChangeFor(rows, q, x, at)]
  {
    forall i | 0 <= i < |q| ensures (q + [x])[..i] == q[..i] && (q + [x])[i] == q[i] {
    }
    assert (q + [x])[..|q|] == q;
  }

  ghost function SurplusList(rows: set<Row>, at: int): (q: seq<Row>)
    requires Identified(rows)
    ensures Elements(q) == Surplus(rows, at) && Strict(q, Listing(at))
    ensures forall x :: x in q <==> x in Surplus(rows, at)
  {
    ListingTotal(Surplus(rows, at), at);
    var q := Arranged(Surplus(rows, at), Listing(at));
    assert forall x :: x in q <==> x in Elements(q);
    q
  }

  /** The whole plan: surplus rows in listing order, each given the next free number of its key. */
  ghost function Planned(rows: set<Row>, at: int): seq<Change>
    requires Identified(rows)
  {
    Listed(rows, SurplusList(rows, at), at)
  }

  ghost predicate Parsable(rows: set<Row>) {
    forall r :: r in rows ==> Parse(r.version).Some?
  }

  // ---- When the plan fits ----

  ghost function Versions(rows: set<Row>, key: string): set<string> {
    set r | r in OfKey(rows, key) :: r.version
  }

  /** Every key has room above its highest version for all rows beyond one per version. */
  ghost predicate HasRoom(rows: set<Row>) {
    forall key :: OfKey(rows, key) != {} ==>
      Highest(rows, key) + |OfKey(rows, key)| - |Versions(rows, key)| < U96
  }

  lemma {:induction false} SameSize(rows: set<Row>, texts: set<string>)
    requires texts == set r | r in rows :: r.version
    requires forall a, b :: a in rows && b in rows && a.version == b.version ==> a == b
    ensures |rows| == |texts|
  {
    if rows != {} {
      var r :| r in rows;
      var rest := rows - {r};
      var others := texts - {r.version};
      assert others == set x | x in rest :: x.version;
      SameSize(rest, others);
    }
  }

  /** However the retained members are chosen, each version of a key keeps exactly one row. */
  lemma SurplusCount(rows: set<Row>, key: string, at: int)
    requires Identified(rows)
    ensures |OfKey(Surplus(rows, at), key)| == |OfKey(rows, key)| - |Versions(rows, key)|
  {
    var surplus := OfKey(Surplus(rows, at), key);
    var kept := OfKey(rows, key) - surplus;
    forall a, b | a in kept && b in kept && a.version == b.version ensures a == b {
      assert a in Group(rows, LabelOf(a)) && b in Group(rows, LabelOf(a));
      var x := Retained(rows, LabelOf(a), at);
    }
    forall v ensures v in Versions(rows, key) <==> exists r :: r in kept && r.version == v {
      if r :| r in OfKey(rows, key) && r.version == v {
        assert r in Group(rows, (key, v));
        var x := Retained(rows, (key, v), at);
        assert x in kept && x.version == v;
      }
    }
    SameSize(kept, Versions(rows, key));
    assert OfKey(rows, key) == kept + surplus;
  }
}
