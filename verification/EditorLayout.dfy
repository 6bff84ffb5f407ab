/** Automatic layout: ranks to rows, rows to canvas positions. */
module EditorLayout {
  import opened Wrappers
  import opened Contexts
  import opened ProcessDefs
  import opened Validation
  import opened EditorGraph
  import opened EditorRanks
  import opened Orders

  const CANVAS := 1_000_000
  const NODE_WIDTH := 224
  const NODE_HEIGHT := 88
  const BRANCH_ROW_STEP := 44
  const COLUMN_STEP := 288
  const ROW_GAP := 96

  datatype Position = Position(x: int, y: int)

  function Clamp(v: int): int {
    if v < 0 then 0 else if v > CANVAS then CANVAS else v
  }

  function Clamped(p: Position): Position {
    Position(Clamp(p.x), Clamp(p.y))
  }

  // ---- Card heights ----

  function Outgoing(edges: seq<Connection>, id: Id, branches: bool): nat {
    if edges == [] then 0
    else
      var e := edges[0];
      var counts := if branches then e.pointer.BranchPointer? || e.pointer.NextBranchPointer?
                    else e.pointer.NextPointer? || e.pointer.DefaultPointer?;
      (if e.source == id && counts then 1 else 0) + Outgoing(edges[1..], id, branches)
  }

  /** The condition rows shown on a card: the branches, and the fallback when there are any. */
  function BranchRows(edges: seq<Connection>, id: Id): nat {
    var branches := Outgoing(edges, id, true);
    if branches == 0 then 0 else branches + Outgoing(edges, id, false)
  }

  function Height(edges: seq<Connection>, id: Id): (h: nat)
    ensures h >= NODE_HEIGHT
  {
    NODE_HEIGHT + (if BranchRows(edges, id) == 0 then 0 else BranchRows(edges, id) * BRANCH_ROW_STEP + 8)
  }

  // ---- Ranks of all nodes ----

  /** Reached nodes by distance, then the unreached in definition order, then every end in one row. */
  ghost predicate Layered(nodes: seq<Node>, edges: seq<Connection>, ranks: map<Id, nat>) {
    && ranks.Keys == Declared(nodes)
    && (forall n :: n in nodes && !n.End? && Reached(nodes, edges, n.id) ==> Distance(nodes, edges, n.id, ranks[n.id]))
    && (forall n, m :: n in nodes && m in nodes && !n.End? && m.End? ==> ranks[n.id] < ranks[m.id])
    && (forall n, m :: n in nodes && m in nodes && n.End? && m.End? ==> ranks[n.id] == ranks[m.id])
    && (forall n, m | n in nodes && m in nodes && !n.End? && !m.End? ::
          Reached(nodes, edges, n.id) && !Reached(nodes, edges, m.id) ==> ranks[n.id] < ranks[m.id])
    && (forall i, j | 0 <= i < j < |nodes| && !nodes[i].End? && !nodes[j].End? ::
          !Reached(nodes, edges, nodes[i].id) && !Reached(nodes, edges, nodes[j].id)
          ==> ranks[nodes[i].id] < ranks[nodes[j].id])
  }

  method MaxRank(ranks: map<Id, nat>) returns (max: nat)
    ensures forall id :: id in ranks ==> ranks[id] <= max
    ensures ranks != map[] ==> exists id :: id in ranks && ranks[id] == max
    ensures ranks == map[] ==> max == 0
  {
    max := 0;
    var left := ranks.Keys;
    var top: Option<Id> := None;
    while left != {}
      invariant left <= ranks.Keys
      invariant forall id :: id in ranks && id !in left ==> ranks[id] <= max
      invariant top.Some? ==> top.value in ranks && ranks[top.value] == max
      invariant top.None? ==> left == ranks.Keys && max == 0
      decreases left
    {
      var id :| id in left;
      if top.None? || ranks[id] > max {
        max, top := ranks[id], Some(id);
      }
      left := left - {id};
    }
    assert ranks != map[] ==> ranks.Keys != {};
  }

  /** Which nodes are ranked after the unreached ones among the first `i` have been appended. */
  ghost predicate AppendedIds(nodes: seq<Node>, found: map<Id, nat>, ranks: map<Id, nat>, i: nat)
    requires i <= |nodes|
  {
    && (forall id :: id in found ==> id in ranks && ranks[id] == found[id])
    && (forall id :: id in ranks ==> id in found || exists k :: 0 <= k < i && nodes[k].id == id)
    && (forall k :: 0 <= k < i && !nodes[k].End? ==> nodes[k].id in ranks)
  }

  /** The appended ranks lie between `first` and `tail` and increase in definition order. */
  ghost predicate AppendedRanks(nodes: seq<Node>, found: map<Id, nat>, ranks: map<Id, nat>, i: nat, first: nat, tail: nat)
    requires i <= |nodes|
  {
    && (forall k | 0 <= k < i && !nodes[k].End? && nodes[k].id !in found ::
          nodes[k].id in ranks && first <= ranks[nodes[k].id] < tail)
    && (forall k, j | 0 <= k < j < i && !nodes[k].End? && !nodes[j].End? && nodes[k].id !in found && nodes[j].id !in found ::
          nodes[k].id in ranks && nodes[j].id in ranks && ranks[nodes[k].id] < ranks[nodes[j].id])
  }

  ghost predicate Appended(nodes: seq<Node>, found: map<Id, nat>, ranks: map<Id, nat>, i: nat, first: nat, tail: nat)
    requires i <= |nodes|
  {
    && AppendedIds(nodes, found, ranks, i) && AppendedRanks(nodes, found, ranks, i, first, tail)
    && forall id :: id in found ==> found[id] < first
  }

  lemma DistinctBefore(nodes: seq<Node>, i: nat)
    requires Distinct(NodeIdList(nodes)) && i < |nodes|
    ensures forall k :: 0 <= k < i ==> nodes[k].id != nodes[i].id
  {
    var ids := NodeIdList(nodes);
    assert forall k :: 0 <= k < i ==> ids[k] != ids[i];
  }

  lemma AppendRanked(nodes: seq<Node>, found: map<Id, nat>, ranks: map<Id, nat>, i: nat, first: nat, next: nat)
    requires i < |nodes| && first <= next && Appended(nodes, found, ranks, i, first, next)
    requires nodes[i].id !in ranks && !nodes[i].End?
    ensures Appended(nodes, found, ranks[nodes[i].id := next], i + 1, first, next + 1)
  {
    forall k | 0 <= k < i && !nodes[k].End? ensures nodes[k].id != nodes[i].id {
      assert nodes[k].id in ranks;
    }
    RanksExtended(nodes, found, ranks, i, first, next);
  }

  lemma RanksExtended(nodes: seq<Node>, found: map<Id, nat>, ranks: map<Id, nat>, i: nat, first: nat, next: nat)
    requires i < |nodes| && first <= next && AppendedRanks(nodes, found, ranks, i, first, next)
    requires forall k :: 0 <= k < i && !nodes[k].End? ==> nodes[k].id != nodes[i].id
    ensures AppendedRanks(nodes, found, ranks[nodes[i].id := next], i + 1, first, next + 1)
  {
  }

  lemma AppendKept(nodes: seq<Node>, found: map<Id, nat>, ranks: map<Id, nat>, i: nat, first: nat, next: nat)
    requires i < |nodes| && Appended(nodes, found, ranks, i, first, next)
    requires forall k :: 0 <= k < i ==> nodes[k].id != nodes[i].id
    requires nodes[i].id in ranks || nodes[i].End?
    ensures Appended(nodes, found, ranks, i + 1, first, next)
  {
    assert nodes[i].id in ranks ==> nodes[i].id in found;
    RanksKept(nodes, found, ranks, i, first, next);
  }

  lemma RanksKept(nodes: seq<Node>, found: map<Id, nat>, ranks: map<Id, nat>, i: nat, first: nat, next: nat)
    requires i < |nodes| && AppendedRanks(nodes, found, ranks, i, first, next)
    requires nodes[i].id in found || nodes[i].End?
    ensures AppendedRanks(nodes, found, ranks, i + 1, first, next)
  {
  }

  method AppendUnreached(nodes: seq<Node>, found: map<Id, nat>) returns (ranks: map<Id, nat>, ghost first: nat, ghost tail: nat)
    requires Distinct(NodeIdList(nodes))
    ensures Appended(nodes, found, ranks, |nodes|, first, tail)
  {
    ranks := found;
    var max := MaxRank(found);
    var next := max + 1;
    first := next;
    for i := 0 to |nodes|
      invariant Appended(nodes, found, ranks, i, first, next) && first <= next
    {
      if nodes[i].id !in ranks && !nodes[i].End? {
        AppendRanked(nodes, found, ranks, i, first, next);
        ranks := ranks[nodes[i].id := next];
        next := next + 1;
      } else {
        DistinctBefore(nodes, i);
        AppendKept(nodes, found, ranks, i, first, next);
      }
    }
    tail := next;
  }

  method Layers(nodes: seq<Node>, edges: seq<Connection>) returns (ranks: map<Id, nat>)
    requires Distinct(NodeIdList(nodes))
    ensures Layered(nodes, edges, ranks)
  {
    var found := Ranks(nodes, edges);
    ghost var first, tail, bottom;
    var before;
    before, first, tail := AppendUnreached(nodes, found);
    ranks, bottom := MoveEnds(nodes, before);
    LayersDone(nodes, edges, found, before, ranks, first, tail, bottom);
  }

  method MoveEnds(nodes: seq<Node>, before: map<Id, nat>) returns (ranks: map<Id, nat>, ghost bottom: nat)
    requires Distinct(NodeIdList(nodes))
    ensures Bottomed(nodes, before, ranks, |nodes|, bottom)
    ensures forall id :: id in before ==> before[id] < bottom
  {
    ranks := before;
    var max := MaxRank(ranks);
    var last := max + 1;
    bottom := last;
    for i := 0 to |nodes|
      invariant Bottomed(nodes, before, ranks, i, bottom)
    {
      ghost var ids := NodeIdList(nodes);
      assert forall k :: 0 <= k < |nodes| && k != i ==> ids[k] != ids[i];
      if nodes[i].End? {
        ranks := ranks[nodes[i].id := last];
      }
    }
  }

  /** After the ends among the first `i` nodes have been moved to the bottom row. */
  ghost predicate Bottomed(nodes: seq<Node>, before: map<Id, nat>, ranks: map<Id, nat>, i: nat, bottom: nat)
    requires i <= |nodes|
  {
    && (forall k :: 0 <= k < i && nodes[k].End? ==> nodes[k].id in ranks && ranks[nodes[k].id] == bottom)
    && (forall id :: id in before ==> id in ranks)
    && (forall id :: id in ranks ==> id in before || exists k :: 0 <= k < i && nodes[k].id == id)
    && (forall k :: 0 <= k < |nodes| && !nodes[k].End? && nodes[k].id in before ==> ranks[nodes[k].id] == before[nodes[k].id])
  }

  lemma LayersDone(nodes: seq<Node>, edges: seq<Connection>, found: map<Id, nat>, before: map<Id, nat>,
                   ranks: map<Id, nat>, first: nat, tail: nat, bottom: nat)
    requires forall id :: id in found <==> Reached(nodes, edges, id)
    requires forall id :: id in found ==> id in Declared(nodes) && Distance(nodes, edges, id, found[id])
    requires Appended(nodes, found, before, |nodes|, first, tail)
    requires Bottomed(nodes, before, ranks, |nodes|, bottom)
    requires forall id :: id in before ==> before[id] < bottom
    ensures Layered(nodes, edges, ranks)
  {
    forall n | n in nodes
      ensures n.id in ranks
      ensures n.End? ==> ranks[n.id] == bottom
      ensures !n.End? ==> n.id in before && ranks[n.id] == before[n.id] < bottom
      ensures !n.End? && n.id !in found ==> first <= ranks[n.id]
      ensures !n.End? && n.id in found ==> ranks[n.id] == found[n.id] < first
    {
      var k :| 0 <= k < |nodes| && nodes[k] == n;
    }
    forall id ensures id in ranks <==> id in Declared(nodes) {
      if id in ranks && id !in found {
        var k :| 0 <= k < |nodes| && nodes[k].id == id;
        assert nodes[k] in nodes;
      }
    }
  }

  // ---- Rows ----

  /** The IDs of a row, in definition order. */
  function RowIds(nodes: seq<Node>, ranks: map<Id, nat>, r: nat): seq<Id> {
    if nodes == [] then []
    else
      var n := nodes[|nodes| - 1];
      RowIds(nodes[..|nodes| - 1], ranks, r) + (if n.id in ranks && ranks[n.id] == r then [n.id] else [])
  }

  lemma {:induction false} RowMembers(nodes: seq<Node>, ranks: map<Id, nat>, r: nat)
    ensures forall id :: id in RowIds(nodes, ranks, r) <==> id in Declared(nodes) && id in ranks && ranks[id] == r
  {
    if nodes != [] {
      var front, n := nodes[..|nodes| - 1], nodes[|nodes| - 1];
      RowMembers(front, ranks, r);
      assert nodes == front + [n];
      assert Declared(nodes) == Declared(front) + {n.id};
    }
  }

  lemma {:induction false} RowDistinct(nodes: seq<Node>, ranks: map<Id, nat>, r: nat)
    requires Distinct(NodeIdList(nodes))
    ensures Distinct(RowIds(nodes, ranks, r))
  {
    if nodes != [] {
      var front, n := nodes[..|nodes| - 1], nodes[|nodes| - 1];
      var ids := NodeIdList(nodes);
      var frontIds := NodeIdList(front);
      forall i, j | 0 <= i < j < |front| ensures frontIds[i] != frontIds[j] {
        assert ids[i] != ids[j];
      }
      RowDistinct(front, ranks, r);
      RowMembers(front, ranks, r);
      forall m | m in front ensures m.id != n.id {
        var i :| 0 <= i < |front| && front[i] == m;
        assert ids[i] != ids[|front|];
      }
    }
  }

  ghost predicate Rowed(nodes: seq<Node>, ranks: map<Id, nat>, rows: map<nat, seq<Id>>) {
    && (forall n :: n in nodes && n.id in ranks ==> ranks[n.id] in rows)
    && (forall r :: r in rows ==> rows[r] == RowIds(nodes, ranks, r) && rows[r] != [])
  }

  lemma RowGrows(nodes: seq<Node>, ranks: map<Id, nat>, rows: map<nat, seq<Id>>, n: Node)
    requires Rowed(nodes, ranks, rows) && n.id in ranks
    ensures var r := ranks[n.id];
      Rowed(nodes + [n], ranks, rows[r := (if r in rows then rows[r] else []) + [n.id]])
  {
    var all := nodes + [n];
    assert all[..|all| - 1] == nodes;
    var r := ranks[n.id];
    RowMembers(nodes, ranks, r);
    assert r !in rows ==> RowIds(nodes, ranks, r) == [] by {
      if r !in rows && RowIds(nodes, ranks, r) != [] {
        assert RowIds(nodes, ranks, r)[0] in RowIds(nodes, ranks, r);
        assert false;
      }
    }
  }

  method Rows(nodes: seq<Node>, ranks: map<Id, nat>) returns (rows: map<nat, seq<Id>>)
    requires forall n :: n in nodes ==> n.id in ranks
    ensures Rowed(nodes, ranks, rows)
  {
    rows := map[];
    for i := 0 to |nodes|
      invariant Rowed(nodes[..i], ranks, rows)
    {
      var n := nodes[i];
      RowGrows(nodes[..i], ranks, rows, n);
      assert nodes[..i + 1] == nodes[..i] + [n];
      var r := ranks[n.id];
      rows := rows[r := (if r in rows then rows[r] else []) + [n.id]];
    }
    assert nodes[..|nodes|] == nodes;
  }

  // ---- Positions ----

  /** Cards of one row stand side by side; each row lies below the tallest card of the row above. */
  ghost predicate Spread(edges: seq<Connection>, ranks: map<Id, nat>, raw: map<Id, Position>) {
    && (forall a :: a in raw ==> a in ranks && raw[a].x >= 80 && raw[a].y >= 64)
    && (forall a, b | a in raw && b in raw && a != b && ranks[a] == ranks[b] ::
          raw[a].y == raw[b].y && (raw[a].x + COLUMN_STEP <= raw[b].x || raw[b].x + COLUMN_STEP <= raw[a].x))
    && (forall a, b | a in raw && b in raw && ranks[a] < ranks[b] ::
          raw[a].y + Height(edges, a) + ROW_GAP <= raw[b].y)
  }

  /** The unclamped positions of one row. */
  function RowPositions(ids: seq<Id>, x: int, y: int): map<Id, Position> {
    if ids == [] then map[]
    else RowPositions(ids[..|ids| - 1], x, y)[ids[|ids| - 1] := Position(x + (|ids| - 1) * COLUMN_STEP, y)]
  }

  lemma {:induction false} RowPositionOf(ids: seq<Id>, x: int, y: int)
    requires Distinct(ids)
    ensures forall id :: id in RowPositions(ids, x, y) <==> id in ids
    ensures forall c :: 0 <= c < |ids| ==> RowPositions(ids, x, y)[ids[c]] == Position(x + c * COLUMN_STEP, y)
  {
    if ids != [] {
      var front := ids[..|ids| - 1];
      RowPositionOf(front, x, y);
      assert ids == front + [ids[|ids| - 1]];
      assert forall c :: 0 <= c < |front| ==> front[c] == ids[c];
    }
  }

  lemma SideBySide(ids: seq<Id>, x: int, y: int, a: Id, b: Id)
    requires Distinct(ids) && a in ids && b in ids && a != b
    ensures var row := RowPositions(ids, x, y);
      && a in row && b in row && row[a].y == row[b].y == y
      && (row[a].x + COLUMN_STEP <= row[b].x || row[b].x + COLUMN_STEP <= row[a].x)
  {
    RowPositionOf(ids, x, y);
    var i :| 0 <= i < |ids| && ids[i] == a;
    var j :| 0 <= j < |ids| && ids[j] == b;
  }

  function Tallest(edges: seq<Connection>, ids: seq<Id>): (h: nat)
    ensures h >= NODE_HEIGHT
    ensures forall id :: id in ids ==> Height(edges, id) <= h
  {
    if ids == [] then NODE_HEIGHT
    else
      var rest := Tallest(edges, ids[..|ids| - 1]);
      var last := Height(edges, ids[|ids| - 1]);
      assert ids == ids[..|ids| - 1] + [ids[|ids| - 1]];
      if last > rest then last else rest
  }

  /** Everything placed so far is of a smaller rank than `r` and ends above `y`. */
  ghost predicate Above(edges: seq<Connection>, ranks: map<Id, nat>, raw: map<Id, Position>, r: int, y: int) {
    && Spread(edges, ranks, raw)
    && forall a :: a in raw ==> ranks[a] <= r && raw[a].y + Height(edges, a) + ROW_GAP <= y
  }

  lemma RowAdded(edges: seq<Connection>, ranks: map<Id, nat>, raw: map<Id, Position>, ids: seq<Id>, r: nat, below: int,
                 x: int, y: int)
    requires Above(edges, ranks, raw, below, y) && below < r && x >= 80 && y >= 64 && Distinct(ids)
    requires forall id :: id in ids ==> id in ranks && ranks[id] == r
    ensures Above(edges, ranks, raw + RowPositions(ids, x, y), r, y + Tallest(edges, ids) + ROW_GAP)
  {
    var row := RowPositions(ids, x, y);
    RowFacts(ranks, ids, r, x, y);
    JoinSpread(edges, ranks, raw, row, below, r, y);
    forall a | a in raw + row
      ensures ranks[a] <= r && (raw + row)[a].y + Height(edges, a) + ROW_GAP <= y + Tallest(edges, ids) + ROW_GAP
    {
      if a in row {
        assert a in ids;
      } else {
        assert raw[a].y + Height(edges, a) + ROW_GAP <= y;
      }
    }
  }

  lemma JoinSpread(edges: seq<Connection>, ranks: map<Id, nat>, raw: map<Id, Position>, row: map<Id, Position>, below: int,
                   r: nat, y: int)
    requires Above(edges, ranks, raw, below, y) && below < r && y >= 64
    requires forall a :: a in row ==> a in ranks && ranks[a] == r && row[a].x >= 80 && row[a].y == y
    requires forall a, b | a in row && b in row && a != b ::
      row[a].x + COLUMN_STEP <= row[b].x || row[b].x + COLUMN_STEP <= row[a].x
    ensures Spread(edges, ranks, raw + row)
  {
    var all := raw + row;
    forall a | a in all ensures all[a] == if a in row then row[a] else raw[a] {
    }
    forall a, b | a in all && b in all && ranks[a] < ranks[b]
      ensures all[a].y + Height(edges, a) + ROW_GAP <= all[b].y
    {
      assert a !in row;
    }
  }

  lemma RowFacts(ranks: map<Id, nat>, ids: seq<Id>, r: nat, x: int, y: int)
    requires Distinct(ids) && forall id :: id in ids ==> id in ranks && ranks[id] == r
    ensures var row := RowPositions(ids, x, y);
      && (forall id :: id in row ==> id in ids && id in ranks && ranks[id] == r && row[id].x >= x && row[id].y == y)
      && (forall a, b | a in row && b in row && a != b ::
            row[a].x + COLUMN_STEP <= row[b].x || row[b].x + COLUMN_STEP <= row[a].x)
  {
    var row := RowPositions(ids, x, y);
    RowPositionOf(ids, x, y);
    forall id | id in row ensures row[id].x >= x && row[id].y == y {
      var c :| 0 <= c < |ids| && ids[c] == id;
    }
    forall a, b | a in row && b in row && a != b
      ensures row[a].x + COLUMN_STEP <= row[b].x || row[b].x + COLUMN_STEP <= row[a].x
    {
      SideBySide(ids, x, y, a, b);
    }
  }

  lemma CardAdded(positions: map<Id, Position>, ids: seq<Id>, x: int, y: int, c: nat)
    requires c < |ids|
    ensures positions + ClampedAll(RowPositions(ids[..c + 1], x, y))
      == (positions + ClampedAll(RowPositions(ids[..c], x, y)))[ids[c] := Clamped(Position(x + c * COLUMN_STEP, y))]
  {
    assert ids[..c + 1][..c] == ids[..c];
    ClampedCard(RowPositions(ids[..c], x, y), ids[c], Position(x + c * COLUMN_STEP, y));
  }

  lemma ClampedCard(raw: map<Id, Position>, id: Id, p: Position)
    ensures ClampedAll(raw[id := p]) == ClampedAll(raw)[id := Clamped(p)]
  {
  }

  method PlaceRow(positions: map<Id, Position>, ids: seq<Id>, x: int, y: int) returns (positions': map<Id, Position>)
    requires Distinct(ids)
    ensures positions' == positions + ClampedAll(RowPositions(ids, x, y))
  {
    positions' := positions;
    assert RowPositions(ids[..0], x, y) == map[];
    for c := 0 to |ids|
      invariant positions' == positions + ClampedAll(RowPositions(ids[..c], x, y))
    {
      CardAdded(positions, ids, x, y, c);
      positions' := positions'[ids[c] := Clamped(Position(x + c * COLUMN_STEP, y))];
    }
    assert ids[..|ids|] == ids;
  }

  function ClampedAll(raw: map<Id, Position>): map<Id, Position> {
    map id | id in raw :: Clamped(raw[id])
  }

  function NatOrder(): (nat, nat) -> bool {
    (a: nat, b: nat) => a < b
  }

  /** The length of the longest row, or one without rows. */
  ghost predicate Widest(rows: map<nat, seq<Id>>, columns: nat) {
    && (forall r :: r in rows ==> |rows[r]| <= columns)
    && (if rows == map[] then columns == 1 else exists r :: r in rows && |rows[r]| == columns)
  }

  method Columns(rows: map<nat, seq<Id>>, order: seq<nat>) returns (columns: nat)
    requires Elements(order) == rows.Keys && forall r :: r in rows ==> rows[r] != []
    ensures Widest(rows, columns)
  {
    columns := 1;
    for g := 0 to |order|
      invariant forall k :: 0 <= k < g && order[k] in rows ==> |rows[order[k]]| <= columns
      invariant if g == 0 then columns == 1 else exists k :: 0 <= k < g && order[k] in rows && |rows[order[k]]| == columns
    {
      assert order[g] in Elements(order);
      if |rows[order[g]]| > columns {
        columns := |rows[order[g]]|;
      }
    }
    forall r | r in rows ensures |rows[r]| <= columns {
      assert r in Elements(order);
    }
    assert order == [] ==> rows.Keys == {};
  }

  function CardX(columns: nat, length: nat, c: nat): int {
    80 + (columns - length) * 144 + c * COLUMN_STEP
  }

  /** Each row is centred under the widest, its cards in definition order from left to right. */
  ghost predicate Centred(rows: map<nat, seq<Id>>, columns: nat, raw: map<Id, Position>) {
    forall r, c :: r in rows && 0 <= c < |rows[r]| ==>
      rows[r][c] in raw && raw[rows[r][c]].x == CardX(columns, |rows[r]|, c)
  }

  /** Nothing stands above `y`, or a card of a smaller rank ends one gap above it. */
  ghost predicate Rests(edges: seq<Connection>, ranks: map<Id, nat>, raw: map<Id, Position>, r: nat, y: int) {
    || (y == 64 && forall a :: a in raw && a in ranks ==> ranks[a] >= r)
    || (exists a :: a in raw && a in ranks && ranks[a] < r && raw[a].y + Height(edges, a) + ROW_GAP == y)
  }

  /** No row is lower than the rows above it demand. */
  ghost predicate Tight(edges: seq<Connection>, ranks: map<Id, nat>, raw: map<Id, Position>) {
    forall b :: b in raw && b in ranks ==> Rests(edges, ranks, raw, ranks[b], raw[b].y)
  }

  /** The next row may start at `y`. */
  ghost predicate Bottom(edges: seq<Connection>, raw: map<Id, Position>, y: int) {
    if raw == map[] then y == 64 else exists a :: a in raw && raw[a].y + Height(edges, a) + ROW_GAP == y
  }

  lemma {:induction false} TallestReached(edges: seq<Connection>, ids: seq<Id>)
    requires ids != []
    ensures exists id :: id in ids && Height(edges, id) == Tallest(edges, ids)
  {
    var front, last := ids[..|ids| - 1], ids[|ids| - 1];
    if front != [] && Height(edges, last) <= Tallest(edges, front) {
      TallestReached(edges, front);
    } else {
      assert last in ids;
    }
  }

  lemma RowTight(edges: seq<Connection>, ranks: map<Id, nat>, raw: map<Id, Position>, row: map<Id, Position>, r: nat, y: int)
    requires Tight(edges, ranks, raw) && Bottom(edges, raw, y)
    requires forall a :: a in raw ==> a in ranks && ranks[a] < r
    requires forall a :: a in row ==> a in ranks && ranks[a] == r && row[a].y == y
    ensures Tight(edges, ranks, raw + row)
  {
    var all := raw + row;
    forall b | b in all && b in ranks ensures Rests(edges, ranks, all, ranks[b], all[b].y) {
      if b in row {
        if raw != map[] {
          var a :| a in raw && raw[a].y + Height(edges, a) + ROW_GAP == y;
          assert a in all && all[a] == raw[a];
        }
      } else {
        assert Rests(edges, ranks, raw, ranks[b], raw[b].y);
        if a :| a in raw && a in ranks && ranks[a] < ranks[b] && raw[a].y + Height(edges, a) + ROW_GAP == raw[b].y {
          assert a in all && all[a] == raw[a];
        }
      }
    }
  }

  lemma RowBottom(edges: seq<Connection>, raw: map<Id, Position>, ids: seq<Id>, x: int, y: int)
    requires Distinct(ids) && ids != []
    ensures Bottom(edges, raw + RowPositions(ids, x, y), y + Tallest(edges, ids) + ROW_GAP)
  {
    RowPositionOf(ids, x, y);
    TallestReached(edges, ids);
    var id :| id in ids && Height(edges, id) == Tallest(edges, ids);
    var c :| 0 <= c < |ids| && ids[c] == id;
    assert id in raw + RowPositions(ids, x, y);
  }

  /** The rows up to the `g`-th have been placed. */
  ghost predicate Placed(edges: seq<Connection>, ranks: map<Id, nat>, rows: map<nat, seq<Id>>, order: seq<nat>, g: nat,
                         columns: nat, raw: map<Id, Position>, y: int)
    requires g <= |order|
  {
    && y >= 64 && Above(edges, ranks, raw, if g == 0 then -1 else order[g - 1], y)
    && Tight(edges, ranks, raw) && Bottom(edges, raw, y)
    && Covered(rows, order, g, columns, raw)
  }

  lemma PlacedNothing(edges: seq<Connection>, ranks: map<Id, nat>, rows: map<nat, seq<Id>>, order: seq<nat>, columns: nat)
    ensures Placed(edges, ranks, rows, order, 0, columns, map[], 64)
  {
  }

  lemma PlacedNext(nodes: seq<Node>, edges: seq<Connection>, ranks: map<Id, nat>, rows: map<nat, seq<Id>>, order: seq<nat>,
                   g: nat, columns: nat, raw: map<Id, Position>, x: int, y: int)
    requires Distinct(NodeIdList(nodes)) && Rowed(nodes, ranks, rows) && Strict(order, NatOrder())
    requires g < |order| && order[g] in rows && |rows[order[g]]| <= columns && x == CardX(columns, |rows[order[g]]|, 0)
    requires Placed(edges, ranks, rows, order, g, columns, raw, y)
    ensures var ids := rows[order[g]];
      && Distinct(ids)
      && Placed(edges, ranks, rows, order, g + 1, columns, raw + RowPositions(ids, x, y),
                y + Tallest(edges, ids) + ROW_GAP)
  {
    var ids, r := rows[order[g]], order[g];
    RowMembers(nodes, ranks, r);
    RowDistinct(nodes, ranks, r);
    assert g > 0 ==> NatOrder()(order[g - 1], order[g]);
    RowAdded(edges, ranks, raw, ids, r, if g == 0 then -1 else order[g - 1], x, y);
    RowFacts(ranks, ids, r, x, y);
    RowTight(edges, ranks, raw, RowPositions(ids, x, y), r, y);
    RowBottom(edges, raw, ids, x, y);
    RowsCovered(rows, order, g, columns, raw, RowPositions(ids, x, y), y);
  }

  /** The IDs of the first `g` rows have their position within the row. */
  ghost predicate Covered(rows: map<nat, seq<Id>>, order: seq<nat>, g: nat, columns: nat, raw: map<Id, Position>)
    requires g <= |order|
  {
    forall k, c :: 0 <= k < g && order[k] in rows && 0 <= c < |rows[order[k]]| ==>
      rows[order[k]][c] in raw && raw[rows[order[k]][c]].x == CardX(columns, |rows[order[k]]|, c)
  }

  lemma RowsCovered(rows: map<nat, seq<Id>>, order: seq<nat>, g: nat, columns: nat, raw: map<Id, Position>,
                    row: map<Id, Position>, y: int)
    requires g < |order| && order[g] in rows && Covered(rows, order, g, columns, raw) && Distinct(rows[order[g]])
    requires row == RowPositions(rows[order[g]], CardX(columns, |rows[order[g]]|, 0), y) && row.Keys !! raw.Keys
    ensures Covered(rows, order, g + 1, columns, raw + row)
  {
    RowPositionOf(rows[order[g]], CardX(columns, |rows[order[g]]|, 0), y);
  }

  lemma ClampedUnion(a: map<Id, Position>, b: map<Id, Position>)
    ensures ClampedAll(a + b) == ClampedAll(a) + ClampedAll(b)
  {
  }

  lemma EverythingPlaced(nodes: seq<Node>, edges: seq<Connection>, ranks: map<Id, nat>, rows: map<nat, seq<Id>>,
                         order: seq<nat>, columns: nat, raw: map<Id, Position>, y: int)
    requires Rowed(nodes, ranks, rows) && Elements(order) == rows.Keys && ranks.Keys == Declared(nodes)
    requires Widest(rows, columns) && Placed(edges, ranks, rows, order, |order|, columns, raw, y)
    ensures Drawn(nodes, edges, ranks, rows, columns, raw)
  {
    forall r, c | r in rows && 0 <= c < |rows[r]|
      ensures rows[r][c] in raw && raw[rows[r][c]].x == CardX(columns, |rows[r]|, c)
    {
      assert r in Elements(order);
      var k :| 0 <= k < |order| && order[k] == r;
    }
    forall n | n in nodes ensures n.id in raw {
      var r := ranks[n.id];
      RowMembers(nodes, ranks, r);
      var c :| 0 <= c < |rows[r]| && rows[r][c] == n.id;
    }
  }

  /** The unclamped layout by ranks: which row a card is in, where in the row, and how low the row is. */
  ghost predicate Drawn(nodes: seq<Node>, edges: seq<Connection>, ranks: map<Id, nat>, rows: map<nat, seq<Id>>,
                        columns: nat, raw: map<Id, Position>) {
    && Rowed(nodes, ranks, rows) && Widest(rows, columns) && Centred(rows, columns, raw)
    && Spread(edges, ranks, raw) && Tight(edges, ranks, raw) && raw.Keys == Declared(nodes)
  }

  method PlaceRows(nodes: seq<Node>, edges: seq<Connection>, ranks: map<Id, nat>, rows: map<nat, seq<Id>>)
    returns (positions: map<Id, Position>, ghost columns: nat, ghost raw: map<Id, Position>)
    requires Distinct(NodeIdList(nodes)) && Rowed(nodes, ranks, rows) && ranks.Keys == Declared(nodes)
    ensures Drawn(nodes, edges, ranks, rows, columns, raw) && positions == ClampedAll(raw)
  {
    var order := SortSet(rows.Keys, NatOrder());
    var width := Columns(rows, order);
    columns := width;
    assert forall r :: r in order ==> r in Elements(order);
    ghost var bottom;
    positions, raw, bottom := PlaceInOrder(nodes, edges, ranks, rows, order, width);
    EverythingPlaced(nodes, edges, ranks, rows, order, columns, raw, bottom);
  }

  method PlaceInOrder(ghost nodes: seq<Node>, edges: seq<Connection>, ghost ranks: map<Id, nat>, rows: map<nat, seq<Id>>,
                      order: seq<nat>, columns: nat)
    returns (positions: map<Id, Position>, ghost raw: map<Id, Position>, ghost bottom: int)
    requires Distinct(NodeIdList(nodes)) && Rowed(nodes, ranks, rows) && Strict(order, NatOrder())
    requires forall r :: r in order ==> r in rows && |rows[r]| <= columns
    ensures Placed(edges, ranks, rows, order, |order|, columns, raw, bottom) && positions == ClampedAll(raw)
  {
    var y := 64;
    positions, raw := map[], map[];
    PlacedNothing(edges, ranks, rows, order, columns);
    for g := 0 to |order|
      invariant Placed(edges, ranks, rows, order, g, columns, raw, y) && positions == ClampedAll(raw)
    {
      positions, y, raw := PlaceNext(nodes, edges, ranks, rows, order, g, columns, positions, y, raw);
    }
    bottom := y;
  }

  /** One row: centred, and followed by a gap below its tallest card. */
  method PlaceNext(ghost nodes: seq<Node>, edges: seq<Connection>, ghost ranks: map<Id, nat>, rows: map<nat, seq<Id>>,
                   order: seq<nat>, g: nat, columns: nat, positions: map<Id, Position>, y: int, ghost raw: map<Id, Position>)
    returns (positions': map<Id, Position>, y': int, ghost raw': map<Id, Position>)
    requires Distinct(NodeIdList(nodes)) && Rowed(nodes, ranks, rows) && Strict(order, NatOrder())
    requires g < |order| && order[g] in rows && |rows[order[g]]| <= columns
    requires Placed(edges, ranks, rows, order, g, columns, raw, y) && positions == ClampedAll(raw)
    ensures Placed(edges, ranks, rows, order, g + 1, columns, raw', y') && positions' == ClampedAll(raw')
  {
    var ids := rows[order[g]];
    var x := 80 + (columns - |ids|) * 144;
    PlacedNext(nodes, edges, ranks, rows, order, g, columns, raw, x, y);
    positions' := PlaceRow(positions, ids, x, y);
    ClampedUnion(raw, RowPositions(ids, x, y));
    raw' := raw + RowPositions(ids, x, y);
    y' := y + Tallest(edges, ids) + ROW_GAP;
  }

  /** The positions are those drawn by `ranks`, clamped to the canvas. */
  ghost predicate LaidOut(nodes: seq<Node>, edges: seq<Connection>, ranks: map<Id, nat>, positions: map<Id, Position>) {
    exists rows: map<nat, seq<Id>>, columns: nat, raw: map<Id, Position> ::
      Drawn(nodes, edges, ranks, rows, columns, raw) && positions == ClampedAll(raw)
  }

  /** The rows, the width and the unclamped positions behind a layout. */
  lemma Unclamped(nodes: seq<Node>, edges: seq<Connection>, ranks: map<Id, nat>, positions: map<Id, Position>)
    returns (rows: map<nat, seq<Id>>, columns: nat, raw: map<Id, Position>)
    requires LaidOut(nodes, edges, ranks, positions)
    ensures Drawn(nodes, edges, ranks, rows, columns, raw) && positions == ClampedAll(raw)
  {
    rows, columns, raw :| Drawn(nodes, edges, ranks, rows, columns, raw) && positions == ClampedAll(raw);
  }

  // ---- The layout is determined ----

  ghost predicate SameOrder(a: map<Id, nat>, b: map<Id, nat>) {
    a.Keys == b.Keys && forall x, y :: x in a && y in a && a[x] < a[y] ==> b[x] < b[y]
  }

  lemma LayeredPair(nodes: seq<Node>, edges: seq<Connection>, a: map<Id, nat>, b: map<Id, nat>, i: nat, j: nat)
    requires i < |nodes| && j < |nodes| && Layered(nodes, edges, a) && Layered(nodes, edges, b)
    requires nodes[i].id in a && nodes[j].id in a && a[nodes[i].id] < a[nodes[j].id]
    ensures nodes[i].id in b && nodes[j].id in b && b[nodes[i].id] < b[nodes[j].id]
  {
    var n, m := nodes[i], nodes[j];
    if !n.End? && !m.End? && Reached(nodes, edges, n.id) && Reached(nodes, edges, m.id) {
      DistanceUnique(nodes, edges, n.id, a[n.id], b[n.id]);
      DistanceUnique(nodes, edges, m.id, a[m.id], b[m.id]);
    }
  }

  /** Two rankings by layers order the nodes alike, whatever numbers they use. */
  lemma LayeredOrder(nodes: seq<Node>, edges: seq<Connection>, a: map<Id, nat>, b: map<Id, nat>)
    requires Layered(nodes, edges, a) && Layered(nodes, edges, b)
    ensures SameOrder(a, b)
  {
    forall x, y | x in a && y in a && a[x] < a[y] ensures x in b && y in b && b[x] < b[y] {
      var i :| 0 <= i < |nodes| && nodes[i].id == x;
      var j :| 0 <= j < |nodes| && nodes[j].id == y;
      LayeredPair(nodes, edges, a, b, i, j);
    }
  }

  lemma {:induction false} SameRow(nodes: seq<Node>, a: map<Id, nat>, b: map<Id, nat>, id: Id)
    requires SameOrder(a, b) && SameOrder(b, a) && id in a
    ensures RowIds(nodes, a, a[id]) == RowIds(nodes, b, b[id])
  {
    if nodes != [] {
      SameRow(nodes[..|nodes| - 1], a, b, id);
      var n := nodes[|nodes| - 1];
      assert n.id in a ==> (a[n.id] == a[id] <==> b[n.id] == b[id]);
    }
  }

  /** The row of a node, under two rankings that agree on the order. */
  lemma SameRows(nodes: seq<Node>, a: map<Id, nat>, b: map<Id, nat>, rowsA: map<nat, seq<Id>>, rowsB: map<nat, seq<Id>>,
                 id: Id)
    requires Rowed(nodes, a, rowsA) && Rowed(nodes, b, rowsB) && SameOrder(a, b) && SameOrder(b, a)
    requires id in Declared(nodes) && id in a
    ensures a[id] in rowsA && b[id] in rowsB && rowsA[a[id]] == rowsB[b[id]] && id in rowsA[a[id]]
  {
    SameRow(nodes, a, b, id);
    RowMembers(nodes, a, a[id]);
  }

  lemma NotWider(nodes: seq<Node>, a: map<Id, nat>, b: map<Id, nat>, rowsA: map<nat, seq<Id>>, rowsB: map<nat, seq<Id>>,
                 m: nat, n: nat)
    requires Rowed(nodes, a, rowsA) && Rowed(nodes, b, rowsB) && SameOrder(a, b) && SameOrder(b, a)
    requires Widest(rowsA, m) && Widest(rowsB, n)
    ensures m <= n
  {
    if rowsA == map[] {
      if r :| r in rowsB {
        assert |rowsB[r]| > 0;
      }
    } else {
      var r :| r in rowsA && |rowsA[r]| == m;
      RowMembers(nodes, a, r);
      assert rowsA[r][0] in rowsA[r];
      SameRows(nodes, a, b, rowsA, rowsB, rowsA[r][0]);
    }
  }

  lemma SameColumn(rowsA: map<nat, seq<Id>>, rowsB: map<nat, seq<Id>>, columns: nat, p: map<Id, Position>,
                   q: map<Id, Position>, r: nat, k: nat, id: Id)
    requires r in rowsA && k in rowsB && rowsA[r] == rowsB[k] && id in rowsA[r]
    requires Centred(rowsA, columns, p) && Centred(rowsB, columns, q)
    ensures id in p && id in q && p[id].x == q[id].x
  {
    var c :| 0 <= c < |rowsA[r]| && rowsA[r][c] == id;
    assert rowsA[r][c] in p && rowsB[k][c] in q;
  }

  /** A tight layout is nowhere lower than any other over the same order. */
  lemma {:induction false} NotLower(edges: seq<Connection>, a: map<Id, nat>, b: map<Id, nat>, p: map<Id, Position>,
                                    q: map<Id, Position>, id: Id)
    requires SameOrder(a, b) && p.Keys == q.Keys && id in p && id in a
    requires Tight(edges, a, p) && Spread(edges, b, q)
    ensures p[id].y <= q[id].y
    decreases a[id]
  {
    assert Rests(edges, a, p, a[id], p[id].y);
    if x :| x in p && x in a && a[x] < a[id] && p[x].y + Height(edges, x) + ROW_GAP == p[id].y {
      NotLower(edges, a, b, p, q, x);
      assert q[x].y + Height(edges, x) + ROW_GAP <= q[id].y;
    }
  }

  lemma SameCard(nodes: seq<Node>, edges: seq<Connection>, a: map<Id, nat>, b: map<Id, nat>, rowsA: map<nat, seq<Id>>,
                 rowsB: map<nat, seq<Id>>, columns: nat, p: map<Id, Position>, q: map<Id, Position>, id: Id)
    requires SameOrder(a, b) && SameOrder(b, a) && id in a && id in Declared(nodes)
    requires Drawn(nodes, edges, a, rowsA, columns, p) && Drawn(nodes, edges, b, rowsB, columns, q)
    ensures id in p && id in q && p[id] == q[id]
  {
    SameRows(nodes, a, b, rowsA, rowsB, id);
    SameColumn(rowsA, rowsB, columns, p, q, a[id], b[id], id);
    NotLower(edges, a, b, p, q, id);
    NotLower(edges, b, a, q, p, id);
  }

  lemma SameWidth(nodes: seq<Node>, edges: seq<Connection>, a: map<Id, nat>, b: map<Id, nat>, rowsA: map<nat, seq<Id>>,
                  rowsB: map<nat, seq<Id>>, m: nat, n: nat, p: map<Id, Position>, q: map<Id, Position>)
    requires SameOrder(a, b) && SameOrder(b, a)
    requires Drawn(nodes, edges, a, rowsA, m, p) && Drawn(nodes, edges, b, rowsB, n, q)
    ensures m == n && p.Keys == q.Keys == Declared(nodes)
  {
    NotWider(nodes, a, b, rowsA, rowsB, m, n);
    NotWider(nodes, b, a, rowsB, rowsA, n, m);
  }

  lemma SameDrawing(nodes: seq<Node>, edges: seq<Connection>, a: map<Id, nat>, b: map<Id, nat>, rowsA: map<nat, seq<Id>>,
                    rowsB: map<nat, seq<Id>>, columns: nat, p: map<Id, Position>, q: map<Id, Position>)
    requires SameOrder(a, b) && SameOrder(b, a) && a.Keys == p.Keys == q.Keys == Declared(nodes)
    requires Drawn(nodes, edges, a, rowsA, columns, p) && Drawn(nodes, edges, b, rowsB, columns, q)
    ensures p == q
  {
    forall id | id in p ensures p[id] == q[id] {
      SameCard(nodes, edges, a, b, rowsA, rowsB, columns, p, q, id);
    }
  }

  /** A layout of the graph by layers, rows and heights. */
  ghost predicate LayoutOf(nodes: seq<Node>, edges: seq<Connection>, positions: map<Id, Position>) {
    exists ranks: map<Id, nat> :: Layered(nodes, edges, ranks) && LaidOut(nodes, edges, ranks, positions)
  }

  /** The graph determines every position: distances and the order of definition leave nothing open. */
  lemma LayoutUnique(nodes: seq<Node>, edges: seq<Connection>, p: map<Id, Position>, q: map<Id, Position>)
    requires LayoutOf(nodes, edges, p) && LayoutOf(nodes, edges, q)
    ensures p == q
  {
    var a: map<Id, nat> :| Layered(nodes, edges, a) && LaidOut(nodes, edges, a, p);
    var b: map<Id, nat> :| Layered(nodes, edges, b) && LaidOut(nodes, edges, b, q);
    LayeredOrder(nodes, edges, a, b);
    LayeredOrder(nodes, edges, b, a);
    var rowsP, columnsP, rawP := Unclamped(nodes, edges, a, p);
    var rowsQ, columnsQ, rawQ := Unclamped(nodes, edges, b, q);
    SameWidth(nodes, edges, a, b, rowsP, rowsQ, columnsP, columnsQ, rawP, rawQ);
    SameDrawing(nodes, edges, a, b, rowsP, rowsQ, columnsP, rawP, rawQ);
  }

  // ---- What a layout guarantees ----

  /** The cards at `a` and `b` do not touch. */
  predicate Apart(edges: seq<Connection>, positions: map<Id, Position>, a: Id, b: Id)
    requires a in positions && b in positions
  {
    var p, q := positions[a], positions[b];
    || p.x + NODE_WIDTH < q.x || q.x + NODE_WIDTH < p.x
    || p.y + Height(edges, a) < q.y || q.y + Height(edges, b) < p.y
  }

  predicate Inside(p: Position) {
    p.x < CANVAS && p.y < CANVAS
  }

  lemma SpreadApart(edges: seq<Connection>, ranks: map<Id, nat>, raw: map<Id, Position>, a: Id, b: Id)
    requires Spread(edges, ranks, raw) && a in raw && b in raw && a != b
    ensures Apart(edges, raw, a, b) && raw[a] != raw[b]
  {
    if ranks[a] < ranks[b] {
      assert raw[a].y + Height(edges, a) + ROW_GAP <= raw[b].y;
    } else if ranks[b] < ranks[a] {
      assert raw[b].y + Height(edges, b) + ROW_GAP <= raw[a].y;
    }
  }

  /** Two cards that are not at the edge of the canvas never overlap; in particular no two nodes inside the canvas
      share a position. Every node has a position. */
  lemma NoOverlap(nodes: seq<Node>, edges: seq<Connection>, ranks: map<Id, nat>, positions: map<Id, Position>, a: Id, b: Id)
    requires LaidOut(nodes, edges, ranks, positions) && a in Declared(nodes) && b in Declared(nodes) && a != b
    ensures a in positions && b in positions
    ensures Inside(positions[a]) && Inside(positions[b]) ==> Apart(edges, positions, a, b) && positions[a] != positions[b]
  {
    var rows, columns, raw := Unclamped(nodes, edges, ranks, positions);
    SpreadApart(edges, ranks, raw, a, b);
    ClampInside(raw[a]);
    ClampInside(raw[b]);
  }

  /** Clamping moves no position that ends up inside the canvas. */
  lemma ClampInside(p: Position)
    requires p.x >= 0 && p.y >= 0
    ensures Inside(Clamped(p)) ==> Clamped(p) == p
  {
  }

  /** Cards of a smaller rank are never drawn below cards of a larger one, clamped or not. */
  lemma RowsDescend(nodes: seq<Node>, edges: seq<Connection>, ranks: map<Id, nat>, positions: map<Id, Position>, a: Id, b: Id)
    requires LaidOut(nodes, edges, ranks, positions) && a in Declared(nodes) && b in Declared(nodes)
    requires a in ranks && b in ranks && ranks[a] < ranks[b]
    ensures a in positions && b in positions && positions[a].y <= positions[b].y
    ensures positions[a].y == positions[b].y ==> positions[b].y == CANVAS
  {
    var rows, columns, raw := Unclamped(nodes, edges, ranks, positions);
    DrawnDescends(nodes, edges, ranks, rows, columns, raw, a, b);
    ClampOrdered(raw[a], raw[b]);
  }

  lemma DrawnDescends(nodes: seq<Node>, edges: seq<Connection>, ranks: map<Id, nat>, rows: map<nat, seq<Id>>, columns: nat,
                      raw: map<Id, Position>, a: Id, b: Id)
    requires Drawn(nodes, edges, ranks, rows, columns, raw) && a in Declared(nodes) && b in Declared(nodes)
    requires a in ranks && b in ranks && ranks[a] < ranks[b]
    ensures a in raw && b in raw && 64 <= raw[a].y < raw[b].y
  {
    assert raw[a].y + Height(edges, a) + ROW_GAP <= raw[b].y;
  }

  lemma ClampOrdered(p: Position, q: Position)
    requires 0 <= p.y < q.y
    ensures Clamped(p).y <= Clamped(q).y && (Clamped(p).y == Clamped(q).y ==> Clamped(q).y == CANVAS)
  {
  }

  /** The whole layout: ranks by distance, rows by rank. */
  method Layout(nodes: seq<Node>, edges: seq<Connection>) returns (positions: map<Id, Position>)
    requires Distinct(NodeIdList(nodes))
    ensures LayoutOf(nodes, edges, positions)
    ensures positions.Keys == Declared(nodes)
  {
    var ranks := Layers(nodes, edges);
    positions := PlaceRanks(nodes, edges, ranks);
  }

  method PlaceRanks(nodes: seq<Node>, edges: seq<Connection>, ranks: map<Id, nat>) returns (positions: map<Id, Position>)
    requires Distinct(NodeIdList(nodes)) && ranks.Keys == Declared(nodes)
    ensures LaidOut(nodes, edges, ranks, positions) && positions.Keys == Declared(nodes)
  {
    assert forall n :: n in nodes ==> n.id in Declared(nodes);
    var rows := Rows(nodes, ranks);
    ghost var columns, raw;
    positions, columns, raw := PlaceRows(nodes, edges, ranks, rows);
    LaidOutBy(nodes, edges, ranks, rows, columns, raw);
  }

  lemma LaidOutBy(nodes: seq<Node>, edges: seq<Connection>, ranks: map<Id, nat>, rows: map<nat, seq<Id>>, columns: nat,
                  raw: map<Id, Position>)
    requires Drawn(nodes, edges, ranks, rows, columns, raw)
    ensures LaidOut(nodes, edges, ranks, ClampedAll(raw)) && ClampedAll(raw).Keys == Declared(nodes)
  {
  }
}
