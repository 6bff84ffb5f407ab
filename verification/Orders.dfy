/** Sorting by a strict order, and why its outcome depends only on the set of elements. */
module Orders {

  ghost predicate TotalOn<T(!new)>(s: set<T>, less: (T, T) -> bool) {
    && (forall a, b :: a in s && b in s && a != b ==> (less(a, b) <==> !less(b, a)))
    && (forall a :: a in s ==> !less(a, a))
    && (forall a, b, c :: a in s && b in s && c in s && less(a, b) && less(b, c) ==> less(a, c))
  }

  ghost predicate Strict<T>(q: seq<T>, less: (T, T) -> bool) {
    forall i, j :: 0 <= i < j < |q| ==> less(q[i], q[j])
  }

  function Elements<T>(q: seq<T>): set<T> {
    set x | x in q
  }

  function Insert<T>(q: seq<T>, x: T, less: (T, T) -> bool): seq<T> {
    if q == [] then [x]
    else if less(x, q[0]) then [x] + q
    else [q[0]] + Insert(q[1..], x, less)
  }

  lemma {:induction false} InsertElements<T>(q: seq<T>, x: T, less: (T, T) -> bool)
    ensures Elements(Insert(q, x, less)) == Elements(q) + {x}
  {
    if q != [] && !less(x, q[0]) {
      InsertElements(q[1..], x, less);
      assert Elements(q) == {q[0]} + Elements(q[1..]);
      assert Elements([q[0]] + Insert(q[1..], x, less)) == {q[0]} + Elements(Insert(q[1..], x, less));
    }
  }

  lemma {:induction false} InsertStrict<T(!new)>(q: seq<T>, x: T, s: set<T>, less: (T, T) -> bool)
    requires TotalOn(s, less) && Elements(q) <= s && x in s && x !in q && Strict(q, less)
    ensures Strict(Insert(q, x, less), less)
  {
    if q != [] {
      assert q[0] in Elements(q);
      if less(x, q[0]) {
        forall j | 0 <= j < |q| ensures less(x, q[j]) {
          assert q[j] in Elements(q);
        }
      } else {
        var rest := Insert(q[1..], x, less);
        assert Elements(q[1..]) <= Elements(q);
        InsertStrict(q[1..], x, s, less);
        InsertElements(q[1..], x, less);
        forall j | 0 <= j < |rest| ensures less(q[0], rest[j]) {
          assert rest[j] in Elements(rest);
        }
      }
    }
  }

  /** Two strictly sorted lists of the same elements are the same list. */
  lemma {:induction false} StrictUnique<T(!new)>(p: seq<T>, q: seq<T>, s: set<T>, less: (T, T) -> bool)
    requires TotalOn(s, less) && Elements(p) == s && Elements(q) == s && Strict(p, less) && Strict(q, less)
    ensures p == q
    decreases |p|
  {
    assert q != [] ==> q[0] in Elements(q);
    if p == [] {
      assert q == [];
    } else {
      assert p[0] in Elements(p);
      var k :| 0 <= k < |q| && q[k] == p[0];
      var j :| 0 <= j < |p| && p[j] == q[0];
      var first, other := p[0], q[0];
      assert k > 0 ==> less(other, first);
      assert j > 0 ==> less(first, other);
      assert first == other;
      StrictTail(p, less);
      StrictTail(q, less);
      var rest := s - {p[0]};
      assert Elements(p[1..]) == rest && Elements(q[1..]) == rest;
      StrictUnique(p[1..], q[1..], rest, less);
    }
  }

  lemma StrictTail<T(!new)>(q: seq<T>, less: (T, T) -> bool)
    requires q != [] && TotalOn(Elements(q), less) && Strict(q, less)
    ensures Strict(q[1..], less) && Elements(q[1..]) == Elements(q) - {q[0]} && q[0] !in q[1..]
  {
    assert q[0] in Elements(q);
    forall j | 0 <= j < |q[1..]| ensures q[1..][j] != q[0] {
      assert less(q[0], q[j + 1]);
    }
    forall x ensures x in Elements(q[1..]) <==> x in Elements(q) - {q[0]} {
      if x in q && x != q[0] {
        var j :| 0 <= j < |q| && q[j] == x;
        assert q[1..][j - 1] == x;
      }
    }
  }

  lemma {:induction false} Arrange<T(!new)>(s: set<T>, less: (T, T) -> bool) returns (q: seq<T>)
    requires TotalOn(s, less)
    ensures Elements(q) == s && Strict(q, less)
    decreases s
  {
    q := [];
    if s != {} {
      var x :| x in s;
      var rest := Arrange(s - {x}, less);
      assert x !in Elements(rest);
      InsertStrict(rest, x, s, less);
      InsertElements(rest, x, less);
      q := Insert(rest, x, less);
    }
  }

  /** The one strictly sorted list of a set. */
  ghost function Arranged<T(!new)>(s: set<T>, less: (T, T) -> bool): (q: seq<T>)
    requires TotalOn(s, less)
    ensures Elements(q) == s && Strict(q, less)
  {
    assert exists q: seq<T> :: Elements(q) == s && Strict(q, less) by {
      var q := Arrange(s, less);
    }
    var q: seq<T> :| Elements(q) == s && Strict(q, less);
    q
  }

  method SortSet<T(==, !new)>(s: set<T>, less: (T, T) -> bool) returns (q: seq<T>)
    requires TotalOn(s, less)
    ensures q == Arranged(s, less)
  {
    q := [];
    var left := s;
    while left != {}
      invariant left <= s && Elements(q) == s - left && Strict(q, less)
      decreases left
    {
      var x :| x in left;
      assert x !in Elements(q);
      InsertStrict(q, x, s, less);
      InsertElements(q, x, less);
      q := Insert(q, x, less);
      left := left - {x};
    }
    StrictUnique(q, Arranged(s, less), s, less);
  }
}
