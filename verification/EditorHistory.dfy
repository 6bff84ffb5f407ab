/** Bounded undo and redo: one timeline of documents with a position in it. */
module EditorHistory {
  import opened Wrappers

  const LIMIT := 100

  function Reversed<T>(s: seq<T>): (r: seq<T>)
    ensures |r| == |s| && forall i :: 0 <= i < |s| ==> r[i] == s[|s| - 1 - i]
  {
    if s == [] then [] else Reversed(s[1..]) + [s[0]]
  }

  datatype History<T> = History(past: seq<T>, document: T, future: seq<T>) {

    /** Every document that undo or redo can still reach, oldest first. */
    function Timeline(): seq<T> {
      past + [document] + Reversed(future)
    }

    predicate Bounded() {
      |past| + |future| <= LIMIT
    }

    function Checkpointed(): History<T> {
      History((if |past| == LIMIT then past[1..] else past) + [document], document, [])
    }

    function Edited(next: T): History<T> {
      Checkpointed().(document := next)
    }

    function Undone(): History<T> {
      if past == [] then this else History(past[..|past| - 1], past[|past| - 1], future + [document])
    }

    function Redone(): History<T> {
      if future == [] then this else History(past + [document], future[|future| - 1], future[..|future| - 1])
    }
  }

  datatype Move = Undo | Redo

  function Moved<T>(h: History<T>, moves: seq<Move>): History<T>
    decreases |moves|
  {
    if moves == [] then h
    else Moved(if moves[0].Undo? then h.Undone() else h.Redone(), moves[1..])
  }

  lemma ReversedEnds<T>(s: seq<T>, x: T)
    ensures Reversed(s + [x]) == [x] + Reversed(s)
  {
  }

  lemma UndoKeepsTimeline<T>(h: History<T>)
    ensures h.Undone().Timeline() == h.Timeline()
    ensures |h.Undone().past| + |h.Undone().future| == |h.past| + |h.future|
  {
    if h.past != [] {
      ReversedEnds(h.future, h.document);
    }
  }

  lemma RedoKeepsTimeline<T>(h: History<T>)
    ensures h.Redone().Timeline() == h.Timeline()
    ensures |h.Redone().past| + |h.Redone().future| == |h.past| + |h.future|
  {
    if h.future != [] {
      var last := |h.future| - 1;
      ReversedEnds(h.future[..last], h.future[last]);
      assert h.future == h.future[..last] + [h.future[last]];
    }
  }

  /** Undo and redo, in any mixture, only move along one fixed timeline. */
  lemma {:induction false} MovesKeepTimeline<T>(h: History<T>, moves: seq<Move>)
    ensures Moved(h, moves).Timeline() == h.Timeline()
    ensures h.Bounded() ==> Moved(h, moves).Bounded()
    decreases |moves|
  {
    if moves != [] {
      UndoKeepsTimeline(h);
      RedoKeepsTimeline(h);
      MovesKeepTimeline(if moves[0].Undo? then h.Undone() else h.Redone(), moves[1..]);
    }
  }

  /** Two positions on one timeline with equally long pasts are the same position. */
  lemma TimelinePosition<T>(g: History<T>, h: History<T>)
    requires g.Timeline() == h.Timeline() && |g.past| == |h.past|
    ensures g == h
  {
    var n := |g.past|;
    assert g.past == g.Timeline()[..n] && h.past == h.Timeline()[..n];
    assert g.document == g.Timeline()[n] && h.document == h.Timeline()[n];
    assert Reversed(g.future) == g.Timeline()[n + 1..] && Reversed(h.future) == h.Timeline()[n + 1..];
    forall i | 0 <= i < |g.future| ensures g.future[i] == h.future[i] {
      assert g.future[i] == Reversed(g.future)[|g.future| - 1 - i];
      assert h.future[i] == Reversed(h.future)[|h.future| - 1 - i];
    }
  }

  function Repeated(move: Move, n: nat): seq<Move> {
    seq(n, _ => move)
  }

  lemma {:induction false} UndoMoves<T>(h: History<T>, n: nat)
    requires n <= |h.past|
    ensures |Moved(h, Repeated(Undo, n)).past| == |h.past| - n
    ensures |Moved(h, Repeated(Undo, n)).future| == |h.future| + n
    decreases n
  {
    if n > 0 {
      assert Repeated(Undo, n)[1..] == Repeated(Undo, n - 1);
      UndoMoves(h.Undone(), n - 1);
    }
  }

  lemma {:induction false} RedoMoves<T>(h: History<T>, n: nat)
    requires n <= |h.future|
    ensures |Moved(h, Repeated(Redo, n)).past| == |h.past| + n
    decreases n
  {
    if n > 0 {
      assert Repeated(Redo, n)[1..] == Repeated(Redo, n - 1);
      RedoMoves(h.Redone(), n - 1);
    }
  }

  /** Redoing what was undone restores the exact state, however far back the undoing went. */
  lemma RedoInvertsUndo<T>(h: History<T>, n: nat)
    requires n <= |h.past|
    ensures Moved(Moved(h, Repeated(Undo, n)), Repeated(Redo, n)) == h
  {
    var back := Moved(h, Repeated(Undo, n));
    UndoMoves(h, n);
    RedoMoves(back, n);
    MovesKeepTimeline(h, Repeated(Undo, n));
    MovesKeepTimeline(back, Repeated(Redo, n));
    TimelinePosition(Moved(back, Repeated(Redo, n)), h);
  }

  /** An edit drops the undone part of the timeline and appends one entry; undo returns to the edited document. */
  lemma EditExtendsTimeline<T>(h: History<T>, next: T)
    requires h.Bounded()
    ensures h.Edited(next).Bounded()
    ensures var kept := h.past + [h.document];
      h.Edited(next).Timeline() == (if |h.past| == LIMIT then kept[1..] else kept) + [next]
    ensures h.Edited(next).Undone().document == h.document
    ensures |h.past| < LIMIT ==> h.Edited(next).Undone().past == h.past
  {
  }

  // ---- The editing session ----

  class EditorState<T(==)> {
    var document: T
    var past: seq<T>
    var future: seq<T>

    function State(): History<T>
      reads this
    {
      History(past, document, future)
    }

    ghost predicate Valid()
      reads this
    {
      State().Bounded()
    }

    constructor (document: T)
      ensures State() == History([], document, []) && Valid()
    {
      this.document, past, future := document, [], [];
    }

    /** Applies an edit, given by its outcome on a copy of the document. */
    method Edit<R, E>(edit: T -> Result<(T, R), E>) returns (r: Result<R, E>)
      requires Valid()
      modifies this
      ensures Valid()
      ensures match edit(old(document))
        case Ok((next, value)) => r == Ok(value) && State() == old(State()).Edited(next)
        case Err(error) => r == Err(error) && State() == old(State())
    {
      var outcome := edit(document);
      if outcome.Err? {
        return Err(outcome.error);
      }
      Checkpoint();
      document := outcome.value.0;
      r := Ok(outcome.value.1);
    }

    method Checkpoint()
      requires Valid()
      modifies this
      ensures Valid() && State() == old(State()).Checkpointed()
    {
      if |past| == LIMIT {
        past := past[1..];
      }
      past := past + [document];
      future := [];
    }

    method Undo()
      requires Valid()
      modifies this
      ensures Valid() && State() == old(State()).Undone() && State().Timeline() == old(State()).Timeline()
    {
      UndoKeepsTimeline(State());
      if past != [] {
        var previous := past[|past| - 1];
        past := past[..|past| - 1];
        future := future + [document];
        document := previous;
      }
    }

    method Redo()
      requires Valid()
      modifies this
      ensures Valid() && State() == old(State()).Redone() && State().Timeline() == old(State()).Timeline()
    {
      RedoKeepsTimeline(State());
      if future != [] {
        var next := future[|future| - 1];
        future := future[..|future| - 1];
        past := past + [document];
        document := next;
      }
    }
  }
}
