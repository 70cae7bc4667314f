/**
 * The undo/redo history as a value: a linear log of actions and a cursor.
 * Entries before the cursor are the done actions (undo takes them from the
 * back); entries from the cursor on are the undone ones (redo takes them
 * from the front). Recording a new action discards the undone ones.
 */
module History {
  import opened Actions

  datatype Log = Log(entries: seq<Action>, cursor: nat) {
    predicate Valid() {
      cursor <= |entries|
    }

    /** Actions that undo can still reach, oldest first. */
    function Done(): seq<Action>
      requires Valid()
    {
      entries[..cursor]
    }

    /** Undone actions that redo can bring back, next one first. */
    function Undone(): seq<Action>
      requires Valid()
    {
      entries[cursor..]
    }

    /** The most recently done action. */
    function Latest(): Action
      requires Valid() && cursor > 0
    {
      entries[cursor - 1]
    }
  }

  /** The cleared history. */
  function Empty(): (h: Log)
    ensures h.Valid() && h.Done() == [] && h.Undone() == []
  {
    Log([], 0)
  }

  /** The history with every undone action discarded. */
  function Truncated(h: Log): (t: Log)
    requires h.Valid()
    ensures t.Valid() && t.Done() == h.Done() && t.Undone() == []
  {
    Log(h.entries[..h.cursor], h.cursor)
  }

  /** The history after recording a: the undone actions are gone and a is the latest done one. */
  function Added(h: Log, a: Action): (r: Log)
    requires h.Valid()
    ensures r.Valid() && r.Done() == h.Done() + [a] && r.Undone() == []
    ensures |r.entries| == h.cursor + 1 && r.cursor == |r.entries| && r.Latest() == a
  {
    Log(h.entries[..h.cursor] + [a], h.cursor + 1)
  }

  /** after is before with exactly one more action recorded, as its latest done one. */
  predicate Records(before: Log, after: Log) {
    && before.Valid() && after.Valid() && after.cursor > 0
    && after == Added(before, after.Latest())
  }

  /**
   * Stepping back for an undo: the latest done action moves to the front of
   * the undone ones and is returned; at the beginning the start sentinel is
   * returned and nothing moves.
   */
  function Previous(h: Log): (r: (Action, Log))
    requires h.Valid()
    ensures r.1.Valid() && r.1.entries == h.entries
    ensures h.cursor == 0 ==> r == (Start, h)
    ensures h.cursor > 0 ==>
      && r.0 == h.Latest() && r.1.cursor == h.cursor - 1
      && r.1.Done() + [r.0] == h.Done() && r.1.Undone() == [r.0] + h.Undone()
  {
    if h.cursor > 0 then (h.entries[h.cursor - 1], Log(h.entries, h.cursor - 1))
    else (Start, h)
  }

  /**
   * Stepping forward for a redo: the first undone action moves to the back
   * of the done ones and is returned; at the end the blank sentinel is
   * returned and nothing moves.
   */
  function Next(h: Log): (r: (Action, Log))
    requires h.Valid()
    ensures r.1.Valid() && r.1.entries == h.entries
    ensures h.cursor == |h.entries| ==> r == (Blank, h)
    ensures h.cursor < |h.entries| ==>
      && r.0 == h.Undone()[0] && r.1.cursor == h.cursor + 1
      && r.1.Done() == h.Done() + [r.0] && [r.0] + r.1.Undone() == h.Undone()
  {
    if h.cursor < |h.entries| then (h.entries[h.cursor], Log(h.entries, h.cursor + 1))
    else (Blank, h)
  }

  /** A cleared history hands out the start sentinel to undo and the blank one to redo. */
  lemma EmptyEnds()
    ensures Previous(Empty()) == (Start, Empty())
    ensures Next(Empty()) == (Blank, Empty())
  {
  }

  /** An undo step followed by a redo step hands out the same action and restores the history. */
  lemma PreviousThenNext(h: Log)
    requires h.Valid() && h.cursor > 0
    ensures Next(Previous(h).1) == (Previous(h).0, h)
  {
  }

  /** A redo step followed by an undo step hands out the same action and restores the history. */
  lemma NextThenPrevious(h: Log)
    requires h.Valid() && h.cursor < |h.entries|
    ensures Previous(Next(h).1) == (Next(h).0, h)
  {
  }

  /** The history after recording each of acts in turn. */
  function AddAll(h: Log, acts: seq<Action>): (r: Log)
    requires h.Valid()
    ensures r.Valid()
    decreases |acts|
  {
    if acts == [] then h else AddAll(Added(h, acts[0]), acts[1..])
  }

  /** The history after k undo steps. */
  function StepBack(h: Log, k: nat): (r: Log)
    requires h.Valid()
    ensures r.Valid()
    decreases k
  {
    if k == 0 then h else StepBack(Previous(h).1, k - 1)
  }

  /** Recording a non-empty run of actions appends them to the done ones and leaves nothing to redo. */
  lemma {:induction false} AddAllAppends(h: Log, acts: seq<Action>)
    requires h.Valid() && acts != []
    ensures AddAll(h, acts).Done() == h.Done() + acts
    ensures AddAll(h, acts).Undone() == []
    decreases |acts|
  {
    var h' := Added(h, acts[0]);
    if |acts| > 1 {
      AddAllAppends(h', acts[1..]);
      assert h.Done() + acts == h'.Done() + acts[1..] by {
        assert acts == [acts[0]] + acts[1..];
      }
    }
  }

  /** Undo steps within the done actions only move the cursor. */
  lemma {:induction false} StepBackMovesCursor(h: Log, k: nat)
    requires h.Valid() && k <= h.cursor
    ensures StepBack(h, k).entries == h.entries
    ensures StepBack(h, k).cursor == h.cursor - k
    decreases k
  {
    if k > 0 {
      StepBackMovesCursor(Previous(h).1, k - 1);
    }
  }

  /** Recording a run of actions into a cleared history logs exactly that run, all done. */
  lemma RecordedRun(acts: seq<Action>)
    ensures AddAll(Empty(), acts) == Log(acts, |acts|)
  {
    var full := AddAll(Empty(), acts);
    if acts == [] {
      assert full == Empty();
    } else {
      AddAllAppends(Empty(), acts);
      assert full.entries == full.Done() + full.Undone();
    }
  }

  /**
   * N recordings into a cleared history, K undos (K at most N) and one more
   * recording leave exactly N - K + 1 entries, the cursor at the end, and
   * the first N - K recorded actions followed by the new one.
   */
  lemma TruncationCount(acts: seq<Action>, k: nat, a: Action)
    requires k <= |acts|
    ensures var h := Added(StepBack(AddAll(Empty(), acts), k), a);
      && |h.entries| == |acts| - k + 1
      && h.cursor == |h.entries|
      && h.entries == acts[..|acts| - k] + [a]
  {
    RecordedRun(acts);
    StepBackMovesCursor(Log(acts, |acts|), k);
  }
}
