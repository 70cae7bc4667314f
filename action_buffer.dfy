/**
 * The undo/redo buffer of the current revision: a linked list walked by a
 * list iterator. The list is the entries field and the iterator's position
 * the cursor; State() gives the pair as a History.Log value, against which
 * every method is stated.
 */
module ActionBuffer {
  import opened Actions
  import opened History

  class ActionBufferImpl {
    var entries: seq<Action>
    var cursor: nat

    /** The iterator's position never passes the end of the list. */
    ghost predicate Valid()
      reads this
    {
      State().Valid()
    }

    function State(): Log
      reads this
    {
      Log(entries, cursor)
    }

    constructor ()
      ensures Valid() && State() == Empty()
    {
      entries, cursor := [], 0;
    }

    /** Replaces the list by a new empty one with a fresh iterator. */
    method Clear()
      modifies this
      ensures Valid() && State() == Empty()
    {
      entries, cursor := [], 0;
    }

    /** Discards the undone actions, then inserts the action at the cursor. */
    method Add(action: Action)
      requires Valid()
      modifies this
      ensures Valid() && State() == Added(old(State()), action)
    {
      CleanForwardHistory();
      entries := entries + [action];
      cursor := cursor + 1;
    }

    /** Removes every entry after the cursor, one next()/remove() pair at a time. */
    method CleanForwardHistory()
      requires Valid()
      modifies this
      ensures Valid() && State() == Truncated(old(State()))
    {
      while cursor < |entries|
        invariant cursor == old(cursor) <= |entries|
        invariant entries[..cursor] == old(entries)[..cursor]
        decreases |entries| - cursor
      {
        entries := entries[..cursor] + entries[cursor + 1..];
      }
    }

    /** Steps back over the latest done action, or hands out the start sentinel. */
    method GetPrevious() returns (action: Action)
      requires Valid()
      modifies this
      ensures Valid() && (action, State()) == Previous(old(State()))
    {
      if cursor > 0 {
        cursor := cursor - 1;
        action := entries[cursor];
      } else {
        action := Start;
      }
    }

    /** Steps forward over the next undone action, or hands out the blank sentinel. */
    method GetNext() returns (action: Action)
      requires Valid()
      modifies this
      ensures Valid() && (action, State()) == Next(old(State()))
    {
      if cursor < |entries| {
        action := entries[cursor];
        cursor := cursor + 1;
      } else {
        action := Blank;
      }
    }

    /**
     * What GetPrevious would hand out. The source steps back and forward
     * again, which leaves list and cursor as they were.
     */
    method PeekPrevious() returns (action: Action)
      requires Valid()
      ensures action == Previous(State()).0
      ensures cursor > 0 ==> action == entries[cursor - 1]
      ensures cursor == 0 ==> action == Start
    {
      if cursor > 0 {
        action := entries[cursor - 1];
      } else {
        action := Start;
      }
    }

    /** What GetNext would hand out, without moving. */
    method PeekNext() returns (action: Action)
      requires Valid()
      ensures action == Next(State()).0
      ensures cursor < |entries| ==> action == entries[cursor]
      ensures cursor == |entries| ==> action == Blank
    {
      if cursor < |entries| {
        action := entries[cursor];
      } else {
        action := Blank;
      }
    }
  }
}
