/**
 * The stack of util/stack: a LIFO over a growing slice. Go's nil result on an
 * empty stack is None.
 */
module Stacks {
  import opened Optional

  /** The element a stack holding vs shows on top: the last one, if any. */
  function Top<T>(vs: seq<T>): (r: Option<T>)
    ensures r.None? <==> |vs| == 0
    ensures r.Some? ==> r.value == vs[|vs| - 1]
  {
    if |vs| == 0 then None else Some(vs[|vs| - 1])
  }

  /** What remains after one pop: all but the last element, if any. */
  function Rest<T>(vs: seq<T>): (r: seq<T>)
    ensures |vs| == 0 ==> r == vs
    ensures |vs| > 0 ==> r + [vs[|vs| - 1]] == vs
  {
    if |vs| == 0 then vs else vs[..|vs| - 1]
  }

  /** Popping right after a push gives back the pushed element and the old contents. */
  lemma PopUndoesPush<T>(vs: seq<T>, v: T)
    ensures Top(vs + [v]) == Some(v) && Rest(vs + [v]) == vs
  {
    assert (vs + [v])[..|vs|] == vs;
  }

  class Stack<T> {
    /** The stored elements, bottom first. */
    var values: seq<T>

    /** New: an empty stack. */
    constructor ()
      ensures values == []
    {
      values := [];
    }

    /** The top element without removing it; nothing changes. */
    method Peek() returns (r: Option<T>)
      ensures r == Top(values)
    {
      if |values| == 0 {
        return None;
      }
      return Some(values[|values| - 1]);
    }

    /** Removes and returns the top element; an empty stack stays as it is. */
    method Pop() returns (r: Option<T>)
      modifies this
      ensures r == Top(old(values)) && values == Rest(old(values))
    {
      if |values| == 0 {
        return None;
      }
      var v := values[|values| - 1];
      values := values[..|values| - 1];
      return Some(v);
    }

    /** Puts v on top, above everything already stored. */
    method Push(v: T)
      modifies this
      ensures values == old(values) + [v]
    {
      values := values + [v];
    }

    /** The number of stored elements. */
    method Size() returns (n: nat)
      ensures n == |values|
    {
      return |values|;
    }
  }

  /** The stack test: push 1 and 2, then pops give 2, 1 and finally nothing. */
  method LastInFirstOut() returns (first: Option<int>, second: Option<int>, third: Option<int>, size: nat)
    ensures first == Some(2) && second == Some(1) && third == None && size == 0
  {
    var s := new Stack<int>();
    s.Push(1);
    s.Push(2);
    first := s.Pop();
    second := s.Pop();
    third := s.Pop();
    size := s.Size();
  }
}
