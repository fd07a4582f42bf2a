/** The iteration protocol (`hasNext`/`next`) and its one implementation, an index
    cursor over an array it shares with the array's owner.

    `CompositeIterator`, `AnnotationIterator` and the `LayoutIterator`/`RoomIterator`
    aliases all have the same code, so they are modelled once, generically, as `Cursor`.
    The pure functions describe one cursor step over the array's CURRENT contents; the
    classes `Box` and `Cursor` add the sharing: the array is an object both the owner
    and every open cursor point to. */
module Iteration {
  import opened Wrappers
  import Seqs

  /** What one `next()` call hands out (None is the source's `null`) and the
      position it leaves the cursor at. */
  datatype Step<T> = Step(item: Option<T>, position: nat)

  /** `hasNext()` of a cursor at `position` over an array holding `elems`. */
  predicate HasNextAt<T>(elems: seq<T>, position: nat)
  {
    position < |elems|
  }

  /** `next()` of a cursor at `position` over an array holding `elems`. */
  function NextAt<T>(elems: seq<T>, position: nat): (r: Step<T>)
    ensures position <= r.position <= position + 1
    ensures r.item.Some? <==> HasNextAt(elems, position)
    ensures r.item.Some? ==> r.item.value == elems[position] && r.position == position + 1
    ensures r.item.None? ==> r.position == position
  {
    if HasNextAt(elems, position) then Step(Some(elems[position]), position + 1)
    else Step(None, position)
  }

  /** The results of `n` successive `next()` calls while the array stays unchanged,
      and the final position. */
  function Calls<T>(elems: seq<T>, position: nat, n: nat): (r: (seq<Option<T>>, nat))
    decreases n
  {
    if n == 0 then ([], position)
    else
      var step := NextAt(elems, position);
      var rest := Calls(elems, step.position, n - 1);
      ([step.item] + rest.0, rest.1)
  }

  /** What the usual `while (it.hasNext()) { x = it.next(); ... }` loop visits,
      starting from `position`, while the array stays unchanged. */
  function Drain<T>(elems: seq<T>, position: nat): (r: seq<T>)
    ensures |r| == if position <= |elems| then |elems| - position else 0
    decreases |elems| - position
  {
    var step := NextAt(elems, position);
    if step.item.None? then [] else [step.item.value] + Drain(elems, step.position)
  }

  /** A drain from `position` visits exactly the elements from `position` on, in
      array order, each once. */
  lemma {:induction false} DrainVisitsSuffix<T>(elems: seq<T>, position: nat)
    requires position <= |elems|
    ensures Drain(elems, position) == elems[position..]
    decreases |elems| - position
  {
    if position < |elems| {
      DrainVisitsSuffix(elems, position + 1);
      assert elems[position..] == [elems[position]] + elems[position + 1..];
    }
  }

  /** A fresh cursor over an unchanged array visits every element in order. */
  lemma DrainFromStart<T>(elems: seq<T>)
    ensures Drain(elems, 0) == elems
  {
    DrainVisitsSuffix(elems, 0);
  }

  /** `n` calls that stay within the array return the next `n` elements in order
      and move the cursor forward by exactly `n`. */
  lemma {:induction false} CallsWithinArray<T>(elems: seq<T>, position: nat, n: nat)
    requires position + n <= |elems|
    ensures |Calls(elems, position, n).0| == n
    ensures forall k :: 0 <= k < n ==> Calls(elems, position, n).0[k] == Some(elems[position + k])
    ensures Calls(elems, position, n).1 == position + n
    decreases n
  {
    if n > 0 {
      CallsWithinArray(elems, position + 1, n - 1);
    }
  }

  /** Once the cursor is at or past the end, every further call returns `null`
      and the position no longer moves: exhaustion is not an error. */
  lemma {:induction false} CallsWhenExhausted<T>(elems: seq<T>, position: nat, n: nat)
    requires |elems| <= position
    ensures |Calls(elems, position, n).0| == n
    ensures forall k :: 0 <= k < n ==> Calls(elems, position, n).0[k] == None
    ensures Calls(elems, position, n).1 == position
    decreases n
  {
    if n > 0 {
      CallsWhenExhausted(elems, position, n - 1);
    }
  }

  /** The position never decreases and grows by at most one per call. */
  lemma {:induction false} CallsAdvance<T>(elems: seq<T>, position: nat, n: nat)
    ensures position <= Calls(elems, position, n).1 <= position + n
    ensures |Calls(elems, position, n).0| == n
    decreases n
  {
    if n > 0 {
      CallsAdvance(elems, NextAt(elems, position).position, n - 1);
    }
  }

  /** On an unchanged array of n elements, n calls from a fresh cursor return the
      elements in order, after which `hasNext()` is false and `next()` is `null`. */
  lemma FreshCursorRun<T>(elems: seq<T>)
    ensures var r := Calls(elems, 0, |elems|);
      && |r.0| == |elems|
      && (forall k :: 0 <= k < |elems| ==> r.0[k] == Some(elems[k]))
      && !HasNextAt(elems, r.1)
      && NextAt(elems, r.1) == Step(None, r.1)
  {
    CallsWithinArray(elems, 0, |elems|);
  }

  /** A cursor over a one-element array hands out that element once, then `null`. */
  lemma SingleElementRun<T>(x: T)
    ensures Calls([x], 0, 3).0 == [Some(x), None, None]
    ensures Calls([x], 0, 3).1 == 1
  {
    CallsWhenExhausted([x], 1, 2);
    assert Calls([x], 1, 2).0 == [None, None];
  }

  /** Because the array is shared, an element pushed after the cursor is exhausted
      makes `hasNext()` true again, and `next()` returns it. */
  lemma PushRevivesExhaustedCursor<T>(elems: seq<T>, x: T)
    ensures !HasNextAt(elems, |elems|)
    ensures HasNextAt(elems + [x], |elems|)
    ensures NextAt(elems + [x], |elems|) == Step(Some(x), |elems| + 1)
  {
  }

  /** An element pushed while a cursor is open is still visited, after the others. */
  lemma {:induction false} PushWhileOpen<T>(elems: seq<T>, position: nat, x: T)
    requires position <= |elems|
    ensures Drain(elems + [x], position) == Drain(elems, position) + [x]
  {
    DrainVisitsSuffix(elems, position);
    DrainVisitsSuffix(elems + [x], position);
    assert (elems + [x])[position..] == elems[position..] + [x];
  }

  /** Removing (by `splice`) an element the cursor has already passed shifts the
      rest down by one, so the element that was next in line is never visited. */
  lemma {:induction false} SpliceBehindCursorSkips<T>(elems: seq<T>, i: nat, position: nat)
    requires i < position < |elems|
    ensures NextAt(Seqs.Splice(elems, i), position).item
            == (if position + 1 < |elems| then Some(elems[position + 1]) else None)
    ensures Drain(Seqs.Splice(elems, i), position) == elems[position + 1..]
  {
    var spliced := Seqs.Splice(elems, i);
    DrainVisitsSuffix(spliced, position);
    assert spliced[position..] == elems[position + 1..];
  }

  /** A JavaScript array as an object: its owner and every cursor opened on it hold
      the same reference, so an in-place edit is seen by all of them. */
  class Box<T> {
    var elems: seq<T>

    constructor(elems: seq<T>)
      ensures this.elems == elems
    {
      this.elems := elems;
    }
  }

  /** `CompositeIterator` / `AnnotationIterator`: a position over a shared array,
      held by reference and never copied. */
  class Cursor<T> {
    const source: Box<T>
    var position: nat

    /** A new cursor starts at position 0 over the very array it is given. */
    constructor(source: Box<T>)
      ensures this.source == source && position == 0
    {
      this.source := source;
      position := 0;
    }

    /** True exactly when the position is inside the array's current contents;
        changes nothing. */
    method HasNext() returns (b: bool)
      ensures b <==> position < |source.elems|
    {
      b := position < |source.elems|;
    }

    /** Returns the current element and advances, or returns `null` and stays put
        when the array is exhausted. */
    method Next() returns (item: Option<T>)
      modifies this
      ensures Step(item, position) == NextAt(source.elems, old(position))
    {
      var more := HasNext();
      if more {
        item := Some(source.elems[position]);
        position := position + 1;
      } else {
        item := None;
      }
    }
  }
}
