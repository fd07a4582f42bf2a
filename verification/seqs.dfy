/** Array edits used by the scene graph: `indexOf`, `splice(i, 1)` and `push`. */
module Seqs {

  /** `Array.prototype.indexOf` by reference: the first index holding `x`, or -1. */
  function IndexOf<T(==)>(s: seq<T>, x: T): (i: int)
    ensures -1 <= i < |s|
    ensures i == -1 <==> x !in s
    ensures 0 <= i ==> s[i] == x && x !in s[..i]
  {
    if |s| == 0 then -1
    else if s[0] == x then 0
    else
      var k := IndexOf(s[1..], x);
      assert s[1..][..k + 1] == s[1..k + 2] by { if k >= 0 { assert s[1..][..k] == s[1..k + 1]; } }
      if k == -1 then -1 else k + 1
  }

  /** `splice(i, 1)`: drop the element at index `i`, shifting the later ones down. */
  function Splice<T>(s: seq<T>, i: nat): (r: seq<T>)
    requires i < |s|
    ensures |r| == |s| - 1
    ensures forall k :: 0 <= k < i ==> r[k] == s[k]
    ensures forall k :: i <= k < |r| ==> r[k] == s[k + 1]
  {
    s[..i] + s[i + 1..]
  }

  /** `SceneNode.remove`: delete the first occurrence of `x`, if there is one. */
  function RemoveFirst<T(==)>(s: seq<T>, x: T): (r: seq<T>)
    ensures x !in s ==> r == s
    ensures x in s ==> |r| == |s| - 1
    ensures x in s ==> multiset(r) + multiset{x} == multiset(s)
    ensures x in s ==> exists i :: 0 <= i < |s| && s[i] == x && x !in s[..i] && r == s[..i] + s[i + 1..]
  {
    var i := IndexOf(s, x);
    if i > -1 then
      assert s == s[..i] + [s[i]] + s[i + 1..];
      Splice(s, i)
    else s
  }

  /** Any index holding `x` with no earlier `x` is the one `indexOf` finds. */
  lemma IndexOfFirst<T>(s: seq<T>, x: T, i: nat)
    requires i < |s| && s[i] == x && x !in s[..i]
    ensures IndexOf(s, x) == i
  {
    var j := IndexOf(s, x);
    assert forall k :: 0 <= k < i ==> s[k] != x by {
      forall k | 0 <= k < i ensures s[k] != x { assert s[k] == s[..i][k]; }
    }
    assert forall k :: 0 <= k < j ==> s[k] != x by {
      forall k | 0 <= k < j ensures s[k] != x { assert s[k] == s[..j][k]; }
    }
  }

  /** Adding a node that is not yet a child and then removing it restores the children. */
  lemma {:induction false} AddThenRemove<T>(s: seq<T>, x: T)
    requires x !in s
    ensures RemoveFirst(s + [x], x) == s
  {
    assert x in s + [x];
    assert IndexOf(s + [x], x) == |s|;
    assert (s + [x])[..|s|] == s;
  }

  /** `add` does not check for duplicates, and `remove` takes out the EARLIER copy:
      removing after a second `add` of the same node leaves the new copy at the end. */
  lemma {:induction false} RemoveTakesFirstCopy<T>(s: seq<T>, x: T)
    requires x in s
    ensures RemoveFirst(s + [x], x) == RemoveFirst(s, x) + [x]
    ensures multiset(s + [x])[x] == multiset(s)[x] + 1
  {
    var i := IndexOf(s, x);
    assert (s + [x])[..i] == s[..i];
    IndexOfFirst(s + [x], x, i);
    assert (s + [x])[i + 1..] == s[i + 1..] + [x];
  }
}
