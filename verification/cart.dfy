/**
 * The session cart: a list of product ids in the order they were added,
 * one entry per unit wanted, so duplicates stand for quantity.
 * Removal follows Python's `list.remove`: the first occurrence goes.
 */
module CartOps {

  /** The position of the first occurrence of `x` in `s`. */
  function FirstIndex<T(==)>(s: seq<T>, x: T): (i: nat)
    requires x in s
    ensures i < |s| && s[i] == x
    ensures x !in s[..i]
  {
    if s[0] == x then 0
    else
      var j := FirstIndex(s[1..], x);
      assert s[1..][..j] == s[1..j + 1];
      assert s[..j + 1] == [s[0]] + s[1..j + 1];
      j + 1
  }

  /**
   * `list.remove(x)` on a list that holds `x`, and the unchanged list otherwise
   * (where Python raises `ValueError`).
   */
  function RemoveFirst<T(==)>(s: seq<T>, x: T): (r: seq<T>)
    ensures x !in s ==> r == s
    ensures x in s ==> |r| == |s| - 1
    ensures x in s ==> var i := FirstIndex(s, x); r == s[..i] + s[i + 1..]
    ensures multiset(r) == multiset(s) - multiset{x}
  {
    if x in s then
      var i := FirstIndex(s, x);
      assert s == s[..i] + [s[i]] + s[i + 1..];
      s[..i] + s[i + 1..]
    else
      s
  }

  /** Removing drops exactly one unit of `x`: every other product keeps its quantity. */
  lemma {:induction false} RemoveFirstQuantities<T>(s: seq<T>, x: T, y: T)
    requires x in s
    ensures multiset(RemoveFirst(s, x))[x] == multiset(s)[x] - 1
    ensures y != x ==> multiset(RemoveFirst(s, x))[y] == multiset(s)[y]
  {
    var r := RemoveFirst(s, x);
    assert multiset(r) == multiset(s) - multiset{x};
  }
}
