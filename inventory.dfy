/** The two list operations the player's inventories rely on: the swap with index 0 that
    equips an item (two `ArrayList.set` calls) and `ArrayList.indexOf`. */
module Inventory {

  /** `s` with the items at 0 and `i` exchanged: the item at `i` becomes the equipped one and
      the previously equipped item takes its place; nothing else moves. */
  function Swapped<T>(s: seq<T>, i: nat): (r: seq<T>)
    requires i < |s|
    ensures |r| == |s|
    ensures r[0] == s[i] && r[i] == s[0]
    ensures forall k :: 0 < k < |s| && k != i ==> r[k] == s[k]
  {
    s[0 := s[i]][i := s[0]]
  }

  /** Equipping only reorders an inventory: no item is lost, none is duplicated. */
  lemma SwapIsPermutation<T>(s: seq<T>, i: nat)
    requires i < |s|
    ensures multiset(Swapped(s, i)) == multiset(s)
  {
  }

  /** Equipping the same position twice restores the inventory. */
  lemma SwapTwiceRestores<T>(s: seq<T>, i: nat)
    requires i < |s|
    ensures Swapped(Swapped(s, i), i) == s
  {
  }

  /** `ArrayList.indexOf` with reference equality (Medicine does not override `equals`): the
      position of the first occurrence of `x` in `s`, or -1 when there is none. */
  function FirstIndex<T(==)>(s: seq<T>, x: T): (i: int)
    ensures -1 <= i < |s|
    ensures i == -1 <==> x !in s
    ensures 0 <= i ==> s[i] == x && forall k :: 0 <= k < i ==> s[k] != x
  {
    if s == [] then -1
    else if s[0] == x then 0
    else
      var j := FirstIndex(s[1..], x);
      if j == -1 then -1 else j + 1
  }
}
