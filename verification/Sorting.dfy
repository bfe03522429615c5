/** Insertion sort by a key; equal keys keep the order they came in. */
module Sorting {
  predicate InOrder<T>(items: seq<T>, key: T -> int) {
    forall i, j :: 0 <= i < j < |items| ==> key(items[i]) <= key(items[j])
  }

  /** Stable insertion: behind everything whose key is not larger. */
  function Inserted<T>(sorted: seq<T>, item: T, key: T -> int): seq<T> {
    if sorted == [] || key(sorted[|sorted| - 1]) <= key(item) then sorted + [item]
    else Inserted(sorted[..|sorted| - 1], item, key) + [sorted[|sorted| - 1]]
  }

  function Sorted<T>(items: seq<T>, key: T -> int): seq<T> {
    if items == [] then [] else Inserted(Sorted(items[..|items| - 1], key), items[|items| - 1], key)
  }

  /** The new item goes behind every item whose key is not larger; all others keep their places. */
  lemma {:induction false} InsertedAt<T>(sorted: seq<T>, item: T, key: T -> int) returns (k: nat)
    requires InOrder(sorted, key)
    ensures k <= |sorted| && Inserted(sorted, item, key) == sorted[..k] + [item] + sorted[k..]
    ensures forall i :: 0 <= i < k ==> key(sorted[i]) <= key(item)
    ensures forall i :: k <= i < |sorted| ==> key(item) < key(sorted[i])
  {
    if sorted == [] || key(sorted[|sorted| - 1]) <= key(item) {
      k := |sorted|;
      assert sorted[..k] == sorted && sorted[k..] == [];
    } else {
      var n := |sorted| - 1;
      k := InsertedAt(sorted[..n], item, key);
      assert sorted[..n][..k] == sorted[..k];
      assert sorted[..n][k..] + [sorted[n]] == sorted[k..];
    }
  }

  lemma InsertedInOrder<T>(sorted: seq<T>, item: T, key: T -> int)
    requires InOrder(sorted, key)
    ensures InOrder(Inserted(sorted, item, key), key)
    ensures multiset(Inserted(sorted, item, key)) == multiset(sorted) + multiset{item}
  {
    hide Inserted;
    var k := InsertedAt(sorted, item, key);
    assert sorted == sorted[..k] + sorted[k..];
  }

  /** Sorting keeps every item and puts them in order. */
  lemma {:induction false} SortedIsInOrder<T>(items: seq<T>, key: T -> int)
    ensures InOrder(Sorted(items, key), key) && multiset(Sorted(items, key)) == multiset(items)
  {
    if items != [] {
      var (front, last) := (items[..|items| - 1], items[|items| - 1]);
      SortedIsInOrder(front, key);
      InsertedInOrder(Sorted(front, key), last, key);
      assert items == front + [last];
    }
  }

  /** What is in order stays as it is. */
  lemma {:induction false} SortedKeepsOrder<T>(items: seq<T>, key: T -> int)
    requires InOrder(items, key)
    ensures Sorted(items, key) == items
  {
    if items != [] {
      var (front, last) := (items[..|items| - 1], items[|items| - 1]);
      SortedKeepsOrder(front, key);
      assert front + [last] == items;
    }
  }
}
