/** The C library's qsort, as its callers may rely on it: some sorted permutation. */
module Sorting {
  /** What qsort asks of a comparator on the elements of a list. */
  ghost predicate Consistent<T>(list: seq<T>, cmp: (T, T) -> int) {
    && (forall x, y | x in list && y in list :: cmp(x, y) <= 0 || cmp(y, x) <= 0)
    && (forall x, y, z | x in list && y in list && z in list && cmp(x, y) <= 0 && cmp(y, z) <= 0 :: cmp(x, z) <= 0)
  }

  ghost predicate Sorted<T>(list: seq<T>, cmp: (T, T) -> int) {
    forall i, j | 0 <= i < j < |list| :: cmp(list[i], list[j]) <= 0
  }

  method Insert<T>(list: seq<T>, x: T, cmp: (T, T) -> int) returns (longer: seq<T>)
    requires Consistent(list + [x], cmp) && Sorted(list, cmp)
    ensures multiset(longer) == multiset(list) + multiset{x} && Sorted(longer, cmp)
  {
    hide Sorted, Consistent;
    var i := 0;
    while i < |list| && cmp(list[i], x) <= 0
      invariant 0 <= i <= |list|
      invariant forall k :: 0 <= k < i ==> cmp(list[k], x) <= 0
    {
      i := i + 1;
    }
    longer := list[..i] + [x] + list[i..];
    assert list == list[..i] + list[i..];
    InsertIsSorted(list, x, cmp, i);
  }

  lemma InsertIsSorted<T>(list: seq<T>, x: T, cmp: (T, T) -> int, i: nat)
    requires Consistent(list + [x], cmp) && Sorted(list, cmp) && i <= |list|
    requires forall k :: 0 <= k < i ==> cmp(list[k], x) <= 0
    requires i < |list| ==> cmp(list[i], x) > 0
    ensures Sorted(list[..i] + [x] + list[i..], cmp)
  {
    var all := list + [x];
    assert x == all[|list|] && forall y | y in list :: y in all;
    forall k | i <= k < |list|
      ensures cmp(x, list[k]) <= 0
    {
      assert list[i] in all && list[k] in all;
      assert cmp(x, list[i]) <= 0;
      if i < k {
        assert cmp(list[i], list[k]) <= 0;
      }
    }
  }

  method QSort<T>(list: seq<T>, cmp: (T, T) -> int) returns (sorted: seq<T>)
    requires Consistent(list, cmp)
    ensures multiset(sorted) == multiset(list) && Sorted(sorted, cmp)
  {
    sorted := [];
    var i := 0;
    while i < |list|
      invariant 0 <= i <= |list|
      invariant multiset(sorted) == multiset(list[..i]) && Sorted(sorted, cmp)
    {
      assert list[..i + 1] == list[..i] + [list[i]];
      forall x | x in sorted + [list[i]]
        ensures x in list
      {
        if x in sorted {
          assert x in multiset(sorted) && x in multiset(list[..i]) && x in list[..i];
        }
      }
      sorted := Insert(sorted, list[i], cmp);
      i := i + 1;
    }
    assert list[..i] == list;
  }
}
