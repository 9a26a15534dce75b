/** src/cmc_aggregator.c: the arrays of all servers, largest first. */
module CmcAggregators {
  import opened Text
  import opened CorrelatorArray
  import opened CmcServers
  import opened Sorting

  const INT_LIMIT: nat := 0x8000_0000

  /** Conversion of a size_t to int, as the comparator's return does it: the low 32 bits, as a signed number. */
  function ToInt(x: nat): int {
    var low := x % (2 * INT_LIMIT);
    if low < INT_LIMIT then low else low - 2 * INT_LIMIT
  }

  function CmpSizes(size1: nat, size2: nat): int {
    ToInt(ToSizeT(size2 - size1))
  }

  function CmpByArraySize(a: CorrArray, b: CorrArray): int {
    CmpSizes(a.antennas, b.antennas)
  }

  predicate SameSign(x: int, y: int) {
    (x < 0 <==> y < 0) && (x > 0 <==> y > 0)
  }

  /** The difference survives exactly when it is an int. */
  lemma DifferenceSurvives(size1: nat, size2: nat)
    ensures CmpSizes(size1, size2) == size2 - size1 <==> 0 - INT_LIMIT <= size2 - size1 < INT_LIMIT
  {
  }

  /** The truncated difference has the sign of the true one for all sizes up to a bound exactly when the
      bound is below 2^31. */
  lemma ComparatorRange(bound: nat)
    requires bound < SIZE_T
    ensures (forall size1: nat, size2: nat | size1 <= bound && size2 <= bound ::
               SameSign(CmpSizes(size1, size2), size2 - size1))
       <==> bound < INT_LIMIT
  {
    if bound < INT_LIMIT {
      forall size1: nat, size2: nat | size1 <= bound && size2 <= bound
        ensures SameSign(CmpSizes(size1, size2), size2 - size1)
      {
        DifferenceSurvives(size1, size2);
      }
    } else {
      assert CmpSizes(0, INT_LIMIT) == 0 - INT_LIMIT;
      assert !SameSign(CmpSizes(0, INT_LIMIT), INT_LIMIT - 0);
    }
  }

  function Together(servers: seq<CmcServer>): seq<CorrArray>
    reads servers
  {
    if servers == [] then [] else Together(servers[..|servers| - 1]) + servers[|servers| - 1].arrays
  }

  ghost predicate LargestFirst(arrays: seq<CorrArray>) {
    forall i, j :: 0 <= i < j < |arrays| ==> arrays[i].antennas >= arrays[j].antennas
  }

  /** No two sizes are 2^31 or more apart. */
  ghost predicate Moderate(arrays: seq<CorrArray>) {
    forall a, b :: a in arrays && b in arrays ==> a.antennas - b.antennas < INT_LIMIT
  }

  lemma {:induction false} CmpBySizeIsConsistent(arrays: seq<CorrArray>)
    requires Moderate(arrays)
    ensures Consistent(arrays, CmpByArraySize)
  {
    forall x, y | x in arrays && y in arrays
      ensures CmpByArraySize(x, y) == y.antennas - x.antennas
    {
      DifferenceSurvives(x.antennas, y.antennas);
    }
  }

  lemma SortedIsLargestFirst(arrays: seq<CorrArray>, sorted: seq<CorrArray>)
    requires Moderate(arrays) && multiset(sorted) == multiset(arrays) && Sorted(sorted, CmpByArraySize)
    ensures LargestFirst(sorted)
  {
    forall i, j | 0 <= i < j < |sorted|
      ensures sorted[i].antennas >= sorted[j].antennas
    {
      assert sorted[i] in multiset(arrays) && sorted[j] in multiset(arrays);
      assert sorted[i] in arrays && sorted[j] in arrays;
      DifferenceSurvives(sorted[i].antennas, sorted[j].antennas);
      assert CmpByArraySize(sorted[i], sorted[j]) <= 0;
    }
  }

  method AppendArrays(list: seq<CorrArray>, server: CmcServer) returns (longer: seq<CorrArray>)
    ensures longer == list + server.arrays
  {
    longer := list;
    var j := 0;
    while j < |server.arrays|
      invariant 0 <= j <= |server.arrays| && longer == list + server.arrays[..j]
    {
      longer := longer + [server.arrays[j]];
      j := j + 1;
    }
    assert server.arrays[..j] == server.arrays;
  }

  method Collect(servers: seq<CmcServer>) returns (list: seq<CorrArray>)
    ensures list == Together(servers)
  {
    list := [];
    var i := 0;
    while i < |servers|
      invariant 0 <= i <= |servers| && list == Together(servers[..i])
    {
      assert servers[..i + 1][..i] == servers[..i];
      list := AppendArrays(list, servers[i]);
      i := i + 1;
    }
    assert servers[..i] == servers;
  }

  class CmcAggregator {
    var arrays: seq<CorrArray>

    /** Collects the lists of all servers, then sorts them by size. */
    constructor (servers: seq<CmcServer>)
      requires Consistent(Together(servers), CmpByArraySize)
      ensures multiset(arrays) == multiset(Together(servers))
      ensures Moderate(Together(servers)) ==> LargestFirst(arrays)
    {
      hide Moderate, LargestFirst, CmpByArraySize, Consistent, Together;
      var list := Collect(servers);
      var sorted := QSort(list, CmpByArraySize);
      if Moderate(list) {
        SortedIsLargestFirst(list, sorted);
      }
      arrays := sorted;
    }

    /** NULL past the end of the list. */
    method GetArray(n: nat) returns (a: CorrArray?)
      ensures a == if n < |arrays| then arrays[n] else null
    {
      a := if n < |arrays| then arrays[n] else null;
    }

    /** The page for a number shows the array at that place, counted from 1; number 0 wraps around to a
        place no list reaches. */
    method GetNumbered(number: nat) returns (a: CorrArray?)
      requires number < SIZE_T && |arrays| < SIZE_T
      ensures a == if 0 < number <= |arrays| then arrays[number - 1] else null
    {
      a := GetArray(Previous(number));
    }
  }
}
