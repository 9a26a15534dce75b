/** struct cmc_server of src/cmc_server.c. */
module CmcServers {
  import opened Text
  import opened Removal
  import opened Messages
  import opened Queues
  import opened Tokenise
  import opened Connections
  import opened Cmc
  import Activation
  import opened CorrelatorArray
  import opened Sorting

  /** The registry that a list of arrays stands for. */
  ghost function EntryOf(a: CorrArray): Entry
    reads a
  {
    Entry(a.name, a.controlPort, a.monitorPort, a.antennas, a.active)
  }

  ghost function Registry(arrays: seq<CorrArray>): (entries: seq<Entry>)
    reads arrays
    ensures |entries| == |arrays| && forall k :: 0 <= k < |arrays| ==> entries[k] == EntryOf(arrays[k])
  {
    if arrays == [] then [] else [EntryOf(arrays[0])] + Registry(arrays[1..])
  }

  /** Arrays that share no object. */
  ghost predicate OwnsArrays(arrays: seq<CorrArray>, repr: set<object>)
    reads repr
  {
    && (forall i :: 0 <= i < |arrays| ==> arrays[i] in repr && arrays[i].Repr <= repr && arrays[i].Valid())
    && (forall i, j :: 0 <= i < j < |arrays| ==> arrays[i].Repr !! arrays[j].Repr)
  }

  ghost predicate SortedNames(arrays: seq<CorrArray>) {
    forall i, j :: 0 <= i < j < |arrays| ==> Less(arrays[i].name, arrays[j].name)
  }

  function StrCmp(a: string, b: string): int {
    if Less(a, b) then -1 else if a == b then 0 else 1
  }

  function CmpArrayByName(a: CorrArray, b: CorrArray): int {
    StrCmp(a.name, b.name)
  }

  lemma CmpByNameIsConsistent(arrays: seq<CorrArray>)
    ensures Consistent(arrays, CmpArrayByName)
  {
    forall x, y | x in arrays && y in arrays
      ensures CmpArrayByName(x, y) <= 0 || CmpArrayByName(y, x) <= 0
    {
      LessTrichotomy(x.name, y.name);
    }
    forall x, y, z | x in arrays && y in arrays && z in arrays && CmpArrayByName(x, y) <= 0 && CmpArrayByName(y, z) <= 0
      ensures CmpArrayByName(x, z) <= 0
    {
      if x.name != y.name && y.name != z.name {
        LessTransitive(x.name, y.name, z.name);
      }
    }
  }

  ghost predicate DifferentNames(arrays: seq<CorrArray>) {
    forall i, j :: 0 <= i < j < |arrays| ==> arrays[i].name != arrays[j].name
  }

  lemma {:induction false} CountedOnce(list: seq<CorrArray>, x: CorrArray)
    requires DifferentNames(list)
    ensures multiset(list)[x] <= 1
  {
    if list == [] {
    } else {
      CountedOnce(list[1..], x);
      assert list == [list[0]] + list[1..];
      if list[0] == x {
        assert x !in list[1..];
      }
    }
  }

  lemma CountedTwice(list: seq<CorrArray>, i: nat, j: nat)
    requires i < j < |list| && list[i] == list[j]
    ensures multiset(list)[list[i]] >= 2
  {
    assert list == list[..i] + [list[i]] + list[i + 1..j] + [list[j]] + list[j + 1..];
  }

  /** Sorting arrays of different names leaves no two of them equal in the order. */
  lemma SortedIsStrict(list: seq<CorrArray>, sorted: seq<CorrArray>)
    requires DifferentNames(list) && multiset(sorted) == multiset(list) && Sorted(sorted, CmpArrayByName)
    ensures SortedNames(sorted)
  {
    forall i, j | 0 <= i < j < |sorted|
      ensures Less(sorted[i].name, sorted[j].name)
    {
      assert CmpArrayByName(sorted[i], sorted[j]) <= 0;
      if sorted[i].name == sorted[j].name {
        assert sorted[i] in multiset(list) && sorted[j] in multiset(list);
        var k :| 0 <= k < |list| && list[k] == sorted[i];
        var l :| 0 <= l < |list| && list[l] == sorted[j];
        assert k == l;
        CountedTwice(sorted, i, j);
        CountedOnce(list, sorted[i]);
        assert false;
      }
    }
  }

  lemma RegistryHolds(arrays: seq<CorrArray>, e: Entry)
    ensures e in Registry(arrays) <==> exists a :: a in arrays && EntryOf(a) == e
  {
    if e in Registry(arrays) {
      var k :| 0 <= k < |arrays| && Registry(arrays)[k] == e;
      assert arrays[k] in arrays;
    }
    if a :| a in arrays && EntryOf(a) == e {
      var k :| 0 <= k < |arrays| && arrays[k] == a;
      assert Registry(arrays)[k] == e;
    }
  }

  lemma NewNameDiffers(arrays: seq<CorrArray>, a: CorrArray)
    requires SortedNames(arrays) && FirstNamed(Registry(arrays), a.name) == |arrays|
    ensures DifferentNames(arrays + [a]) && SortedByName(Registry(arrays))
    ensures forall k :: 0 <= k < |arrays| ==> Registry(arrays)[k].name != a.name
  {
    hide Registry, FirstNamed, Less;
    forall i, j | 0 <= i < j < |arrays + [a]|
      ensures (arrays + [a])[i].name != (arrays + [a])[j].name
    {
      if j < |arrays| {
        LessTrichotomy(arrays[i].name, arrays[j].name);
      } else {
        assert Registry(arrays)[i].name != a.name;
      }
    }
  }

  /** Whatever permutation sorts the longer list, the registry is the old one with the new entry in its place. */
  lemma {:induction false} SortedRegistry(arrays: seq<CorrArray>, a: CorrArray, sorted: seq<CorrArray>)
    requires SortedNames(arrays) && FirstNamed(Registry(arrays), a.name) == |arrays|
    requires multiset(sorted) == multiset(arrays + [a]) && Sorted(sorted, CmpArrayByName)
    ensures SortedNames(sorted) && Registry(sorted) == Inserted(Registry(arrays), EntryOf(a))
  {
    NewNameDiffers(arrays, a);
    SortedIsStrict(arrays + [a], sorted);
    assert SortedByName(Registry(sorted));
    hide Registry, Inserted, FirstNamed, SortedNames, DifferentNames, Sorted, SortedByName;
    var before, after := Registry(arrays), Registry(sorted);
    InsertedSorted(before, EntryOf(a));
    forall x
      ensures x in sorted <==> x in arrays || x == a
    {
      assert x in sorted <==> x in multiset(sorted);
      assert x in arrays + [a] <==> x in multiset(arrays + [a]);
    }
    forall e
      ensures e in after <==> e in Inserted(before, EntryOf(a))
    {
      RegistryHolds(sorted, e);
      RegistryHolds(arrays, e);
    }
    SameEntries(after, Inserted(before, EntryOf(a)));
  }

  lemma SameEntries(a: seq<Entry>, b: seq<Entry>)
    requires SortedByName(a) && SortedByName(b) && forall e :: e in a <==> e in b
    ensures a == b
  {
    SortedListingUnique(a, b);
    forall k | 0 <= k < |a|
      ensures a[k] == b[k]
    {
      assert a[k] in b;
      var j :| 0 <= j < |b| && b[j] == a[k];
      SortedNamesDiffer(b, j, k);
    }
  }

  // ---- The loops over the array list ----

  method MarkAllSuspect(arrays: seq<CorrArray>, ghost repr: set<object>)
    requires OwnsArrays(arrays, repr)
    modifies (set a: CorrArray | a in arrays)`active
    ensures OwnsArrays(arrays, repr) && Registry(arrays) == MarkedSuspect(old(Registry(arrays)))
  {
    hide CorrArray.Valid;
    var i := 0;
    while i < |arrays|
      invariant 0 <= i <= |arrays| && OwnsArrays(arrays, repr)
      invariant forall k :: 0 <= k < |arrays| ==> arrays[k].active == (k >= i && old(arrays[k].active))
    {
      arrays[i].MarkSuspect();
      i := i + 1;
    }
  }

  /** The arrays that are not suspect, in order. */
  function ActiveOf(arrays: seq<CorrArray>): seq<CorrArray>
    reads arrays
  {
    if arrays == [] then []
    else
      var last := arrays[|arrays| - 1];
      ActiveOf(arrays[..|arrays| - 1]) + if last.active then [last] else []
  }

  lemma {:induction false} SweptAppend(entries: seq<Entry>, e: Entry)
    ensures Swept(entries + [e]) == Swept(entries) + if e.active then [e] else []
  {
    if entries == [] {
      assert [e][1..] == [];
    } else {
      SweptAppend(entries[1..], e);
      assert (entries + [e])[1..] == entries[1..] + [e];
    }
  }

  lemma {:induction false} RegistryAppend(arrays: seq<CorrArray>, a: CorrArray)
    ensures Registry(arrays + [a]) == Registry(arrays) + [EntryOf(a)]
  {
    if arrays == [] {
      assert [a][1..] == [];
    } else {
      RegistryAppend(arrays[1..], a);
      assert (arrays + [a])[1..] == arrays[1..] + [a];
    }
  }

  lemma {:induction false} ActiveRegistry(arrays: seq<CorrArray>)
    ensures Registry(ActiveOf(arrays)) == Swept(Registry(arrays))
  {
    if arrays == [] {
    } else {
      var front, last := arrays[..|arrays| - 1], arrays[|arrays| - 1];
      assert EntryOf(last).active == last.active;
      hide EntryOf;
      ActiveRegistry(front);
      SweptAppend(Registry(front), EntryOf(last));
      assert arrays == front + [last];
      RegistryAppend(front, last);
      RegistryAppend(ActiveOf(front), last);
      hide Registry, Swept;
    }
  }

  lemma {:induction false} ActiveKeepsOrder(arrays: seq<CorrArray>, repr: set<object>)
    requires OwnsArrays(arrays, repr) && SortedNames(arrays)
    ensures OwnsArrays(ActiveOf(arrays), repr) && SortedNames(ActiveOf(arrays))
    ensures forall a :: a in ActiveOf(arrays) ==> a in arrays
  {
    if arrays == [] {
    } else {
      var front, last := arrays[..|arrays| - 1], arrays[|arrays| - 1];
      ActiveKeepsOrder(front, repr);
      var kept := ActiveOf(front);
      forall k | 0 <= k < |kept|
        ensures Less(kept[k].name, last.name) && kept[k].Repr !! last.Repr
      {
        assert kept[k] in front;
        var j :| 0 <= j < |front| && front[j] == kept[k];
        assert arrays[j] == kept[k];
      }
    }
  }

  /** The deletion loop: the tail moves down over a suspect array and the index, a size_t, steps back,
      wrapping below zero when the first array goes. tested records the arrays looked at. */
  method Sweep(arrays: seq<CorrArray>) returns (kept: seq<CorrArray>, ghost tested: seq<CorrArray>)
    requires |arrays| < SIZE_T
    ensures kept == ActiveOf(arrays) && tested == arrays
  {
    kept, tested := arrays, [];
    var n, i := |arrays|, 0;
    assert arrays[..0] == [] && ActiveOf([]) == [];
    hide ActiveOf, Next, Previous;
    ghost var done := [];
    while i < n
      invariant |tested| <= |arrays| && tested == arrays[..|tested|] && n == |kept|
      invariant done == ActiveOf(tested) && i == |done| <= |tested| && kept == done + arrays[|tested|..]
      decreases |arrays| - |tested|
    {
      BackAndForth(i);
      ActiveStep(arrays, |tested|);
      AtFront(done, arrays, |tested|);
      tested := tested + [kept[i]];
      var suspect := kept[i].CheckSuspect();
      if suspect {
        kept := kept[..i] + kept[i + 1..];
        n := n - 1;
        i := Previous(i);
      } else {
        done := done + [kept[i]];
      }
      i := Next(i);
    }
    assert tested == arrays && arrays[|tested|..] == [];
  }

  lemma ActiveStep(arrays: seq<CorrArray>, t: nat)
    requires t < |arrays|
    ensures ActiveOf(arrays[..t + 1]) == ActiveOf(arrays[..t]) + if arrays[t].active then [arrays[t]] else []
    ensures arrays[..t] + [arrays[t]] == arrays[..t + 1]
  {
    assert arrays[..t + 1][..t] == arrays[..t];
  }

  method FindArrayNamed(arrays: seq<CorrArray>, name: string) returns (i: nat)
    ensures i == FirstNamed(Registry(arrays), name)
  {
    i := 0;
    while i < |arrays|
      invariant 0 <= i <= |arrays|
      invariant forall k :: 0 <= k < i ==> Registry(arrays)[k].name != name
    {
      if arrays[i].name == name {
        return;
      }
      i := i + 1;
    }
  }

  /** array_mark_fine on one array of the list. */
  method MarkFineAt(arrays: seq<CorrArray>, ghost repr: set<object>, i: nat, recent: bool)
    requires OwnsArrays(arrays, repr) && i < |arrays|
    modifies arrays[i].Repr
    ensures OwnsArrays(arrays, repr) && arrays[i].Value() == MarkedFine(old(arrays[i].Value()), recent)
    ensures Registry(arrays) == old(Registry(arrays))[i := old(Registry(arrays))[i].(active := true)]
  {
    hide CorrArray.Valid, CorrArray.Value, MarkedFine;
    assert forall k :: 0 <= k < |arrays| && k != i ==> arrays[k] !in arrays[i].Repr;
    arrays[i].MarkFine(recent);
    assert forall k :: 0 <= k < |arrays| ==> arrays[k].active == (k == i || old(arrays[k].active));
  }

  /** What one array received on its two connections. */
  datatype Lines = Lines(control: seq<Line>, monitor: seq<Line>)

  ghost predicate ReadableAt(a: CorrArray, lines: Lines, config: seq<string>)
    reads a, a.control, a.control.queue, a.monitor, a.monitor.queue, a.sensors
  {
    BothReadable(a.Value(), lines.control, lines.monitor, config, a.antennas)
  }

  ghost function ReceivedAt(a: CorrArray, lines: Lines, config: seq<string>): ArrayV
    requires ReadableAt(a, lines, config)
    reads a, a.control, a.control.queue, a.monitor, a.monitor.queue, a.sensors
  {
    BothReceived(a.Value(), lines.control, lines.monitor, config, a.antennas)
  }

  method HandleLinesAt(arrays: seq<CorrArray>, ghost repr: set<object>, i: nat, lines: Lines, config: seq<string>)
    returns (ghost grownRepr: set<object>)
    requires OwnsArrays(arrays, repr) && i < |arrays|
    requires Activation.ProperConfig(config) && ReadableAt(arrays[i], lines, config)
    modifies arrays[i].Repr
    ensures OwnsArrays(arrays, grownRepr) && fresh(grownRepr - repr) && repr <= grownRepr
    ensures Registry(arrays) == old(Registry(arrays))
    ensures arrays[i].Value() == old(ReceivedAt(arrays[i], lines, config))
  {
    hide CorrArray.Valid, CorrArray.Value, BothReadable, BothReceived, Activation.ProperConfig;
    assert forall k :: 0 <= k < |arrays| && k != i ==> arrays[k] !in arrays[i].Repr;
    arrays[i].HandleReceived(lines.control, lines.monitor, config);
    grownRepr := repr + arrays[i].Repr;
    assert forall k :: 0 <= k < |arrays| ==> arrays[k].active == old(arrays[k].active);
  }

  /** The objects that an array's value is read from. */
  ghost function ValueFrame(a: CorrArray): set<object>
    reads a
  {
    {a, a.control, a.control.queue, a.monitor, a.monitor.queue, a.sensors}
  }

  lemma ValuesApart(arrays: seq<CorrArray>, repr: set<object>, i: nat)
    requires OwnsArrays(arrays, repr) && i < |arrays|
    ensures forall k :: 0 <= k < |arrays| && k != i ==> arrays[i].Repr !! ValueFrame(arrays[k])
    ensures arrays[i].Repr <= repr
  {
    forall k | 0 <= k < |arrays| && k != i
      ensures arrays[i].Repr !! ValueFrame(arrays[k])
    {
      assert arrays[k].Valid();
    }
  }

  /** Every array handles what it received: no array's lines touch another array, and no array becomes
      suspect or fine by it. */
  method HandleArrays(arrays: seq<CorrArray>, ghost repr: set<object>, lines: seq<Lines>, config: seq<string>)
    returns (ghost grownRepr: set<object>)
    requires OwnsArrays(arrays, repr) && Activation.ProperConfig(config) && |lines| == |arrays|
    requires forall k :: 0 <= k < |arrays| ==> ReadableAt(arrays[k], lines[k], config)
    modifies repr
    ensures OwnsArrays(arrays, grownRepr) && fresh(grownRepr - repr) && repr <= grownRepr
    ensures Registry(arrays) == old(Registry(arrays))
    ensures forall k :: 0 <= k < |arrays| ==> arrays[k].Value() == old(ReceivedAt(arrays[k], lines[k], config))
  {
    hide CorrArray.Value, OwnsArrays, Registry, BothReadable, BothReceived, Activation.ProperConfig;
    grownRepr := repr;
    var i := 0;
    while i < |arrays|
      invariant 0 <= i <= |arrays| && OwnsArrays(arrays, grownRepr)
      invariant fresh(grownRepr - repr) && repr <= grownRepr && Registry(arrays) == old(Registry(arrays))
      invariant forall k :: i <= k < |arrays| ==> arrays[k].Value() == old(arrays[k].Value())
      invariant forall k :: 0 <= k < i ==> arrays[k].Value() == old(ReceivedAt(arrays[k], lines[k], config))
    {
      ValuesApart(arrays, grownRepr, i);
      grownRepr := HandleLinesAt(arrays, grownRepr, i, lines[i], config);
      i := i + 1;
    }
  }

  /** What one array hands to katcl on its two connections. */
  datatype Writes = Writes(control: Option<Line>, monitor: Option<Line>)

  lemma ConnectionsOwned(a: CorrArray)
    requires a.Valid()
    ensures a.control in a.Repr && a.monitor in a.Repr
  {
  }

  method SetupWritesAt(arrays: seq<CorrArray>, ghost repr: set<object>, i: nat) returns (writes: Writes)
    requires OwnsArrays(arrays, repr) && i < |arrays|
    modifies arrays[i].Repr
    ensures OwnsArrays(arrays, repr) && Registry(arrays) == old(Registry(arrays))
    ensures arrays[i].Value() == BothSent(old(arrays[i].Value()))
    ensures var a := old(arrays[i].Value()); writes == Writes(Due(a.control), Due(a.monitor))
  {
    hide CorrArray.Valid, CorrArray.Value, BothSent, Due, Join, Compose;
    ConnectionsOwned(arrays[i]);
    assert forall k :: 0 <= k < |arrays| && k != i ==> arrays[k] !in arrays[i].Repr;
    var control, monitor := arrays[i].SetupWrites();
    writes := Writes(control, monitor);
    assert forall k :: 0 <= k < |arrays| ==> arrays[k].active == old(arrays[k].active);
  }

  /** Every array hands over what is due on its own connections. */
  method SetupArrayWrites(arrays: seq<CorrArray>, ghost repr: set<object>) returns (writes: seq<Writes>)
    requires OwnsArrays(arrays, repr)
    modifies repr
    ensures OwnsArrays(arrays, repr) && Registry(arrays) == old(Registry(arrays)) && |writes| == |arrays|
    ensures forall k :: 0 <= k < |arrays| ==> arrays[k].Value() == BothSent(old(arrays[k].Value()))
    ensures forall k :: 0 <= k < |arrays| ==>
      writes[k] == Writes(Due(old(arrays[k].Value()).control), Due(old(arrays[k].Value()).monitor))
  {
    hide CorrArray.Value, OwnsArrays, Registry, BothSent, Due;
    writes := [];
    var i := 0;
    while i < |arrays|
      invariant 0 <= i <= |arrays| && OwnsArrays(arrays, repr) && |writes| == i
      invariant Registry(arrays) == old(Registry(arrays))
      invariant forall k :: i <= k < |arrays| ==> arrays[k].Value() == old(arrays[k].Value())
      invariant forall k :: 0 <= k < i ==> arrays[k].Value() == BothSent(old(arrays[k].Value()))
      invariant forall k :: 0 <= k < i ==>
        writes[k] == Writes(Due(old(arrays[k].Value()).control), Due(old(arrays[k].Value()).monitor))
    {
      ValuesApart(arrays, repr, i);
      var w := SetupWritesAt(arrays, repr, i);
      writes := writes + [w];
      i := i + 1;
    }
  }

  lemma Owned(arrays: seq<CorrArray>, repr: set<object>)
    requires OwnsArrays(arrays, repr)
    ensures forall a :: a in arrays ==> a.Repr <= repr
  {
  }

  /** A new array joins the end of the list, which is then sorted. */
  method AppendAndSort(arrays: seq<CorrArray>, ghost repr: set<object>, name: string, controlPort: nat,
                       monitorPort: nat, antennas: nat)
    returns (a: CorrArray, sorted: seq<CorrArray>, ghost grownRepr: set<object>)
    requires OwnsArrays(arrays, repr) && SortedNames(arrays)
    requires FirstNamed(Registry(arrays), name) == |arrays|
    ensures OwnsArrays(sorted, grownRepr) && SortedNames(sorted) && fresh(grownRepr - repr) && repr <= grownRepr
    ensures fresh(a) && a in sorted && a.Value() == NewArray(antennas) && a.active
    ensures a.name == name && a.controlPort == controlPort && a.monitorPort == monitorPort && a.antennas == antennas
    ensures multiset(sorted) == multiset(arrays) + multiset{a}
    ensures |sorted| == |arrays| + 1
    ensures Registry(sorted) == Inserted(Registry(arrays), Entry(name, controlPort, monitorPort, antennas, true))
  {
    hide CorrArray.Valid, CorrArray.Value, Registry, Sorted, Consistent;
    a := new CorrArray(name, controlPort, monitorPort, antennas);
    ghost var longer := arrays + [a];
    CmpByNameIsConsistent(arrays + [a]);
    sorted := QSort(arrays + [a], CmpArrayByName);
    grownRepr := repr + a.Repr;
    SortedRegistry(arrays, a, sorted);
    assert OwnsArrays(longer, grownRepr);
    PermutationOwns(longer, sorted, grownRepr);
    assert a in multiset(sorted);
    assert |sorted| == |multiset(sorted)| == |multiset(longer)| == |longer|;
  }

  lemma PermutationOwns(arrays: seq<CorrArray>, sorted: seq<CorrArray>, repr: set<object>)
    requires OwnsArrays(arrays, repr) && multiset(sorted) == multiset(arrays) && SortedNames(sorted)
    ensures OwnsArrays(sorted, repr)
  {
    forall i | 0 <= i < |sorted|
      ensures sorted[i] in arrays
    {
      assert sorted[i] in multiset(sorted);
    }
    forall i, j | 0 <= i < j < |sorted|
      ensures sorted[i].Repr !! sorted[j].Repr
    {
      var k :| 0 <= k < |arrays| && arrays[k] == sorted[i];
      var l :| 0 <= l < |arrays| && arrays[l] == sorted[j];
      LessTrichotomy(sorted[i].name, sorted[j].name);
      assert k != l;
    }
  }

  /** An inform that announces an array of the name. */
  predicate Announces(line: Line, name: string) {
    ArrayInform(line) && line[1] == name
  }

  class CmcServer {
    const address: string
    const katcpPort: nat
    var state: CmcState
    const queue: Queue
    var current: Option<Msg>
    var arrays: seq<CorrArray>
    var skarabs: Skarabs
    ghost var ArrayRepr: set<object>
    ghost var Repr: set<object>

    ghost predicate Valid()
      reads this, Repr
      ensures Valid() ==> this in Repr
    {
      && this in Repr && queue in Repr && ArrayRepr <= Repr && this !in ArrayRepr && queue !in ArrayRepr
      && queue.Valid() && (current.Some? ==> current.value.words != [])
      && OwnsArrays(arrays, ArrayRepr) && SortedNames(arrays)
    }

    ghost function Value(): Server
      reads this, queue, arrays
    {
      Server(state, current, queue.messages, Registry(arrays), skarabs)
    }

    constructor (address: string, katcpPort: nat)
      ensures Valid() && fresh(Repr) && Value() == Created()
    {
      var q := new Queue();
      PushWords(q, ["log-local", "off"]);
      PushWords(q, ["client-config", "info-all"]);
      PushWords(q, ["array-list"]);
      PushWords(q, ["resource-list"]);
      FirstRequests();
      var front := q.Pop();
      this.address, this.katcpPort, state, queue, current := address, katcpPort, WaitConnect, q, front;
      arrays, skarabs := [], NO_SKARABS;
      ArrayRepr, Repr := {}, {this, q};
    }

    method TryReconnect()
      requires Valid()
      modifies `state
      ensures Valid() && Value() == Reconnecting(old(Value()))
      ensures state == if old(state) == Offline then WaitConnect else old(state)
    {
      hide OwnsArrays, Registry, SortedNames;
      if state == Offline || state == WaitConnect {
        state := WaitConnect;
      }
    }

    method QueuePop()
      requires Valid()
      modifies `current, queue
      ensures Valid() && Value() == Popped(old(Value()))
    {
      hide OwnsArrays, Registry, SortedNames;
      current := queue.Pop();
    }

    method AskForLists()
      requires Valid()
      modifies `state, `current, `skarabs, queue
      ensures Valid() && Value() == ListsAskedFor(old(Value()))
    {
      hide OwnsArrays, Registry, SortedNames, Push;
      PushWords(queue, ["array-list"]);
      PushWords(queue, ["resource-list"]);
      skarabs := NO_SKARABS;
      if current.None? || current.value.words == [] {
        QueuePop();
      }
      if state == Idle {
        state := SendNext;
      }
    }

    /** Marks the arrays, asks for arrays and resources, and gets an idle connection going. */
    method PollArrayList()
      requires Valid()
      modifies `state, `current, `skarabs, queue, (set a: CorrArray | a in arrays)`active
      ensures Valid() && Value() == Polled(old(Value()))
    {
      hide OwnsArrays, Registry, SortedNames, ListsAskedFor;
      if state != Offline && state != WaitConnect {
        MarkAllSuspect(arrays, ArrayRepr);
        AskForLists();
      }
    }

    /** The server's own message and then those of all arrays, whether the server is connected or not. */
    method SetupWrites() returns (sent: Option<Line>, writes: seq<Writes>)
      requires Valid()
      modifies `state, ArrayRepr
      ensures Valid() && Value() == Written(old(Value()))
      ensures sent == if old(state) == SendNext && current.Some? then Some(Wire(current.value)) else None
      ensures sent.Some? ==> current.Some? && |sent.value| == |current.value.words|
      ensures sent.Some? ==> sent.value[0] == [current.value.kind] + current.value.words[0]
      ensures sent.Some? ==> forall k :: 1 <= k < |current.value.words| ==> sent.value[k] == current.value.words[k]
      ensures sent.Some? ==> Some(Join(sent.value, ' ')) == Compose(current.value)
      ensures |writes| == |arrays|
      ensures forall k :: 0 <= k < |arrays| ==> arrays[k].Value() == BothSent(old(arrays[k].Value()))
      ensures forall k :: 0 <= k < |arrays| ==>
        writes[k] == Writes(Due(old(arrays[k].Value()).control), Due(old(arrays[k].Value()).monitor))
    {
      hide OwnsArrays, Registry, SortedNames, CorrArray.Value, CorrArray.Valid, BothSent, Due, Join, Compose;
      sent := SetupOwnWrite();
      writes := SetupArrayWrites(arrays, ArrayRepr);
    }

    /** Hands the current message to katcl word by word and starts waiting. */
    method SetupOwnWrite() returns (sent: Option<Line>)
      requires Valid()
      modifies `state
      ensures Valid() && Value() == Written(old(Value()))
      ensures sent == if old(state) == SendNext && current.Some? then Some(Wire(current.value)) else None
      ensures sent.Some? ==> current.Some? && |sent.value| == |current.value.words|
      ensures sent.Some? ==> sent.value[0] == [current.value.kind] + current.value.words[0]
      ensures sent.Some? ==> forall k :: 1 <= k < |current.value.words| ==> sent.value[k] == current.value.words[k]
      ensures sent.Some? ==> Some(Join(sent.value, ' ')) == Compose(current.value)
    {
      if current.Some? {
        WireCarries(current.value);
      }
      hide OwnsArrays, Registry, SortedNames, Join, Compose;
      sent := None;
      if current.Some? && state == SendNext {
        var m := current.value;
        var line: Line := [[m.kind] + m.words[0]];
        var j := 1;
        while j < |m.words|
          invariant 1 <= j <= |m.words| && line == [[m.kind] + m.words[0]] + m.words[1..j]
        {
          assert m.words[1..j + 1] == m.words[1..j] + [m.words[j]];
          line := line + [m.words[j]];
          j := j + 1;
        }
        assert m.words[1..j] == m.words[1..];
        sent := Some(line);
        state := AwaitReply;
      }
    }

    /** The socket became writable while connecting; success is the pending socket error being 0. */
    method ConnectionAttempted(success: bool)
      requires Valid()
      modifies `state
      ensures Valid() && Value() == Connected(old(Value()), success)
      ensures state == if old(state) != WaitConnect then old(state) else if success then SendNext else Offline
    {
      hide OwnsArrays, Registry, SortedNames;
      if state == WaitConnect {
        state := if success then SendNext else Offline;
      }
    }

    /** A read or a write on the socket failed. */
    method SocketFailed()
      requires Valid()
      modifies `state
      ensures Valid() && Value() == Dropped(old(Value()))
      ensures state == if old(state) == WaitConnect then WaitConnect else Offline
    {
      hide OwnsArrays, Registry, SortedNames;
      if state != WaitConnect && state != Offline {
        state := Offline;
      }
    }

    method AddArray(name: string, controlPort: nat, monitorPort: nat, antennas: nat, recent: bool) returns (r: int)
      requires Valid()
      modifies `arrays, `ArrayRepr, `Repr,
               (set a: CorrArray, o: object | a in arrays && a.name == name && o in a.Repr :: o)
      ensures Valid() && fresh(Repr - old(Repr))
      ensures Value() == old(Value()).(
        arrays := Announced(old(Value()).arrays, Entry(name, controlPort, monitorPort, antennas, true)))
      ensures var i := FirstNamed(old(Value()).arrays, name);
        if i < |old(arrays)| then
          r == i && arrays == old(arrays) && arrays[i].Value() == MarkedFine(old(arrays[i].Value()), recent)
        else
          r == 0 &&
          (exists a | a in arrays && fresh(a) ::
            && a.Value() == NewArray(antennas) && multiset(arrays) == multiset(old(arrays)) + multiset{a}
            && a.active && a.name == name && a.antennas == antennas
            && a.controlPort == controlPort && a.monitorPort == monitorPort)
    {
      hide OwnsArrays, Registry, SortedNames, Inserted, MarkedFine, NewArray, CorrArray.Value, CorrArray.Valid,
           FirstNamed;
      var i := FindArrayNamed(arrays, name);
      if i < |arrays| {
        Owned(arrays, ArrayRepr);
        MarkFineAt(arrays, ArrayRepr, i, recent);
        return i;
      }
      var a;
      a, arrays, ArrayRepr := AppendAndSort(arrays, ArrayRepr, name, controlPort, monitorPort, antennas);
      Repr := Repr + ArrayRepr;
      r := 0;
    }

    method SweepArrays()
      requires Valid() && |arrays| < SIZE_T
      modifies `arrays
      ensures Valid() && Value() == old(Value()).(arrays := Swept(old(Value()).arrays))
      ensures arrays == old(ActiveOf(arrays))
    {
      hide OwnsArrays, Registry, SortedNames, ActiveOf, Swept;
      ActiveRegistry(arrays);
      ActiveKeepsOrder(arrays, ArrayRepr);
      ghost var tested;
      arrays, tested := Sweep(arrays);
    }

    method HandleReply(line: Line)
      requires Valid() && |arrays| < SIZE_T && IsReply(line) && |line| >= 2 && current.Some?
      modifies this, queue
      ensures Valid() && Repr == old(Repr) && Value() == ReplyHandled(old(Value()), line)
      ensures var sweeps := line[0] == "!array-list" && old(current.value.words[0]) == "array-list";
        arrays == if sweeps then old(ActiveOf(arrays)) else old(arrays)
    {
      hide OwnsArrays, Registry, SortedNames, Swept, ActiveOf;
      assert line[0] == "!array-list" <==> line[0][1..] == "array-list";
      if line[0][1..] == current.value.words[0] {
        if line[1] == "ok" {
          state := SendNext;
          var waiting := queue.SizeOf();
          if waiting > 0 {
            QueuePop();
          } else {
            current := None;
            state := Idle;
          }
        } else {
          state := SendNext;
        }
        if line[0][1..] == "array-list" {
          SweepArrays();
        }
      }
    }

    /** Counts the multicast groups of an announcement up to the terminating NULL. */
    method CountAntennas(line: Line) returns (antennas: nat)
      requires |line| >= 3
      ensures antennas == (|line| - 3) / 2
    {
      var j := 3;
      var found := true;
      while found
        invariant 3 <= j && (if found then j <= |line| else j == |line| + 1)
        decreases |line| + 1 - j
      {
        found := j < |line|;
        j := j + 1;
      }
      antennas := (j - 4) / 2;
    }

    method HandleInform(line: Line, recent: bool)
      requires Valid() && line != []
      requires line[0] == "#array-list" ==> ArrayInform(line)
      requires line[0] == "#resource-list" ==> ResourceInform(line)
      modifies `arrays, `ArrayRepr, `Repr, `skarabs,
               (set a: CorrArray, o: object | a in arrays && Announces(line, a.name) && o in a.Repr :: o)
      ensures Valid() && fresh(Repr - old(Repr)) && Value() == InformHandled(old(Value()), line)
      ensures if ArrayInform(line) then
        var i, antennas := FirstNamed(old(Value()).arrays, line[1]), (|line| - 3) / 2;
        if i < |old(arrays)| then
          arrays == old(arrays) && arrays[i].Value() == MarkedFine(old(arrays[i].Value()), recent)
        else
          exists a | a in arrays && fresh(a) ::
            && a.Value() == NewArray(antennas) && multiset(arrays) == multiset(old(arrays)) + multiset{a}
            && a.active && a.name == line[1] && a.antennas == antennas
            && a.controlPort == EntryFrom(line).controlPort && a.monitorPort == EntryFrom(line).monitorPort
        else arrays == old(arrays)
    {
      hide OwnsArrays, Registry, SortedNames, Announced, CorrArray.Value, CorrArray.Valid, MarkedFine, NewArray,
           FirstNamed;
      if line[0] == "#array-list" {
        var ports := Runs(line[2], ',', 0);
        assert EntryFrom(line) == Entry(line[1], Port(ports[0]), Port(ports[1]), (|line| - 3) / 2, true);
        hide EntryFrom, Port, Runs;
        var antennas := CountAntennas(line);
        Owned(arrays, ArrayRepr);
        var _ := AddArray(line[1], Port(ports[0]), Port(ports[1]), antennas, recent);
      } else if line[0] == "#resource-list" {
        if line[2] == "standby" {
          skarabs := skarabs.(standby := skarabs.standby + 1);
        } else if line[2] == "up" {
          if |line| > 3 {
            skarabs := skarabs.(inUse := skarabs.inUse + 1);
          } else {
            skarabs := skarabs.(up := skarabs.up + 1);
          }
        }
      }
    }

    /** One line from the katcl buffer, by the type character it starts with. */
    method HandleLine(line: Line, recent: bool)
      requires Valid() && |arrays| < SIZE_T && Readable(Value(), line)
      modifies this, queue, (set a: CorrArray, o: object | a in arrays && Announces(line, a.name) && o in a.Repr :: o)
      ensures Valid() && fresh(Repr - old(Repr)) && Value() == LineHandled(old(Value()), line)
      ensures if ArrayInform(line) then
        var i, antennas := FirstNamed(old(Value()).arrays, line[1]), (|line| - 3) / 2;
        if i < |old(arrays)| then
          arrays == old(arrays) && arrays[i].Value() == MarkedFine(old(arrays[i].Value()), recent)
        else
          exists a | a in arrays && fresh(a) ::
            && a.Value() == NewArray(antennas) && multiset(arrays) == multiset(old(arrays)) + multiset{a}
            && a.active && a.name == line[1] && a.antennas == antennas
            && a.controlPort == EntryFrom(line).controlPort && a.monitorPort == EntryFrom(line).monitorPort
        else if line[0] == "!array-list" && old(current.value.words[0]) == "array-list" then
          arrays == old(ActiveOf(arrays))
        else arrays == old(arrays)
    {
      hide OwnsArrays, Registry, SortedNames, ReplyHandled, CorrArray.Value, CorrArray.Valid, MarkedFine, NewArray,
           FirstNamed;
      match line[0][0] {
        case '!' => HandleReply(line);
        case '#' => HandleInform(line, recent);
        case _ =>
      }
    }

    method HandleArrayLines(arrayLines: seq<Lines>, config: seq<string>)
      requires Valid() && |arrayLines| == |arrays| && Activation.ProperConfig(config)
      requires forall k :: 0 <= k < |arrays| ==> ReadableAt(arrays[k], arrayLines[k], config)
      modifies `ArrayRepr, `Repr, ArrayRepr
      ensures Valid() && fresh(Repr - old(Repr)) && arrays == old(arrays) && Value() == old(Value())
      ensures forall k :: 0 <= k < |arrays| ==> arrays[k].Value() == old(ReceivedAt(arrays[k], arrayLines[k], config))
    {
      hide OwnsArrays, Registry, SortedNames, CorrArray.Value, CorrArray.Valid, BothReadable, BothReceived,
           Activation.ProperConfig;
      ArrayRepr := HandleArrays(arrays, ArrayRepr, arrayLines, config);
      Repr := Repr + ArrayRepr;
    }

    lemma Footprint()
      requires Valid()
      ensures queue in Repr && ArrayRepr <= Repr && forall a :: a in arrays ==> a.Repr <= Repr
    {
      Owned(arrays, ArrayRepr);
    }

    /** Everything in the katcl buffers, the arrays' first and then the server's own, unless the
        connection is down. */
    method HandleReceived(arrayLines: seq<Lines>, lines: seq<Line>, config: seq<string>, recent: bool)
      requires Valid() && |arrays| + |lines| < SIZE_T && |arrayLines| == |arrays| && Activation.ProperConfig(config)
      requires Online(Value()) ==> forall k :: 0 <= k < |arrays| ==> ReadableAt(arrays[k], arrayLines[k], config)
      requires Online(Value()) ==> AllReadable(Value(), lines)
      modifies Repr
      ensures Valid() && fresh(Repr - old(Repr)) && Value() == Received(old(Value()), lines)
    {
      hide Valid, OwnsArrays, Registry, SortedNames, LineHandled, Readable;
      if state == WaitConnect || state == Offline {
        return;
      }
      Footprint();
      HandleArrayLines(arrayLines, config);
      var i := 0;
      assert lines[0..] == lines;
      while i < |lines|
        invariant 0 <= i <= |lines| && Valid() && fresh(Repr - old(Repr)) && |arrays| + |lines| - i < SIZE_T
        invariant AllReadable(Value(), lines[i..])
        invariant LinesHandled(Value(), lines[i..]) == LinesHandled(old(Value()), lines)
      {
        assert lines[i..][0] == lines[i] && lines[i..][1..] == lines[i + 1..];
        LineAddsAtMostOne(Value(), lines[i]);
        Footprint();
        HandleLine(lines[i], recent);
        RegistryLength(arrays);
        i := i + 1;
      }
    }

    /** An array by its number in the list, counted from 1, or else by its name. */
    method CheckForArray(name: string) returns (r: int)
      requires Valid()
      ensures r == if AllDigits(name) && 0 < Atoi(name) <= |arrays| then Atoi(name) - 1
                   else if FirstNamed(Registry(arrays), name) < |arrays| then FirstNamed(Registry(arrays), name)
                   else -1
    {
      var i := 0;
      while i < |name| && IsDigit(name[i])
        invariant 0 <= i <= |name| && forall k :: 0 <= k < i ==> IsDigit(name[k])
      {
        i := i + 1;
      }
      if i == |name| {
        r := Atoi(name);
        if 0 < r <= |arrays| {
          return r - 1;
        }
      }
      var j := FindArrayNamed(arrays, name);
      r := if j < |arrays| then j else -1;
    }
  }

  lemma RegistryLength(arrays: seq<CorrArray>)
    ensures |Registry(arrays)| == |arrays|
  {
  }

  predicate AllDigits(name: string) {
    forall k :: 0 <= k < |name| ==> IsDigit(name[k])
  }

  method PushWords(q: Queue, words: seq<string>)
    requires q.Valid() && words != []
    modifies q
    ensures q.Valid() && q.messages == Push(old(q.messages), Request(words))
  {
    var m := NewRequest(words);
    q.PushMessage(m);
  }

  lemma FirstRequests()
    ensures PushAll([], [LOG_OFF, CLIENT_CONFIG, ARRAY_LIST, RESOURCE_LIST])
         == Push(Push(Push(Push([], LOG_OFF), CLIENT_CONFIG), ARRAY_LIST), RESOURCE_LIST)
  {
    var ms := [LOG_OFF, CLIENT_CONFIG, ARRAY_LIST, RESOURCE_LIST];
    assert ms[..3] == [LOG_OFF, CLIENT_CONFIG, ARRAY_LIST] && ms[..3][..2] == [LOG_OFF, CLIENT_CONFIG];
    assert ms[..3][..2][..1] == [LOG_OFF] && [LOG_OFF][..0] == [];
    hide Push;
    assert PushAll([], [LOG_OFF]) == Push([], LOG_OFF);
    assert PushAll([], ms[..3][..2]) == Push(PushAll([], [LOG_OFF]), CLIENT_CONFIG);
    assert PushAll([], ms[..3]) == Push(PushAll([], ms[..3][..2]), ARRAY_LIST);
  }
}
