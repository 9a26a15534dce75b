/** The loops of src/main.c that serve the web clients and drop those whose socket failed. */
module ClientLoop {
  import opened Text
  import opened Removal

  /** The clients whose socket did not fail, in order. */
  function Surviving<T>(clients: seq<T>, failed: T -> bool): seq<T> {
    if clients == [] then []
    else
      var last := clients[|clients| - 1];
      Surviving(clients[..|clients| - 1], failed) + if failed(last) then [] else [last]
  }

  lemma {:induction false} SurvivingAre<T>(clients: seq<T>, failed: T -> bool)
    ensures forall c :: c in Surviving(clients, failed) <==> c in clients && !failed(c)
    ensures |Surviving(clients, failed)| <= |clients|
  {
    if clients == [] {
    } else {
      SurvivingAre(clients[..|clients| - 1], failed);
      assert clients == clients[..|clients| - 1] + [clients[|clients| - 1]];
    }
  }

  /** What is kept of a list is what is kept of its parts, in their order: clients keep their places. */
  lemma {:induction false} SurvivingSplits<T>(a: seq<T>, b: seq<T>, failed: T -> bool)
    ensures Surviving(a + b, failed) == Surviving(a, failed) + Surviving(b, failed)
    ensures |a| == 1 ==> Surviving(a, failed) == if failed(a[0]) then [] else a
    decreases |b|
  {
    if |a| == 1 {
      assert a[..0] == [] && Surviving(a[..0], failed) == [];
    }
    if b == [] {
      assert a + b == a;
    } else {
      SurvivingSplits(a, b[..|b| - 1], failed);
      assert (a + b)[..|a + b| - 1] == a + b[..|b| - 1];
    }
  }

  lemma SurvivingStep<T>(clients: seq<T>, failed: T -> bool, t: nat)
    requires t < |clients|
    ensures Surviving(clients[..t + 1], failed)
         == Surviving(clients[..t], failed) + if failed(clients[t]) then [] else [clients[t]]
    ensures clients[..t + 1] == clients[..t] + [clients[t]]
  {
    assert clients[..t + 1][..t] == clients[..t];
  }

  /** The last client of all is removed by dropping the list, any other by moving the tail down and stepping
      the index, a size_t, back. */
  method Remove<T>(list: seq<T>, i: nat) returns (shorter: seq<T>, n: nat, j: nat)
    requires i < |list| < SIZE_T
    ensures shorter == list[..i] + list[i + 1..] && n == |list| - 1
    ensures j < SIZE_T && Next(j) == if n == 0 then 1 else i
  {
    BackAndForth(i);
    BackAndForth(0);
    if |list| == 1 {
      shorter, n, j := [], 0, i;
    } else {
      shorter, n, j := list[..i] + list[i + 1..], |list| - 1, Previous(i);
    }
  }

  /** Every client is served once, in order; the list keeps exactly those that did not fail. */
  method ServeAll<T>(clients: seq<T>, failed: T -> bool) returns (kept: seq<T>, ghost served: seq<T>)
    requires |clients| < SIZE_T
    ensures kept == Surviving(clients, failed) && served == clients
  {
    kept, served := clients, [];
    var n, i := |clients|, 0;
    assert clients[..0] == [] && Surviving([], failed) == [];
    ghost var done, t := [], 0;
    hide Surviving, Previous;
    while i < n
      invariant 0 <= t <= |clients| && served == clients[..t] && n == |kept|
      invariant done == Surviving(clients[..t], failed) && |done| <= t && kept == done + clients[t..]
      invariant i == |done| || (n == 0 && 0 <= i <= 1)
      decreases |clients| - t
    {
      SurvivingStep(clients, failed, t);
      AtFront(done, clients, t);
      served := served + [kept[i]];
      if failed(kept[i]) {
        kept, n, i := Remove(kept, i);
      } else {
        done := done + [kept[i]];
      }
      i := Next(i);
      t := t + 1;
    }
    assert clients[..t] == clients && clients[t..] == [];
  }
}
