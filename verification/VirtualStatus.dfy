/** The status a virtual device shows: src/vdevice.c seen as a function of the engines' statuses. */
module VirtualStatus {
  function Rank(status: string): (r: nat)
    ensures r <= 3
  {
    if status == "error" then 3 else if status == "warn" then 2 else if status == "nominal" then 1 else 0
  }

  function RankName(rank: nat): string {
    match rank
    case 3 => "error"
    case 2 => "warn"
    case 1 => "nominal"
    case _ => "unknown"
  }

  /** The largest rank among the statuses; 0 when there are none. */
  function WorstRank(statuses: seq<string>): (r: nat)
    ensures r <= 3
    ensures forall i :: 0 <= i < |statuses| ==> Rank(statuses[i]) <= r
    ensures r > 0 ==> exists i :: 0 <= i < |statuses| && Rank(statuses[i]) == r
  {
    if statuses == [] then 0
    else
      var rest := WorstRank(statuses[1..]);
      var first := Rank(statuses[0]);
      if first > rest then first else rest
  }

  function Worst(statuses: seq<string>): string {
    RankName(WorstRank(statuses))
  }

  /** One pass of the loop: the status it looks for overwrites, otherwise the earlier result stays. */
  function Pass(statuses: seq<string>, sought: string, before: string): string {
    if sought in statuses then sought else before
  }

  lemma PassesFindWorst(statuses: seq<string>)
    ensures Pass(statuses, "error", Pass(statuses, "warn", Pass(statuses, "nominal", "unknown"))) == Worst(statuses)
  {
    var r := WorstRank(statuses);
    if "error" in statuses {
      assert Rank("error") <= r;
    } else if "warn" in statuses {
      assert Rank("warn") <= r;
    } else if "nominal" in statuses {
      assert Rank("nominal") <= r;
    }
  }

  /** The order of the engines does not matter, nor how often a status occurs. */
  lemma WorstIgnoresOrder(a: seq<string>, b: seq<string>)
    requires forall s :: s in a <==> s in b
    ensures Worst(a) == Worst(b)
  {
    forall i | 0 <= i < |a|
      ensures Rank(a[i]) <= WorstRank(b)
    {
      assert a[i] in b;
    }
    forall i | 0 <= i < |b|
      ensures Rank(b[i]) <= WorstRank(a)
    {
      assert b[i] in a;
    }
  }

  /** One engine getting worse never makes the virtual device look better. */
  lemma WorstIsMonotone(statuses: seq<string>, i: nat, status: string)
    requires i < |statuses| && Rank(statuses[i]) <= Rank(status)
    ensures Rank(Worst(statuses)) <= Rank(Worst(statuses[i := status]))
  {
    var after := statuses[i := status];
    assert Rank(after[i]) <= WorstRank(after);
    forall k | 0 <= k < |statuses|
      ensures Rank(statuses[k]) <= WorstRank(after)
    {
      assert k != i ==> after[k] == statuses[k];
    }
  }
}
