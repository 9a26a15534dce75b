/** src/queue.c: the duplicate-suppressing message FIFO. */
module Queues {
  import opened Text
  import opened Messages

  ghost predicate Sendable(q: seq<Msg>) {
    forall i :: 0 <= i < |q| ==> q[i].words != []
  }

  predicate Holds(q: seq<Msg>, m: Msg) {
    exists i :: 0 <= i < |q| && Compose(q[i]) == Compose(m)
  }

  /** What queue_push leaves behind: nothing changes when the same text is already waiting. */
  function Push(q: seq<Msg>, m: Msg): seq<Msg> {
    if Holds(q, m) then q else q + [m]
  }

  function PushAll(q: seq<Msg>, ms: seq<Msg>): seq<Msg> {
    if ms == [] then q else Push(PushAll(q, ms[..|ms| - 1]), ms[|ms| - 1])
  }

  ghost predicate Distinct(q: seq<Msg>) {
    forall i, j :: 0 <= i < j < |q| ==> Compose(q[i]) != Compose(q[j])
  }

  lemma PushKeepsDistinct(q: seq<Msg>, m: Msg)
    requires Distinct(q)
    ensures Distinct(Push(q, m))
  {
  }

  lemma {:induction false} PushAllKeepsDistinct(q: seq<Msg>, ms: seq<Msg>)
    requires Distinct(q)
    ensures Distinct(PushAll(q, ms))
  {
    if ms == [] {
    } else {
      PushAllKeepsDistinct(q, ms[..|ms| - 1]);
    }
  }

  /** Pushing only ever extends the queue, by some of the pushed messages. */
  lemma {:induction false} PushAllExtends(q: seq<Msg>, ms: seq<Msg>)
    ensures q <= PushAll(q, ms)
    ensures forall m :: m in PushAll(q, ms) ==> m in q || m in ms
  {
    if ms == [] {
    } else {
      PushAllExtends(q, ms[..|ms| - 1]);
    }
  }

  lemma HoldsAppend(q: seq<Msg>, last: Msg, m: Msg)
    ensures Holds(q + [last], m) <==> Holds(q, m) || Compose(last) == Compose(m)
  {
    var all := q + [last];
    if Holds(q, m) {
      var i :| 0 <= i < |q| && Compose(q[i]) == Compose(m);
      assert Compose(all[i]) == Compose(m);
    }
    if Compose(last) == Compose(m) {
      assert Compose(all[|q|]) == Compose(m);
    }
  }

  lemma PushHolds(q: seq<Msg>, pushed: Msg, m: Msg)
    ensures Holds(Push(q, pushed), m) <==> Holds(q, m) || Compose(pushed) == Compose(m)
  {
    HoldsAppend(q, pushed, m);
  }

  /** The texts waiting afterwards are exactly the old and the pushed ones. */
  lemma {:induction false} PushAllHolds(q: seq<Msg>, ms: seq<Msg>, m: Msg)
    ensures Holds(PushAll(q, ms), m) <==> Holds(q, m) || Holds(ms, m)
  {
    if ms == [] {
    } else {
      var front, last := ms[..|ms| - 1], ms[|ms| - 1];
      PushAllHolds(q, front, m);
      PushHolds(PushAll(q, front), last, m);
      HoldsAppend(front, last, m);
      assert ms == front + [last];
    }
  }

  /** On messages whose words hold no spaces the text comparison is equality of messages. */
  lemma PushIsSetLike(q: seq<Msg>, m: Msg)
    requires Sendable(q) && m.words != [] && Plain(m)
    requires forall i :: 0 <= i < |q| ==> Plain(q[i])
    ensures Push(q, m) == if m in q then q else q + [m]
  {
    forall i | 0 <= i < |q|
      ensures Compose(q[i]) == Compose(m) <==> q[i] == m
    {
      ComposeInjective(q[i], m);
    }
  }

  lemma {:induction false} DistinctBound(q: seq<Msg>, vocabulary: set<Msg>)
    requires Distinct(q) && forall m :: m in q ==> m in vocabulary
    ensures |q| <= |vocabulary|
  {
    if q == [] {
    } else {
      var front, last := q[..|q| - 1], q[|q| - 1];
      forall m | m in front
        ensures m in vocabulary - {last}
      {
        var i :| 0 <= i < |front| && front[i] == m;
        assert Compose(q[i]) != Compose(q[|q| - 1]);
      }
      assert last in q;
      DistinctBound(front, vocabulary - {last});
    }
  }

  class Queue {
    var messages: seq<Msg>

    ghost predicate Valid()
      reads this
    {
      Sendable(messages)
    }

    constructor ()
      ensures Valid() && messages == []
    {
      messages := [];
    }

    /** The scan composes both sides and compares the texts, so a message without words can only be pushed
        on an empty queue, and nothing can be pushed behind it. */
    method PushMessage(m: Message)
      requires Valid() && (m.words != [] || messages == [])
      modifies this
      ensures messages == Push(old(messages), m.Value())
      ensures Valid() <==> m.words != []
    {
      var i := 0;
      while i < |messages|
        invariant 0 <= i <= |messages| && messages == old(messages)
        invariant forall k :: 0 <= k < i ==> Compose(messages[k]) != Compose(m.Value())
      {
        var queued := new Message(messages[i].kind);
        queued.words := messages[i].words;
        var alreadyQueued := queued.ComposeText();
        var composed := m.ComposeText();
        if alreadyQueued == composed {
          return;
        }
        i := i + 1;
      }
      messages := messages + [m.Value()];
      assert messages[|messages| - 1] == m.Value();
    }

    /** The front message is copied word by word, then the rest is moved one place forward. */
    method Pop() returns (front: Option<Msg>)
      requires Valid()
      modifies this
      ensures Valid()
      ensures old(messages) == [] ==> front == None && messages == []
      ensures old(messages) != [] ==> front == Some(old(messages)[0]) && messages == old(messages)[1..]
    {
      if |messages| == 0 {
        return None;
      }
      var copy := new Message(messages[0].kind);
      var i := 0;
      while i < |messages[0].words|
        invariant messages == old(messages) && fresh(copy)
        invariant 0 <= i <= |messages[0].words|
        invariant copy.Value() == Msg(messages[0].kind, messages[0].words[..i])
      {
        var _ := copy.AddWord(messages[0].words[i]);
        i := i + 1;
      }
      assert messages[0].words[..i] == messages[0].words;
      messages := messages[1..];
      front := Some(copy.Value());
    }

    method SizeOf() returns (n: nat)
      ensures n == |messages|
    {
      n := |messages|;
    }
  }
}
