/** One KATCP connection of an array (src/array.c): a queue, the message being dealt with and a state.
    The control and the monitor connection follow the same code and differ in where they look for
    an xhost's number in a failed request. */
module Connections {
  import opened Text
  import opened Messages
  import opened Queues

  /** The arguments of one received KATCP line, the first with its type character. */
  type Line = seq<string>

  predicate IsReply(line: Line) {
    line != [] && line[0] != "" && line[0][0] == '!'
  }

  /** The line that katcl is given for a message. */
  function Wire(m: Msg): Line
    requires m.words != []
  {
    [[m.kind] + m.words[0]] + m.words[1..]
  }

  lemma {:induction false} JoinFirstWord(first: string, words: seq<string>, c: char)
    ensures Join([[c] + first] + words, ' ') == [c] + Join([first] + words, ' ')
  {
    if words == [] {
      assert [[c] + first] + words == [[c] + first] && [first] + words == [first];
    } else {
      assert ([[c] + first] + words)[1..] == words && ([first] + words)[1..] == words;
      assert ([c] + first) + [' '] + Join(words, ' ') == [c] + (first + [' '] + Join(words, ' '));
    }
  }

  /** Word by word the line is the message, its type before the first word, and joined by spaces it is the
      message's text: the peer is sent what the queue compares. */
  lemma WireCarries(m: Msg)
    requires m.words != []
    ensures |Wire(m)| == |m.words| && Wire(m)[0] == [m.kind] + m.words[0]
    ensures forall k :: 1 <= k < |m.words| ==> Wire(m)[k] == m.words[k]
    ensures Some(Join(Wire(m), ' ')) == Compose(m)
  {
    JoinFirstWord(m.words[0], m.words[1..], m.kind);
    assert [m.words[0]] + m.words[1..] == m.words;
  }

  datatype ConnState = SendFront | WaitResponse | Monitor | Disconnected

  datatype Conn = Conn(state: ConnState, current: Option<Msg>, queue: seq<Msg>)

  ghost predicate Sound(c: Conn) {
    Sendable(c.queue) && (c.current.Some? ==> c.current.value.words != [])
  }

  function Pop(c: Conn): Conn {
    if c.queue == [] then c.(current := None) else c.(current := Some(c.queue[0]), queue := c.queue[1..])
  }

  /** Next message, or monitoring when there is none. */
  function Advance(c: Conn): Conn {
    if c.queue == [] then Conn(Monitor, None, []) else Pop(c).(state := SendFront)
  }

  function Sent(c: Conn): Conn {
    if c.current.Some? && c.state == SendFront && c.current.value.words != [] then c.(state := WaitResponse) else c
  }

  /** The number read behind the first "xhost" of a text, as the size_t it is compared as. */
  function XhostNumber(text: string, offset: nat): Option<nat>
    requires offset <= 5
  {
    var place := Find(text, "xhost");
    if place.None? then None else Some(ToSizeT(Atoi(Clip(text, place.value + offset, 2))))
  }

  /** Whether a failed request is asked again. */
  predicate Retried(m: Msg, xhosts: nat, offset: nat)
    requires offset <= 5 && m.words != []
  {
    var n := XhostNumber(Compose(m).value, offset);
    n.None? || n.value < xhosts
  }

  /** A reply for another request is ignored; the current one is done with, put back or dropped. */
  function Replied(c: Conn, line: Line, xhosts: nat, offset: nat): Conn
    requires IsReply(line) && |line| >= 2 && offset <= 5
    requires c.current.Some? && c.current.value.words != []
  {
    var m := c.current.value;
    if line[0][1..] != m.words[0] then c
    else if line[1] == "ok" then Advance(c)
    else Advance(c.(queue := if Retried(m, xhosts, offset) then Push(c.queue, m) else c.queue))
  }

  /** A reply that does not carry the current request's name changes nothing. */
  lemma OtherReplyIgnored(c: Conn, name: string, rest: Line, xhosts: nat, offset: nat)
    requires rest != [] && offset <= 5 && c.current.Some? && c.current.value.words != []
    requires name != c.current.value.words[0]
    ensures Replied(c, ["!" + name] + rest, xhosts, offset) == c
  {
    assert ("!" + name)[1..] == name;
  }

  /** New requests; an idle connection is set going. */
  function Enqueue(c: Conn, ms: seq<Msg>): Conn {
    var pushed := c.(queue := PushAll(c.queue, ms));
    if c.state == Monitor then Pop(pushed).(state := SendFront) else pushed
  }

  /** What activation does to the monitor connection: the front of the queue replaces the current
      message whatever the state. */
  function EnqueueAndPop(c: Conn, ms: seq<Msg>): Conn {
    Pop(c.(queue := PushAll(c.queue, ms))).(state := SendFront)
  }

  // ---- What a reply does to the requests that are still to be answered ----

  predicate Pending(c: Conn, m: Msg) {
    (c.current.Some? && Compose(c.current.value) == Compose(m)) || Holds(c.queue, m)
  }

  lemma HoldsFront(q: seq<Msg>, m: Msg)
    requires q != []
    ensures Holds(q, m) <==> Compose(q[0]) == Compose(m) || Holds(q[1..], m)
  {
    if Holds(q[1..], m) {
      var i :| 0 <= i < |q[1..]| && Compose(q[1..][i]) == Compose(m);
      assert Compose(q[i + 1]) == Compose(m);
    }
    if Holds(q, m) && Compose(q[0]) != Compose(m) {
      var i :| 0 <= i < |q| && Compose(q[i]) == Compose(m);
      assert Compose(q[1..][i - 1]) == Compose(m);
    }
  }

  lemma AdvancePending(c: Conn, m: Msg)
    ensures Pending(Advance(c), m) <==> Holds(c.queue, m)
  {
    if c.queue != [] {
      HoldsFront(c.queue, m);
    }
  }

  /** After "ok" everything queued is still pending, and only the acknowledged text may be gone. */
  lemma OkSettlesCurrent(c: Conn, line: Line, xhosts: nat, offset: nat, m: Msg)
    requires IsReply(line) && |line| >= 2 && offset <= 5 && c.current.Some? && c.current.value.words != []
    requires line[0][1..] == c.current.value.words[0] && line[1] == "ok"
    ensures Pending(Replied(c, line, xhosts, offset), m) <==> Holds(c.queue, m)
  {
    AdvancePending(c, m);
  }

  /** After a failure nothing is lost, except the request itself when it names an xhost whose number
      is not below the number of xhosts and no copy of it is queued. */
  lemma FailureConserves(c: Conn, line: Line, xhosts: nat, offset: nat, m: Msg)
    requires IsReply(line) && |line| >= 2 && offset <= 5 && c.current.Some? && c.current.value.words != []
    requires line[0][1..] == c.current.value.words[0] && line[1] != "ok"
    ensures var request := c.current.value;
      var kept := Compose(m) == Compose(request) ==> Holds(c.queue, request) || Retried(request, xhosts, offset);
      Pending(Replied(c, line, xhosts, offset), m) <==> (Pending(c, m) && kept)
  {
    var request := c.current.value;
    var kept := c.(queue := if Retried(request, xhosts, offset) then Push(c.queue, request) else c.queue);
    AdvancePending(kept, m);
    PushHolds(c.queue, request, m);
  }

  /** A lost connection is not the end of it: a buffered reply to the current request, or an activation,
      sets the state going again. */
  lemma DisconnectedIsNotFinal(c: Conn, line: Line, xhosts: nat, offset: nat, ms: seq<Msg>)
    requires IsReply(line) && |line| >= 2 && offset <= 5 && c.current.Some? && c.current.value.words != []
    requires c.state == Disconnected
    ensures Replied(c, line, xhosts, offset).state == Disconnected <==> line[0][1..] != c.current.value.words[0]
    ensures EnqueueAndPop(c, ms).state == SendFront && Enqueue(c, ms).state == Disconnected
  {
  }

  /** The control connection reads the number at the "xhost" itself: "xh", which is 0. */
  lemma ControlNumberIsZero(m: Msg, xhosts: nat)
    requires m.words != [] && Find(Compose(m).value, "xhost").Some?
    ensures Retried(m, xhosts, 0) <==> xhosts > 0
  {
    var text := Compose(m).value;
    var place := Find(text, "xhost").value;
    assert text[place..place + 5] == "xhost";
    assert text[place] == text[place..place + 5][0] == 'x';
    var number := Clip(text, place, 2);
    assert number[0] == 'x' && SkipSpaces(number) == number && LeadingNumber(number, 0) == 0;
  }

  function Outstanding(c: Conn): nat {
    |c.queue| + if c.current.Some? then 1 else 0
  }

  /** Against a peer that grants, or refuses only xhosts that are not there, every reply brings the
      connection one request closer to monitoring. */
  lemma AnswerMakesProgress(c: Conn, line: Line, xhosts: nat, offset: nat)
    requires Sound(c) && IsReply(line) && |line| >= 2 && offset <= 5 && c.current.Some?
    requires line[0][1..] == c.current.value.words[0]
    requires line[1] != "ok" ==> !Retried(c.current.value, xhosts, offset)
    ensures var after := Replied(c, line, xhosts, offset);
      && Sound(after) && Outstanding(after) == Outstanding(c) - 1
      && (after.state == Monitor <==> Outstanding(after) == 0)
      && (after.state != Monitor ==> after.state == SendFront && after.current.Some?)
  {
  }

  function Answer(m: Msg, code: string): Line
    requires m.words != []
  {
    ["!" + m.words[0], code]
  }

  /** Rounds of sending the current message and receiving its answer. */
  function Rounds(c: Conn, codes: seq<string>, xhosts: nat, offset: nat): Conn
    requires offset <= 5 && Sound(c)
    decreases |codes|
  {
    if codes == [] || c.current.None? then c
    else
      assert Answer(c.current.value, codes[0])[0][1..] == c.current.value.words[0];
      Rounds(Replied(Sent(c), Answer(c.current.value, codes[0]), xhosts, offset), codes[1..], xhosts, offset)
  }

  predicate Granted(c: Conn, codes: seq<string>, xhosts: nat, offset: nat)
    requires offset <= 5 && Sound(c)
    decreases |codes|
  {
    codes == [] || c.current.None? ||
    ((codes[0] != "ok" ==> !Retried(c.current.value, xhosts, offset)) &&
     Granted(Replied(Sent(c), Answer(c.current.value, codes[0]), xhosts, offset), codes[1..], xhosts, offset))
  }

  /** As many such answers as there are requests reach monitoring with nothing left, and no fewer do. */
  lemma {:induction false} RoundsReachMonitor(c: Conn, codes: seq<string>, xhosts: nat, offset: nat)
    requires offset <= 5 && Sound(c) && c.state == SendFront && c.current.Some?
    requires |codes| <= Outstanding(c) && Granted(c, codes, xhosts, offset)
    ensures Outstanding(Rounds(c, codes, xhosts, offset)) == Outstanding(c) - |codes|
    ensures Rounds(c, codes, xhosts, offset).state == Monitor <==> |codes| == Outstanding(c)
    decreases |codes|
  {
    if codes == [] {
    } else {
      var line := Answer(c.current.value, codes[0]);
      assert line[0][1..] == c.current.value.words[0];
      AnswerMakesProgress(Sent(c), line, xhosts, offset);
      var after := Replied(Sent(c), line, xhosts, offset);
      if after.state != Monitor {
        RoundsReachMonitor(after, codes[1..], xhosts, offset);
      }
    }
  }

  /** Activation keeps every request pending, except one that was being dealt with and is not queued. */
  lemma ActivationConserves(c: Conn, ms: seq<Msg>, m: Msg)
    ensures Pending(EnqueueAndPop(c, ms), m) <==> Holds(c.queue, m) || Holds(ms, m)
    ensures c.state != Monitor ==> (Pending(Enqueue(c, ms), m) <==> Pending(c, m) || Holds(ms, m))
    ensures c.state == Monitor ==> (Pending(Enqueue(c, ms), m) <==> Holds(c.queue, m) || Holds(ms, m))
  {
    var q := PushAll(c.queue, ms);
    PushAllHolds(c.queue, ms, m);
    if q != [] {
      HoldsFront(q, m);
    }
  }

  class Connection {
    var state: ConnState
    const queue: Queue
    var current: Option<Msg>
    const xhostOffset: nat

    ghost predicate Valid()
      reads this, queue
    {
      queue.Valid() && Sound(Value()) && xhostOffset <= 5
    }

    ghost function Value(): Conn
      reads this, queue
    {
      Conn(state, current, queue.messages)
    }

    constructor (xhostOffset: nat)
      requires xhostOffset <= 5
      ensures Valid() && fresh(queue) && this.xhostOffset == xhostOffset
      ensures Value() == Conn(SendFront, None, [])
    {
      this.xhostOffset, state, current := xhostOffset, SendFront, None;
      queue := new Queue();
    }

    method PushRequest(words: seq<string>)
      requires Valid() && words != []
      modifies queue
      ensures Valid() && Value() == old(Value()).(queue := Push(old(queue.messages), Request(words)))
    {
      var m := NewRequest(words);
      queue.PushMessage(m);
    }

    method QueuePop()
      requires Valid()
      modifies this, queue
      ensures Valid() && Value() == Pop(old(Value()))
    {
      current := queue.Pop();
    }

    /** Hands the current message to katcl word by word, the first with its type, and starts waiting. */
    method SetupWrites() returns (sent: Option<Line>)
      requires Valid()
      modifies this
      ensures Valid() && Value() == Sent(old(Value()))
      ensures sent == if old(state) == SendFront && current.Some? then Some(Wire(current.value)) else None
      ensures sent.Some? ==> current.Some? && |sent.value| == |current.value.words|
      ensures sent.Some? ==> sent.value[0] == [current.value.kind] + current.value.words[0]
      ensures sent.Some? ==> forall k :: 1 <= k < |current.value.words| ==> sent.value[k] == current.value.words[k]
      ensures sent.Some? ==> Some(Join(sent.value, ' ')) == Compose(current.value)
    {
      if current.Some? {
        WireCarries(current.value);
      }
      hide Join, Compose;
      sent := None;
      if current.Some? && state == SendFront {
        var m := current.value;
        var n := |m.words|;
        if n > 0 {
          var firstWord := [m.kind] + m.words[0];
          var line: Line := [firstWord];
          if n > 1 {
            var j := 1;
            while j < n - 1
              invariant 1 <= j <= n - 1 && line == [firstWord] + m.words[1..j]
            {
              assert m.words[1..j + 1] == m.words[1..j] + [m.words[j]];
              line := line + [m.words[j]];
              j := j + 1;
            }
            assert m.words[1..] == m.words[1..n - 1] + [m.words[n - 1]];
            line := line + [m.words[n - 1]];
          }
          assert line == [firstWord] + m.words[1..];
          sent := Some(line);
          state := WaitResponse;
        }
      }
    }

    method HandleReply(line: Line, xhosts: nat)
      requires Valid() && current.Some? && IsReply(line) && |line| >= 2
      modifies this, queue
      ensures Valid() && Value() == Replied(old(Value()), line, xhosts, xhostOffset)
    {
      var m := current.value;
      if line[0][1..] == m.words[0] {
        if line[1] != "ok" {
          AskAgain(m, xhosts);
          current := None;
        }
        var waiting := queue.SizeOf();
        if waiting > 0 {
          QueuePop();
          state := SendFront;
        } else {
          current := None;
          state := Monitor;
        }
      }
    }

    /** Puts a failed request back on the queue unless it names an xhost that is not there. */
    method AskAgain(m: Msg, xhosts: nat)
      requires Valid() && m.words != []
      modifies queue
      ensures Valid()
      ensures queue.messages
           == if Retried(m, xhosts, xhostOffset) then Push(old(queue.messages), m) else old(queue.messages)
    {
      var request := new Message(m.kind);
      request.words := m.words;
      var composed := request.ComposeText();
      var place := Find(composed.value, "xhost");
      if place.Some? {
        var number := Atoi(Clip(composed.value, place.value + xhostOffset, 2));
        if ToSizeT(number) >= xhosts {
          return;
        }
      }
      queue.PushMessage(request);
    }

    /** A read or a write on the socket failed. */
    method SocketFailed()
      requires Valid()
      modifies `state
      ensures Valid() && Value() == old(Value()).(state := Disconnected)
    {
      state := Disconnected;
    }

    /** array_mark_fine's poll, and the way activation sets the control connection going. */
    method SetGoing()
      requires Valid()
      modifies this, queue
      ensures Valid()
      ensures Value() == if old(state) == Monitor then Pop(old(Value())).(state := SendFront) else old(Value())
    {
      if state == Monitor {
        QueuePop();
        state := SendFront;
      }
    }
  }
}
