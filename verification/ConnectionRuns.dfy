/** All runs of a connection, socket failures included, against a peer that answers every request it has
    received once, in order. */
module ConnectionRuns {
  import opened Text
  import opened Messages
  import opened Queues
  import opened Connections

  /** An answer on its way back, together with the request it answers. */
  datatype Reply = Reply(request: Msg, code: string)

  /** wire: requests handed to katcl and not answered yet; inbox: answers not handled yet. */
  datatype System = System(conn: Conn, wire: seq<Msg>, inbox: seq<Reply>)

  datatype Step =
    | Send
    | PeerAnswers(code: string)
    | Handle(xhosts: nat)
    | Request(ms: seq<Msg>)
    | ActivateMonitor(ms: seq<Msg>)
    | Fail

  function Initial(first: Msg, rest: seq<Msg>): System {
    System(Pop(Conn(SendFront, None, PushAll([first], rest))), [], [])
  }

  ghost predicate Sends(ms: seq<Msg>) {
    ms != [] && Sendable(ms)
  }

  /** An answer for which there is no current message: the original compares with a NULL word there. */
  predicate Unexpected(s: System) {
    s.inbox != [] && s.conn.current.None?
  }

  ghost predicate Enabled(s: System, step: Step) {
    match step
    case Send => true
    case PeerAnswers(_) => s.wire != []
    case Handle(_) =>
      && s.inbox != [] && s.inbox[0].request.words != []
      && s.conn.current.Some? && s.conn.current.value.words != []
    case Request(ms) => Sends(ms)
    case ActivateMonitor(ms) => Sends(ms)
    case Fail => true
  }

  ghost function Apply(s: System, step: Step, offset: nat): System
    requires offset <= 5
  {
    if !Enabled(s, step) then s
    else match step
      case Send =>
        var after := Sent(s.conn);
        if after != s.conn then s.(conn := after, wire := s.wire + [s.conn.current.value]) else s
      case PeerAnswers(code) => s.(wire := s.wire[1..], inbox := s.inbox + [Reply(s.wire[0], code)])
      case Handle(xhosts) =>
        var line := Answer(s.inbox[0].request, s.inbox[0].code);
        s.(conn := Replied(s.conn, line, xhosts, offset), inbox := s.inbox[1..])
      case Request(ms) => s.(conn := Enqueue(s.conn, ms))
      case ActivateMonitor(ms) => s.(conn := EnqueueAndPop(s.conn, ms))
      case Fail => s.(conn := s.conn.(state := Disconnected))
  }

  ghost function Run(s: System, steps: seq<Step>, offset: nat): System
    requires offset <= 5
  {
    if steps == [] then s else Apply(Run(s, steps[..|steps| - 1], offset), steps[|steps| - 1], offset)
  }

  /** The requests sent and not handled yet, in the order in which they were sent. */
  function InFlight(s: System): seq<Msg> {
    seq(|s.inbox|, i requires 0 <= i < |s.inbox| => s.inbox[i].request) + s.wire
  }

  /** One request at a time: it is the current message, while waiting and perhaps after a failure. */
  ghost predicate OneInFlight(s: System) {
    && (InFlight(s) == [] || (s.conn.current.Some? && InFlight(s) == [s.conn.current.value]))
    && (s.conn.state == WaitResponse ==> InFlight(s) != [])
    && (s.conn.state == SendFront || s.conn.state == Monitor ==> InFlight(s) == [])
  }

  /** A request awaits its reply: the state says so, or the socket failed after it was sent. */
  predicate Awaiting(s: System) {
    s.conn.state == WaitResponse || (s.conn.state == Disconnected && InFlight(s) != [])
  }

  ghost predicate Orderly(s: System) {
    && OneInFlight(s) && Sound(s.conn) && Distinct(s.conn.queue)
    && (s.conn.state != Disconnected ==> (s.conn.current.None? <==> s.conn.state == Monitor))
    && (s.conn.state == Monitor ==> s.conn.queue == [])
  }

  lemma SendKeepsOrder(s: System, offset: nat)
    requires offset <= 5 && Orderly(s)
    ensures Orderly(Apply(s, Send, offset))
  {
  }

  lemma AnswerKeepsOrder(s: System, code: string, offset: nat)
    requires offset <= 5 && Orderly(s)
    ensures Orderly(Apply(s, PeerAnswers(code), offset))
  {
    if s.wire != [] {
      var after := Apply(s, PeerAnswers(code), offset);
      assert s.wire == [s.wire[0]] + s.wire[1..];
      assert InFlight(after) == InFlight(s);
    }
  }

  lemma AdvanceKeeps(c: Conn)
    requires Sendable(c.queue) && Distinct(c.queue)
    ensures var after := Advance(c);
      && Sound(after) && Distinct(after.queue) && (after.current.None? <==> after.state == Monitor)
      && (after.state == Monitor ==> after.queue == []) && (after.state == Monitor || after.state == SendFront)
  {
  }

  lemma HandleKeepsOrder(s: System, xhosts: nat, offset: nat)
    requires offset <= 5 && Orderly(s)
    ensures Orderly(Apply(s, Handle(xhosts), offset))
  {
    if Enabled(s, Handle(xhosts)) {
      var request, code := s.inbox[0].request, s.inbox[0].code;
      assert InFlight(s)[0] == request && InFlight(s) == [request];
      assert Answer(request, code)[0][1..] == request.words[0];
      var after := Apply(s, Handle(xhosts), offset);
      assert InFlight(after) == [];
      PushKeepsDistinct(s.conn.queue, request);
      AdvanceKeeps(s.conn.(queue := Push(s.conn.queue, request)));
      AdvanceKeeps(s.conn);
      AdvanceKeeps(s.conn.(current := None));
    }
  }

  lemma {:induction false} PushAllSendable(q: seq<Msg>, ms: seq<Msg>)
    requires Sendable(q) && Sendable(ms)
    ensures Sendable(PushAll(q, ms)) && (ms != [] ==> PushAll(q, ms) != [])
  {
    if ms == [] {
    } else {
      PushAllSendable(q, ms[..|ms| - 1]);
    }
  }

  lemma RequestKeepsOrder(s: System, ms: seq<Msg>, offset: nat)
    requires offset <= 5 && Orderly(s) && Sends(ms)
    ensures Orderly(Apply(s, Step.Request(ms), offset))
  {
    PushAllSendable(s.conn.queue, ms);
    PushAllKeepsDistinct(s.conn.queue, ms);
  }

  /** Activating the monitor connection keeps one request in flight exactly when none awaits its reply. */
  lemma ActivationKeepsOrder(s: System, ms: seq<Msg>, offset: nat)
    requires offset <= 5 && Orderly(s) && Sends(ms)
    ensures Orderly(Apply(s, ActivateMonitor(ms), offset)) <==> !Awaiting(s)
    ensures OneInFlight(Apply(s, ActivateMonitor(ms), offset)) <==> !Awaiting(s)
  {
    PushAllSendable(s.conn.queue, ms);
    PushAllKeepsDistinct(s.conn.queue, ms);
  }

  /** Runs in which the monitor connection is not activated while a request awaits its reply. */
  ghost predicate Undisturbed(s: System, steps: seq<Step>, offset: nat)
    requires offset <= 5
  {
    steps == [] ||
    (Undisturbed(s, steps[..|steps| - 1], offset) &&
     (steps[|steps| - 1].ActivateMonitor? ==> !Awaiting(Run(s, steps[..|steps| - 1], offset))))
  }

  lemma InitialIsOrderly(first: Msg, rest: seq<Msg>)
    requires first.words != [] && Sendable(rest)
    ensures Orderly(Initial(first, rest))
  {
    PushAllSendable([first], rest);
    PushAllKeepsDistinct([first], rest);
    PushAllExtends([first], rest);
  }

  lemma {:induction false} RunsStayOrderly(s: System, steps: seq<Step>, offset: nat)
    requires offset <= 5 && Orderly(s) && Undisturbed(s, steps, offset)
    ensures Orderly(Run(s, steps, offset))
  {
    if steps == [] {
    } else {
      var before, step := Run(s, steps[..|steps| - 1], offset), steps[|steps| - 1];
      RunsStayOrderly(s, steps[..|steps| - 1], offset);
      StepKeepsOrder(before, step, offset);
    }
  }

  lemma StepKeepsOrder(s: System, step: Step, offset: nat)
    requires offset <= 5 && Orderly(s) && (step.ActivateMonitor? ==> !Awaiting(s))
    ensures Orderly(Apply(s, step, offset))
  {
    match step {
      case Send => SendKeepsOrder(s, offset);
      case PeerAnswers(code) => AnswerKeepsOrder(s, code, offset);
      case Handle(xhosts) => HandleKeepsOrder(s, xhosts, offset);
      case Request(ms) =>
        if Sends(ms) {
          RequestKeepsOrder(s, ms, offset);
        }
      case ActivateMonitor(ms) =>
        if Sends(ms) {
          ActivationKeepsOrder(s, ms, offset);
        }
      case Fail =>
        assert InFlight(Apply(s, Fail, offset)) == InFlight(s);
    }
  }

  /** In every such run an answer meets the very request it answers: never another, never none. */
  lemma AnswersMeetTheirRequest(first: Msg, rest: seq<Msg>, steps: seq<Step>, offset: nat)
    requires offset <= 5 && first.words != [] && Sendable(rest)
    requires Undisturbed(Initial(first, rest), steps, offset)
    ensures var s := Run(Initial(first, rest), steps, offset);
      Orderly(s) && !Unexpected(s)
      && (s.inbox != [] ==> Awaiting(s) && s.conn.current == Some(s.inbox[0].request))
  {
    var s := Run(Initial(first, rest), steps, offset);
    InitialIsOrderly(first, rest);
    RunsStayOrderly(Initial(first, rest), steps, offset);
    if s.inbox != [] {
      assert InFlight(s)[0] == s.inbox[0].request;
    }
  }

  /** The control connection is never activated that way, so all its runs qualify. */
  lemma {:induction false} ControlRunsAreUndisturbed(s: System, steps: seq<Step>, offset: nat)
    requires offset <= 5 && forall i :: 0 <= i < |steps| ==> !steps[i].ActivateMonitor?
    ensures Undisturbed(s, steps, offset)
  {
    if steps == [] {
    } else {
      ControlRunsAreUndisturbed(s, steps[..|steps| - 1], offset);
    }
  }

  // ---- What becomes of the requests ----

  /** How often a message entered the queue, and how often it left for good: granted, dropped because it
      names an xhost that is not there, merged with a waiting copy when asked again, or given up by an
      activation. */
  datatype Ledger = Ledger(accepted: nat, granted: nat, dropped: nat, merged: nat, abandoned: nat)

  function Times(q: seq<Msg>, m: Msg): nat {
    multiset(q)[m]
  }

  function InHand(c: Conn, m: Msg): nat {
    if c.current == Some(m) then 1 else 0
  }

  function Waiting(c: Conn, m: Msg): nat {
    InHand(c, m) + Times(c.queue, m)
  }

  /** How often a message is among those that a push of several appends. */
  function Entering(q: seq<Msg>, ms: seq<Msg>, m: Msg): (k: nat)
    ensures Times(PushAll(q, ms), m) == Times(q, m) + k
  {
    PushAllExtends(q, ms);
    assert PushAll(q, ms) == q + PushAll(q, ms)[|q|..];
    Times(PushAll(q, ms)[|q|..], m)
  }

  ghost function Recorded(l: Ledger, s: System, step: Step, offset: nat, m: Msg): Ledger
    requires offset <= 5
  {
    if !Enabled(s, step) then l
    else match step
      case Request(ms) => l.(accepted := l.accepted + Entering(s.conn.queue, ms, m))
      case ActivateMonitor(ms) =>
        l.(accepted := l.accepted + Entering(s.conn.queue, ms, m), abandoned := l.abandoned + InHand(s.conn, m))
      case Handle(xhosts) =>
        var request := s.inbox[0].request;
        if request != m then l
        else if s.inbox[0].code == "ok" then l.(granted := l.granted + 1)
        else if !Retried(request, xhosts, offset) then l.(dropped := l.dropped + 1)
        else if Holds(s.conn.queue, request) then l.(merged := l.merged + 1)
        else l
      case _ => l
  }

  ghost function Books(s: System, steps: seq<Step>, offset: nat, m: Msg): Ledger
    requires offset <= 5
  {
    if steps == [] then Ledger(Waiting(s.conn, m), 0, 0, 0, 0)
    else
      var front := steps[..|steps| - 1];
      Recorded(Books(s, front, offset, m), Run(s, front, offset), steps[|steps| - 1], offset, m)
  }

  /** As often as a message was accepted it has left in one of the four ways or is still waiting. */
  predicate Balanced(l: Ledger, c: Conn, m: Msg) {
    l.accepted == l.granted + l.dropped + l.merged + l.abandoned + Waiting(c, m)
  }

  lemma PopWaiting(c: Conn, m: Msg)
    ensures Waiting(Pop(c), m) == Times(c.queue, m) == Waiting(Advance(c), m)
  {
    if c.queue != [] {
      assert c.queue == [c.queue[0]] + c.queue[1..];
    }
  }

  lemma AnswerSettles(s: System, xhosts: nat, offset: nat, m: Msg)
    requires offset <= 5 && Orderly(s) && Enabled(s, Handle(xhosts))
    ensures var request, q, after := s.inbox[0].request, s.conn.queue, Apply(s, Handle(xhosts), offset).conn;
      var again := s.inbox[0].code != "ok" && Retried(request, xhosts, offset);
      && s.conn.current == Some(request)
      && Waiting(after, m) == Times(if again then Push(q, request) else q, m)
  {
    var request, q := s.inbox[0].request, s.conn.queue;
    assert InFlight(s)[0] == request && s.conn.current == Some(request);
    assert Answer(request, s.inbox[0].code)[0][1..] == request.words[0];
    hide Orderly, Retried, Compose, Push, Advance, Waiting, Times;
    PopWaiting(s.conn, m);
    PopWaiting(s.conn.(queue := Push(q, request)), m);
  }

  lemma HandleBalances(l: Ledger, s: System, xhosts: nat, offset: nat, m: Msg)
    requires offset <= 5 && Orderly(s) && Balanced(l, s.conn, m)
    ensures Balanced(Recorded(l, s, Handle(xhosts), offset, m), Apply(s, Handle(xhosts), offset).conn, m)
  {
    if Enabled(s, Handle(xhosts)) {
      AnswerSettles(s, xhosts, offset, m);
      assert Times(s.conn.queue + [s.inbox[0].request], m) == Times(s.conn.queue, m) + InHand(s.conn, m);
      hide Orderly, Apply, Retried, Holds, Times;
    }
  }

  lemma RequestBalances(l: Ledger, s: System, ms: seq<Msg>, offset: nat, m: Msg)
    requires offset <= 5 && Orderly(s) && Balanced(l, s.conn, m)
    ensures Balanced(Recorded(l, s, Step.Request(ms), offset, m), Apply(s, Step.Request(ms), offset).conn, m)
    ensures Balanced(Recorded(l, s, ActivateMonitor(ms), offset, m), Apply(s, ActivateMonitor(ms), offset).conn, m)
  {
    hide Times, Entering, PushAll, Sends, Sendable, Distinct, InFlight, OneInFlight;
    PopWaiting(s.conn.(queue := PushAll(s.conn.queue, ms)), m);
    assert s.conn.state == Monitor ==> s.conn.current.None?;
    hide Orderly, Pop;
  }

  lemma StepBalances(l: Ledger, s: System, step: Step, offset: nat, m: Msg)
    requires offset <= 5 && Orderly(s) && Balanced(l, s.conn, m)
    ensures Balanced(Recorded(l, s, step, offset, m), Apply(s, step, offset).conn, m)
  {
    match step {
      case Handle(xhosts) => HandleBalances(l, s, xhosts, offset, m);
      case Request(ms) => RequestBalances(l, s, ms, offset, m);
      case ActivateMonitor(ms) => RequestBalances(l, s, ms, offset, m);
      case _ =>
    }
  }

  /** In every undisturbed run nothing gets lost: as often as a request was accepted it was granted,
      dropped, merged or given up, or it is current or queued. */
  lemma {:induction false} NothingIsLost(s: System, steps: seq<Step>, offset: nat, m: Msg)
    requires offset <= 5 && Orderly(s) && Undisturbed(s, steps, offset)
    ensures Balanced(Books(s, steps, offset, m), Run(s, steps, offset).conn, m)
  {
    if steps == [] {
      assert Run(s, steps, offset) == s;
    } else {
      var front := steps[..|steps| - 1];
      NothingIsLost(s, front, offset, m);
      RunsStayOrderly(s, front, offset);
      StepBalances(Books(s, front, offset, m), Run(s, front, offset), steps[|steps| - 1], offset, m);
    }
  }

  // ---- Queue bounds, over every run, orderly or not ----

  ghost predicate Within(s: System, vocabulary: set<Msg>) {
    && Distinct(s.conn.queue)
    && (forall m :: m in s.conn.queue ==> m in vocabulary)
    && (s.conn.current.Some? ==> s.conn.current.value in vocabulary)
  }

  ghost predicate Speaks(steps: seq<Step>, vocabulary: set<Msg>) {
    forall i :: 0 <= i < |steps| ==>
      match steps[i]
      case Request(ms) => forall m :: m in ms ==> m in vocabulary
      case ActivateMonitor(ms) => forall m :: m in ms ==> m in vocabulary
      case _ => true
  }

  lemma StepStaysWithin(s: System, step: Step, offset: nat, vocabulary: set<Msg>)
    requires offset <= 5 && Within(s, vocabulary) && Speaks([step], vocabulary)
    ensures Within(Apply(s, step, offset), vocabulary)
  {
    assert [step][0] == step;
    hide Compose, Retried;
    match step {
      case Request(ms) =>
        PushAllKeepsDistinct(s.conn.queue, ms);
        PushAllExtends(s.conn.queue, ms);
      case ActivateMonitor(ms) =>
        PushAllKeepsDistinct(s.conn.queue, ms);
        PushAllExtends(s.conn.queue, ms);
      case _ =>
        if s.conn.current.Some? {
          PushKeepsDistinct(s.conn.queue, s.conn.current.value);
        }
    }
  }

  /** However often requests are made, retried or activated, the queue never outgrows the vocabulary. */
  lemma {:induction false} QueueIsBounded(s: System, steps: seq<Step>, offset: nat, vocabulary: set<Msg>)
    requires offset <= 5 && Within(s, vocabulary) && Speaks(steps, vocabulary)
    ensures Within(Run(s, steps, offset), vocabulary) && |Run(s, steps, offset).conn.queue| <= |vocabulary|
  {
    if steps == [] {
    } else {
      QueueIsBounded(s, steps[..|steps| - 1], offset, vocabulary);
      StepStaysWithin(Run(s, steps[..|steps| - 1], offset), steps[|steps| - 1], offset, vocabulary);
    }
    DistinctBound(Run(s, steps, offset).conn.queue, vocabulary);
  }
}
