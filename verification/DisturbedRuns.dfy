/** Runs of an array in which an activation falls between a monitor request and its reply (src/array.c). */
module DisturbedRuns {
  import opened Text
  import opened Messages
  import opened Queues
  import opened SensorTree
  import opened Activation
  import opened Connections
  import opened Subscriptions
  import opened CorrelatorArray
  import opened ArrayRuns
  import Runs = ConnectionRuns

  /** The inform that reports an instrument state. */
  function Report(report: Instrument): Step {
    ControlInforms(["#sensor-status", "0", "1", "instrument-state", report.state, report.configFile])
  }

  const EXCHANGE := [Write, MonitorAnswers("ok"), HandleMonitor]

  lemma RunThree(n: nat, steps: seq<Step>, a: Step, b: Step, c: Step, config: seq<string>)
    ensures Run(n, steps + [a, b, c], config)
         == Apply(Apply(Apply(Run(n, steps, config), a, config, n), b, config, n), c, config, n)
  {
    RunContinue(n, steps, [a, b, c], config);
    ContinueThree(Run(n, steps, config), a, b, c, config, n);
  }

  /** The current request is sent, and the oldest answer, to a request of the same name, is taken for its own. */
  lemma ExchangeOnce(s: System, config: seq<string>, n: nat, current: Msg, queue: seq<Msg>, late: seq<Msg>)
    requires MonitorSide(s) == Runs.System(Conn(SendFront, Some(current), queue), late, [])
    requires current.words != []
    requires (late + [current])[0].words != [] && (late + [current])[0].words[0] == current.words[0]
    ensures var answered := Apply(Apply(s, Write, config, n), MonitorAnswers("ok"), config, n);
      var after := Apply(answered, HandleMonitor, config, n);
      && MonitorSide(after)
           == Runs.System(Advance(Conn(WaitResponse, Some(current), queue)), (late + [current])[1..], [])
      && after.unit.instrument == s.unit.instrument
  {
    var s1 := Apply(s, Write, config, n);
    var s2 := Apply(s1, MonitorAnswers("ok"), config, n);
    var answered := (late + [current])[0];
    assert MonitorSide(s1) == Runs.System(Conn(WaitResponse, Some(current), queue), late + [current], []);
    assert MonitorSide(s2) == Runs.System(MonitorSide(s1).conn, (late + [current])[1..], [Runs.Reply(answered, "ok")]);
    assert Answer(answered, "ok")[0][1..] == current.words[0];
    hide Advance;
  }

  const MAPPING_REQUEST := Sampling(MAPPING)
  const DEVICE_REQUEST := Sampling(DEVICE_STATUS)

  /** From an empty sensor list an activation asks for the mapping and for device-status. */
  lemma FewestRequests(n: nat)
    ensures ActivationRequests(Plan([], n)) == [MAPPING_REQUEST, DEVICE_REQUEST]
    ensures Compose(MAPPING_REQUEST) != Compose(DEVICE_REQUEST)
  {
    var p := Top(DEVICE_STATUS);
    assert Plan([], n) == [p] && [p][..0] == [];
    assert SubscriptionsFor([p]) == SubscriptionsFor([]) + [Sampling(PathName(p))];
    ComposeInjective(MAPPING_REQUEST, DEVICE_REQUEST);
  }

  lemma PushedTwice(n: nat)
    ensures var ms := ActivationRequests(Plan([], n));
      && PushAll([], ms) == [MAPPING_REQUEST, DEVICE_REQUEST]
      && PushAll([DEVICE_REQUEST], ms) == [DEVICE_REQUEST, MAPPING_REQUEST]
  {
    FewestRequests(n);
    PushAllTwo([], MAPPING_REQUEST, DEVICE_REQUEST);
    PushAllTwo([DEVICE_REQUEST], MAPPING_REQUEST, DEVICE_REQUEST);
    assert [DEVICE_REQUEST, MAPPING_REQUEST][0] == DEVICE_REQUEST;
    assert [DEVICE_REQUEST] + [MAPPING_REQUEST] == [DEVICE_REQUEST, MAPPING_REQUEST];
    hide ActivationRequests, Plan, PushAll, Compose;
  }

  /** Two activations in a row, the second while the mapping request of the first awaits its reply. */
  lemma ActivatedTwice(s: System, n: nat, first: Instrument, second: Instrument)
    requires MonitorSide(s) == Runs.System(Conn(Monitor, None, []), [], [])
    requires Fires(s.unit.instrument, first) && Fires(first, second)
    ensures var s1 := Apply(Apply(s, Report(first), [], n), Write, [], n);
      && Runs.Orderly(MonitorSide(s1)) && Disturbs(s1, Report(second))
      && MonitorSide(Apply(s1, Report(second), [], n))
           == Runs.System(Conn(SendFront, Some(DEVICE_REQUEST), [MAPPING_REQUEST]), [MAPPING_REQUEST], [])
  {
    var reported := Apply(s, Report(first), [], n);
    ActivatedMonitor(s, Report(first), [], n);
    var written := Apply(reported, Write, [], n);
    MonitorWrites(reported, n);
    MovedOn(n);
    hide ActivationRequests, Plan, PushAll, Compose, Fires, Apply, EnqueueAndPop, Runs.Orderly;
    assert MonitorSide(reported).conn == Conn(SendFront, Some(MAPPING_REQUEST), [DEVICE_REQUEST]);
    assert MonitorSide(written)
        == Runs.System(Conn(WaitResponse, Some(MAPPING_REQUEST), [DEVICE_REQUEST]), [MAPPING_REQUEST], []);
    assert Runs.InFlight(MonitorSide(written)) == [MAPPING_REQUEST];
    assert Activating(written, Report(second));
    ActivatedMonitor(written, Report(second), [], n);
  }

  /** What two activations in a row make of the monitor connection. */
  lemma MovedOn(n: nat)
    ensures var ms := ActivationRequests(Plan([], n));
      var waiting := Conn(WaitResponse, Some(MAPPING_REQUEST), [DEVICE_REQUEST]);
      && EnqueueAndPop(Conn(Monitor, None, []), ms) == Conn(SendFront, Some(MAPPING_REQUEST), [DEVICE_REQUEST])
      && Runs.Orderly(Runs.System(waiting, [MAPPING_REQUEST], []))
      && EnqueueAndPop(waiting, ms) == Conn(SendFront, Some(DEVICE_REQUEST), [MAPPING_REQUEST])
  {
    PushedTwice(n);
    hide ActivationRequests, Plan, PushAll, Compose;
    var waiting := Conn(WaitResponse, Some(MAPPING_REQUEST), [DEVICE_REQUEST]);
    assert Runs.InFlight(Runs.System(waiting, [MAPPING_REQUEST], [])) == [MAPPING_REQUEST];
  }

  lemma MonitorWrites(s: System, n: nat)
    ensures var after := Apply(s, Write, [], n);
      MonitorSide(after) == Runs.Apply(MonitorSide(s), Runs.Send, 5) && after.unit.instrument == s.unit.instrument
  {
    hide Runs.Apply;
  }

  /** A run with an empty sensor list in which the configuration changes while the mapping request awaits
      its reply: there is one answer too many, and in the end it finds no current message at all. */
  lemma DisturbedRunMeetsNoRequest(n: nat, first: Instrument, second: Instrument)
    requires Fires(NO_INSTRUMENT, first) && Fires(first, second)
    ensures var steps := [] + EXCHANGE + [Report(first), Write, Report(second)] + EXCHANGE + EXCHANGE;
      Runs.Unexpected(MonitorSide(Run(n, steps + [MonitorAnswers("ok")], [])))
  {
    var steps0: seq<Step> := [];
    var steps1 := steps0 + EXCHANGE;
    var steps2 := steps1 + [Report(first), Write, Report(second)];
    RunThree(n, steps0, Write, MonitorAnswers("ok"), HandleMonitor, []);
    RunThree(n, steps1, Report(first), Write, Report(second), []);
    RunThree(n, steps2, Write, MonitorAnswers("ok"), HandleMonitor, []);
    RunThree(n, steps2 + EXCHANGE, Write, MonitorAnswers("ok"), HandleMonitor, []);
    RunContinue(n, steps2 + EXCHANGE + EXCHANGE, [MonitorAnswers("ok")], []);
    assert MonitorSide(Run(n, [], [])) == Runs.System(Conn(SendFront, Some(LOG_LOCAL), []), [], []);
    assert Run(n, [], []).unit.instrument == NO_INSTRUMENT;
    ExchangeOnce(Run(n, [], []), [], n, LOG_LOCAL, [], []);
    var s1 := Run(n, steps1, []);
    hide Run, Apply, Fires;
    assert MonitorSide(s1) == Runs.System(Conn(Monitor, None, []), [], []);
    ActivatedTwice(s1, n, first, second);
    var s2 := Run(n, steps2, []);
    ExchangeOnce(s2, [], n, DEVICE_REQUEST, [MAPPING_REQUEST], [MAPPING_REQUEST]);
    var s3 := Run(n, steps2 + EXCHANGE, []);
    assert MonitorSide(s3) == Runs.System(Conn(SendFront, Some(MAPPING_REQUEST), []), [DEVICE_REQUEST], []);
    ExchangeOnce(s3, [], n, MAPPING_REQUEST, [], [DEVICE_REQUEST]);
    var s4 := Run(n, steps2 + EXCHANGE + EXCHANGE, []);
    assert MonitorSide(s4) == Runs.System(Conn(Monitor, None, []), [MAPPING_REQUEST], []);
    LateAnswer(s4, [], n);
  }

  lemma LateAnswer(s: System, config: seq<string>, n: nat)
    requires MonitorSide(s).conn.current.None? && MonitorSide(s).wire != []
    ensures Runs.Unexpected(MonitorSide(Continue(s, [MonitorAnswers("ok")], config, n)))
  {
    var step := MonitorAnswers("ok");
    assert [step][1..] == [];
    assert Continue(s, [step], config, n) == Continue(Apply(s, step, config, n), [], config, n);
  }

  // ---- Exactly which disturbed runs can go wrong ----

  predicate Speaks(m: Msg, word: string) {
    m.words != [] && m.words[0] == word
  }

  /** The current message and all queued ones have the same first word. */
  predicate OneWord(c: Conn, word: string) {
    && c.current.Some? && Speaks(c.current.value, word)
    && forall m :: m in c.queue ==> Speaks(m, word)
  }

  /** One answer is still to come for a request that is no longer current. */
  ghost predicate Late(s: Runs.System, late: Msg) {
    && Sound(s.conn) && Distinct(s.conn.queue) && s.conn.current.Some? && late.words != []
    && s.conn.state != Monitor
    && (s.conn.state == SendFront ==> Runs.InFlight(s) == [late])
    && (s.conn.state == WaitResponse ==> Runs.InFlight(s) == [late, s.conn.current.value])
    && (s.conn.state == Disconnected ==>
          Runs.InFlight(s) == [late] || Runs.InFlight(s) == [late, s.conn.current.value])
  }

  /** Order is restored, or an answer is late and a message with another first word is ahead. */
  ghost predicate Harmless(s: Runs.System, word: string) {
    Runs.Orderly(s) || exists late :: Late(s, late) && Speaks(late, word) && !OneWord(s.conn, word)
  }

  lemma StillAhead(c: Conn, word: string)
    requires c.current.Some? && Speaks(c.current.value, word) && !OneWord(c, word)
    ensures c.queue != [] && !OneWord(Advance(c), word)
  {
    var m :| m in c.queue && !Speaks(m, word);
    assert c.queue == [c.queue[0]] + c.queue[1..];
    assert m == c.queue[0] || m in c.queue[1..];
  }

  /** A late answer is ignored or taken for the current request; the next one is then late. */
  lemma LateHandled(s: Runs.System, late: Msg, word: string, xhosts: nat)
    requires Late(s, late) && Speaks(late, word) && !OneWord(s.conn, word)
    ensures Harmless(Runs.Apply(s, Runs.Handle(xhosts), 5), word)
  {
    if Runs.Enabled(s, Runs.Handle(xhosts)) {
      var current, code := s.conn.current.value, s.inbox[0].code;
      assert Runs.InFlight(s)[0] == s.inbox[0].request == late;
      assert Answer(late, code)[0][1..] == word;
      var after := Runs.Apply(s, Runs.Handle(xhosts), 5);
      assert Runs.InFlight(after) == Runs.InFlight(s)[1..];
      if current.words[0] == word {
        LateTaken(s, late, word, xhosts);
      } else {
        assert after.conn == s.conn;
        hide Sound, Distinct;
      }
    }
  }

  lemma LateTaken(s: Runs.System, late: Msg, word: string, xhosts: nat)
    requires Late(s, late) && Speaks(s.conn.current.value, word) && !OneWord(s.conn, word)
    requires Runs.Enabled(s, Runs.Handle(xhosts)) && s.inbox[0].request == late && late.words[0] == word
    ensures Harmless(Runs.Apply(s, Runs.Handle(xhosts), 5), word)
  {
    var current, after := s.conn.current.value, Runs.Apply(s, Runs.Handle(xhosts), 5);
    var again := s.conn.(queue := Push(s.conn.queue, current));
    assert Answer(late, s.inbox[0].code)[0][1..] == word;
    assert after.conn == Advance(s.conn) || after.conn == Advance(again);
    PushKeepsDistinct(s.conn.queue, current);
    Runs.AdvanceKeeps(again);
    Runs.AdvanceKeeps(s.conn);
    StillAhead(s.conn, word);
    StillAhead(again, word);
    assert Runs.InFlight(after) == Runs.InFlight(s)[1..];
    assert after.conn.state == SendFront;
    hide Advance, Push, Distinct, Sound, OneWord, Compose;
    if Runs.InFlight(after) == [current] {
      assert Late(after, current);
    }
  }

  lemma LateAnswered(s: Runs.System, late: Msg, word: string, code: string)
    requires Late(s, late) && Speaks(late, word) && !OneWord(s.conn, word)
    ensures Harmless(Runs.Apply(s, Runs.PeerAnswers(code), 5), word)
  {
    if s.wire != [] {
      var after := Runs.Apply(s, Runs.PeerAnswers(code), 5);
      assert s.wire == [s.wire[0]] + s.wire[1..];
      assert Runs.InFlight(after) == Runs.InFlight(s);
      assert Late(after, late);
    }
  }

  lemma LateRequested(s: Runs.System, late: Msg, word: string, ms: seq<Msg>)
    requires Late(s, late) && Speaks(late, word) && !OneWord(s.conn, word)
    ensures Harmless(Runs.Apply(s, Runs.Step.Request(ms), 5), word)
  {
    var after := Runs.Apply(s, Runs.Step.Request(ms), 5);
    if Runs.Sends(ms) {
      Runs.PushAllSendable(s.conn.queue, ms);
      PushAllKeepsDistinct(s.conn.queue, ms);
      PushAllExtends(s.conn.queue, ms);
    }
    assert Runs.InFlight(after) == Runs.InFlight(s);
    assert Late(after, late);
  }

  lemma StepStaysHarmless(s: Runs.System, step: Runs.Step, word: string)
    requires Harmless(s, word) && !step.ActivateMonitor?
    ensures Harmless(Runs.Apply(s, step, 5), word)
  {
    if Runs.Orderly(s) {
      Runs.StepKeepsOrder(s, step, 5);
    } else {
      var late :| Late(s, late) && Speaks(late, word) && !OneWord(s.conn, word);
      var after := Runs.Apply(s, step, 5);
      match step {
        case Send => assert Late(after, late);
        case PeerAnswers(code) => LateAnswered(s, late, word, code);
        case Handle(xhosts) => LateHandled(s, late, word, xhosts);
        case Request(ms) => LateRequested(s, late, word, ms);
        case Fail => assert Late(after, late);
      }
    }
  }

  lemma HarmlessIsExpected(s: Runs.System, word: string)
    requires Harmless(s, word)
    ensures !Runs.Unexpected(s)
  {
    if Runs.Orderly(s) {
      FrontIsCurrent(s);
    }
  }

  /** No report among the steps activates the array. */
  ghost predicate Quiet(s: System, more: seq<Step>, config: seq<string>, n: nat)
    decreases |more|
  {
    more == [] ||
    (!Activating(s, more[0]) &&
     Quiet(Apply(s, more[0], config, n), more[1..], config, n))
  }

  lemma {:induction false} StaysHarmless(s: System, more: seq<Step>, config: seq<string>, n: nat, word: string)
    requires Harmless(MonitorSide(s), word) && Quiet(s, more, config, n)
    ensures !Runs.Unexpected(MonitorSide(Continue(s, more, config, n)))
    decreases |more|
  {
    if more == [] {
      HarmlessIsExpected(MonitorSide(s), word);
    } else {
      var m := MonitorStep(s, more[0], config, n);
      StepsOfConnections(s, more[0], config, n);
      if m.Some? {
        StepStaysHarmless(MonitorSide(s), m.value, word);
      }
      hide Harmless, Apply, Runs.Apply, Plan, ActivationRequests;
      StaysHarmless(Apply(s, more[0], config, n), more[1..], config, n, word);
    }
  }

  lemma {:induction false} NoReportsIsQuiet(s: System, more: seq<Step>, config: seq<string>, n: nat)
    requires forall k :: 0 <= k < |more| ==> !more[k].ControlInforms?
    ensures Quiet(s, more, config, n)
    decreases |more|
  {
    if more == [] {
    } else {
      NoReportsIsQuiet(Apply(s, more[0], config, n), more[1..], config, n);
    }
  }

  /** With one first word throughout, every answer is taken for the next request, until the queue is
      empty and one answer is left. */
  lemma {:induction false} DrainMeetsNull(s: System, late: Msg, word: string, config: seq<string>, n: nat)
    returns (more: seq<Step>)
    requires MonitorSide(s).wire == [late] && MonitorSide(s).inbox == [] && Speaks(late, word)
    requires MonitorSide(s).conn == Conn(Monitor, None, []) ||
             (MonitorSide(s).conn.state == SendFront && OneWord(MonitorSide(s).conn, word))
    ensures forall k :: 0 <= k < |more| ==> !more[k].ControlInforms?
    ensures Runs.Unexpected(MonitorSide(Continue(s, more, config, n)))
    decreases |MonitorSide(s).conn.queue|, MonitorSide(s).conn.current.Some?
  {
    var c := MonitorSide(s).conn;
    if c.current.None? {
      more := [MonitorAnswers("ok")];
      LateAnswer(s, config, n);
    } else {
      var current := c.current.value;
      assert ([late] + [current])[0] == late && ([late] + [current])[1..] == [current];
      ExchangeOnce(s, config, n, current, c.queue, [late]);
      ContinueThree(s, Write, MonitorAnswers("ok"), HandleMonitor, config, n);
      var after := Continue(s, EXCHANGE, config, n);
      hide Apply, Continue;
      var rest := DrainMeetsNull(after, current, word, config, n);
      ContinueAppend(s, EXCHANGE, rest, config, n);
      more := EXCHANGE + rest;
    }
  }

  /** The answer to the request that was given up is taken for the one that replaced it. */
  lemma LateAnswerTaken(s: System, late: Msg, word: string, config: seq<string>, n: nat) returns (more: seq<Step>)
    requires var m := MonitorSide(s);
      m.conn.state == SendFront && OneWord(m.conn, word) && Speaks(late, word) && Runs.InFlight(m) == [late]
    ensures forall k :: 0 <= k < |more| ==> !more[k].ControlInforms?
    ensures var m, after := MonitorSide(s), MonitorSide(Continue(s, more, config, n));
      && after.wire == [m.conn.current.value] && after.inbox == []
      && (after.conn == Conn(Monitor, None, []) || (after.conn.state == SendFront && OneWord(after.conn, word)))
  {
    var m := MonitorSide(s);
    var current := m.conn.current.value;
    if m.inbox == [] {
      assert m.wire == [late];
      assert ([late] + [current])[0] == late && ([late] + [current])[1..] == [current];
      ExchangeOnce(s, config, n, current, m.conn.queue, [late]);
      ContinueThree(s, Write, MonitorAnswers("ok"), HandleMonitor, config, n);
      more := EXCHANGE;
    } else {
      assert Runs.InFlight(m)[0] == m.inbox[0].request == late && m.wire == [] && |m.inbox| == 1;
      more := [Write, HandleMonitor];
      BufferedAnswerTaken(s, late, word, config, n);
    }
  }

  lemma BufferedAnswerTaken(s: System, late: Msg, word: string, config: seq<string>, n: nat)
    requires var m := MonitorSide(s);
      && m.conn.state == SendFront && OneWord(m.conn, word) && Speaks(late, word)
      && m.wire == [] && |m.inbox| == 1 && m.inbox[0].request == late
    ensures var m, after := MonitorSide(s), MonitorSide(Continue(s, [Write, HandleMonitor], config, n));
      && after.wire == [m.conn.current.value] && after.inbox == []
      && (after.conn == Conn(Monitor, None, []) || (after.conn.state == SendFront && OneWord(after.conn, word)))
  {
    var m := MonitorSide(s);
    var current, code := m.conn.current.value, m.inbox[0].code;
    var s1 := Apply(s, Write, config, n);
    assert MonitorSide(s1) == Runs.System(m.conn.(state := WaitResponse), [current], m.inbox);
    assert Answer(late, code)[0][1..] == word;
    var s2 := Apply(s1, HandleMonitor, config, n);
    assert [Write, HandleMonitor][1..] == [HandleMonitor] && [HandleMonitor][1..] == [];
    assert Continue(s, [Write, HandleMonitor], config, n) == Continue(s1, [HandleMonitor], config, n)
        == Continue(s2, [], config, n) == s2;
  }

  /** After an activation that disturbed an undisturbed run, and before the next one, a reply can find no
      current message exactly when the request that was under way, the one that replaced it and all that
      are queued have the same first word. */
  lemma {:induction false} CanGoWrongIffOneWord(n: nat, steps: seq<Step>, report: Step, config: seq<string>)
    requires Undisturbed(n, steps, config) && Disturbs(Run(n, steps, config), report)
    ensures var s := Run(n, steps, config);
      var late, after := Runs.InFlight(MonitorSide(s)), Apply(s, report, config, n);
      && |late| == 1 && late[0].words != []
      && ((exists more | Quiet(after, more, config, n) ::
             Runs.Unexpected(MonitorSide(Continue(after, more, config, n))))
          <==> OneWord(after.unit.monitor, late[0].words[0]))
  {
    RunKeepsSafe(n, steps, config);
    var s := Run(n, steps, config);
    var after := Apply(s, report, config, n);
    JustDisturbed(s, report, config, n);
    var late := Runs.InFlight(MonitorSide(s))[0];
    var word := late.words[0];
    hide Run, Apply, Safe, Undisturbed, Disturbs;
    if OneWord(after.unit.monitor, word) {
      var first := LateAnswerTaken(after, late, word, config, n);
      var rest := DrainMeetsNull(Continue(after, first, config, n), after.unit.monitor.current.value, word, config, n);
      ContinueAppend(after, first, rest, config, n);
      NoReportsIsQuiet(after, first + rest, config, n);
    } else {
      assert Harmless(MonitorSide(after), word);
      forall more | Quiet(after, more, config, n)
        ensures !Runs.Unexpected(MonitorSide(Continue(after, more, config, n)))
      {
        StaysHarmless(after, more, config, n, word);
      }
    }
  }

  lemma JustDisturbed(s: System, report: Step, config: seq<string>, n: nat)
    requires Runs.Orderly(MonitorSide(s)) && Disturbs(s, report)
    ensures var late, after := Runs.InFlight(MonitorSide(s)), MonitorSide(Apply(s, report, config, n));
      && |late| == 1 && Runs.InFlight(after) == late && Late(after, late[0]) && after.conn.state == SendFront
  {
    var ms := ActivationRequests(Plan(config, n));
    SubscriptionsSend(config, n);
    StepsOfConnections(s, report, config, n);
    var m := MonitorSide(s);
    Runs.PushAllSendable(m.conn.queue, ms);
    PushAllKeepsDistinct(m.conn.queue, ms);
    hide Plan, ActivationRequests, PushAll;
    assert MonitorSide(Apply(s, report, config, n)) == m.(conn := EnqueueAndPop(m.conn, ms));
  }
}
