/** All runs of one array (src/array.c): both connections against their peers, with instrument reports,
    activations, sensor readings, polls, retries and socket failures in any order. */
module ArrayRuns {
  import opened Text
  import opened Messages
  import opened Queues
  import opened Activation
  import opened SensorTree
  import opened ArraySensors
  import opened Connections
  import opened Subscriptions
  import opened CorrelatorArray
  import opened Mapping
  import Runs = ConnectionRuns

  /** The array, and for each connection the requests and the answers under way. */
  datatype System = System(
    unit: ArrayV,
    controlWire: seq<Msg>, controlInbox: seq<Runs.Reply>,
    monitorWire: seq<Msg>, monitorInbox: seq<Runs.Reply>)

  datatype Step =
    | Write
    | ControlAnswers(code: string)
    | MonitorAnswers(code: string)
    | HandleControl
    | HandleMonitor
    | ControlInforms(line: Line)
    | MonitorInforms(line: Line)
    | MarkFine(recent: bool)
    | ControlFails
    | MonitorFails

  function Initial(n: nat): System {
    System(NewArray(n), [], [], [], [])
  }

  /** The two connections, each as the run of its own that it is part of. */
  function Control(s: System): Runs.System {
    Runs.System(s.unit.control, s.controlWire, s.controlInbox)
  }

  function MonitorSide(s: System): Runs.System {
    Runs.System(s.unit.monitor, s.monitorWire, s.monitorInbox)
  }

  function With(s: System, unit: ArrayV, control: Runs.System, monitor: Runs.System): System {
    System(unit.(control := control.conn, monitor := monitor.conn),
           control.wire, control.inbox, monitor.wire, monitor.inbox)
  }

  /** An inform on the monitor connection that can be handled. */
  ghost predicate Heard(a: ArrayV, line: Line, n: nat) {
    WellFormed(a.sensors) && Shaped(a.sensors, n) && MonitorLineReadable(a, line, n) && !IsReply(line)
  }

  ghost function Apply(s: System, step: Step, config: seq<string>, n: nat): System {
    var a, c, m := s.unit, Control(s), MonitorSide(s);
    match step
    case Write => With(s, a, Runs.Apply(c, Runs.Send, 0), Runs.Apply(m, Runs.Send, 5))
    case ControlAnswers(code) => With(s, a, Runs.Apply(c, Runs.PeerAnswers(code), 0), m)
    case MonitorAnswers(code) => With(s, a, c, Runs.Apply(m, Runs.PeerAnswers(code), 5))
    case HandleControl => With(s, a, Runs.Apply(c, Runs.Handle(a.xhosts), 0), m)
    case HandleMonitor => With(s, a, c, Runs.Apply(m, Runs.Handle(a.xhosts), 5))
    case ControlInforms(line) =>
      if ControlLineReadable(a, line) && !IsReply(line) then s.(unit := ControlLine(a, line, config, n)) else s
    case MonitorInforms(line) =>
      if Heard(a, line, n) then s.(unit := MonitorLine(a, line, n)) else s
    case MarkFine(recent) => s.(unit := MarkedFine(a, recent))
    case ControlFails => With(s, a, Runs.Apply(c, Runs.Fail, 0), m)
    case MonitorFails => With(s, a, c, Runs.Apply(m, Runs.Fail, 5))
  }

  ghost function Run(n: nat, steps: seq<Step>, config: seq<string>): System {
    if steps == [] then Initial(n) else Apply(Run(n, steps[..|steps| - 1], config), steps[|steps| - 1], config, n)
  }

  /** An inform that activates the array. */
  predicate Activating(s: System, step: Step) {
    && step.ControlInforms? && |step.line| >= 6
    && step.line[0] == "#sensor-status" && step.line[3] == "instrument-state"
    && Fires(s.unit.instrument, Instrument(step.line[4], step.line[5]))
  }

  /** A report that activates the array while a monitor request awaits its reply. */
  ghost predicate Disturbs(s: System, step: Step) {
    Activating(s, step) && Runs.Awaiting(MonitorSide(s))
  }

  ghost predicate Undisturbed(n: nat, steps: seq<Step>, config: seq<string>) {
    steps == [] ||
    (Undisturbed(n, steps[..|steps| - 1], config) &&
     !Disturbs(Run(n, steps[..|steps| - 1], config), steps[|steps| - 1]))
  }

  const CONTROL_VOCABULARY := {LOG_LOCAL, INSTRUMENT_STATE, INPUT_LABELLING, XENG_HOSTS}

  /** What holds of both connections in every run, disturbed or not. */
  ghost predicate Safe(s: System, config: seq<string>, n: nat) {
    && Runs.Orderly(Control(s)) && Runs.Within(Control(s), CONTROL_VOCABULARY)
    && Runs.Within(MonitorSide(s), MonitorVocabulary(config, n))
  }

  /** The step that a step of the array is for its control connection, if any. */
  function ControlStep(s: System, step: Step): Option<Runs.Step> {
    match step
    case Write => Some(Runs.Send)
    case ControlAnswers(code) => Some(Runs.PeerAnswers(code))
    case HandleControl => Some(Runs.Handle(s.unit.xhosts))
    case ControlInforms(_) =>
      if Activating(s, step) then Some(Runs.Step.Request([INPUT_LABELLING, XENG_HOSTS])) else None
    case ControlFails => Some(Runs.Fail)
    case _ => None
  }

  function MonitorStep(s: System, step: Step, config: seq<string>, n: nat): Option<Runs.Step> {
    match step
    case Write => Some(Runs.Send)
    case MonitorAnswers(code) => Some(Runs.PeerAnswers(code))
    case HandleMonitor => Some(Runs.Handle(s.unit.xhosts))
    case ControlInforms(_) =>
      if Activating(s, step) then Some(Runs.ActivateMonitor(ActivationRequests(Plan(config, n)))) else None
    case MarkFine(recent) => if recent then Some(Runs.Step.Request([SENSOR_VALUE])) else None
    case MonitorFails => Some(Runs.Fail)
    case _ => None
  }

  lemma {:induction false} SubscriptionsSend(config: seq<string>, n: nat)
    ensures Runs.Sends(ActivationRequests(Plan(config, n)))
  {
    SubscriptionsAre(Plan(config, n));
  }

  lemma StepsOfConnections(s: System, step: Step, config: seq<string>, n: nat)
    ensures var after, c, m := Apply(s, step, config, n), ControlStep(s, step), MonitorStep(s, step, config, n);
      && Control(after) == (if c.Some? then Runs.Apply(Control(s), c.value, 0) else Control(s))
      && MonitorSide(after) == (if m.Some? then Runs.Apply(MonitorSide(s), m.value, 5) else MonitorSide(s))
  {
    SubscriptionsSend(config, n);
    hide ActivationRequests, Plan, Enqueue, EnqueueAndPop, Replied, Sent, Assigned, HandleInform, Shaped, WellFormed;
  }

  lemma StepSpeaks(s: System, step: Step, config: seq<string>, n: nat)
    ensures var c := ControlStep(s, step);
      c.Some? ==> !c.value.ActivateMonitor? && Runs.Speaks([c.value], CONTROL_VOCABULARY)
    ensures var m := MonitorStep(s, step, config, n); m.Some? ==> Runs.Speaks([m.value], MonitorVocabulary(config, n))
  {
    hide ActivationRequests, Plan;
  }

  lemma StepKeepsSafe(s: System, step: Step, config: seq<string>, n: nat)
    requires Safe(s, config, n)
    ensures Safe(Apply(s, step, config, n), config, n)
    ensures Runs.Orderly(MonitorSide(s)) && !Disturbs(s, step) ==> Runs.Orderly(MonitorSide(Apply(s, step, config, n)))
  {
    StepsOfConnections(s, step, config, n);
    StepSpeaks(s, step, config, n);
    var c, m := ControlStep(s, step), MonitorStep(s, step, config, n);
    hide Runs.Orderly, Runs.Within, Runs.Apply, MonitorVocabulary, Runs.Speaks, Apply, ActivationRequests, Plan;
    if c.Some? {
      Runs.StepKeepsOrder(Control(s), c.value, 0);
      Runs.StepStaysWithin(Control(s), c.value, 0, CONTROL_VOCABULARY);
    }
    if m.Some? {
      Runs.StepStaysWithin(MonitorSide(s), m.value, 5, MonitorVocabulary(config, n));
      if Runs.Orderly(MonitorSide(s)) && !Disturbs(s, step) {
        Runs.StepKeepsOrder(MonitorSide(s), m.value, 5);
      }
    }
  }

  lemma {:induction false} RunKeepsSafe(n: nat, steps: seq<Step>, config: seq<string>)
    ensures Safe(Run(n, steps, config), config, n)
    ensures Undisturbed(n, steps, config) ==> Runs.Orderly(MonitorSide(Run(n, steps, config)))
  {
    if steps == [] {
      DifferentTexts();
      assert Control(Initial(n)).conn.queue == [INSTRUMENT_STATE];
    } else {
      hide Safe, Apply, Runs.Orderly;
      RunKeepsSafe(n, steps[..|steps| - 1], config);
      StepKeepsSafe(Run(n, steps[..|steps| - 1], config), steps[|steps| - 1], config, n);
    }
  }

  /** In every run of an array an answer on the control connection finds the request it answers as the
      current one, and is the only one under way. So it is on the monitor connection in every run in
      which no activation falls between a request and its reply. */
  lemma {:induction false} AnswersMeetRequests(n: nat, steps: seq<Step>, config: seq<string>)
    ensures var s := Run(n, steps, config);
      && Runs.OneInFlight(Control(s)) && !Runs.Unexpected(Control(s))
      && (s.controlInbox != [] ==> s.unit.control.current == Some(s.controlInbox[0].request))
      && (Undisturbed(n, steps, config) ==>
          && Runs.OneInFlight(MonitorSide(s)) && !Runs.Unexpected(MonitorSide(s))
          && (s.monitorInbox != [] ==> s.unit.monitor.current == Some(s.monitorInbox[0].request)))
  {
    RunKeepsSafe(n, steps, config);
    var s := Run(n, steps, config);
    FrontIsCurrent(Control(s));
    if Undisturbed(n, steps, config) {
      FrontIsCurrent(MonitorSide(s));
    }
  }

  lemma FrontIsCurrent(s: Runs.System)
    requires Runs.Orderly(s)
    ensures !Runs.Unexpected(s) && (s.inbox != [] ==> s.conn.current == Some(s.inbox[0].request))
  {
    if s.inbox != [] {
      assert Runs.InFlight(s)[0] == s.inbox[0].request;
    }
  }

  // ---- Exactly when the monitor connection has one request under way ----

  lemma DisturbedStep(s: System, step: Step, config: seq<string>, n: nat)
    requires Disturbs(s, step)
    requires Runs.Orderly(MonitorSide(s))
    ensures !Runs.OneInFlight(MonitorSide(Apply(s, step, config, n)))
  {
    SubscriptionsSend(config, n);
    StepsOfConnections(s, step, config, n);
    Runs.ActivationKeepsOrder(MonitorSide(s), ActivationRequests(Plan(config, n)), 5);
    hide Apply, ActivationRequests, Plan, Runs.Orderly, Runs.OneInFlight, Runs.Apply;
  }

  ghost predicate OneThroughout(n: nat, steps: seq<Step>, config: seq<string>) {
    forall k: nat :: k <= |steps| ==> Runs.OneInFlight(MonitorSide(Run(n, steps[..k], config)))
  }

  /** At every moment of a run the monitor connection has at most one request under way, the current one,
      exactly when no activation fell between a request and its reply. */
  lemma {:induction false} OneThroughoutIffUndisturbed(n: nat, steps: seq<Step>, config: seq<string>)
    ensures OneThroughout(n, steps, config) <==> Undisturbed(n, steps, config)
  {
    RunKeepsSafe(n, steps, config);
    assert steps[..|steps|] == steps;
    if steps == [] {
      assert forall k: nat :: k <= 0 ==> steps[..k] == [];
    } else {
      var front, last := steps[..|steps| - 1], steps[|steps| - 1];
      OneThroughoutIffUndisturbed(n, front, config);
      assert forall k: nat :: k < |steps| ==> steps[..k] == front[..k];
      if Undisturbed(n, front, config) && Disturbs(Run(n, front, config), last) {
        RunKeepsSafe(n, front, config);
        DisturbedStep(Run(n, front, config), last, config, n);
      }
      hide Run, Apply, Disturbs, Runs.OneInFlight, Safe, MonitorSide;
    }
  }

  lemma ActivatedMonitor(s: System, report: Step, config: seq<string>, n: nat)
    requires Activating(s, report)
    ensures var after := Apply(s, report, config, n);
      && after.unit.monitor == EnqueueAndPop(s.unit.monitor, ActivationRequests(Plan(config, n)))
      && after.monitorWire == s.monitorWire && after.monitorInbox == s.monitorInbox
      && after.unit.instrument == Instrument(report.line[4], report.line[5])
  {
    hide Plan, ActivationRequests, EnqueueAndPop, Enqueue, Fires;
  }

  // ---- Runs that go on ----

  lemma RunSnoc(n: nat, steps: seq<Step>, step: Step, config: seq<string>)
    ensures Run(n, steps + [step], config) == Apply(Run(n, steps, config), step, config, n)
    ensures Undisturbed(n, steps + [step], config)
       <==> Undisturbed(n, steps, config) && !Disturbs(Run(n, steps, config), step)
  {
    assert (steps + [step])[..|steps|] == steps;
    hide Apply, Disturbs;
  }

  ghost function Continue(s: System, steps: seq<Step>, config: seq<string>, n: nat): System
    decreases |steps|
  {
    if steps == [] then s else Continue(Apply(s, steps[0], config, n), steps[1..], config, n)
  }

  lemma {:induction false} ContinueAppend(s: System, a: seq<Step>, b: seq<Step>, config: seq<string>, n: nat)
    ensures Continue(s, a + b, config, n) == Continue(Continue(s, a, config, n), b, config, n)
    decreases |a|
  {
    if a == [] {
      assert a + b == b;
    } else {
      ContinueAppend(Apply(s, a[0], config, n), a[1..], b, config, n);
      assert (a + b)[1..] == a[1..] + b && (a + b)[0] == a[0];
    }
  }

  lemma {:induction false} RunContinue(n: nat, steps: seq<Step>, more: seq<Step>, config: seq<string>)
    ensures Run(n, steps + more, config) == Continue(Run(n, steps, config), more, config, n)
    decreases |more|
  {
    if more == [] {
      assert steps + more == steps;
    } else {
      var step := more[0];
      assert steps + more == (steps + [step]) + more[1..];
      assert (steps + [step])[..|steps|] == steps;
      RunContinue(n, steps + [step], more[1..], config);
    }
  }

  lemma ContinueThree(s: System, a: Step, b: Step, c: Step, config: seq<string>, n: nat)
    ensures Continue(s, [a, b, c], config, n) == Apply(Apply(Apply(s, a, config, n), b, config, n), c, config, n)
  {
    assert [a, b, c][1..] == [b, c] && [b, c][1..] == [c] && [c][1..] == [];
    hide Apply;
    var s1 := Apply(s, a, config, n);
    var s2 := Apply(s1, b, config, n);
    assert Continue(s2, [c], config, n) == Continue(Apply(s2, c, config, n), [], config, n);
    assert Continue(s1, [b, c], config, n) == Continue(s2, [c], config, n);
  }

  // ---- Queue bounds ----

  /** In every run, disturbed or not and with failures or not, at most four requests wait on the control
      connection, and on the monitor connection at most four more than the sensor list has sensors. */
  lemma {:induction false} QueuesAreBounded(n: nat, steps: seq<Step>, config: seq<string>)
    ensures var s := Run(n, steps, config);
      |s.unit.control.queue| <= 4 && |s.unit.monitor.queue| <= 4 + ConfigCount(config, n)
  {
    RunKeepsSafe(n, steps, config);
    var s := Run(n, steps, config);
    DistinctBound(s.unit.control.queue, CONTROL_VOCABULARY);
    DistinctBound(s.unit.monitor.queue, MonitorVocabulary(config, n));
    VocabularySize(config, n);
  }

  // ---- What becomes of the requests ----

  ghost predicate HasXh(s: string) {
    exists k :: 0 <= k < |s| - 1 && s[k] == 'x' && s[k + 1] == 'h'
  }

  lemma XhostBegins(s: string)
    ensures Find(s, "xhost").Some? ==> HasXh(s)
  {
    var place := Find(s, "xhost");
    if place.Some? {
      var k := place.value;
      assert s[k] == s[k..k + 5][0] == 'x' && s[k + 1] == s[k..k + 5][1] == 'h';
    }
  }

  lemma NoXhInTexts()
    ensures !HasXh("?log-local off") && !HasXh("?sensor-value n-xeng-hosts")
    ensures !HasXh("?sensor-sampling instrument-state auto") && !HasXh("?sensor-sampling input-labelling auto")
  {
  }

  lemma SamplingTexts()
    ensures Compose(INSTRUMENT_STATE) == Some("?sensor-sampling instrument-state auto")
    ensures Compose(INPUT_LABELLING) == Some("?sensor-sampling input-labelling auto")
  {
    SamplingText("instrument-state");
    SamplingText("input-labelling");
    hide Compose;
    assert "?sensor-sampling " + ("instrument-state" + " auto") == "?sensor-sampling instrument-state auto";
    assert "?sensor-sampling " + ("input-labelling" + " auto") == "?sensor-sampling input-labelling auto";
  }

  lemma OtherTexts()
    ensures Compose(LOG_LOCAL) == Some("?log-local off")
    ensures Compose(XENG_HOSTS) == Some("?sensor-value n-xeng-hosts")
  {
    PairText("log-local", "off");
    PairText("sensor-value", "n-xeng-hosts");
    hide Compose;
    assert "?" + "log-local" + " " + "off" == "?log-local off";
    assert "?" + "sensor-value" + " " + "n-xeng-hosts" == "?sensor-value n-xeng-hosts";
  }

  /** No request on the control connection names an xhost, so each that fails is asked again: the place
      at which that connection would look for a number is never read. */
  lemma ControlNeverNamesXhost(m: Msg, xhosts: nat)
    requires m in CONTROL_VOCABULARY
    ensures m.words != [] && Find(Compose(m).value, "xhost").None? && Retried(m, xhosts, 0)
  {
    SamplingTexts();
    OtherTexts();
    NoXhInTexts();
    assert m.words != [];
    hide Compose, HasXh, Find;
    XhostBegins(Compose(m).value);
  }

  ghost function ControlBooks(n: nat, steps: seq<Step>, config: seq<string>, m: Msg): Runs.Ledger {
    if steps == [] then Runs.Books(Control(Initial(n)), [], 0, m)
    else
      var front := steps[..|steps| - 1];
      var s := Run(n, front, config);
      var step := ControlStep(s, steps[|steps| - 1]);
      var l := ControlBooks(n, front, config, m);
      if step.Some? then Runs.Recorded(l, Control(s), step.value, 0, m) else l
  }

  ghost function MonitorBooks(n: nat, steps: seq<Step>, config: seq<string>, m: Msg): Runs.Ledger {
    if steps == [] then Runs.Books(MonitorSide(Initial(n)), [], 5, m)
    else
      var front := steps[..|steps| - 1];
      var s := Run(n, front, config);
      var step := MonitorStep(s, steps[|steps| - 1], config, n);
      var l := MonitorBooks(n, front, config, m);
      if step.Some? then Runs.Recorded(l, MonitorSide(s), step.value, 5, m) else l
  }

  /** In every run each request accepted on the control connection was granted, merged with a waiting
      copy when asked again, or still waits; on the monitor connection, in every undisturbed run, it may
      also have been dropped as an absent xhost or given up by an activation. */
  lemma {:induction false} RequestsAreAccountedFor(n: nat, steps: seq<Step>, config: seq<string>, m: Msg)
    ensures var s, l := Run(n, steps, config), ControlBooks(n, steps, config, m);
      Runs.Balanced(l, s.unit.control, m) && l.dropped == 0 && l.abandoned == 0
    ensures Undisturbed(n, steps, config) ==>
      Runs.Balanced(MonitorBooks(n, steps, config, m), Run(n, steps, config).unit.monitor, m)
  {
    if steps == [] {
    } else {
      var front, step := steps[..|steps| - 1], steps[|steps| - 1];
      var s := Run(n, front, config);
      RequestsAreAccountedFor(n, front, config, m);
      RunKeepsSafe(n, front, config);
      StepsOfConnections(s, step, config, n);
      var c, d := ControlStep(s, step), MonitorStep(s, step, config, n);
      if c.Some? {
        Runs.StepBalances(ControlBooks(n, front, config, m), Control(s), c.value, 0, m);
        ControlDropsNothing(ControlBooks(n, front, config, m), s, step, config, n, m);
      }
      if d.Some? && Undisturbed(n, front, config) {
        Runs.StepBalances(MonitorBooks(n, front, config, m), MonitorSide(s), d.value, 5, m);
      }
      hide Safe, Apply, Runs.Orderly, Runs.Recorded, Runs.Balanced, ControlStep, MonitorStep, Disturbs;
    }
  }

  lemma ControlDropsNothing(l: Runs.Ledger, s: System, step: Step, config: seq<string>, n: nat, m: Msg)
    requires Safe(s, config, n) && ControlStep(s, step).Some?
    ensures var after := Runs.Recorded(l, Control(s), ControlStep(s, step).value, 0, m);
      after.dropped == l.dropped && after.abandoned == l.abandoned
  {
    hide MonitorVocabulary, Retried, Compose;
    FrontIsCurrent(Control(s));
    hide Runs.Orderly;
    if s.controlInbox != [] {
      ControlNeverNamesXhost(s.controlInbox[0].request, s.unit.xhosts);
    }
  }

  // ---- What the sensors read ----

  /** An inform for a sensor. */
  predicate Writes(step: Step, p: Path) {
    && step.MonitorInforms? && |step.line| >= 4
    && (step.line[0] == "#sensor-status" || step.line[0] == "#sensor-value")
    && step.line[3] != MAPPING && '\0' !in step.line[3]
    && Routable(step.line[3]) && Route(step.line[3]) == ToSensor(p)
  }

  /** The reading that a sensor inform carries. */
  function ReadingIn(line: Line): Reading {
    Reading(OrNone(Arg(line, 5)), OrNone(Arg(line, 4)))
  }

  ghost predicate Activates(n: nat, steps: seq<Step>, config: seq<string>, k: nat)
    requires k < |steps|
  {
    Activating(Run(n, steps[..k], config), steps[k])
  }

  /** The first report that activates the array. */
  ghost function FirstActivation(n: nat, steps: seq<Step>, config: seq<string>): (first: Option<nat>)
    ensures first.Some? ==> first.value < |steps| && Activates(n, steps, config, first.value)
    ensures forall k: nat :: k < |steps| && (first.None? || k < first.value) ==> !Activates(n, steps, config, k)
  {
    if steps == [] then None
    else
      var front := steps[..|steps| - 1];
      assert forall k: nat :: k < |front| ==> Activates(n, front, config, k) == Activates(n, steps, config, k) by {
        forall k: nat | k < |front|
          ensures Activates(n, front, config, k) == Activates(n, steps, config, k)
        {
          assert front[..k] == steps[..k];
        }
      }
      var first := FirstActivation(n, front, config);
      if first.Some? then first else if Activates(n, steps, config, |front|) then Some(|front|) else None
  }

  /** The last inform for a sensor from some step on. */
  ghost function LastInform(steps: seq<Step>, p: Path, from: nat): (last: Option<nat>)
    ensures last.Some? ==> from <= last.value < |steps| && Writes(steps[last.value], p)
    ensures forall k: nat :: from <= k < |steps| && (last.None? || last.value < k) ==> !Writes(steps[k], p)
  {
    if |steps| <= from then None
    else if Writes(steps[|steps| - 1], p) then Some(|steps| - 1)
    else LastInform(steps[..|steps| - 1], p, from)
  }

  /** A planned sensor does not exist before the first activation, reads fresh after it, and then whatever
      the last inform for it said. */
  ghost function Expected(n: nat, steps: seq<Step>, config: seq<string>, p: Path): Option<Reading> {
    var first := FirstActivation(n, steps, config);
    if p !in Plan(config, n) || !Hosted(FreshSensors(n), p) || first.None? then None
    else
      var last := LastInform(steps, p, first.value);
      if last.None? then Some(FRESH) else Some(ReadingIn(steps[last.value].line))
  }

  lemma StepReads(s: System, step: Step, config: seq<string>, n: nat, p: Path)
    requires WellFormed(s.unit.sensors) && Shaped(s.unit.sensors, n)
    ensures var before, after := s.unit.sensors, Apply(s, step, config, n).unit.sensors;
      && WellFormed(after) && Shaped(after, n) && Hosted(after, p) == Hosted(before, p)
      && Lookup(after, p)
           == if Writes(step, p) && Lookup(before, p).Some? then Some(ReadingIn(step.line))
              else if Activating(s, step) && Lookup(before, p).None? && p in Plan(config, n) && Hosted(before, p)
              then Some(FRESH)
              else Lookup(before, p)
  {
    hide WellFormed, Lookup, Hosted, Plan, Route, Routable, Update, AddAll, Fires, Runs.Apply, Shaped, Assigned,
         Legible;
    match step {
      case MonitorInforms(line) => LineReads(s.unit, line, n, p);
      case ControlInforms(line) =>
        AddAllLookup(s.unit.sensors, Plan(config, n), p);
        AddAllKeepsShape(s.unit.sensors, Plan(config, n), n);
      case _ =>
    }
  }

  lemma LineReads(a: ArrayV, line: Line, n: nat, p: Path)
    requires WellFormed(a.sensors) && Shaped(a.sensors, n)
    ensures var after := if Heard(a, line, n) then MonitorLine(a, line, n).sensors else a.sensors;
      && WellFormed(after) && Shaped(after, n) && Hosted(after, p) == Hosted(a.sensors, p)
      && Lookup(after, p)
           == if Writes(MonitorInforms(line), p) && Lookup(a.sensors, p).Some? then Some(ReadingIn(line))
              else Lookup(a.sensors, p)
  {
    hide WellFormed, Lookup, Hosted, Route, Routable, Update, Shaped, Assigned, Legible, RecordCount;
    if Heard(a, line, n) && IsSensorInform(line) {
      if line[3] != MAPPING {
        if Route(line[3]).ToSensor? {
          UpdateLookup(a.sensors, Route(line[3]).path, ReadingIn(line), p);
          UpdateKeepsShape(a.sensors, Route(line[3]).path, ReadingIn(line), n);
        }
      } else if |line| >= 6 {
        AssignedKeepsReadings(a.sensors, line[5], RecordCount(line[5], n), n, p);
      }
    }
  }

  lemma ExpectedGrows(n: nat, steps: seq<Step>, config: seq<string>, p: Path)
    requires steps != []
    ensures var front, step := steps[..|steps| - 1], steps[|steps| - 1];
      var before := Expected(n, front, config, p);
      Expected(n, steps, config, p)
        == if before.Some? then if Writes(step, p) then Some(ReadingIn(step.line)) else before
           else if Activating(Run(n, front, config), step) && p in Plan(config, n) && Hosted(FreshSensors(n), p)
           then Some(FRESH)
           else None
  {
    hide Plan, Hosted, FreshSensors, Fires, Route, Routable, Run;
    var front, step := steps[..|steps| - 1], steps[|steps| - 1];
    assert Activates(n, steps, config, |front|) <==> Activating(Run(n, front, config), step);
  }

  /** In every run every sensor reads what it should, and no other sensor exists. */
  lemma {:induction false} ReadingsAreLastInforms(n: nat, steps: seq<Step>, config: seq<string>, p: Path)
    ensures WellFormed(Run(n, steps, config).unit.sensors) && Shaped(Run(n, steps, config).unit.sensors, n)
    ensures Hosted(Run(n, steps, config).unit.sensors, p) == Hosted(FreshSensors(n), p)
    ensures Lookup(Run(n, steps, config).unit.sensors, p) == Expected(n, steps, config, p)
  {
    if steps == [] {
      FreshIsShaped(n);
      NothingAtFirst(n, p);
    } else {
      var front, step := steps[..|steps| - 1], steps[|steps| - 1];
      ReadingsAreLastInforms(n, front, config, p);
      StepReads(Run(n, front, config), step, config, n, p);
      ExpectedGrows(n, steps, config, p);
      hide WellFormed, Lookup, Hosted, Plan, Apply, Activating, Writes, Expected, FreshSensors, Shaped;
    }
  }

  /** In received arguments: after the first activation a listed sensor shows value "unused" and status
      "unknown" until a line for it is received, and then argument 5 of the last such line as its value and
      argument 4 as its status, each "none" where the line has no such argument. */
  lemma SensorShowsLastLine(n: nat, steps: seq<Step>, config: seq<string>, p: Path, first: nat)
    requires first < |steps| && Activates(n, steps, config, first)
    requires p in Plan(config, n) && Hosted(FreshSensors(n), p)
    ensures var shown := Lookup(Run(n, steps, config).unit.sensors, p);
      && shown.Some?
      && (forall k: nat | first < k < |steps| && Writes(steps[k], p) &&
                          (forall l: nat :: k < l < |steps| ==> !Writes(steps[l], p)) ::
            && shown.value.value == (if |steps[k].line| > 5 then steps[k].line[5] else "none")
            && shown.value.status == (if |steps[k].line| > 4 then steps[k].line[4] else "none"))
      && ((forall k: nat :: k < |steps| ==> !Writes(steps[k], p)) ==>
            shown.value.value == "unused" && shown.value.status == "unknown")
  {
    ReadingsAreLastInforms(n, steps, config, p);
    hide Plan, Hosted, FreshSensors, Lookup, Run, Route, Routable;
    var last := LastInform(steps, p, FirstActivation(n, steps, config).value);
    forall k: nat | first < k < |steps| && Writes(steps[k], p) &&
      (forall l: nat :: k < l < |steps| ==> !Writes(steps[l], p))
      ensures last == Some(k)
    {
    }
  }

  lemma NothingAtFirst(n: nat, p: Path)
    ensures Lookup(FreshSensors(n), p).None?
  {
  }

  /** For a proper list every listed sensor has its host, and an inform under its printed name is an inform
      for it exactly when its host number is below 100. */
  lemma PlannedSensorsAreWritten(n: nat, config: seq<string>, p: Path, line: Line)
    requires ProperConfig(config) && p in Plan(config, n)
    requires |line| >= 4 && (line[0] == "#sensor-status" || line[0] == "#sensor-value")
    requires line[3] == PathName(p) && line[3] != "hostname-functional-mapping" && '\0' !in line[3]
    ensures Hosted(FreshSensors(n), p)
    ensures Writes(MonitorInforms(line), p) <==> (p.On? ==> p.host < 100)
  {
    PlanIsNameable(config, n, p);
    NameRoundTrip(p);
    TeamOrder(FreshSensors(n), n);
    FreshIsShaped(n);
  }
}
