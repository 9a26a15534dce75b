/** Runs of an array whose peers grant every request from some moment on (src/array.c). */
module GrantedRuns {
  import opened Text
  import opened Messages
  import opened Queues
  import opened SensorTree
  import opened Activation
  import opened Connections
  import opened Subscriptions
  import opened CorrelatorArray
  import opened ArrayRuns
  import Runs = ConnectionRuns

  /** What both connections send is granted, and the answers are handled. */
  const ROUND := [Write, ControlAnswers("ok"), HandleControl, MonitorAnswers("ok"), HandleMonitor]

  function Rounds(k: nat): seq<Step> {
    if k == 0 then [] else ROUND + Rounds(k - 1)
  }

  predicate Granting(step: Step) {
    match step
    case Write => true
    case ControlAnswers(code) => code == "ok"
    case HandleControl => true
    case MonitorAnswers(code) => code == "ok"
    case HandleMonitor => true
    case _ => false
  }

  lemma {:induction false} RoundsAreGranting(k: nat)
    ensures forall i :: 0 <= i < |Rounds(k)| ==> Granting(Rounds(k)[i])
  {
    if k == 0 {
    } else {
      RoundsAreGranting(k - 1);
    }
  }

  // ---- One connection ----

  /** Ready to send, or monitoring. */
  ghost predicate Ready(c: Runs.System) {
    Runs.Orderly(c) && (c.conn.state == SendFront || c.conn.state == Monitor)
  }

  function Settled(c: Runs.System): Runs.System {
    if c.conn.state == SendFront then Runs.System(Advance(c.conn), [], []) else c
  }

  lemma Exchanged(c: Runs.System, xhosts: nat, offset: nat)
    requires offset <= 5 && Ready(c)
    ensures var answered := Runs.Apply(Runs.Apply(c, Runs.Send, offset), Runs.PeerAnswers("ok"), offset);
      Runs.Apply(answered, Runs.Handle(xhosts), offset) == Settled(c)
    ensures Ready(Settled(c))
    ensures Outstanding(Settled(c).conn) == if Outstanding(c.conn) == 0 then 0 else Outstanding(c.conn) - 1
  {
    assert Runs.InFlight(c) == [];
    assert c.wire == [] && c.inbox == [];
    if c.conn.state == SendFront {
      var current := c.conn.current.value;
      var sent := Runs.Apply(c, Runs.Send, offset);
      assert sent == Runs.System(c.conn.(state := WaitResponse), [current], []);
      var answered := Runs.Apply(sent, Runs.PeerAnswers("ok"), offset);
      assert answered == Runs.System(sent.conn, [], [Runs.Reply(current, "ok")]);
      assert Answer(current, "ok")[0][1..] == current.words[0];
      Runs.AdvanceKeeps(c.conn);
      assert Runs.InFlight(Settled(c)) == [];
    }
  }

  // ---- Both connections ----

  lemma ContinueRound(s: System, config: seq<string>, n: nat)
    ensures var s1 := Apply(s, Write, config, n);
      var s2 := Apply(s1, ControlAnswers("ok"), config, n);
      var s3 := Apply(s2, HandleControl, config, n);
      var s4 := Apply(s3, MonitorAnswers("ok"), config, n);
      Continue(s, ROUND, config, n) == Apply(s4, HandleMonitor, config, n)
  {
    hide Apply;
    var s1 := Apply(s, Write, config, n);
    var s2 := Apply(s1, ControlAnswers("ok"), config, n);
    var s3 := Apply(s2, HandleControl, config, n);
    ContinueThree(s, Write, ControlAnswers("ok"), HandleControl, config, n);
    var rest := [MonitorAnswers("ok"), HandleMonitor];
    assert ROUND == [Write, ControlAnswers("ok"), HandleControl] + rest;
    ContinueAppend(s, [Write, ControlAnswers("ok"), HandleControl], rest, config, n);
    assert rest[1..] == [HandleMonitor] && [HandleMonitor][1..] == [];
    var s4 := Apply(s3, MonitorAnswers("ok"), config, n);
    assert Continue(s4, [HandleMonitor], config, n) == Continue(Apply(s4, HandleMonitor, config, n), [], config, n);
  }

  lemma RoundSettles(s: System, config: seq<string>, n: nat)
    requires Ready(Control(s)) && Ready(MonitorSide(s))
    ensures var after := Continue(s, ROUND, config, n);
      Control(after) == Settled(Control(s)) && MonitorSide(after) == Settled(MonitorSide(s))
  {
    ContinueRound(s, config, n);
    Exchanged(Control(s), s.unit.xhosts, 0);
    Exchanged(MonitorSide(s), s.unit.xhosts, 5);
    hide Runs.Apply, Settled, Ready, Continue;
  }

  lemma OneRound(s: System, config: seq<string>, n: nat)
    requires Ready(Control(s)) && Ready(MonitorSide(s))
    ensures var after := Continue(s, ROUND, config, n);
      && Ready(Control(after)) && Ready(MonitorSide(after))
      && Outstanding(after.unit.control)
           == (if Outstanding(s.unit.control) == 0 then 0 else Outstanding(s.unit.control) - 1)
      && Outstanding(after.unit.monitor)
           == (if Outstanding(s.unit.monitor) == 0 then 0 else Outstanding(s.unit.monitor) - 1)
  {
    Exchanged(Control(s), 0, 0);
    Exchanged(MonitorSide(s), 0, 5);
    RoundSettles(s, config, n);
    hide Ready, Settled, Continue, Runs.Apply, Outstanding;
    var after := Continue(s, ROUND, config, n);
    assert after.unit.control == Control(after).conn && after.unit.monitor == MonitorSide(after).conn;
  }

  lemma NothingOutstanding(c: Runs.System)
    requires Ready(c) && Outstanding(c.conn) == 0
    ensures c.conn == Conn(Monitor, None, [])
  {
  }

  lemma RoundFirst(s: System, k: nat, config: seq<string>, n: nat)
    requires k > 0
    ensures Continue(s, Rounds(k), config, n) == Continue(Continue(s, ROUND, config, n), Rounds(k - 1), config, n)
  {
    assert Rounds(k) == ROUND + Rounds(k - 1);
    ContinueAppend(s, ROUND, Rounds(k - 1), config, n);
    hide Continue, ROUND, Rounds;
  }

  lemma {:induction false} RoundsReachMonitoring(s: System, k: nat, config: seq<string>, n: nat)
    requires Ready(Control(s)) && Ready(MonitorSide(s))
    requires k >= Outstanding(s.unit.control) && k >= Outstanding(s.unit.monitor)
    ensures var after := Continue(s, Rounds(k), config, n);
      after.unit.control == after.unit.monitor == Conn(Monitor, None, [])
    decreases k
  {
    if k == 0 {
      NothingOutstanding(Control(s));
      NothingOutstanding(MonitorSide(s));
    } else {
      RoundFirst(s, k, config, n);
      hide Ready, Continue, Outstanding, ROUND, Control, MonitorSide, Rounds;
      OneRound(s, config, n);
      RoundsReachMonitoring(Continue(s, ROUND, config, n), k - 1, config, n);
    }
  }

  // ---- What is granted meanwhile ----

  ghost predicate AllOk(s: System) {
    && (forall i :: 0 <= i < |s.controlInbox| ==> s.controlInbox[i].code == "ok")
    && (forall i :: 0 <= i < |s.monitorInbox| ==> s.monitorInbox[i].code == "ok")
  }

  predicate SameButGranted(a: Runs.Ledger, b: Runs.Ledger) {
    a == b.(granted := a.granted)
  }

  lemma GrantingStep(s: System, step: Step, config: seq<string>, n: nat)
    requires AllOk(s) && Granting(step)
    ensures AllOk(Apply(s, step, config, n)) && !Disturbs(s, step)
  {
  }

  lemma GrantingRecorded(l: Runs.Ledger, s: System, step: Step, config: seq<string>, n: nat, m: Msg)
    requires AllOk(s) && Granting(step)
    ensures var c := ControlStep(s, step); c.Some? ==> SameButGranted(Runs.Recorded(l, Control(s), c.value, 0, m), l)
    ensures var d := MonitorStep(s, step, config, n);
      d.Some? ==> SameButGranted(Runs.Recorded(l, MonitorSide(s), d.value, 5, m), l)
  {
    hide Plan, ActivationRequests, Retried;
  }

  lemma GrantingBooks(n: nat, steps: seq<Step>, step: Step, config: seq<string>, m: Msg)
    requires AllOk(Run(n, steps, config)) && Granting(step)
    ensures SameButGranted(ControlBooks(n, steps + [step], config, m), ControlBooks(n, steps, config, m))
    ensures SameButGranted(MonitorBooks(n, steps + [step], config, m), MonitorBooks(n, steps, config, m))
  {
    var s := Run(n, steps, config);
    assert (steps + [step])[..|steps|] == steps;
    GrantingRecorded(ControlBooks(n, steps, config, m), s, step, config, n, m);
    GrantingRecorded(MonitorBooks(n, steps, config, m), s, step, config, n, m);
    hide AllOk, Granting, ControlStep, MonitorStep, Runs.Recorded;
  }

  /** A longer run with nothing but grants and sends behind the shorter one. */
  ghost predicate OnlyGrants(n: nat, steps: seq<Step>, all: seq<Step>, config: seq<string>, m: Msg) {
    && AllOk(Run(n, all, config)) && Undisturbed(n, all, config)
    && SameButGranted(ControlBooks(n, all, config, m), ControlBooks(n, steps, config, m))
    && SameButGranted(MonitorBooks(n, all, config, m), MonitorBooks(n, steps, config, m))
  }

  lemma OneMoreGrants(n: nat, steps: seq<Step>, all: seq<Step>, step: Step, config: seq<string>, m: Msg)
    requires OnlyGrants(n, steps, all, config, m) && Granting(step)
    ensures OnlyGrants(n, steps, all + [step], config, m)
  {
    hide AllOk, Apply, Disturbs, Granting, Run, Undisturbed, ControlBooks, MonitorBooks;
    RunSnoc(n, all, step, config);
    GrantingStep(Run(n, all, config), step, config, n);
    GrantingBooks(n, all, step, config, m);
  }

  lemma {:induction false} GrantingKeeps(n: nat, steps: seq<Step>, more: seq<Step>, config: seq<string>, m: Msg)
    requires AllOk(Run(n, steps, config)) && Undisturbed(n, steps, config)
    requires forall i :: 0 <= i < |more| ==> Granting(more[i])
    ensures OnlyGrants(n, steps, steps + more, config, m)
    decreases |more|
  {
    hide AllOk, Undisturbed, Run, Granting, ControlBooks, MonitorBooks;
    if more == [] {
      assert steps + more == steps;
    } else {
      var front, step := more[..|more| - 1], more[|more| - 1];
      hide OnlyGrants;
      GrantingKeeps(n, steps, front, config, m);
      OneMoreGrants(n, steps, steps + front, step, config, m);
      assert (steps + front) + [step] == steps + more;
    }
  }

  /** From any moment of an undisturbed run at which both connections are ready to send or monitoring,
      peers that grant bring both to monitoring in as many rounds as the longer one has requests, and
      everything that was waiting has then been granted. */
  lemma {:induction false} GrantingPeersSettleAll(n: nat, steps: seq<Step>, config: seq<string>, k: nat, m: Msg)
    requires Undisturbed(n, steps, config)
    requires var s := Run(n, steps, config);
      && Ready(Control(s)) && Ready(MonitorSide(s))
      && k >= Outstanding(s.unit.control) && k >= Outstanding(s.unit.monitor)
    ensures var s, all := Run(n, steps, config), steps + Rounds(k);
      && Run(n, all, config).unit.control == Run(n, all, config).unit.monitor == Conn(Monitor, None, [])
      && ControlBooks(n, all, config, m).granted
           == ControlBooks(n, steps, config, m).granted + Runs.Waiting(s.unit.control, m)
      && MonitorBooks(n, all, config, m).granted
           == MonitorBooks(n, steps, config, m).granted + Runs.Waiting(s.unit.monitor, m)
  {
    var s, all := Run(n, steps, config), steps + Rounds(k);
    RunContinue(n, steps, Rounds(k), config);
    RoundsReachMonitoring(s, k, config, n);
    RoundsAreGranting(k);
    NothingUnderWay(Control(s));
    NothingUnderWay(MonitorSide(s));
    assert AllOk(s);
    GrantingKeeps(n, steps, Rounds(k), config, m);
    RequestsAreAccountedFor(n, steps, config, m);
    RequestsAreAccountedFor(n, all, config, m);
    hide Run, Rounds, Ready, ControlBooks, MonitorBooks, Undisturbed, Continue, Outstanding;
    assert Runs.Waiting(Conn(Monitor, None, []), m) == 0;
  }

  lemma NothingUnderWay(c: Runs.System)
    requires Ready(c)
    ensures c.wire == [] && c.inbox == []
  {
    assert Runs.InFlight(c) == [];
  }

  // ---- The subscriptions of an activation ----

  lemma TextOfSampling(m: Msg, name: string)
    requires m == LOG_LOCAL || m == SENSOR_VALUE
    ensures Compose(m) != Compose(Sampling(name))
  {
    SamplingText(name);
    OtherTexts();
    assert Join(["sensor-value"], ' ') == "sensor-value";
    assert Compose(Sampling(name)).value[1] == 's' && Compose(Sampling(name)).value[8] == 's';
    assert Compose(LOG_LOCAL).value[1] == 'l';
    assert Compose(SENSOR_VALUE).value[8] == "sensor-value"[7] == 'v';
  }

  lemma SamplingTextsDiffer(a: string, b: string)
    ensures Compose(Sampling(a)) == Compose(Sampling(b)) ==> a == b
  {
    SamplingText(a);
    SamplingText(b);
    var front := "?sensor-sampling ";
    assert (front + (a + " auto"))[|front|..] == a + " auto" && (front + (b + " auto"))[|front|..] == b + " auto";
    assert (a + " auto")[..|a|] == a && (b + " auto")[..|b|] == b;
    assert |a + " auto"| == |a| + 5 && |b + " auto"| == |b| + 5;
    hide Compose;
  }

  lemma SameText(config: seq<string>, n: nat, m: Msg, name: string)
    requires m in MonitorVocabulary(config, n) && Compose(m) == Compose(Sampling(name))
    ensures m == Sampling(name)
  {
    var ps := Plan(config, n);
    TextOfSampling(LOG_LOCAL, name);
    TextOfSampling(SENSOR_VALUE, name);
    SubscriptionsAre(ps);
    hide Compose, Plan;
    var requests := ActivationRequests(ps);
    var k :| 0 <= k < |requests| && requests[k] == m;
    var other := if k == 0 then MAPPING else PathName(ps[k - 1]);
    assert m == Sampling(other);
    SamplingTextsDiffer(other, name);
  }

  /** After an activation that disturbs nothing every subscription waits. */
  lemma PlannedWaits(s: System, report: Step, config: seq<string>, n: nat, p: Path)
    requires Runs.Within(MonitorSide(s), MonitorVocabulary(config, n))
    requires Activating(s, report) && p in Plan(config, n)
    ensures Runs.Waiting(Apply(s, report, config, n).unit.monitor, Sampling(PathName(p))) >= 1
  {
    var q, ms, m := s.unit.monitor.queue, ActivationRequests(Plan(config, n)), Sampling(PathName(p));
    ActivatedMonitor(s, report, config, n);
    hide Apply, Fires, Plan, PushAll, ActivationRequests, PathName, MonitorVocabulary;
    RequestPlanned(config, n, p);
    PushedWaits(q, ms, m, config, n, PathName(p));
    var pushed := s.unit.monitor.(queue := PushAll(q, ms));
    Runs.PopWaiting(pushed, m);
    assert Runs.Waiting(Pop(pushed).(state := SendFront), m) == Runs.Waiting(Pop(pushed), m);
    hide Pop, Runs.Waiting;
  }

  lemma RequestPlanned(config: seq<string>, n: nat, p: Path)
    requires p in Plan(config, n)
    ensures Sampling(PathName(p)) in ActivationRequests(Plan(config, n))
  {
    var ps := Plan(config, n);
    SubscriptionsAre(ps);
    hide Plan, PathName, SubscriptionsFor;
    var k :| 0 <= k < |ps| && ps[k] == p;
    assert ActivationRequests(ps)[k + 1] == Sampling(PathName(p));
  }

  lemma PushedWaits(q: seq<Msg>, ms: seq<Msg>, m: Msg, config: seq<string>, n: nat, name: string)
    requires m == Sampling(name) && m in ms && ms == ActivationRequests(Plan(config, n))
    requires forall x :: x in q ==> x in MonitorVocabulary(config, n)
    ensures Runs.Times(PushAll(q, ms), m) >= 1
  {
    var k :| 0 <= k < |ms| && ms[k] == m;
    assert Holds(ms, m);
    PushAllHolds(q, ms, m);
    PushAllExtends(q, ms);
    hide PushAll, Compose, Plan, ActivationRequests;
    var all := PushAll(q, ms);
    var i :| 0 <= i < |all| && Compose(all[i]) == Compose(m);
    assert all[i] in all;
    assert all[i] in MonitorVocabulary(config, n);
    SameText(config, n, all[i], name);
    assert m in all;
  }

  /** Every subscription of an activation that disturbs nothing is granted in the rounds that follow. */
  lemma PlannedAreGranted(n: nat, steps: seq<Step>, report: Step, config: seq<string>, k: nat, p: Path)
    requires Undisturbed(n, steps, config) && !Disturbs(Run(n, steps, config), report)
    requires Activating(Run(n, steps, config), report) && p in Plan(config, n)
    requires var after := Run(n, steps + [report], config);
      && Ready(Control(after)) && k >= Outstanding(after.unit.control) && k >= Outstanding(after.unit.monitor)
    ensures var m := Sampling(PathName(p));
      && Run(n, steps + [report] + Rounds(k), config).unit.monitor.state == Monitor
      && MonitorBooks(n, steps + [report] + Rounds(k), config, m).granted
           > MonitorBooks(n, steps + [report], config, m).granted
  {
    var all, m := steps + [report], Sampling(PathName(p));
    hide Run, Apply, Undisturbed, Rounds, MonitorBooks, Outstanding, Fires, Disturbs, Plan;
    RunSnoc(n, steps, report, config);
    RunKeepsSafe(n, steps, config);
    PlannedWaits(Run(n, steps, config), report, config, n, p);
    RunKeepsSafe(n, all, config);
    ActivatedMonitor(Run(n, steps, config), report, config, n);
    assert Ready(MonitorSide(Run(n, all, config)));
    hide Ready;
    GrantingPeersSettleAll(n, all, config, k, m);
  }
}
