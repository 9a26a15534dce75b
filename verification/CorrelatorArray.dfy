/** struct array of src/array.c: two connections, the sensor lists, and the instrument state that
    triggers activation. */
module CorrelatorArray {
  import opened Text
  import opened Messages
  import opened Queues
  import opened Tokenise
  import opened SensorTree
  import opened Activation
  import opened ArraySensors
  import opened Connections
  import opened Subscriptions
  import opened Mapping

  /** An instrument-state report: the sensor's status and the configuration file it names. */
  datatype Instrument = Instrument(state: string, configFile: string)

  const NO_INSTRUMENT := Instrument("-", "-")

  /** A report that differs from the last one and says nominal with a configuration. */
  predicate Fires(last: Instrument, report: Instrument) {
    report != last && report.state == "nominal" && report.configFile != "none"
  }

  datatype ArrayV = ArrayV(instrument: Instrument, xhosts: nat, control: Conn, monitor: Conn, sensors: Sensors)

  /** A newly created array: both connections have their first message in hand. */
  function NewArray(n: nat): ArrayV {
    ArrayV(NO_INSTRUMENT, 0, Conn(SendFront, Some(LOG_LOCAL), [INSTRUMENT_STATE]),
           Conn(SendFront, Some(LOG_LOCAL), []), FreshSensors(n))
  }

  /** The line that a connection hands to katcl, if any. */
  function Due(c: Conn): Option<Line> {
    if Sent(c) != c then Some(Wire(c.current.value)) else None
  }

  /** A connection hands over its current message, whole, exactly when it is to send one. */
  lemma DueCarries(c: Conn)
    ensures Due(c).Some? <==> c.state == SendFront && c.current.Some? && c.current.value.words != []
    ensures Due(c).Some? ==> |Due(c).value| == |c.current.value.words|
    ensures Due(c).Some? ==> Due(c).value[0] == [c.current.value.kind] + c.current.value.words[0]
    ensures Due(c).Some? ==>
      forall k :: 1 <= k < |c.current.value.words| ==> Due(c).value[k] == c.current.value.words[k]
    ensures Due(c).Some? ==> Some(Join(Due(c).value, ' ')) == Compose(c.current.value)
  {
    if Due(c).Some? {
      WireCarries(c.current.value);
      hide Join, Compose;
    }
  }

  function BothSent(a: ArrayV): ArrayV {
    a.(control := Sent(a.control), monitor := Sent(a.monitor))
  }

  /** A poll of all sensor values, when something was heard recently. */
  function MarkedFine(a: ArrayV, recent: bool): ArrayV {
    if recent then a.(monitor := Enqueue(a.monitor, [SENSOR_VALUE])) else a
  }

  /** What one activation does to an array of n antennas. */
  function Activated(a: ArrayV, config: seq<string>, n: nat): ArrayV {
    a.(sensors := AddAll(a.sensors, Plan(config, n)),
       monitor := EnqueueAndPop(a.monitor, ActivationRequests(Plan(config, n))),
       control := Enqueue(a.control, [INPUT_LABELLING, XENG_HOSTS]))
  }

  function Reported(a: ArrayV, report: Instrument, config: seq<string>, n: nat): ArrayV {
    (if Fires(a.instrument, report) then Activated(a, config, n) else a).(instrument := report)
  }

  /** The array after a sequence of reports, and how often it was activated. */
  function ReportedAll(a: ArrayV, reports: seq<Instrument>, config: seq<string>, n: nat): (ArrayV, nat) {
    if reports == [] then (a, 0)
    else
      var (before, count) := ReportedAll(a, reports[..|reports| - 1], config, n);
      var report := reports[|reports| - 1];
      (Reported(before, report, config, n), if Fires(before.instrument, report) then count + 1 else count)
  }

  /** The positions at which a report differs from the one before it and is nominal with a configuration. */
  function Edges(first: Instrument, reports: seq<Instrument>): set<nat> {
    set i: nat | i < |reports| && EdgeAt(first, reports, i)
  }

  predicate EdgeAt(first: Instrument, reports: seq<Instrument>, i: nat)
    requires i < |reports|
  {
    Fires(if i == 0 then first else reports[i - 1], reports[i])
  }

  lemma EdgesGrow(first: Instrument, reports: seq<Instrument>)
    requires reports != []
    ensures var k := |reports| - 1;
      |Edges(first, reports)| == |Edges(first, reports[..k])| + if EdgeAt(first, reports, k) then 1 else 0
  {
    var k := |reports| - 1;
    var front := reports[..k];
    assert forall i: nat :: i < k ==> EdgeAt(first, front, i) == EdgeAt(first, reports, i);
    assert Edges(first, reports) == Edges(first, front) + (if EdgeAt(first, reports, k) then {k} else {});
  }

  /** Activation is edge-triggered: it happens once for each such position. */
  lemma {:induction false} ActivationsAreEdges(a: ArrayV, reports: seq<Instrument>, config: seq<string>, n: nat)
    ensures ReportedAll(a, reports, config, n).1
         == |set i: nat | i < |reports| && reports[i].state == "nominal" && reports[i].configFile != "none" &&
                          reports[i] != if i == 0 then a.instrument else reports[i - 1]|
    ensures ReportedAll(a, reports, config, n).0.instrument
         == if reports == [] then a.instrument else reports[|reports| - 1]
  {
    EdgesCounted(a, reports, config, n);
    assert Edges(a.instrument, reports)
        == set i: nat | i < |reports| && reports[i].state == "nominal" && reports[i].configFile != "none" &&
                        reports[i] != if i == 0 then a.instrument else reports[i - 1];
    hide ReportedAll, Edges;
  }

  lemma {:induction false} EdgesCounted(a: ArrayV, reports: seq<Instrument>, config: seq<string>, n: nat)
    ensures ReportedAll(a, reports, config, n).1 == |Edges(a.instrument, reports)|
    ensures ReportedAll(a, reports, config, n).0.instrument
         == if reports == [] then a.instrument else reports[|reports| - 1]
  {
    if reports == [] {
    } else {
      var k := |reports| - 1;
      EdgesCounted(a, reports[..k], config, n);
      EdgesGrow(a.instrument, reports);
      hide Activated, Edges, Fires;
    }
  }

  method NewControl() returns (c: Connection)
    ensures fresh(c) && fresh(c.queue) && c.Valid() && c.xhostOffset == 0
    ensures c.Value() == Conn(SendFront, Some(LOG_LOCAL), [INSTRUMENT_STATE])
  {
    c := new Connection(0);
    c.PushRequest(["log-local", "off"]);
    DifferentTexts();
    c.PushRequest(["sensor-sampling", "instrument-state", "auto"]);
    c.QueuePop();
  }

  method NewMonitor() returns (m: Connection)
    ensures fresh(m) && fresh(m.queue) && m.Valid() && m.xhostOffset == 5
    ensures m.Value() == Conn(SendFront, Some(LOG_LOCAL), [])
  {
    m := new Connection(5);
    m.PushRequest(["log-local", "off"]);
    m.QueuePop();
  }

  /** The argument of a line at a place, None where arg_string_katcl returns NULL. */
  function Arg(line: Line, k: nat): Option<string> {
    if k < |line| then Some(line[k]) else None
  }

  function OrNone(arg: Option<string>): string {
    if arg.Some? then arg.value else "none"
  }

  /** What the control connection's line handling dereferences without a check. */
  predicate ControlLineReadable(a: ArrayV, line: Line) {
    && line != [] && line[0] != ""
    && (IsReply(line) ==> |line| >= 2 && a.control.current.Some? && a.control.current.value.words != [])
    && (line[0] == "#sensor-status" ==> |line| >= 4 && (line[3] == "instrument-state" ==> |line| >= 6))
  }

  /** A line received on the control connection. */
  function ControlLine(a: ArrayV, line: Line, config: seq<string>, n: nat): ArrayV
    requires ControlLineReadable(a, line)
  {
    if IsReply(line) then a.(control := Replied(a.control, line, a.xhosts, 0))
    else if line[0] == "#sensor-status" && line[3] == "instrument-state" then
      Reported(a, Instrument(line[4], line[5]), config, n)
    else if line[0] == "#sensor-value" && |line| >= 6 && line[3] == "n-xeng-hosts" then
      a.(xhosts := ToSizeT(Atoi(line[5])))
    else a
  }

  /** An instrument-state inform: the state is argument 4 and the configuration argument 5, and the array is
      activated on a changed pair that is nominal with a configuration, and on no other. */
  lemma InstrumentLine(a: ArrayV, line: Line, config: seq<string>, n: nat)
    requires |line| >= 6 && line[0] == "#sensor-status" && line[3] == "instrument-state"
    ensures var changed := line[4] != a.instrument.state || line[5] != a.instrument.configFile;
      var after := ControlLine(a, line, config, n);
      && after.instrument.state == line[4] && after.instrument.configFile == line[5]
      && after.(instrument := a.instrument)
           == if changed && line[4] == "nominal" && line[5] != "none" then Activated(a, config, n) else a
  {
    hide AddAll, Plan, EnqueueAndPop, Enqueue, ActivationRequests;
    assert Activated(a, config, n).instrument == a.instrument;
  }

  /** The number of xhosts is argument 5 of the answer to n-xeng-hosts; no other inform changes it, and none
      but these two kinds changes anything. */
  lemma XhostsLine(a: ArrayV, line: Line, config: seq<string>, n: nat, count: nat)
    requires ControlLineReadable(a, line) && !IsReply(line) && count < SIZE_T
    ensures var after := ControlLine(a, line, config, n);
      var counts := |line| >= 6 && line[0] == "#sensor-value" && line[3] == "n-xeng-hosts";
      && (counts && line[5] == Decimal(count) ==> after == a.(xhosts := count))
      && (!counts && !(line[0] == "#sensor-status" && line[3] == "instrument-state") ==> after == a)
      && (!counts ==> after.xhosts == a.xhosts)
  {
    CountRead(count);
    ActivatedKeepsXhosts(a, config, n);
    hide Activated, Atoi, Decimal, ToSizeT, Replied;
  }

  lemma CountRead(count: nat)
    requires count < SIZE_T
    ensures ToSizeT(Atoi(Decimal(count))) == count
  {
    NumberRead(count, "");
    assert Decimal(count) + "" == Decimal(count);
    hide Atoi, Decimal;
  }

  lemma ActivatedKeepsXhosts(a: ArrayV, config: seq<string>, n: nat)
    ensures Activated(a, config, n).xhosts == a.xhosts
  {
    hide AddAll, Plan, EnqueueAndPop, Enqueue, ActivationRequests;
  }

  /** A new array turns local logging off on both connections and then asks for the instrument state on the
      control one. */
  lemma NewArrayAsks(n: nat)
    ensures var a, off := NewArray(n), Messages.Request(["log-local", "off"]);
      && a.control == Conn(SendFront, Some(off), [Messages.Request(["sensor-sampling", "instrument-state", "auto"])])
      && a.monitor == Conn(SendFront, Some(off), [])
      && a.instrument.state == "-" && a.instrument.configFile == "-" && a.xhosts == 0
  {
  }

  /** Activation asks for the input labelling and the number of xhosts on the control connection. */
  lemma ActivationAsksControl(a: ArrayV, config: seq<string>, n: nat)
    ensures var c := Activated(a, config, n).control;
      && Pending(c, Messages.Request(["sensor-sampling", "input-labelling", "auto"]))
      && Pending(c, Messages.Request(["sensor-value", "n-xeng-hosts"]))
  {
    var ms := [INPUT_LABELLING, XENG_HOSTS];
    assert ms[0] == Messages.Request(["sensor-sampling", "input-labelling", "auto"]) && Holds(ms, ms[0]);
    assert ms[1] == Messages.Request(["sensor-value", "n-xeng-hosts"]) && Holds(ms, ms[1]);
    ActivationConserves(a.control, ms, ms[0]);
    ActivationConserves(a.control, ms, ms[1]);
    hide Enqueue, Plan, Compose, ActivationRequests, EnqueueAndPop;
  }

  predicate IsSensorInform(line: Line) {
    line != [] && (line[0] == "#sensor-status" || line[0] == "#sensor-value")
  }

  /** What the monitor connection's line handling relies on. */
  ghost predicate MonitorLineReadable(a: ArrayV, line: Line, n: nat) {
    && line != [] && line[0] != ""
    && (IsReply(line) ==> |line| >= 2 && a.monitor.current.Some? && a.monitor.current.value.words != [])
    && (IsSensorInform(line) ==>
        && |line| >= 4
        && (line[3] == MAPPING ==> |line| >= 6 ==> Legible(line[5], n) && '\0' !in line[5])
        && (line[3] != MAPPING ==> Routable(line[3]) && '\0' !in line[3]))
  }

  /** A line received on the monitor connection. */
  ghost function MonitorLine(a: ArrayV, line: Line, n: nat): ArrayV
    requires WellFormed(a.sensors) && Shaped(a.sensors, n) && MonitorLineReadable(a, line, n)
  {
    if IsReply(line) then a.(monitor := Replied(a.monitor, line, a.xhosts, 5))
    else if !IsSensorInform(line) then a
    else if line[3] != MAPPING then
      a.(sensors := HandleInform(a.sensors, line[3], Reading(OrNone(Arg(line, 5)), OrNone(Arg(line, 4)))))
    else if |line| >= 6 then a.(sensors := Assigned(a.sensors, line[5], RecordCount(line[5], n), n))
    else a
  }

  /** A sensor inform under a name that leads to a known sensor: that sensor's value is argument 5 and its
      status argument 4, each "none" if missing, and no other reading changes. */
  lemma SensorLine(a: ArrayV, line: Line, n: nat, p: Path, q: Path)
    requires WellFormed(a.sensors) && Shaped(a.sensors, n) && MonitorLineReadable(a, line, n)
    requires line[0] == "#sensor-status" || line[0] == "#sensor-value"
    requires |line| >= 4 && line[3] != "hostname-functional-mapping"
    requires Routable(line[3]) && Route(line[3]) == ToSensor(p) && Lookup(a.sensors, p).Some?
    ensures var after := MonitorLine(a, line, n);
      && Lookup(after.sensors, p).Some?
      && Lookup(after.sensors, p).value.value == (if |line| > 5 then line[5] else "none")
      && Lookup(after.sensors, p).value.status == (if |line| > 4 then line[4] else "none")
      && (q != p ==> Lookup(after.sensors, q) == Lookup(a.sensors, q))
      && after == a.(sensors := after.sensors)
  {
    var reading := Reading(OrNone(Arg(line, 5)), OrNone(Arg(line, 4)));
    assert MonitorLine(a, line, n).sensors == Update(a.sensors, p, reading);
    UpdateLookup(a.sensors, p, reading, p);
    UpdateLookup(a.sensors, p, reading, q);
    hide Lookup, Update, WellFormed, Shaped, Route, Routable;
  }

  /** A refused subscription to a sensor of an xhost stays pending while the number read for the host is below
      the number of xhosts the array has. */
  lemma RefusedXhost(a: ArrayV, n: nat, host: nat, names: seq<string>, code: string)
    requires WellFormed(a.sensors) && Shaped(a.sensors, n) && names != [] && code != "ok"
    requires a.monitor.current == Some(Sampling(PathName(On('x', host, names))))
    ensures var m, after := a.monitor.current.value, MonitorLine(a, ["!sensor-sampling", code], n);
      Pending(after.monitor, m) <==> TwoDigits(host) < a.xhosts || Holds(a.monitor.queue, m)
  {
    var m, line := a.monitor.current.value, ["!sensor-sampling", code];
    XhostPolicy(host, names);
    assert "!sensor-sampling"[1..] == "sensor-sampling" == m.words[0];
    FailureConserves(a.monitor, line, a.xhosts, 5, m);
    hide PathName, Compose, Retried, TwoDigits, Replied, Holds, WellFormed, Shaped;
  }

  /** The mapping is argument 5 of its inform; any other kind of line changes no sensor. */
  lemma OtherMonitorLine(a: ArrayV, line: Line, n: nat)
    requires WellFormed(a.sensors) && Shaped(a.sensors, n) && MonitorLineReadable(a, line, n) && !IsReply(line)
    ensures var informs := line[0] == "#sensor-status" || line[0] == "#sensor-value";
      && (informs && line[3] == "hostname-functional-mapping" && |line| >= 6 ==>
            Legible(line[5], n) &&
            MonitorLine(a, line, n) == a.(sensors := Assigned(a.sensors, line[5], RecordCount(line[5], n), n)))
      && (!informs ==> MonitorLine(a, line, n) == a)
  {
    hide WellFormed, Shaped, Assigned, Legible, Routable;
  }

  /** Lines handled one after the other. */
  ghost predicate ControlReadable(a: ArrayV, lines: seq<Line>, config: seq<string>, n: nat)
    decreases |lines|
  {
    lines == [] ||
    (ControlLineReadable(a, lines[0]) && ControlReadable(ControlLine(a, lines[0], config, n), lines[1..], config, n))
  }

  ghost function ControlLines(a: ArrayV, lines: seq<Line>, config: seq<string>, n: nat): ArrayV
    requires ControlReadable(a, lines, config, n)
    decreases |lines|
  {
    if lines == [] then a else ControlLines(ControlLine(a, lines[0], config, n), lines[1..], config, n)
  }

  ghost predicate MonitorReadable(a: ArrayV, lines: seq<Line>, n: nat)
    decreases |lines|
  {
    lines == [] ||
    (WellFormed(a.sensors) && Shaped(a.sensors, n) && MonitorLineReadable(a, lines[0], n) &&
     MonitorReadable(MonitorLine(a, lines[0], n), lines[1..], n))
  }

  ghost function MonitorLines(a: ArrayV, lines: seq<Line>, n: nat): ArrayV
    requires MonitorReadable(a, lines, n)
    decreases |lines|
  {
    if lines == [] then a else MonitorLines(MonitorLine(a, lines[0], n), lines[1..], n)
  }

  /** The two loops over the katcl buffers: all control lines, then all monitor lines. */
  ghost predicate BothReadable(a: ArrayV, control: seq<Line>, monitor: seq<Line>, config: seq<string>, n: nat) {
    ControlReadable(a, control, config, n) && MonitorReadable(ControlLines(a, control, config, n), monitor, n)
  }

  ghost function BothReceived(a: ArrayV, control: seq<Line>, monitor: seq<Line>, config: seq<string>, n: nat): ArrayV
    requires BothReadable(a, control, monitor, config, n)
  {
    MonitorLines(ControlLines(a, control, config, n), monitor, n)
  }

  class CorrArray {
    const name: string
    const controlPort: nat
    const monitorPort: nat
    const antennas: nat
    var active: bool
    var instrument: Instrument
    var xhosts: nat
    const control: Connection
    const monitor: Connection
    const sensors: SensorLists
    ghost var Repr: set<object>

    ghost predicate Valid()
      reads this, Repr
      ensures Valid() ==> this in Repr
    {
      && this in Repr && {control, control.queue, monitor, monitor.queue} <= Repr
      && control != monitor && control.queue != monitor.queue
      && sensors in Repr && sensors.Repr <= Repr
      && {this, control, control.queue, monitor, monitor.queue} !! sensors.Repr
      && control.Valid() && control.xhostOffset == 0
      && monitor.Valid() && monitor.xhostOffset == 5
      && sensors.Valid() && sensors.antennas == antennas
    }

    ghost function Value(): ArrayV
      reads this, control, control.queue, monitor, monitor.queue, sensors
    {
      ArrayV(instrument, xhosts, control.Value(), monitor.Value(), sensors.Model)
    }

    constructor (name: string, controlPort: nat, monitorPort: nat, antennas: nat)
      ensures Valid() && fresh(Repr) && active
      ensures this.name == name && this.antennas == antennas
      ensures this.controlPort == controlPort && this.monitorPort == monitorPort
      ensures Value() == NewArray(antennas)
      ensures instrument.state == "-" && instrument.configFile == "-" && xhosts == 0
    {
      this.name, this.controlPort, this.monitorPort, this.antennas := name, controlPort, monitorPort, antennas;
      active, instrument, xhosts := true, NO_INSTRUMENT, 0;
      hide Connection.Valid, SensorLists.Valid, FreshSensors;
      var c := NewControl();
      var m := NewMonitor();
      var s := new SensorLists(antennas);
      control, monitor, sensors := c, m, s;
      Repr := {this, c, c.queue, m, m.queue} + s.Repr;
    }

    method MarkSuspect()
      requires Valid()
      modifies `active
      ensures Valid() && !active
    {
      active := false;
    }

    method CheckSuspect() returns (suspect: bool)
      ensures suspect == !active
    {
      suspect := !active;
    }

    /** Hands both current messages to katcl where they are due. */
    method SetupWrites() returns (controlLine: Option<Line>, monitorLine: Option<Line>)
      requires Valid()
      modifies control, monitor
      ensures Valid()
      ensures Value() == BothSent(old(Value()))
      ensures controlLine == Due(old(Value()).control) && monitorLine == Due(old(Value()).monitor)
      ensures controlLine.Some? ==>
        control.current.Some? && Some(Join(controlLine.value, ' ')) == Compose(control.current.value)
      ensures controlLine.Some? ==> |controlLine.value| == |control.current.value.words|
      ensures monitorLine.Some? ==>
        monitor.current.Some? && Some(Join(monitorLine.value, ' ')) == Compose(monitor.current.value)
      ensures monitorLine.Some? ==> |monitorLine.value| == |monitor.current.value.words|
    {
      hide Join, Compose;
      controlLine := control.SetupWrites();
      monitorLine := monitor.SetupWrites();
    }

    method SocketFailed(onControl: bool)
      requires Valid()
      modifies control, monitor
      ensures Valid()
      ensures Value() == if onControl then old(Value()).(control := old(Value()).control.(state := Disconnected))
                         else old(Value()).(monitor := old(Value()).monitor.(state := Disconnected))
    {
      if onControl {
        control.SocketFailed();
      } else {
        monitor.SocketFailed();
      }
    }

    /** 1 while both connections are up, -1 otherwise. */
    method Functional() returns (r: int)
      requires Valid()
      ensures r == if Value().control.state == Disconnected || Value().monitor.state == Disconnected then -1 else 1
    {
      r := if control.state == Disconnected || monitor.state == Disconnected then -1 else 1;
    }

    /** Polls all sensor values when something was heard recently. */
    method MarkFine(recent: bool)
      requires Valid()
      modifies Repr
      ensures Valid() && Repr == old(Repr) && active
      ensures Value() == MarkedFine(old(Value()), recent)
      ensures !recent ==> Value() == old(Value())
      ensures recent ==> Pending(monitor.Value(), Messages.Request(["sensor-value"]))
    {
      active := true;
      PollPending(monitor.Value());
      hide Compose;
      if recent {
        PushAllOne(monitor.queue.messages, SENSOR_VALUE);
        monitor.PushRequest(["sensor-value"]);
        monitor.SetGoing();
      }
    }

    /** The array's value after the sensors ps were created and subscribed to. */
    ghost function Progress(a: ArrayV, ps: seq<Path>): ArrayV
      requires AllProper(ps)
    {
      a.(sensors := AddAll(a.sensors, ps),
         monitor := a.monitor.(queue := PushAll(a.monitor.queue, ActivationRequests(ps))))
    }

    method AddSensor(p: Path)
      requires Valid() && Proper(p) && (p.On? ==> p.team == 'f' || p.team == 'x')
      modifies sensors.Repr, `Repr
      ensures Valid() && fresh(Repr - old(Repr))
      ensures Value() == old(Value()).(sensors := Add(old(Value()).sensors, p))
    {
      hide Connection.Valid, SensorLists.Valid, Add;
      match p {
        case Top(name) =>
          var _ := sensors.AddTopLevel(name);
        case On(team, host, names) =>
          var _ := sensors.AddToHost(team, host, names);
      }
      Repr := Repr + sensors.Repr;
    }

    method Ask(sensorString: string)
      requires Valid()
      modifies monitor.queue
      ensures Valid()
      ensures Value() == old(Value()).(monitor := old(Value()).monitor.(
        queue := Push(old(Value()).monitor.queue, Sampling(sensorString))))
    {
      hide SensorLists.Valid, Push;
      monitor.PushRequest(["sensor-sampling", sensorString, "auto"]);
    }

    /** Creates one sensor and asks for it under its printed name. */
    method Create(p: Path, sensorString: string, ghost a: ArrayV, ghost done: seq<Path>)
      requires Valid() && Proper(p) && sensorString == PathName(p)
      requires p.On? ==> p.team == 'f' || p.team == 'x'
      requires AllProper(done)
      requires Value() == Progress(a, done)
      modifies Repr
      ensures Valid() && fresh(Repr - old(Repr)) && active == old(active)
      ensures Value() == Progress(a, done + [p])
    {
      hide Connection.Valid, SensorLists.Valid, Add, Push, ActivationRequests, PathName;
      ProgressStep(a, done, p);
      AddSensor(p);
      Ask(sensorString);
    }

    method CreateDevices(team: char, device: string, ghost a: ArrayV, ghost done: seq<Path>)
      requires Valid() && (team == 'f' || team == 'x') && AllProper(done) && Value() == Progress(a, done)
      modifies Repr
      ensures Valid() && fresh(Repr - old(Repr)) && active == old(active)
      ensures Value() == Progress(a, done + DevicePaths(team, device, antennas))
    {
      hide Valid, Progress, Value;
      var i := 0;
      assert done + [] == done;
      while i < antennas
        invariant 0 <= i <= antennas && Valid() && fresh(Repr - old(Repr)) && active == old(active)
        invariant Value() == Progress(a, done + DevicePaths(team, device, i))
      {
        var sensorString := HostName(team, i) + "." + device + ".device-status";
        DeviceName(team, i, device, DEVICE_STATUS);
        ghost var sofar := done + DevicePaths(team, device, i);
        Create(On(team, i, [device, DEVICE_STATUS]), sensorString, a, sofar);
        assert done + DevicePaths(team, device, i + 1) == sofar + [On(team, i, [device, DEVICE_STATUS])];
        i := i + 1;
      }
    }

    method CreateEngineRow(team: char, host: nat, base: string, device: string, ghost a: ArrayV, ghost done: seq<Path>)
      requires Valid() && (team == 'f' || team == 'x') && AllProper(done) && Value() == Progress(a, done)
      modifies Repr
      ensures Valid() && fresh(Repr - old(Repr)) && active == old(active)
      ensures Value() == Progress(a, done + EngineRow(team, host, base, device, 4))
    {
      hide Valid, Progress, Value;
      var j := 0;
      assert done + [] == done;
      while j < 4
        invariant 0 <= j <= 4 && Valid() && fresh(Repr - old(Repr)) && active == old(active)
        invariant Value() == Progress(a, done + EngineRow(team, host, base, device, j))
      {
        var engineName := base + Decimal(j);
        var sensorString := HostName(team, host) + "." + engineName + "." + device + ".device-status";
        EngineName(team, host, engineName, device);
        ghost var sofar := done + EngineRow(team, host, base, device, j);
        Create(On(team, host, [engineName, device, DEVICE_STATUS]), sensorString, a, sofar);
        assert done + EngineRow(team, host, base, device, j + 1) == sofar + [EnginePath(team, host, base, device, j)];
        j := j + 1;
      }
    }

    method CreateEngines(team: char, base: string, device: string, ghost a: ArrayV, ghost done: seq<Path>)
      requires Valid() && (team == 'f' || team == 'x') && AllProper(done) && Value() == Progress(a, done)
      modifies Repr
      ensures Valid() && fresh(Repr - old(Repr)) && active == old(active)
      ensures Value() == Progress(a, done + EnginePaths(team, base, device, antennas))
    {
      hide Valid, Progress, Value, EngineRow;
      var i := 0;
      assert done + [] == done;
      while i < antennas
        invariant 0 <= i <= antennas && Valid() && fresh(Repr - old(Repr)) && active == old(active)
        invariant Value() == Progress(a, done + EnginePaths(team, base, device, i))
      {
        ghost var sofar := done + EnginePaths(team, base, device, i);
        CreateEngineRow(team, i, base, device, a, sofar);
        assert done + EnginePaths(team, base, device, i + 1) == sofar + EngineRow(team, i, base, device, 4);
        i := i + 1;
      }
    }

    method CreatePacketRow(team: char, host: nat, device: string, format: string, ghost a: ArrayV,
                           ghost done: seq<Path>)
      requires Valid() && (team == 'f' || team == 'x') && AllProper(done) && Value() == Progress(a, done)
      modifies Repr
      ensures Valid() && fresh(Repr - old(Repr)) && active == old(active)
      ensures Value() == Progress(a, done + PacketRow(team, host, device, format, antennas))
    {
      hide Valid, Progress, Value, Format;
      var j := 0;
      assert done + [] == done;
      while j < antennas
        invariant 0 <= j <= antennas && Valid() && fresh(Repr - old(Repr)) && active == old(active)
        invariant Value() == Progress(a, done + PacketRow(team, host, device, format, j))
      {
        var sensorName := Format(format, j);
        var sensorString := HostName(team, host) + "." + device + "." + sensorName;
        DeviceName(team, host, device, sensorName);
        ghost var sofar := done + PacketRow(team, host, device, format, j);
        Create(On(team, host, [device, sensorName]), sensorString, a, sofar);
        assert done + PacketRow(team, host, device, format, j + 1)
            == sofar + [PacketPath(team, host, device, format, j)];
        j := j + 1;
      }
    }

    method CreatePackets(team: char, device: string, format: string, ghost a: ArrayV, ghost done: seq<Path>)
      requires Valid() && (team == 'f' || team == 'x') && AllProper(done) && Value() == Progress(a, done)
      modifies Repr
      ensures Valid() && fresh(Repr - old(Repr)) && active == old(active)
      ensures Value() == Progress(a, done + PacketPaths(team, device, format, antennas, antennas))
    {
      hide Valid, Progress, Value, PacketRow;
      var i := 0;
      assert done + [] == done;
      while i < antennas
        invariant 0 <= i <= antennas && Valid() && fresh(Repr - old(Repr)) && active == old(active)
        invariant Value() == Progress(a, done + PacketPaths(team, device, format, i, antennas))
      {
        ghost var sofar := done + PacketPaths(team, device, format, i, antennas);
        CreatePacketRow(team, i, device, format, a, sofar);
        assert done + PacketPaths(team, device, format, i + 1, antennas)
            == sofar + PacketRow(team, i, device, format, antennas);
        i := i + 1;
      }
    }

    /** One line of the sensor list: the number of words decides what it means. */
    method ReadConfigLine(line: string, ghost a: ArrayV, ghost done: seq<Path>)
      requires Valid() && AllProper(done) && Value() == Progress(a, done)
      requires ReadLine(line) && ProperEntry(EntryOf(line))
      modifies Repr
      ensures Valid() && fresh(Repr - old(Repr)) && active == old(active)
      ensures Value() == Progress(a, done + EntryPaths(EntryOf(line), antennas))
    {
      hide Valid, Progress, Value, PacketPaths, EnginePaths, DevicePaths;
      var tokens := TokeniseString(line, '.');
      TokensAreClean(line);
      assert forall k :: 0 <= k < |tokens| ==> tokens[k] != [];
      match |tokens| {
        case 1 =>
          Create(Top(tokens[0]), tokens[0], a, done);
        case 2 =>
          CreateDevices(tokens[0][0], tokens[1], a, done);
        case 3 =>
          if Find(tokens[1], "eng").Some? {
            CreateEngines(tokens[0][0], tokens[1], tokens[2], a, done);
          } else {
            CreatePackets(tokens[0][0], tokens[1], tokens[2], a, done);
          }
        case _ =>
          assert done + [] == done;
      }
    }

    /** The requests that come before the sensors, on both connections. */
    method AskFirst()
      requires Valid()
      modifies monitor.queue, control.queue
      ensures Valid()
      ensures Value() == Progress(WithControlRequests(old(Value())), [])
    {
      hide SensorLists.Valid, Push;
      PushAllTwo(control.queue.messages, INPUT_LABELLING, XENG_HOSTS);
      PushAllOne(monitor.queue.messages, Sampling(MAPPING));
      assert ActivationRequests([]) == [Sampling(MAPPING)];
      monitor.PushRequest(["sensor-sampling", MAPPING, "auto"]);
      control.PushRequest(["sensor-sampling", "input-labelling", "auto"]);
      control.PushRequest(["sensor-value", "n-xeng-hosts"]);
    }

    method CreateAll(config: seq<string>, ghost a: ArrayV)
      requires Valid() && ProperConfig(config) && Value() == Progress(a, [])
      modifies Repr
      ensures Valid() && fresh(Repr - old(Repr)) && active == old(active)
      ensures Value() == Progress(a, Plan(config, antennas))
    {
      hide Valid, Progress, Value, EntryPaths, EntryOf;
      Create(Top(DEVICE_STATUS), DEVICE_STATUS, a, []);
      ghost var first := [Top(DEVICE_STATUS)];
      assert [] + first == first && first + ConfigPaths([], antennas) == first;
      var k := 0;
      while k < |config|
        invariant 0 <= k <= |config| && Valid() && fresh(Repr - old(Repr)) && active == old(active)
        invariant Value() == Progress(a, first + ConfigPaths(config[..k], antennas))
      {
        ghost var sofar := first + ConfigPaths(config[..k], antennas);
        ReadConfigLine(config[k], a, sofar);
        assert config[..k + 1][..k] == config[..k];
        assert first + ConfigPaths(config[..k + 1], antennas) == sofar + EntryPaths(EntryOf(config[k]), antennas);
        k := k + 1;
      }
      assert config[..k] == config;
    }

    /** The monitor connection moves on whatever it was doing, the control connection only from idle. */
    method MoveOn()
      requires Valid()
      modifies monitor, monitor.queue, control, control.queue
      ensures Valid()
      ensures Value() == old(Value()).(
        monitor := Pop(old(Value()).monitor).(state := SendFront),
        control := if old(Value()).control.state != Monitor then old(Value()).control
                   else Pop(old(Value()).control).(state := SendFront))
    {
      hide SensorLists.Valid;
      monitor.QueuePop();
      monitor.state := SendFront;
      control.SetGoing();
    }

    /** Reads the sensor list, creating and subscribing; then sets both connections going. */
    method Activate(config: seq<string>)
      requires Valid() && ProperConfig(config)
      modifies Repr
      ensures Valid() && fresh(Repr - old(Repr)) && active == old(active)
      ensures Value() == Activated(old(Value()), config, antennas)
    {
      hide Connection.Valid, SensorLists.Valid, ActivationRequests, Plan;
      ghost var a := Value();
      AskFirst();
      CreateAll(config, WithControlRequests(a));
      MoveOn();
    }

    /** Activates on a report that fires, and remembers the report. */
    method ReportInstrument(report: Instrument, config: seq<string>) returns (activated: bool)
      requires Valid() && ProperConfig(config)
      modifies Repr
      ensures Valid() && fresh(Repr - old(Repr)) && active == old(active)
      ensures activated <==>
        report != old(instrument) && report.state == "nominal" && report.configFile != "none"
      ensures activated ==> Value() == Activated(old(Value()), config, antennas).(instrument := report)
      ensures !activated ==> Value() == old(Value()).(instrument := report)
      ensures Value() == Reported(old(Value()), report, config, antennas)
    {
      hide Connection.Valid, SensorLists.Valid, Activated;
      activated := false;
      if instrument.state != report.state || instrument.configFile != report.configFile {
        if report.state == "nominal" && report.configFile != "none" {
          Activate(config);
          activated := true;
        }
        instrument := report;
      }
    }

    method HandleControlLine(line: Line, config: seq<string>)
      requires Valid() && ProperConfig(config) && ControlLineReadable(Value(), line)
      modifies Repr
      ensures Valid() && fresh(Repr - old(Repr)) && active == old(active)
      ensures Value() == ControlLine(old(Value()), line, config, antennas)
    {
      hide SensorLists.Valid, Reported, Replied;
      if line[0][0] == '!' {
        control.HandleReply(line, xhosts);
      } else if line[0] == "#sensor-status" {
        if line[3] == "instrument-state" {
          var _ := ReportInstrument(Instrument(line[4], line[5]), config);
        }
      } else if line[0] == "#sensor-value" && |line| >= 6 {
        if line[3] == "n-xeng-hosts" {
          xhosts := ToSizeT(Atoi(line[5]));
        }
      }
    }

    /** Splits the name and writes the sensor it leads to. */
    method RouteInform(name: string, value: string, status: string)
      requires Valid() && Routable(name) && '\0' !in name
      modifies sensors.Repr
      ensures Valid() && Repr == old(Repr)
      ensures Value() == old(Value()).(sensors := HandleInform(old(Value()).sensors, name, Reading(value, status)))
    {
      hide Connection.Valid, SensorLists.Valid, Update;
      var tokens := TokeniseString(name, '.');
      var team := if tokens[0][0] == 'f' then 0 else 1;
      var host := ToSizeT(Atoi(Clip(tokens[0], 5, 2)));
      match |tokens| {
        case 1 =>
          var _ := sensors.UpdateTopLevel(tokens[0], value, status);
        case 3 =>
          var _ := sensors.UpdateOnTeam(team, host, tokens[1..], value, status);
        case 4 =>
          var _ := sensors.UpdateOnTeam(team, host, tokens[1..], value, status);
        case _ =>
      }
    }

    method HandleMonitorLine(line: Line)
      requires Valid() && MonitorLineReadable(Value(), line, antennas)
      modifies Repr
      ensures Valid() && Repr == old(Repr) && active == old(active)
      ensures old(WellFormed(sensors.Model) && Shaped(sensors.Model, antennas))
      ensures Value() == MonitorLine(old(Value()), line, antennas)
    {
      assert WellFormed(sensors.Model) && Shaped(sensors.Model, antennas);
      hide SensorLists.Valid, Replied, HandleInform, Assigned, Routable, WellFormed, Shaped;
      if line[0][0] == '!' {
        monitor.HandleReply(line, xhosts);
      } else if line[0] == "#sensor-status" || line[0] == "#sensor-value" {
        if line[3] == MAPPING {
          if |line| >= 6 {
            AssignSerials(sensors, line[5]);
          }
        } else {
          var value := if |line| > 5 then line[5] else "none";
          var status := if |line| > 4 then line[4] else "none";
          RouteInform(line[3], value, status);
        }
      }
    }

    method HandleControlLines(lines: seq<Line>, config: seq<string>)
      requires Valid() && ProperConfig(config) && ControlReadable(Value(), lines, config, antennas)
      modifies Repr
      ensures Valid() && fresh(Repr - old(Repr)) && active == old(active)
      ensures Value() == ControlLines(old(Value()), lines, config, antennas)
    {
      hide Valid, Value, ControlLine, ControlLineReadable, ProperConfig;
      var i := 0;
      assert lines[0..] == lines;
      while i < |lines|
        invariant 0 <= i <= |lines| && Valid() && fresh(Repr - old(Repr)) && active == old(active)
        invariant ControlReadable(Value(), lines[i..], config, antennas)
        invariant ControlLines(Value(), lines[i..], config, antennas)
            == ControlLines(old(Value()), lines, config, antennas)
      {
        assert lines[i..][0] == lines[i] && lines[i..][1..] == lines[i + 1..];
        HandleControlLine(lines[i], config);
        i := i + 1;
      }
    }

    method HandleMonitorLines(lines: seq<Line>)
      requires Valid() && MonitorReadable(Value(), lines, antennas)
      modifies Repr
      ensures Valid() && Repr == old(Repr) && active == old(active)
      ensures Value() == MonitorLines(old(Value()), lines, antennas)
    {
      hide Valid, Value, MonitorLine, MonitorLineReadable, WellFormed, Shaped;
      var i := 0;
      assert lines[0..] == lines;
      while i < |lines|
        invariant 0 <= i <= |lines| && Valid() && Repr == old(Repr) && active == old(active)
        invariant MonitorReadable(Value(), lines[i..], antennas)
        invariant MonitorLines(Value(), lines[i..], antennas) == MonitorLines(old(Value()), lines, antennas)
      {
        assert lines[i..][0] == lines[i] && lines[i..][1..] == lines[i + 1..];
        HandleMonitorLine(lines[i]);
        i := i + 1;
      }
    }

    /** Everything in the two katcl buffers. */
    method HandleReceived(control: seq<Line>, monitor: seq<Line>, config: seq<string>)
      requires Valid() && ProperConfig(config) && BothReadable(Value(), control, monitor, config, antennas)
      modifies Repr
      ensures Valid() && fresh(Repr - old(Repr)) && active == old(active)
      ensures Value() == BothReceived(old(Value()), control, monitor, config, antennas)
    {
      hide Valid, Value, ControlLines, MonitorLines, ControlReadable, MonitorReadable, ProperConfig;
      HandleControlLines(control, config);
      HandleMonitorLines(monitor);
    }

    static ghost function WithControlRequests(a: ArrayV): ArrayV {
      a.(control := a.control.(queue := PushAll(a.control.queue, [INPUT_LABELLING, XENG_HOSTS])))
    }

    lemma {:induction false} ProgressStep(a: ArrayV, done: seq<Path>, p: Path)
      requires Proper(p) && AllProper(done)
      ensures var before, after := Progress(a, done), Progress(a, done + [p]);
        && after.sensors == Add(before.sensors, p)
        && after.monitor == before.monitor.(queue := Push(before.monitor.queue, Sampling(PathName(p))))
        && after == before.(sensors := after.sensors, monitor := after.monitor)
    {
      RequestsAppend(done, p);
      assert (done + [p])[..|done|] == done;
      var requests := ActivationRequests(done);
      assert (requests + [Sampling(PathName(p))])[..|requests|] == requests;
    }
  }

  lemma JoinFirst(first: string, rest: seq<string>)
    requires rest != []
    ensures Join([first] + rest, '.') == first + "." + Join(rest, '.')
  {
    assert ([first] + rest)[1..] == rest;
  }

  lemma DeviceName(team: char, host: nat, device: string, sensor: string)
    ensures PathName(On(team, host, [device, sensor])) == HostName(team, host) + "." + device + "." + sensor
    ensures sensor == DEVICE_STATUS ==>
      PathName(On(team, host, [device, sensor])) == HostName(team, host) + "." + device + ".device-status"
  {
    var head := HostName(team, host);
    JoinFirst(device, [sensor]);
    JoinFirst(head, [device, sensor]);
    assert [device] + [sensor] == [device, sensor] && Join([sensor], '.') == sensor;
    DotAssociates(head, device, sensor);
    StatusSuffix(head + "." + device);
  }

  lemma EngineName(team: char, host: nat, engine: string, device: string)
    ensures PathName(On(team, host, [engine, device, DEVICE_STATUS]))
         == HostName(team, host) + "." + engine + "." + device + ".device-status"
  {
    var head := HostName(team, host);
    JoinFirst(device, [DEVICE_STATUS]);
    JoinFirst(engine, [device, DEVICE_STATUS]);
    JoinFirst(head, [engine, device, DEVICE_STATUS]);
    assert [device] + [DEVICE_STATUS] == [device, DEVICE_STATUS] && Join([DEVICE_STATUS], '.') == DEVICE_STATUS;
    assert [engine] + [device, DEVICE_STATUS] == [engine, device, DEVICE_STATUS];
    DotAssociates(head, engine, device + "." + DEVICE_STATUS);
    DotAssociates(head + "." + engine, device, DEVICE_STATUS);
    StatusSuffix(head + "." + engine + "." + device);
  }

  lemma DotAssociates(a: string, b: string, c: string)
    ensures a + "." + (b + "." + c) == a + "." + b + "." + c
  {
  }

  lemma StatusSuffix(front: string)
    ensures front + "." + DEVICE_STATUS == front + ".device-status"
  {
    assert "." + DEVICE_STATUS == ".device-status";
    assert front + ("." + DEVICE_STATUS) == front + "." + DEVICE_STATUS;
  }

  lemma DifferentTexts()
    ensures Compose(LOG_LOCAL) != Compose(INSTRUMENT_STATE)
  {
    ComposeInjective(LOG_LOCAL, INSTRUMENT_STATE);
  }

  lemma PollPending(c: Conn)
    ensures Pending(Enqueue(c, [SENSOR_VALUE]), Messages.Request(["sensor-value"]))
  {
    var m := Messages.Request(["sensor-value"]);
    assert Compose([SENSOR_VALUE][0]) == Compose(m) && Holds([SENSOR_VALUE], m);
    ActivationConserves(c, [SENSOR_VALUE], m);
    hide Enqueue, Compose;
  }

  lemma PushAllTwo(q: seq<Msg>, m: Msg, n: Msg)
    ensures PushAll(q, [m, n]) == Push(Push(q, m), n)
  {
    assert [m, n][..1] == [m];
    PushAllOne(q, m);
  }

  lemma PushAllOne(q: seq<Msg>, m: Msg)
    ensures PushAll(q, [m]) == Push(q, m)
  {
    assert [m][..0] == [] && PushAll(q, []) == q;
  }
}
