/** The virtual devices of an array's hosts over all runs (src/array.c, src/host.c, src/vdevice.c). */
module StatusRuns {
  import opened Text
  import opened SensorTree
  import opened SensorObjects
  import opened Activation
  import opened ArraySensors
  import opened CorrelatorArray
  import opened VirtualDevices
  import opened ArrayRuns
  import opened Mapping
  import opened Subscriptions
  import opened Connections

  ghost predicate SameNames(h: HostV, g: HostV) {
    && h.vdevices == g.vdevices && |h.engines| == |g.engines|
    && forall k :: 0 <= k < |h.engines| ==> h.engines[k].name == g.engines[k].name
  }

  lemma SameNamesAreNamed(h: HostV, g: HostV, engine: string)
    requires SameNames(h, g)
    ensures Named(h.engines, engine) <==> Named(g.engines, engine)
    ensures UniqueNames(h.engines) <==> UniqueNames(g.engines)
  {
    FirstMatchIs(h.engines, engine, FirstMatch(g.engines, engine));
  }

  /** An update adds nothing to any host. */
  lemma UpdateNames(s: Sensors, p: Path, r: Reading, team: char, host: nat)
    requires Hosted(s, On(team, host, []))
    ensures Hosted(Update(s, p, r), On(team, host, []))
    ensures SameNames(HostAt(Update(s, p, r), team, host), HostAt(s, team, host))
  {
    if p.On? && Hosted(s, p) {
      var t := TeamIndex(s.teams, p.team);
      var h := HostSet(HostAt(s, p.team, p.host), p.names, r);
      TeamIndexReplace(s.teams, t, s.teams[t].hosts[p.host := h], team);
      SetKeepsNames(HostAt(s, p.team, p.host).engines, p.names, r);
    }
  }

  lemma LineNames(a: ArrayV, line: Line, n: nat, team: char, host: nat)
    requires Heard(a, line, n) && Hosted(a.sensors, On(team, host, []))
    ensures var after := MonitorLine(a, line, n).sensors;
      && Hosted(after, On(team, host, []))
      && SameNames(HostAt(after, team, host), HostAt(a.sensors, team, host))
  {
    if IsSensorInform(line) {
      if line[3] != MAPPING {
        if Route(line[3]).ToSensor? {
          UpdateNames(a.sensors, Route(line[3]).path, ReadingIn(line), team, host);
        }
      } else if |line| >= 6 {
        MappingNames(a.sensors, line[5], RecordCount(line[5], n), n, team, host);
      }
    }
    hide Hosted, HostAt, Update, Assigned, WellFormed, Shaped, Legible, Routable, Route;
  }

  lemma MappingNames(s: Sensors, text: string, k: nat, n: nat, team: char, host: nat)
    requires WellFormed(s) && Shaped(s, n) && Legible(text, n) && k <= RecordCount(text, n)
    requires Hosted(s, On(team, host, []))
    ensures var after := Assigned(s, text, k, n);
      && Hosted(after, On(team, host, []))
      && SameNames(HostAt(after, team, host), HostAt(s, team, host))
  {
    AssignedKeepsReadings(s, text, k, n, On(team, host, []));
    TeamOrder(s, n);
    TeamOrder(Assigned(s, text, k, n), n);
    var t := TeamIndex(s.teams, team);
    LastRecordWins(s, text, k, n, t, host);
  }

  /** Once the array was activated, a host has the engines and virtual devices asked for; before, none. */
  ghost predicate HasNames(h: HostV, activated: bool, ps: seq<Path>, team: char, host: nat, engine: string,
                           device: string)
  {
    && UniqueNames(h.engines)
    && (Named(h.engines, engine) <==> activated && AsksForEngine(ps, team, host, engine))
    && (device in h.vdevices <==> activated && AsksForDevice(ps, team, host, device))
  }

  lemma StepKeepsNames(s: System, step: Step, config: seq<string>, n: nat, activated: bool,
                       team: char, host: nat, engine: string, device: string)
    requires Hosted(s.unit.sensors, On(team, host, []))
    requires HasNames(HostAt(s.unit.sensors, team, host), activated, Plan(config, n), team, host, engine, device)
    ensures var after := Apply(s, step, config, n).unit.sensors;
      var fires := Activating(s, step);
      && Hosted(after, On(team, host, []))
      && HasNames(HostAt(after, team, host), activated || fires, Plan(config, n), team, host, engine, device)
  {
    hide Hosted, HostAt, Plan, AddAll, Fires, AsksForEngine, AsksForDevice, Named, UniqueNames, MonitorLine;
    var before := s.unit.sensors;
    match step {
      case MonitorInforms(line) =>
        if Heard(s.unit, line, n) {
          LineNames(s.unit, line, n, team, host);
          var after := MonitorLine(s.unit, line, n).sensors;
          SameNamesAreNamed(HostAt(after, team, host), HostAt(before, team, host), engine);
        }
      case ControlInforms(_) =>
        HostAfterAll(before, Plan(config, n), team, host, engine, device);
      case _ =>
    }
  }

  lemma ActivatedGrows(n: nat, steps: seq<Step>, config: seq<string>)
    requires steps != []
    ensures var front, step := steps[..|steps| - 1], steps[|steps| - 1];
      var fires := Activating(Run(n, front, config), step);
      FirstActivation(n, steps, config).Some? == (FirstActivation(n, front, config).Some? || fires)
  {
    hide Run, Activating;
  }

  lemma {:induction false} NamesInRun(n: nat, steps: seq<Step>, config: seq<string>,
                                      team: char, host: nat, engine: string, device: string)
    requires (team == 'f' || team == 'x') && host < n
    ensures var s, activated := Run(n, steps, config).unit.sensors, FirstActivation(n, steps, config).Some?;
      && Hosted(s, On(team, host, []))
      && HasNames(HostAt(s, team, host), activated, Plan(config, n), team, host, engine, device)
  {
    if steps == [] {
      FreshHost(n, team, host, []);
    } else {
      var front, step := steps[..|steps| - 1], steps[|steps| - 1];
      NamesInRun(n, front, config, team, host, engine, device);
      ActivatedGrows(n, steps, config);
      hide HasNames, Hosted, HostAt, Plan, Apply, Activating, FirstActivation;
      StepKeepsNames(Run(n, front, config), step, config, n, FirstActivation(n, front, config).Some?,
                     team, host, engine, device);
    }
  }

  lemma PairInRun(n: nat, steps: seq<Step>, config: seq<string>, team: char, host: nat, engine: string, device: string)
    requires (team == 'f' || team == 'x') && host < n && FirstActivation(n, steps, config).Some?
    ensures var s := Run(n, steps, config).unit.sensors;
      && Hosted(s, On(team, host, []))
      && HostLayered(HostAt(s, team, host)) && UniqueNames(HostAt(s, team, host).engines)
      && HoldsPair(HostAt(s, team, host), Plan(config, n), team, host, engine, device)
  {
    var s, p := Run(n, steps, config).unit.sensors, On(team, host, [engine, device, DEVICE_STATUS]);
    NamesInRun(n, steps, config, team, host, engine, device);
    ReadingsAreLastInforms(n, steps, config, p);
    FreshHost(n, team, host, p.names);
    hide Run, Plan, FirstActivation, LastInform, AsksForEngine, AsksForDevice, Named, UniqueNames, FreshSensors;
    assert Lookup(s, p) == HostGet(HostAt(s, team, host), p.names);
  }

  lemma AskedInRun(n: nat, steps: seq<Step>, config: seq<string>, team: char, host: nat)
    requires (team == 'f' || team == 'x') && host < n && FirstActivation(n, steps, config).Some?
    ensures var s := Run(n, steps, config).unit.sensors;
      Hosted(s, On(team, host, [])) && HoldsAsked(HostAt(s, team, host), Plan(config, n), team, host)
  {
    PairInRun(n, steps, config, team, host, "", "");
    var h := HostAt(Run(n, steps, config).unit.sensors, team, host);
    forall engine, device
      ensures HoldsPair(h, Plan(config, n), team, host, engine, device)
    {
      PairInRun(n, steps, config, team, host, engine, device);
    }
    hide HoldsPair, Run, Plan, FirstActivation;
  }

  lemma NoDevicesBefore(n: nat, steps: seq<Step>, config: seq<string>, team: char, host: nat)
    requires (team == 'f' || team == 'x') && host < n && FirstActivation(n, steps, config).None?
    ensures var s := Run(n, steps, config).unit.sensors;
      Hosted(s, On(team, host, [])) && AllReadable(HostAt(s, team, host))
  {
    NamesInRun(n, steps, config, team, host, "", "");
    var h := HostAt(Run(n, steps, config).unit.sensors, team, host);
    forall device
      ensures device !in h.vdevices
    {
      NamesInRun(n, steps, config, team, host, "", device);
    }
  }

  /** In every run, after any number of activations and informs, all virtual devices of a team can be read
      on every engine of their hosts exactly when the array was not activated yet or the team's engine
      lines are complete. */
  lemma ReadableThroughout(n: nat, steps: seq<Step>, config: seq<string>, team: char)
    requires n > 0 && (team == 'f' || team == 'x')
    ensures forall host: nat :: host < n ==> Hosted(Run(n, steps, config).unit.sensors, On(team, host, []))
    ensures (forall host: nat :: host < n ==> AllReadable(HostAt(Run(n, steps, config).unit.sensors, team, host)))
       <==> FirstActivation(n, steps, config).None? || Complete(config, team)
  {
    var s := Run(n, steps, config).unit.sensors;
    var readable := FirstActivation(n, steps, config).None? || Complete(config, team);
    forall host: nat | host < n
      ensures Hosted(s, On(team, host, [])) && (AllReadable(HostAt(s, team, host)) <==> readable)
    {
      if FirstActivation(n, steps, config).None? {
        NoDevicesBefore(n, steps, config, team, host);
      } else {
        AskedInRun(n, steps, config, team, host);
        HostReadable(HostAt(s, team, host), config, n, team, host);
      }
    }
    assert AllReadable(HostAt(s, team, 0)) <==> readable;
  }
}
