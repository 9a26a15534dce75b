/** When the virtual devices that an activation creates can be read: src/vdevice.c asks every engine of
    the host for a device of the virtual device's name and cannot do without an answer. */
module VirtualDevices {
  import opened Text
  import opened SensorTree
  import opened SensorObjects
  import opened Activation
  import opened ArraySensors

  /** Every virtual device finds its device on every engine of the host. */
  ghost predicate AllReadable(h: HostV) {
    forall v :: v in h.vdevices ==> AllPresent(DeviceStatuses(h.engines, v))
  }

  lemma AppendKeepsNames(ns: seq<Node>, groups: seq<string>, node: Node)
    requires groups != []
    ensures |AppendAt(ns, groups, node)| == |ns|
    ensures forall k :: 0 <= k < |ns| ==> AppendAt(ns, groups, node)[k].name == ns[k].name
    ensures UniqueNames(ns) ==> UniqueNames(AppendAt(ns, groups, node))
    ensures forall name :: Named(AppendAt(ns, groups, node), name) <==> Named(ns, name)
  {
    var after := AppendAt(ns, groups, node);
    forall name
      ensures Named(after, name) <==> Named(ns, name)
    {
      FirstMatchIs(after, name, FirstMatch(ns, name));
    }
  }

  lemma EnsureNames(ns: seq<Node>, group: string, name: string)
    ensures Named(EnsureGroup(ns, group), name) <==> Named(ns, name) || name == group
    ensures UniqueNames(ns) ==> UniqueNames(EnsureGroup(ns, group))
  {
    FirstMatchAppend(ns, Group(group, []), name);
  }

  lemma {:induction false} HostAddNames(h: HostV, names: seq<string>, engine: string, device: string)
    requires |names| == 2 || |names| == 3
    ensures UniqueNames(h.engines) ==> UniqueNames(HostAdd(h, names).engines)
    ensures Named(HostAdd(h, names).engines, engine)
        <==> Named(h.engines, engine) || (|names| == 3 && names[0] == engine)
    ensures device in HostAdd(h, names).vdevices <==> device in h.vdevices || (|names| == 3 && names[1] == device)
  {
    if |names| == 3 {
      var ensured := EnsureGroup(h.engines, names[0]);
      EnsureNames(h.engines, names[0], engine);
      AppendKeepsNames(ensured, [names[0]], Group(names[1], []));
      AppendKeepsNames(AppendAt(ensured, [names[0]], Group(names[1], [])), [names[0], names[1]], Leaf(names[2], FRESH));
    }
  }

  predicate OnHost(p: Path, team: char, host: nat) {
    p.On? && p.team == team && p.host == host
  }

  lemma HostAfterAdd(s: Sensors, p: Path, team: char, host: nat)
    requires Proper(p) && Hosted(s, On(team, host, []))
    ensures Hosted(Add(s, p), On(team, host, []))
    ensures HostAt(Add(s, p), team, host)
         == if OnHost(p, team, host) then HostAdd(HostAt(s, team, host), p.names) else HostAt(s, team, host)
  {
    if p.On? && Hosted(s, p) {
      var t := TeamIndex(s.teams, p.team);
      var h := HostAdd(HostAt(s, p.team, p.host), p.names);
      TeamIndexReplace(s.teams, t, s.teams[t].hosts[p.host := h], team);
    }
  }

  ghost predicate AsksForEngine(ps: seq<Path>, team: char, host: nat, engine: string) {
    exists p :: p in ps && OnHost(p, team, host) && |p.names| == 3 && p.names[0] == engine
  }

  ghost predicate AsksForDevice(ps: seq<Path>, team: char, host: nat, device: string) {
    exists p :: p in ps && OnHost(p, team, host) && |p.names| == 3 && p.names[1] == device
  }

  lemma {:induction false} HostAfterAll(s: Sensors, ps: seq<Path>, team: char, host: nat, engine: string,
                                        device: string)
    requires AllProper(ps) && Hosted(s, On(team, host, []))
    requires UniqueNames(HostAt(s, team, host).engines)
    ensures Hosted(AddAll(s, ps), On(team, host, []))
    ensures var before, h := HostAt(s, team, host), HostAt(AddAll(s, ps), team, host);
      && UniqueNames(h.engines)
      && (Named(h.engines, engine) <==> Named(before.engines, engine) || AsksForEngine(ps, team, host, engine))
      && (device in h.vdevices <==> device in before.vdevices || AsksForDevice(ps, team, host, device))
  {
    if ps == [] {
    } else {
      var front, last := ps[..|ps| - 1], ps[|ps| - 1];
      HostAfterAll(s, front, team, host, engine, device);
      HostAfterAdd(AddAll(s, front), last, team, host);
      if last.On? {
        HostAddNames(HostAt(AddAll(s, front), team, host), last.names, engine, device);
      }
      assert ps == front + [last];
      AsksAppend(front, last, team, host, engine, device);
      hide AsksForEngine, AsksForDevice, HostAdd;
    }
  }

  lemma AsksAppend(ps: seq<Path>, p: Path, team: char, host: nat, engine: string, device: string)
    ensures AsksForEngine(ps + [p], team, host, engine)
       <==> AsksForEngine(ps, team, host, engine) || (OnHost(p, team, host) && |p.names| == 3 && p.names[0] == engine)
    ensures AsksForDevice(ps + [p], team, host, device)
       <==> AsksForDevice(ps, team, host, device) || (OnHost(p, team, host) && |p.names| == 3 && p.names[1] == device)
  {
    assert p in ps + [p];
    assert forall q :: q in ps + [p] <==> q in ps || q == p;
  }

  /** For engines of different names, looking at the engine itself is looking it up by name. */
  lemma EngineByName(engines: seq<Node>, i: nat, device: string)
    requires i < |engines| && UniqueNames(engines) && Layered(engines, 2)
    ensures DeviceStatuses(engines, device)[i] == StatusOf(Get(engines, [engines[i].name, device, DEVICE_STATUS]))
  {
    FirstMatchIs(engines, engines[i].name, i);
    assert [engines[i].name, device, DEVICE_STATUS][1..] == [device, DEVICE_STATUS];
  }

  ghost predicate FullyAsked(ps: seq<Path>, team: char, host: nat) {
    forall engine, device | AsksForEngine(ps, team, host, engine) && AsksForDevice(ps, team, host, device) ::
      On(team, host, [engine, device, DEVICE_STATUS]) in ps
  }

  ghost predicate HoldsPair(h: HostV, ps: seq<Path>, team: char, host: nat, engine: string, device: string) {
    && (Named(h.engines, engine) <==> AsksForEngine(ps, team, host, engine))
    && (device in h.vdevices <==> AsksForDevice(ps, team, host, device))
    && (HostGet(h, [engine, device, DEVICE_STATUS]).Some? <==> On(team, host, [engine, device, DEVICE_STATUS]) in ps)
  }

  /** A host holds just what was asked for. */
  ghost predicate HoldsAsked(h: HostV, ps: seq<Path>, team: char, host: nat) {
    && Layered(h.engines, 2) && UniqueNames(h.engines)
    && forall engine, device :: HoldsPair(h, ps, team, host, engine, device)
  }

  lemma FreshHost(n: nat, team: char, host: nat, names: seq<string>)
    requires (team == 'f' || team == 'x') && host < n
    ensures WellFormed(FreshSensors(n)) && Hosted(FreshSensors(n), On(team, host, names))
    ensures HostAt(FreshSensors(n), team, host) == NEW_HOST && Lookup(FreshSensors(n), On(team, host, names)).None?
  {
    FreshIsShaped(n);
    TeamOrder(FreshSensors(n), n);
  }

  lemma {:induction false} PairIsHeld(n: nat, ps: seq<Path>, team: char, host: nat, engine: string, device: string)
    requires AllProper(ps) && (team == 'f' || team == 'x') && host < n
    ensures Hosted(AddAll(FreshSensors(n), ps), On(team, host, []))
    ensures var h := HostAt(AddAll(FreshSensors(n), ps), team, host);
      HostLayered(h) && UniqueNames(h.engines) && HoldsPair(h, ps, team, host, engine, device)
  {
    assert UniqueNames(NEW_HOST.engines) && !Named(NEW_HOST.engines, engine);
    hide FreshSensors, AsksForEngine, AsksForDevice, AddAll, UniqueNames, Named;
    var s, p := FreshSensors(n), On(team, host, [engine, device, DEVICE_STATUS]);
    FreshHost(n, team, host, p.names);
    FreshHost(n, team, host, []);
    HostAfterAll(s, ps, team, host, engine, device);
    AddAllLookup(s, ps, p);
    assert Lookup(AddAll(s, ps), p) == HostGet(HostAt(AddAll(s, ps), team, host), p.names);
  }

  lemma {:induction false} AskedIsHeld(n: nat, ps: seq<Path>, team: char, host: nat)
    requires AllProper(ps) && (team == 'f' || team == 'x') && host < n
    ensures Hosted(AddAll(FreshSensors(n), ps), On(team, host, []))
    ensures HoldsAsked(HostAt(AddAll(FreshSensors(n), ps), team, host), ps, team, host)
  {
    PairIsHeld(n, ps, team, host, "", "");
    var h := HostAt(AddAll(FreshSensors(n), ps), team, host);
    forall engine, device
      ensures HoldsPair(h, ps, team, host, engine, device)
    {
      PairIsHeld(n, ps, team, host, engine, device);
    }
  }

  /** The virtual devices of a host can be read exactly when every engine that was asked for was asked
      for with every device. */
  lemma ReadableIffFullyAsked(h: HostV, ps: seq<Path>, team: char, host: nat)
    requires HoldsAsked(h, ps, team, host)
    ensures AllReadable(h) <==> FullyAsked(ps, team, host)
  {
    hide AsksForEngine, AsksForDevice, Layered, Get;
    if AllReadable(h) {
      forall engine, device | AsksForEngine(ps, team, host, engine) && AsksForDevice(ps, team, host, device)
        ensures On(team, host, [engine, device, DEVICE_STATUS]) in ps
      {
        var i := FirstMatch(h.engines, engine);
        assert HoldsPair(h, ps, team, host, engine, device);
        EngineByName(h.engines, i, device);
        assert DeviceStatuses(h.engines, device)[i].Some?;
      }
    }
    if FullyAsked(ps, team, host) {
      forall v, i | v in h.vdevices && 0 <= i < |h.engines|
        ensures DeviceStatuses(h.engines, v)[i].Some?
      {
        assert HoldsPair(h, ps, team, host, h.engines[i].name, v);
        EngineByName(h.engines, i, v);
        FirstMatchIs(h.engines, h.engines[i].name, i);
        assert Named(h.engines, h.engines[i].name);
      }
    }
  }

  // ---- In terms of the sensor list ----

  ghost predicate HasEngineLine(config: seq<string>, team: char, base: string, device: string) {
    exists k :: 0 <= k < |config| && EntryOf(config[k]) == EngineEntry(team, base, device)
  }

  /** Every engine base name of the team is listed with every device that any of them is listed with. */
  ghost predicate Complete(config: seq<string>, team: char) {
    forall base, device, base', device' |
      HasEngineLine(config, team, base, device) && HasEngineLine(config, team, base', device') ::
      HasEngineLine(config, team, base, device')
  }

  lemma EnginePathPlanned(config: seq<string>, n: nat, team: char, host: nat, base: string, device: string, j: nat)
    requires HasEngineLine(config, team, base, device) && host < n && j < 4
    ensures EnginePath(team, host, base, device, j) in Plan(config, n)
  {
    var k :| 0 <= k < |config| && EntryOf(config[k]) == EngineEntry(team, base, device);
    var p := EnginePath(team, host, base, device, j);
    assert EngineSensor(team, p.host, base, device, 4, p);
    assert Declares(EntryOf(config[k]), n, p);
    ConfigPathsAre(config, n, p);
  }

  lemma PlannedEnginePath(config: seq<string>, n: nat, p: Path) returns (base: string, device: string, j: nat)
    requires p in Plan(config, n) && p.On? && |p.names| == 3
    ensures HasEngineLine(config, p.team, base, device) && j < 4 && p == EnginePath(p.team, p.host, base, device, j)
  {
    ConfigPathsAre(config, n, p);
    var k :| 0 <= k < |config| && Declares(EntryOf(config[k]), n, p);
    var e := EntryOf(config[k]);
    assert e.EngineEntry?;
    base, device := e.base, e.device;
    j :| j < 4 && p == EnginePath(e.team, p.host, base, device, j);
  }

  lemma EngineNamesSplit(a: string, i: nat, b: string, j: nat)
    requires i < 4 && j < 4 && a + Decimal(i) == b + Decimal(j)
    ensures a == b && i == j
  {
    assert |Decimal(i)| == 1 && |Decimal(j)| == 1;
    assert a == (a + Decimal(i))[..|a|] && b == (b + Decimal(j))[..|b|];
    assert (a + Decimal(i))[|a|] == DIGITS[i] && (b + Decimal(j))[|b|] == DIGITS[j];
  }

  lemma HostReadable(h: HostV, config: seq<string>, n: nat, team: char, host: nat)
    requires HoldsAsked(h, Plan(config, n), team, host) && host < n
    ensures AllReadable(h) <==> Complete(config, team)
  {
    ReadableIffFullyAsked(h, Plan(config, n), team, host);
    hide AllReadable, FullyAsked, HoldsAsked, Plan;
    if Complete(config, team) {
      CompleteIsReadable(config, n, team, host);
    }
    if FullyAsked(Plan(config, n), team, host) {
      ReadableIsComplete(config, n, team, host);
    }
  }

  /** After the first activation of an array, the virtual devices of the team's hosts can be read exactly
      when its engine lines are complete. */
  lemma ReadableIffComplete(config: seq<string>, n: nat, team: char)
    requires n > 0 && (team == 'f' || team == 'x')
    ensures forall host: nat :: host < n ==> Hosted(AddAll(FreshSensors(n), Plan(config, n)), On(team, host, []))
    ensures (forall host: nat :: host < n ==> AllReadable(HostAt(AddAll(FreshSensors(n), Plan(config, n)), team, host)))
       <==> Complete(config, team)
  {
    var ps := Plan(config, n);
    forall host: nat | host < n
      ensures Hosted(AddAll(FreshSensors(n), ps), On(team, host, []))
      ensures AllReadable(HostAt(AddAll(FreshSensors(n), ps), team, host)) <==> Complete(config, team)
    {
      AskedIsHeld(n, ps, team, host);
      HostReadable(HostAt(AddAll(FreshSensors(n), ps), team, host), config, n, team, host);
    }
    assert AllReadable(HostAt(AddAll(FreshSensors(n), ps), team, 0)) <==> Complete(config, team);
  }

  /** A single engine base name, as in the shipped list, makes the lines complete. */
  lemma SingleBaseIsComplete(config: seq<string>, team: char, only: string)
    requires forall base, device :: HasEngineLine(config, team, base, device) ==> base == only
    ensures Complete(config, team)
  {
  }

  lemma CompleteIsReadable(config: seq<string>, n: nat, team: char, host: nat)
    requires Complete(config, team) && host < n
    ensures FullyAsked(Plan(config, n), team, host)
  {
    var ps := Plan(config, n);
    forall engine, device | AsksForEngine(ps, team, host, engine) && AsksForDevice(ps, team, host, device)
      ensures On(team, host, [engine, device, DEVICE_STATUS]) in ps
    {
      var p :| p in ps && OnHost(p, team, host) && |p.names| == 3 && p.names[0] == engine;
      var q :| q in ps && OnHost(q, team, host) && |q.names| == 3 && q.names[1] == device;
      var base, d, j := PlannedEnginePath(config, n, p);
      var base', d', j' := PlannedEnginePath(config, n, q);
      EnginePathPlanned(config, n, team, host, base, d', j);
    }
  }

  lemma ReadableIsComplete(config: seq<string>, n: nat, team: char, host: nat)
    requires FullyAsked(Plan(config, n), team, host) && host < n
    ensures Complete(config, team)
  {
    var ps := Plan(config, n);
    forall base, device, base', device' |
      HasEngineLine(config, team, base, device) && HasEngineLine(config, team, base', device')
      ensures HasEngineLine(config, team, base, device')
    {
      EnginePathPlanned(config, n, team, host, base, device, 0);
      EnginePathPlanned(config, n, team, host, base', device', 0);
      var engine := base + Decimal(0);
      assert OnHost(EnginePath(team, host, base, device, 0), team, host);
      assert OnHost(EnginePath(team, host, base', device', 0), team, host);
      assert AsksForEngine(ps, team, host, engine) && AsksForDevice(ps, team, host, device');
      var p := On(team, host, [engine, device', DEVICE_STATUS]);
      var b, d, j := PlannedEnginePath(config, n, p);
      assert p.names[0] == b + Decimal(j) && p.names[1] == d;
      EngineNamesSplit(base, 0, b, j);
    }
  }
}
