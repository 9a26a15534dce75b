/** The values behind src/sensor.c, device.c, engine.c, host.c and team.c: nested lists searched by
    first match, and the one map from paths to readings that they implement. */
module SensorTree {
  import opened Text

  datatype Reading = Reading(value: string, status: string)

  /** What sensor_create stores. */
  const FRESH := Reading("unused", "unknown")

  /** A sensor, or a device or engine with its list. */
  datatype Node = Leaf(name: string, reading: Reading) | Group(name: string, members: seq<Node>)

  /** The place of the first entry of that name, or the length of the list. */
  function FirstMatch(ns: seq<Node>, name: string): (i: nat)
    ensures i <= |ns| && (i < |ns| ==> ns[i].name == name)
    ensures forall k :: 0 <= k < i ==> ns[k].name != name
  {
    if ns == [] || ns[0].name == name then 0 else 1 + FirstMatch(ns[1..], name)
  }

  predicate Named(ns: seq<Node>, name: string) {
    FirstMatch(ns, name) < |ns|
  }

  function Get(ns: seq<Node>, path: seq<string>): Option<Reading>
    decreases |path|
  {
    if path == [] || !Named(ns, path[0]) then None
    else match ns[FirstMatch(ns, path[0])]
      case Leaf(_, reading) => if |path| == 1 then Some(reading) else None
      case Group(_, members) => Get(members, path[1..])
  }

  function Set(ns: seq<Node>, path: seq<string>, reading: Reading): seq<Node>
    decreases |path|
  {
    if path == [] || !Named(ns, path[0]) then ns
    else
      var i := FirstMatch(ns, path[0]);
      match ns[i]
      case Leaf(name, _) => if |path| == 1 then ns[i := Leaf(name, reading)] else ns
      case Group(name, members) => ns[i := Group(name, Set(members, path[1..], reading))]
  }

  /** The first-match walk along groups ends at a list. */
  predicate Reaches(ns: seq<Node>, groups: seq<string>)
    decreases |groups|
  {
    groups == [] ||
    (Named(ns, groups[0]) &&
     var n := ns[FirstMatch(ns, groups[0])]; n.Group? && Reaches(n.members, groups[1..]))
  }

  /** node at the end of the list that groups leads to; unchanged when nothing is there. */
  function AppendAt(ns: seq<Node>, groups: seq<string>, node: Node): seq<Node>
    decreases |groups|
  {
    if groups == [] then ns + [node]
    else if !Named(ns, groups[0]) then ns
    else
      var i := FirstMatch(ns, groups[0]);
      match ns[i]
      case Leaf(_, _) => ns
      case Group(name, members) => ns[i := Group(name, AppendAt(members, groups[1..], node))]
  }

  function EnsureGroup(ns: seq<Node>, name: string): seq<Node> {
    if Named(ns, name) then ns else ns + [Group(name, [])]
  }

  /** Sensors lie exactly below `depth` levels of groups. */
  ghost predicate Layered(ns: seq<Node>, depth: nat) {
    if depth == 0 then forall k :: 0 <= k < |ns| ==> ns[k].Leaf?
    else forall k :: 0 <= k < |ns| ==> ns[k].Group? && Layered(ns[k].members, depth - 1)
  }

  ghost predicate UniqueNames(ns: seq<Node>) {
    forall i, j :: 0 <= i < j < |ns| ==> ns[i].name != ns[j].name
  }

  lemma FirstMatchIs(ns: seq<Node>, name: string, i: nat)
    requires i <= |ns| && (i < |ns| ==> ns[i].name == name)
    requires forall k :: 0 <= k < i ==> ns[k].name != name
    ensures FirstMatch(ns, name) == i
  {
  }

  lemma FirstMatchAppend(ns: seq<Node>, node: Node, name: string)
    ensures FirstMatch(ns + [node], name)
         == if Named(ns, name) then FirstMatch(ns, name) else if node.name == name then |ns| else |ns| + 1
  {
    FirstMatchIs(ns + [node], name,
                 if Named(ns, name) then FirstMatch(ns, name) else if node.name == name then |ns| else |ns| + 1);
  }

  lemma FirstMatchReplace(ns: seq<Node>, i: nat, node: Node, name: string)
    requires i < |ns| && node.name == ns[i].name
    ensures FirstMatch(ns[i := node], name) == FirstMatch(ns, name)
  {
    FirstMatchIs(ns[i := node], name, FirstMatch(ns, name));
  }

  /** Writing a path changes what that path reads, if it exists, and no other. */
  lemma {:induction false} GetSet(ns: seq<Node>, path: seq<string>, reading: Reading, query: seq<string>)
    ensures Get(Set(ns, path, reading), query)
         == if query == path && Get(ns, path).Some? then Some(reading) else Get(ns, query)
    decreases |path|
  {
    if path == [] || !Named(ns, path[0]) || query == [] {
    } else {
      var i := FirstMatch(ns, path[0]);
      match ns[i] {
        case Leaf(name, _) =>
          if |path| == 1 {
            FirstMatchReplace(ns, i, Leaf(name, reading), query[0]);
          }
        case Group(name, members) =>
          FirstMatchReplace(ns, i, Group(name, Set(members, path[1..], reading)), query[0]);
          if query[0] == path[0] {
            GetSet(members, path[1..], reading, query[1..]);
            assert query == [query[0]] + query[1..] && path == [path[0]] + path[1..];
          }
      }
    }
  }

  lemma {:induction false} SetLayered(ns: seq<Node>, path: seq<string>, reading: Reading, depth: nat)
    requires Layered(ns, depth)
    ensures Layered(Set(ns, path, reading), depth)
    decreases |path|
  {
    if path == [] || !Named(ns, path[0]) || depth == 0 {
    } else {
      SetLayered(ns[FirstMatch(ns, path[0])].members, path[1..], reading, depth - 1);
    }
  }

  lemma SamePath(query: seq<string>, groups: seq<string>, name: string)
    requires query != [] && groups != []
    ensures query == groups + [name] <==> query[0] == groups[0] && query[1..] == groups[1..] + [name]
  {
    assert query == [query[0]] + query[1..];
    assert groups + [name] == [groups[0]] + (groups[1..] + [name]);
  }

  /** A sensor appended below existing groups becomes readable unless an earlier one hides it. */
  lemma {:induction false} GetAppendLeaf(ns: seq<Node>, groups: seq<string>, name: string, query: seq<string>)
    requires Layered(ns, |groups|) && Reaches(ns, groups)
    ensures Layered(AppendAt(ns, groups, Leaf(name, FRESH)), |groups|)
    ensures Get(AppendAt(ns, groups, Leaf(name, FRESH)), query)
         == if query == groups + [name] && Get(ns, query).None? then Some(FRESH) else Get(ns, query)
    decreases |groups|
  {
    var leaf := Leaf(name, FRESH);
    if groups == [] {
      if query != [] {
        FirstMatchAppend(ns, leaf, query[0]);
        assert query == [query[0]] + query[1..];
      }
    } else {
      var i := FirstMatch(ns, groups[0]);
      var members := ns[i].members;
      var grown := Group(groups[0], AppendAt(members, groups[1..], leaf));
      GetAppendLeaf(members, groups[1..], name, if query == [] then [] else query[1..]);
      if query != [] {
        FirstMatchReplace(ns, i, grown, query[0]);
        SamePath(query, groups, name);
      }
    }
  }

  /** A new empty group changes no reading, be it the first of its name or a duplicate behind another. */
  lemma {:induction false} GetAppendGroup(ns: seq<Node>, groups: seq<string>, name: string, depth: nat,
                                          query: seq<string>)
    requires Layered(ns, depth) && |groups| < depth
    ensures Layered(AppendAt(ns, groups, Group(name, [])), depth)
    ensures Get(AppendAt(ns, groups, Group(name, [])), query) == Get(ns, query)
    decreases |groups|
  {
    var group := Group(name, []);
    if groups == [] {
      assert Layered([], depth - 1);
      if query != [] {
        FirstMatchAppend(ns, group, query[0]);
      }
    } else if Named(ns, groups[0]) {
      var i := FirstMatch(ns, groups[0]);
      var grown := Group(groups[0], AppendAt(ns[i].members, groups[1..], group));
      GetAppendGroup(ns[i].members, groups[1..], name, depth - 1, if query == [] then [] else query[1..]);
      if query != [] {
        FirstMatchReplace(ns, i, grown, query[0]);
      }
    }
  }

  lemma EnsureGroupIs(ns: seq<Node>, name: string)
    ensures EnsureGroup(ns, name) == if Named(ns, name) then ns else AppendAt(ns, [], Group(name, []))
    ensures Named(EnsureGroup(ns, name), name)
  {
    FirstMatchAppend(ns, Group(name, []), name);
  }

  // ---- Hosts and teams ----

  datatype HostV = HostV(serial: string, devices: seq<Node>, engines: seq<Node>, vdevices: seq<string>)

  datatype TeamV = TeamV(kind: char, hosts: seq<HostV>)

  /** All sensors of an array: the top-level list and the teams. */
  datatype Sensors = Sensors(top: seq<Node>, teams: seq<TeamV>)

  /** names is [device, sensor] or [engine, device, sensor]. */
  datatype Path = Top(name: string) | On(team: char, host: nat, names: seq<string>)

  predicate Proper(p: Path) {
    p.On? ==> |p.names| == 2 || |p.names| == 3
  }

  predicate AllProper(ps: seq<Path>) {
    forall k :: 0 <= k < |ps| ==> Proper(ps[k])
  }

  const NEW_HOST := HostV("unknwn", [], [], [])

  function HostGet(h: HostV, names: seq<string>): Option<Reading> {
    if |names| == 3 then Get(h.engines, names) else Get(h.devices, names)
  }

  function HostSet(h: HostV, names: seq<string>, r: Reading): HostV {
    if |names| == 3 then h.(engines := Set(h.engines, names, r)) else h.(devices := Set(h.devices, names, r))
  }

  function AddDeviceSensor(devices: seq<Node>, device: string, sensor: string): seq<Node> {
    AppendAt(EnsureGroup(devices, device), [device], Leaf(sensor, FRESH))
  }

  /** The device is appended to the engine whether or not it is there already. */
  function AddEngineSensor(engines: seq<Node>, engine: string, device: string, sensor: string): seq<Node> {
    AppendAt(AppendAt(EnsureGroup(engines, engine), [engine], Group(device, [])), [engine, device], Leaf(sensor, FRESH))
  }

  function AddName(names: seq<string>, name: string): seq<string> {
    if name in names then names else names + [name]
  }

  function HostAdd(h: HostV, names: seq<string>): HostV
    requires |names| == 2 || |names| == 3
  {
    if |names| == 2 then h.(devices := AddDeviceSensor(h.devices, names[0], names[1]))
    else h.(engines := AddEngineSensor(h.engines, names[0], names[1], names[2]),
            vdevices := AddName(h.vdevices, names[1]))
  }

  ghost predicate HostLayered(h: HostV) {
    Layered(h.devices, 1) && Layered(h.engines, 2)
  }

  lemma HostSetGet(h: HostV, names: seq<string>, r: Reading, query: seq<string>)
    requires HostLayered(h)
    ensures HostLayered(HostSet(h, names, r))
    ensures HostGet(HostSet(h, names, r), query)
         == if query == names && HostGet(h, names).Some? then Some(r) else HostGet(h, query)
  {
    SetLayered(h.devices, names, r, 1);
    SetLayered(h.engines, names, r, 2);
    GetSet(h.devices, names, r, query);
    GetSet(h.engines, names, r, query);
  }

  lemma {:induction false} AddDeviceSensorGet(devices: seq<Node>, device: string, sensor: string, query: seq<string>)
    requires Layered(devices, 1)
    ensures Layered(AddDeviceSensor(devices, device, sensor), 1)
    ensures Get(AddDeviceSensor(devices, device, sensor), query)
         == if query == [device, sensor] && Get(devices, query).None? then Some(FRESH) else Get(devices, query)
  {
    EnsureGroupIs(devices, device);
    GetAppendGroup(devices, [], device, 1, query);
    var ensured := EnsureGroup(devices, device);
    assert Layered(ensured, 1);
    assert [device][1..] == [] && [device] + [sensor] == [device, sensor];
    assert Reaches(ensured[FirstMatch(ensured, device)].members, []);
    GetAppendLeaf(ensured, [device], sensor, query);
  }

  lemma AppendedGroupReached(engines: seq<Node>, engine: string, device: string)
    requires Layered(engines, 2) && Named(engines, engine)
    ensures Reaches(AppendAt(engines, [engine], Group(device, [])), [engine, device])
  {
    var i := FirstMatch(engines, engine);
    var members := engines[i].members;
    assert [engine][1..] == [] && [engine, device][1..] == [device] && [device][1..] == [];
    var grown := Group(engine, members + [Group(device, [])]);
    FirstMatchReplace(engines, i, grown, engine);
    FirstMatchAppend(members, Group(device, []), device);
    assert Layered(members, 1);
    assert Reaches(grown.members, [device]);
  }

  lemma AddEngineSensorGet(engines: seq<Node>, engine: string, device: string, sensor: string, query: seq<string>)
    requires Layered(engines, 2)
    ensures Layered(AddEngineSensor(engines, engine, device, sensor), 2)
    ensures Get(AddEngineSensor(engines, engine, device, sensor), query)
         == if query == [engine, device, sensor] && Get(engines, query).None? then Some(FRESH) else Get(engines, query)
  {
    EnsureGroupIs(engines, engine);
    GetAppendGroup(engines, [], engine, 2, query);
    var ensured := EnsureGroup(engines, engine);
    GetAppendGroup(ensured, [engine], device, 2, query);
    AppendedGroupReached(ensured, engine, device);
    assert [engine, device] + [sensor] == [engine, device, sensor];
    GetAppendLeaf(AppendAt(ensured, [engine], Group(device, [])), [engine, device], sensor, query);
  }

  lemma HostAddGet(h: HostV, names: seq<string>, query: seq<string>)
    requires HostLayered(h) && (|names| == 2 || |names| == 3)
    ensures HostLayered(HostAdd(h, names))
    ensures HostGet(HostAdd(h, names), query)
         == if query == names && HostGet(h, query).None? then Some(FRESH) else HostGet(h, query)
  {
    if |names| == 2 {
      assert names == [names[0], names[1]];
      AddDeviceSensorGet(h.devices, names[0], names[1], query);
    } else {
      assert names == [names[0], names[1], names[2]];
      AddEngineSensorGet(h.engines, names[0], names[1], names[2], query);
    }
  }

  // ---- The array's sensors as one map ----

  /** The first team of a type, or the number of teams. */
  function TeamIndex(teams: seq<TeamV>, kind: char): (i: nat)
    ensures i <= |teams| && (i < |teams| ==> teams[i].kind == kind)
    ensures forall k :: 0 <= k < i ==> teams[k].kind != kind
  {
    if teams == [] || teams[0].kind == kind then 0 else 1 + TeamIndex(teams[1..], kind)
  }

  predicate Hosted(s: Sensors, p: Path) {
    p.Top? || var t := TeamIndex(s.teams, p.team); t < |s.teams| && p.host < |s.teams[t].hosts|
  }

  function Lookup(s: Sensors, p: Path): Option<Reading> {
    if !Hosted(s, p) then None
    else match p
      case Top(name) => Get(s.top, [name])
      case On(team, host, names) => HostGet(s.teams[TeamIndex(s.teams, team)].hosts[host], names)
  }

  function WithHost(s: Sensors, team: char, host: nat, h: HostV): Sensors
    requires Hosted(s, On(team, host, []))
  {
    var t := TeamIndex(s.teams, team);
    s.(teams := s.teams[t := s.teams[t].(hosts := s.teams[t].hosts[host := h])])
  }

  function HostAt(s: Sensors, team: char, host: nat): HostV
    requires Hosted(s, On(team, host, []))
  {
    s.teams[TeamIndex(s.teams, team)].hosts[host]
  }

  function Update(s: Sensors, p: Path, r: Reading): Sensors {
    if !Hosted(s, p) then s
    else match p
      case Top(name) => s.(top := Set(s.top, [name], r))
      case On(team, host, names) => WithHost(s, team, host, HostSet(HostAt(s, team, host), names, r))
  }

  function Add(s: Sensors, p: Path): Sensors
    requires Proper(p)
  {
    if !Hosted(s, p) then s
    else match p
      case Top(name) => s.(top := AppendAt(s.top, [], Leaf(name, FRESH)))
      case On(team, host, names) => WithHost(s, team, host, HostAdd(HostAt(s, team, host), names))
  }

  function AddAll(s: Sensors, ps: seq<Path>): Sensors
    requires AllProper(ps)
  {
    if ps == [] then s else Add(AddAll(s, ps[..|ps| - 1]), ps[|ps| - 1])
  }

  ghost predicate WellFormed(s: Sensors) {
    && Layered(s.top, 0)
    && forall t, h :: 0 <= t < |s.teams| && 0 <= h < |s.teams[t].hosts| ==> HostLayered(s.teams[t].hosts[h])
  }

  /** The map that the nested lists implement. */
  ghost function Readings(s: Sensors): imap<Path, Reading> {
    imap p | Lookup(s, p).Some? :: Lookup(s, p).value
  }

  lemma TeamIndexReplace(teams: seq<TeamV>, t: nat, hosts: seq<HostV>, kind: char)
    requires t < |teams|
    ensures TeamIndex(teams[t := teams[t].(hosts := hosts)], kind) == TeamIndex(teams, kind)
  {
    var replaced := teams[t := teams[t].(hosts := hosts)];
    var i, j := TeamIndex(replaced, kind), TeamIndex(teams, kind);
    assert i < |replaced| ==> teams[i].kind == kind;
    assert j < |teams| ==> replaced[j].kind == kind;
  }

  lemma WithHostLookup(s: Sensors, team: char, host: nat, h: HostV, query: Path)
    requires Hosted(s, On(team, host, []))
    ensures Hosted(WithHost(s, team, host, h), query) == Hosted(s, query)
    ensures Lookup(WithHost(s, team, host, h), query)
         == if query.On? && query.team == team && query.host == host then HostGet(h, query.names) else Lookup(s, query)
  {
    var t := TeamIndex(s.teams, team);
    if query.On? {
      TeamIndexReplace(s.teams, t, s.teams[t].hosts[host := h], query.team);
    }
  }

  lemma UpdateLookup(s: Sensors, p: Path, r: Reading, query: Path)
    requires WellFormed(s)
    ensures WellFormed(Update(s, p, r)) && Hosted(Update(s, p, r), query) == Hosted(s, query)
    ensures Lookup(Update(s, p, r), query) == if query == p && Lookup(s, p).Some? then Some(r) else Lookup(s, query)
  {
    if Hosted(s, p) {
      match p {
        case Top(name) =>
          SetLayered(s.top, [name], r, 0);
          if query.Top? {
            GetSet(s.top, [name], r, [query.name]);
            assert [query.name] == [name] <==> [query.name][0] == [name][0];
          }
        case On(team, host, names) =>
          var h := HostAt(s, team, host);
          HostSetGet(h, names, r, if query.On? then query.names else []);
          WithHostLookup(s, team, host, HostSet(h, names, r), query);
      }
    }
  }

  lemma AddLookup(s: Sensors, p: Path, query: Path)
    requires WellFormed(s) && Proper(p)
    ensures WellFormed(Add(s, p)) && Hosted(Add(s, p), query) == Hosted(s, query)
    ensures Lookup(Add(s, p), query)
         == if query == p && Hosted(s, p) && Lookup(s, p).None? then Some(FRESH) else Lookup(s, query)
  {
    if Hosted(s, p) {
      match p {
        case Top(name) =>
          if query.Top? {
            GetAppendLeaf(s.top, [], name, [query.name]);
            assert [] + [name] == [name];
            assert [query.name] == [name] <==> [query.name][0] == [name][0];
          }
        case On(team, host, names) =>
          var h := HostAt(s, team, host);
          HostAddGet(h, names, if query.On? then query.names else []);
          WithHostLookup(s, team, host, HostAdd(h, names), query);
      }
    }
  }

  /** An update writes its own key if the key exists, and touches nothing else. */
  lemma UpdateRefinesMap(s: Sensors, p: Path, r: Reading)
    requires WellFormed(s)
    ensures WellFormed(Update(s, p, r))
    ensures Readings(Update(s, p, r)) == if p in Readings(s) then Readings(s)[p := r] else Readings(s)
  {
    hide Lookup, Update, WellFormed;
    forall query
      ensures Lookup(Update(s, p, r), query) == if query == p && Lookup(s, p).Some? then Some(r) else Lookup(s, query)
    {
      UpdateLookup(s, p, r, query);
    }
    UpdateLookup(s, p, r, p);
  }

  /** Adding inserts a fresh reading under a new key of an existing host; an existing key keeps its reading. */
  lemma {:induction false} AddRefinesMap(s: Sensors, p: Path)
    requires WellFormed(s) && Proper(p)
    ensures WellFormed(Add(s, p))
    ensures Readings(Add(s, p)) == if p in Readings(s) || !Hosted(s, p) then Readings(s) else Readings(s)[p := FRESH]
  {
    hide Lookup, Hosted, Add, WellFormed;
    forall query
      ensures Lookup(Add(s, p), query)
           == if query == p && Hosted(s, p) && Lookup(s, p).None? then Some(FRESH) else Lookup(s, query)
    {
      AddLookup(s, p, query);
    }
    AddLookup(s, p, p);
  }

  /** Adding many paths: every old reading stays, every new hosted path starts fresh, nothing else appears. */
  lemma {:induction false} AddAllLookup(s: Sensors, ps: seq<Path>, query: Path)
    requires WellFormed(s) && AllProper(ps)
    ensures WellFormed(AddAll(s, ps)) && Hosted(AddAll(s, ps), query) == Hosted(s, query)
    ensures Lookup(AddAll(s, ps), query)
         == if Lookup(s, query).None? && query in ps && Hosted(s, query) then Some(FRESH) else Lookup(s, query)
  {
    if ps == [] {
    } else {
      var front, last := ps[..|ps| - 1], ps[|ps| - 1];
      AddAllLookup(s, front, query);
      AddLookup(AddAll(s, front), last, query);
      assert ps == front + [last];
    }
  }

  lemma {:induction false} AddAllTwice(s: Sensors, ps: seq<Path>)
    requires WellFormed(s) && AllProper(ps)
    ensures Readings(AddAll(AddAll(s, ps), ps)) == Readings(AddAll(s, ps))
  {
    var once := AddAll(s, ps);
    AddAllLookup(s, ps, Top(""));
    forall query
      ensures Lookup(AddAll(once, ps), query) == Lookup(once, query)
    {
      AddAllLookup(s, ps, query);
      AddAllLookup(once, ps, query);
    }
  }
}
