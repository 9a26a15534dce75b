/** The sensor lists of struct array (src/array.c): the top-level sensors and the f and x teams. */
module ArraySensors {
  import opened SensorTree
  import opened SensorObjects
  import opened Activation

  function FreshSensors(antennas: nat): Sensors {
    Sensors([], [TeamV('f', seq(antennas, _ => NEW_HOST)), TeamV('x', seq(antennas, _ => NEW_HOST))])
  }

  /** Top-level sensors, all different, and the list they stand for. */
  ghost predicate OwnsSensors(top: seq<Sensor>, models: seq<Node>, repr: set<object>)
    reads repr
  {
    && |top| == |models|
    && (forall i :: 0 <= i < |top| ==> top[i] in repr && top[i].Model() == models[i])
    && (forall i, j :: 0 <= i < j < |top| ==> top[i] != top[j])
  }

  method UpdateFirst(top: seq<Sensor>, ghost models: seq<Node>, ghost repr: set<object>, name: string, value: string,
                     status: string)
    returns (r: int)
    requires OwnsSensors(top, models, repr)
    modifies repr
    ensures OwnsSensors(top, Set(models, [name], Reading(value, status)), repr)
    ensures r == if Get(models, [name]).Some? then 0 else -1
  {
    var i := 0;
    while i < |top|
      invariant 0 <= i <= |top|
      invariant forall k :: 0 <= k < i ==> models[k].name != name
    {
      assert models[i] == top[i].Model();
      if top[i].name == name {
        FirstMatchIs(models, name, i);
        r := top[i].Update(value, status);
        return;
      }
      i := i + 1;
    }
    FirstMatchIs(models, name, i);
    r := -1;
  }

  /** The two teams, sharing no object, and the values they stand for. */
  ghost predicate OwnsTeams(teams: seq<Team>, models: seq<TeamV>, repr: set<object>, antennas: nat)
    reads repr
  {
    && |teams| == |models| == 2
    && (forall i :: 0 <= i < 2 ==>
        && teams[i] in repr && teams[i].Repr <= repr && teams[i].Valid()
        && teams[i].Model == models[i] && teams[i].antennas == antennas)
    && teams[0].Repr !! teams[1].Repr
    && models[0].kind == 'f' && models[1].kind == 'x'
  }

  /** The first team of the type. */
  method FindTeam(teams: seq<Team>, ghost models: seq<TeamV>, ghost repr: set<object>, antennas: nat, teamType: char)
    returns (t: nat)
    requires OwnsTeams(teams, models, repr, antennas) && (teamType == 'f' || teamType == 'x')
    ensures t == TeamIndex(models, teamType) < 2
  {
    t := 0;
    while t < |teams|
      invariant 0 <= t <= |teams|
      invariant forall k :: 0 <= k < t ==> models[k].kind != teamType
    {
      assert models[t].kind == teams[t].kind;
      if teams[t].kind == teamType {
        return;
      }
      t := t + 1;
    }
  }

  /** The teams' values after names is added on one host of team t. */
  function AddOnTeam(models: seq<TeamV>, t: nat, host: nat, names: seq<string>): seq<TeamV>
    requires t < |models| && (|names| == 2 || |names| == 3)
  {
    if host >= |models[t].hosts| then models
    else models[t := models[t].(hosts := models[t].hosts[host := HostAdd(models[t].hosts[host], names)])]
  }

  function SetOnTeam(models: seq<TeamV>, t: nat, host: nat, names: seq<string>, r: Reading): seq<TeamV>
    requires t < |models|
  {
    if host >= |models[t].hosts| then models
    else models[t := models[t].(hosts := models[t].hosts[host := HostSet(models[t].hosts[host], names, r)])]
  }

  method AddToTeam(teams: seq<Team>, ghost models: seq<TeamV>, ghost repr: set<object>, antennas: nat, t: nat,
                   host: nat, names: seq<string>)
    returns (r: int, ghost grownRepr: set<object>)
    requires OwnsTeams(teams, models, repr, antennas) && t < 2 && (|names| == 2 || |names| == 3)
    requires |names| == 3 && host < antennas ==> Layered(models[t].hosts[host].engines, 2)
    modifies repr
    ensures OwnsTeams(teams, AddOnTeam(models, t, host, names), grownRepr, antennas)
    ensures fresh(grownRepr - repr) && repr <= grownRepr
    ensures r == if host < antennas then 0 else -1
  {
    hide HostAdd;
    assert names == if |names| == 2 then [names[0], names[1]] else [names[0], names[1], names[2]];
    if |names| == 2 {
      r := teams[t].AddDeviceSensor(host, names[0], names[1]);
    } else {
      r := teams[t].AddEngineDeviceSensor(host, names[0], names[1], names[2]);
    }
    grownRepr := repr + teams[t].Repr;
  }

  method UpdateInTeam(teams: seq<Team>, ghost models: seq<TeamV>, ghost repr: set<object>, antennas: nat, t: nat,
                      host: nat, names: seq<string>, value: string, status: string)
    returns (r: int)
    requires OwnsTeams(teams, models, repr, antennas) && t < 2 && (|names| == 2 || |names| == 3)
    modifies repr
    ensures OwnsTeams(teams, SetOnTeam(models, t, host, names, Reading(value, status)), repr, antennas)
    ensures host >= antennas ==> r == -2
    ensures host < antennas ==> r == if HostGet(models[t].hosts[host], names).Some? then 0 else -1
  {
    hide HostSet;
    assert names == if |names| == 2 then [names[0], names[1]] else [names[0], names[1], names[2]];
    if |names| == 2 {
      r := teams[t].UpdateSensor(host, names[0], names[1], value, status);
    } else {
      r := teams[t].UpdateEngineSensor(host, names[0], names[1], names[2], value, status);
    }
  }

  lemma AddOnTeamIs(s: Sensors, team: char, host: nat, names: seq<string>)
    requires TeamIndex(s.teams, team) < |s.teams| && (|names| == 2 || |names| == 3)
    ensures Add(s, On(team, host, names)) == s.(teams := AddOnTeam(s.teams, TeamIndex(s.teams, team), host, names))
  {
  }

  lemma SetOnTeamIs(s: Sensors, team: char, host: nat, names: seq<string>, r: Reading)
    requires TeamIndex(s.teams, team) < |s.teams|
    ensures Update(s, On(team, host, names), r)
        == s.(teams := SetOnTeam(s.teams, TeamIndex(s.teams, team), host, names, r))
  {
  }

  lemma AddKeepsShape(s: Sensors, p: Path, n: nat)
    requires WellFormed(s) && Shaped(s, n) && Proper(p)
    ensures WellFormed(Add(s, p)) && Shaped(Add(s, p), n)
  {
    AddLookup(s, p, p);
  }

  lemma {:induction false} AddAllKeepsShape(s: Sensors, ps: seq<Path>, n: nat)
    requires WellFormed(s) && Shaped(s, n) && AllProper(ps)
    ensures WellFormed(AddAll(s, ps)) && Shaped(AddAll(s, ps), n)
  {
    if ps == [] {
    } else {
      AddAllKeepsShape(s, ps[..|ps| - 1], n);
      AddKeepsShape(AddAll(s, ps[..|ps| - 1]), ps[|ps| - 1], n);
      hide WellFormed, Shaped, Add;
    }
  }

  lemma UpdateKeepsShape(s: Sensors, p: Path, r: Reading, n: nat)
    requires WellFormed(s) && Shaped(s, n)
    ensures WellFormed(Update(s, p, r)) && Shaped(Update(s, p, r), n)
  {
    UpdateLookup(s, p, r, p);
  }

  lemma FreshIsShaped(n: nat)
    ensures WellFormed(FreshSensors(n)) && Shaped(FreshSensors(n), n)
  {
  }

  lemma EnginesAreLayered(s: Sensors, n: nat, t: nat, host: nat)
    requires WellFormed(s) && Shaped(s, n) && t < 2
    ensures |s.teams| == 2 && |s.teams[t].hosts| == n
    ensures host < n ==> Layered(s.teams[t].hosts[host].engines, 2)
  {
    assert host < n ==> HostLayered(s.teams[t].hosts[host]);
  }

  lemma TeamOrder(s: Sensors, n: nat)
    requires Shaped(s, n)
    ensures |s.teams| == 2 && |s.teams[0].hosts| == |s.teams[1].hosts| == n
    ensures TeamIndex(s.teams, 'f') == 0 && TeamIndex(s.teams, 'x') == 1
  {
  }

  class SensorLists {
    const antennas: nat
    var top: seq<Sensor>
    const teams: seq<Team>
    ghost var Model: Sensors
    ghost var TopRepr: set<object>
    ghost var TeamRepr: set<object>
    ghost var Repr: set<object>

    ghost predicate Valid()
      reads this, Repr
      ensures Valid() ==> this in Repr
    {
      && this in Repr && this !in TopRepr && this !in TeamRepr
      && TopRepr <= Repr && TeamRepr <= Repr && TopRepr !! TeamRepr
      && OwnsSensors(top, Model.top, TopRepr)
      && OwnsTeams(teams, Model.teams, TeamRepr, antennas)
      && WellFormed(Model) && Shaped(Model, antennas)
    }

    constructor (antennas: nat)
      ensures Valid() && fresh(Repr) && this.antennas == antennas
      ensures Model == FreshSensors(antennas)
    {
      hide WellFormed, Shaped;
      var f := new Team('f', antennas);
      var x := new Team('x', antennas);
      FreshIsShaped(antennas);
      this.antennas, top, teams := antennas, [], [f, x];
      Model, TopRepr, TeamRepr := FreshSensors(antennas), {}, f.Repr + x.Repr;
      Repr := {this} + f.Repr + x.Repr;
    }

    /** No check for a sensor of that name. */
    method AddTopLevel(name: string) returns (r: int)
      requires Valid()
      modifies Repr
      ensures Valid() && fresh(Repr - old(Repr)) && r == 0
      ensures Model == Add(old(Model), Top(name))
    {
      hide OwnsTeams, WellFormed, Shaped;
      AddKeepsShape(Model, Top(name), antennas);
      var sensor := new Sensor(name);
      top := top + [sensor];
      Model := Add(Model, Top(name));
      TopRepr := TopRepr + {sensor};
      Repr := Repr + {sensor};
      r := 0;
    }

    method UpdateTopLevel(name: string, value: string, status: string) returns (r: int)
      requires Valid()
      modifies Repr
      ensures Valid() && Repr == old(Repr)
      ensures Model == Update(old(Model), Top(name), Reading(value, status))
      ensures r == if Lookup(old(Model), Top(name)).Some? then 0 else -1
    {
      hide OwnsTeams, OwnsSensors, WellFormed, Shaped;
      UpdateKeepsShape(Model, Top(name), Reading(value, status), antennas);
      r := UpdateFirst(top, Model.top, TopRepr, name, value, status);
      Model := Update(Model, Top(name), Reading(value, status));
    }

    /** A sensor [device, sensor] or [engine, device, sensor] for one host of the first team of the type. */
    method AddToHost(teamType: char, host: nat, names: seq<string>) returns (r: int)
      requires Valid() && (teamType == 'f' || teamType == 'x') && (|names| == 2 || |names| == 3)
      modifies Repr
      ensures Valid() && fresh(Repr - old(Repr))
      ensures Model == Add(old(Model), On(teamType, host, names))
      ensures r == if host < antennas then 0 else -1
    {
      hide OwnsTeams, OwnsSensors, WellFormed, Shaped, Add, AddOnTeam, Layered, TeamIndex;
      ghost var p := On(teamType, host, names);
      var t := FindTeam(teams, Model.teams, TeamRepr, antennas, teamType);
      EnginesAreLayered(Model, antennas, t, host);
      AddKeepsShape(Model, p, antennas);
      AddOnTeamIs(Model, teamType, host, names);
      r, TeamRepr := AddToTeam(teams, Model.teams, TeamRepr, antennas, t, host, names);
      Repr := Repr + TeamRepr;
      Model := Add(Model, p);
    }

    /** team is the place in the list, as the receive path numbers them: f is 0, x is 1. */
    method UpdateOnTeam(team: nat, host: nat, names: seq<string>, value: string, status: string) returns (r: int)
      requires Valid() && team < 2 && (|names| == 2 || |names| == 3)
      modifies Repr
      ensures Valid() && Repr == old(Repr)
      ensures Model == Update(old(Model), On(if team == 0 then 'f' else 'x', host, names), Reading(value, status))
    {
      hide OwnsTeams, OwnsSensors, WellFormed, Shaped, Update, SetOnTeam, TeamIndex;
      ghost var p := On(if team == 0 then 'f' else 'x', host, names);
      TeamOrder(Model, antennas);
      UpdateKeepsShape(Model, p, Reading(value, status), antennas);
      SetOnTeamIs(Model, p.team, host, names, Reading(value, status));
      r := UpdateInTeam(teams, Model.teams, TeamRepr, antennas, team, host, names, value, status);
      Model := Update(Model, p, Reading(value, status));
    }

    /** As the mapping inform does it: no check of the host number. */
    method SetSerial(team: nat, host: nat, serial: string)
      requires Valid() && team < 2 && host < antennas
      modifies Repr
      ensures Valid() && Repr == old(Repr)
      ensures Model == WithSerial(old(Model), team, host, serial)
    {
      SerialKeepsShape(Model, team, host, serial, antennas);
      hide OwnsSensors, WellFormed;
      var _ := teams[team].SetHostSerial(host, serial);
      Model := WithSerial(Model, team, host, serial);
    }
  }

  function WithSerial(s: Sensors, team: nat, host: nat, serial: string): Sensors
    requires team < |s.teams| && host < |s.teams[team].hosts|
  {
    var hosts := s.teams[team].hosts;
    s.(teams := s.teams[team := s.teams[team].(hosts := hosts[host := hosts[host].(serial := serial)])])
  }

  lemma SerialKeepsShape(s: Sensors, team: nat, host: nat, serial: string, n: nat)
    requires WellFormed(s) && Shaped(s, n) && team < 2 && host < n
    ensures WellFormed(WithSerial(s, team, host, serial)) && Shaped(WithSerial(s, team, host, serial), n)
  {
  }
}
