/** src/sensor.c, device.c, engine.c, vdevice.c, host.c and team.c as objects. The Model of an
    object is the value its lists stand for; every method says what it does to the Model. */
module SensorObjects {
  import opened Text
  import opened SensorTree
  import opened VirtualStatus

  function ValueOf(r: Option<Reading>): Option<string> {
    if r.Some? then Some(r.value.value) else None
  }

  function StatusOf(r: Option<Reading>): Option<string> {
    if r.Some? then Some(r.value.status) else None
  }

  class Sensor {
    const name: string
    var value: string
    var status: string

    ghost function Model(): Node
      reads this
    {
      Leaf(name, Reading(value, status))
    }

    constructor (name: string)
      ensures Model() == Leaf(name, FRESH)
      ensures this.name == name && value == "unused" && status == "unknown"
    {
      this.name, value, status := name, "unused", "unknown";
    }

    method Update(newValue: string, newStatus: string) returns (r: int)
      modifies this
      ensures Model() == Leaf(name, Reading(newValue, newStatus)) && r == 0
      ensures value == newValue && status == newStatus
    {
      value, status := newValue, newStatus;
      r := 0;
    }
  }

  class Device {
    const name: string
    var sensors: seq<Sensor>
    ghost var Model: Node
    ghost var Repr: set<object>

    ghost predicate Valid()
      reads this, Repr
      ensures Valid() ==> this in Repr
    {
      && this in Repr
      && Model.Group? && Model.name == name && |Model.members| == |sensors|
      && (forall i :: 0 <= i < |sensors| ==> sensors[i] in Repr && sensors[i].Model() == Model.members[i])
      && (forall i, j :: 0 <= i < j < |sensors| ==> sensors[i] != sensors[j])
    }

    constructor (name: string)
      ensures Valid() && fresh(Repr) && Model == Group(name, [])
    {
      this.name, sensors := name, [];
      Model, Repr := Group(name, []), {this};
    }

    /** No check for a sensor of that name. */
    method AddSensor(sensorName: string) returns (r: int)
      requires Valid()
      modifies Repr
      ensures Valid() && fresh(Repr - old(Repr))
      ensures Model == Group(name, old(Model).members + [Leaf(sensorName, FRESH)]) && r == 0
    {
      var sensor := new Sensor(sensorName);
      sensors := sensors + [sensor];
      Model := Group(name, Model.members + [Leaf(sensorName, FRESH)]);
      Repr := Repr + {sensor};
      r := 0;
    }

    method FindSensor(sensorName: string) returns (i: nat)
      requires Valid()
      ensures i == FirstMatch(Model.members, sensorName)
    {
      i := 0;
      while i < |sensors|
        invariant 0 <= i <= |sensors|
        invariant forall k :: 0 <= k < i ==> Model.members[k].name != sensorName
      {
        assert Model.members[i].name == sensors[i].name;
        if sensors[i].name == sensorName {
          return;
        }
        i := i + 1;
      }
    }

    method GetSensorValue(sensorName: string) returns (v: Option<string>)
      requires Valid()
      ensures v == ValueOf(Get(Model.members, [sensorName]))
      ensures var r := Get(Model.members, [sensorName]); v == if r.Some? then Some(r.value.value) else None
    {
      var i := FindSensor(sensorName);
      if i == |sensors| {
        return None;
      }
      assert Model.members[i] == sensors[i].Model();
      v := Some(sensors[i].value);
    }

    method GetSensorStatus(sensorName: string) returns (s: Option<string>)
      requires Valid()
      ensures s == StatusOf(Get(Model.members, [sensorName]))
      ensures var r := Get(Model.members, [sensorName]); s == if r.Some? then Some(r.value.status) else None
    {
      var i := FindSensor(sensorName);
      if i == |sensors| {
        return None;
      }
      assert Model.members[i] == sensors[i].Model();
      s := Some(sensors[i].status);
    }

    method UpdateSensor(sensorName: string, value: string, status: string) returns (r: int)
      requires Valid()
      modifies Repr
      ensures Valid() && Repr == old(Repr)
      ensures Model == Group(name, Set(old(Model).members, [sensorName], Reading(value, status)))
      ensures r == if Get(old(Model).members, [sensorName]).Some? then 0 else -1
    {
      var i := FindSensor(sensorName);
      if i == |sensors| {
        return -1;
      }
      assert Model.members[i] == sensors[i].Model();
      r := sensors[i].Update(value, status);
      Model := Group(name, Model.members[i := Leaf(sensorName, Reading(value, status))]);
    }
  }

  /** A list of devices that share no object, and the value it stands for. */
  ghost predicate OwnsDevices(devices: seq<Device>, models: seq<Node>, repr: set<object>)
    reads repr
  {
    && |devices| == |models|
    && (forall i :: 0 <= i < |devices| ==>
        devices[i] in repr && devices[i].Repr <= repr && devices[i].Valid() && devices[i].Model == models[i])
    && (forall i, j :: 0 <= i < j < |devices| ==> devices[i].Repr !! devices[j].Repr)
  }

  method FindDevice(devices: seq<Device>, ghost models: seq<Node>, ghost repr: set<object>, name: string)
    returns (i: nat)
    requires OwnsDevices(devices, models, repr)
    ensures i == FirstMatch(models, name) && |devices| == |models|
  {
    i := 0;
    while i < |devices|
      invariant 0 <= i <= |devices|
      invariant forall k :: 0 <= k < i ==> models[k].name != name
    {
      assert models[i].name == devices[i].name;
      if devices[i].name == name {
        return;
      }
      i := i + 1;
    }
  }

  method AppendDevice(devices: seq<Device>, ghost models: seq<Node>, ghost repr: set<object>, name: string)
    returns (grown: seq<Device>, ghost grownRepr: set<object>)
    requires OwnsDevices(devices, models, repr)
    ensures |grown| == |devices| + 1 && fresh(grownRepr - repr) && repr <= grownRepr
    ensures OwnsDevices(grown, models + [Group(name, [])], grownRepr)
  {
    var device := new Device(name);
    grown, grownRepr := devices + [device], repr + device.Repr;
  }

  method AddSensorIn(devices: seq<Device>, ghost models: seq<Node>, ghost repr: set<object>, name: string,
                     sensor: string)
    returns (r: int, ghost grownRepr: set<object>)
    requires OwnsDevices(devices, models, repr)
    modifies repr
    ensures OwnsDevices(devices, AppendAt(models, [name], Leaf(sensor, FRESH)), grownRepr)
    ensures fresh(grownRepr - repr) && repr <= grownRepr
    ensures r == if Named(models, name) then 0 else -1
  {
    grownRepr := repr;
    var i := FindDevice(devices, models, repr, name);
    if i == |devices| {
      return -1, grownRepr;
    }
    r := devices[i].AddSensor(sensor);
    grownRepr := repr + devices[i].Repr;
  }

  method UpdateSensorIn(devices: seq<Device>, ghost models: seq<Node>, ghost repr: set<object>, name: string,
                        sensor: string, value: string, status: string)
    returns (r: int)
    requires OwnsDevices(devices, models, repr)
    modifies repr
    ensures OwnsDevices(devices, Set(models, [name, sensor], Reading(value, status)), repr)
    ensures r == if Get(models, [name, sensor]).Some? then 0 else -1
  {
    var i := FindDevice(devices, models, repr, name);
    if i == |devices| {
      return -1;
    }
    r := devices[i].UpdateSensor(sensor, value, status);
  }

  class Engine {
    const name: string
    var devices: seq<Device>
    ghost var Model: Node
    ghost var DeviceRepr: set<object>
    ghost var Repr: set<object>

    ghost predicate Valid()
      reads this, Repr
      ensures Valid() ==> this in Repr
    {
      && this in Repr && this !in DeviceRepr && DeviceRepr <= Repr
      && Model.Group? && Model.name == name
      && OwnsDevices(devices, Model.members, DeviceRepr)
    }

    constructor (name: string)
      ensures Valid() && fresh(Repr) && Model == Group(name, [])
    {
      this.name, devices := name, [];
      Model, DeviceRepr, Repr := Group(name, []), {}, {this};
    }

    /** No check for a device of that name. */
    method AddDevice(deviceName: string) returns (r: int)
      requires Valid()
      modifies Repr
      ensures Valid() && fresh(Repr - old(Repr))
      ensures Model == Group(name, old(Model).members + [Group(deviceName, [])]) && r == 0
    {
      devices, DeviceRepr := AppendDevice(devices, Model.members, DeviceRepr, deviceName);
      Model := Group(name, Model.members + [Group(deviceName, [])]);
      Repr := Repr + DeviceRepr;
      r := 0;
    }

    method AddSensorToDevice(deviceName: string, sensorName: string) returns (r: int)
      requires Valid()
      modifies Repr
      ensures Valid() && fresh(Repr - old(Repr))
      ensures Model == Group(name, AppendAt(old(Model).members, [deviceName], Leaf(sensorName, FRESH)))
      ensures r == if Named(old(Model).members, deviceName) then 0 else -1
    {
      r, DeviceRepr := AddSensorIn(devices, Model.members, DeviceRepr, deviceName, sensorName);
      Model := Group(name, AppendAt(Model.members, [deviceName], Leaf(sensorName, FRESH)));
      Repr := Repr + DeviceRepr;
    }

    method GetSensorValue(deviceName: string, sensorName: string) returns (v: Option<string>)
      requires Valid()
      ensures v == ValueOf(Get(Model.members, [deviceName, sensorName]))
      ensures var r := Get(Model.members, [deviceName, sensorName]); v == if r.Some? then Some(r.value.value) else None
    {
      var i := FindDevice(devices, Model.members, DeviceRepr, deviceName);
      if i == |devices| {
        return None;
      }
      v := devices[i].GetSensorValue(sensorName);
    }

    method GetSensorStatus(deviceName: string, sensorName: string) returns (s: Option<string>)
      requires Valid()
      ensures s == StatusOf(Get(Model.members, [deviceName, sensorName]))
      ensures var r := Get(Model.members, [deviceName, sensorName]); s == if r.Some? then Some(r.value.status) else None
    {
      var i := FindDevice(devices, Model.members, DeviceRepr, deviceName);
      if i == |devices| {
        return None;
      }
      s := devices[i].GetSensorStatus(sensorName);
    }

    method UpdateSensor(deviceName: string, sensorName: string, value: string, status: string) returns (r: int)
      requires Valid()
      modifies Repr
      ensures Valid() && Repr == old(Repr)
      ensures Model == Group(name, Set(old(Model).members, [deviceName, sensorName], Reading(value, status)))
      ensures r == if Get(old(Model).members, [deviceName, sensorName]).Some? then 0 else -1
    {
      r := UpdateSensorIn(devices, Model.members, DeviceRepr, deviceName, sensorName, value, status);
      Model := Group(name, Set(Model.members, [deviceName, sensorName], Reading(value, status)));
    }
  }

  /** A list of engines that share no object, and the value it stands for. */
  ghost predicate OwnsEngines(engines: seq<Engine>, models: seq<Node>, repr: set<object>)
    reads repr
  {
    && |engines| == |models|
    && (forall i :: 0 <= i < |engines| ==>
        engines[i] in repr && engines[i].Repr <= repr && engines[i].Valid() && engines[i].Model == models[i])
    && (forall i, j :: 0 <= i < j < |engines| ==> engines[i].Repr !! engines[j].Repr)
  }

  method FindEngine(engines: seq<Engine>, ghost models: seq<Node>, ghost repr: set<object>, name: string)
    returns (i: nat)
    requires OwnsEngines(engines, models, repr)
    ensures i == FirstMatch(models, name) && |engines| == |models|
  {
    i := 0;
    while i < |engines|
      invariant 0 <= i <= |engines|
      invariant forall k :: 0 <= k < i ==> models[k].name != name
    {
      assert models[i].name == engines[i].name;
      if engines[i].name == name {
        return;
      }
      i := i + 1;
    }
  }

  method AppendEngine(engines: seq<Engine>, ghost models: seq<Node>, ghost repr: set<object>, name: string)
    returns (grown: seq<Engine>, ghost grownRepr: set<object>)
    requires OwnsEngines(engines, models, repr)
    ensures |grown| == |engines| + 1 && fresh(grownRepr - repr) && repr <= grownRepr
    ensures OwnsEngines(grown, models + [Group(name, [])], grownRepr)
  {
    var engine := new Engine(name);
    grown, grownRepr := engines + [engine], repr + engine.Repr;
  }

  method AddDeviceIn(engines: seq<Engine>, ghost models: seq<Node>, ghost repr: set<object>, name: string,
                     device: string)
    returns (r: int, ghost grownRepr: set<object>)
    requires OwnsEngines(engines, models, repr)
    modifies repr
    ensures OwnsEngines(engines, AppendAt(models, [name], Group(device, [])), grownRepr)
    ensures fresh(grownRepr - repr) && repr <= grownRepr
    ensures r == if Named(models, name) then 0 else -1
  {
    grownRepr := repr;
    var i := FindEngine(engines, models, repr, name);
    if i == |engines| {
      return -1, grownRepr;
    }
    r := engines[i].AddDevice(device);
    grownRepr := repr + engines[i].Repr;
  }

  /** Every engine of the name gets the sensor; since names occur once, that is at most one. */
  method AddSensorInEngines(engines: seq<Engine>, ghost models: seq<Node>, ghost repr: set<object>, name: string,
                            device: string, sensor: string)
    returns (r: int, ghost grownRepr: set<object>)
    requires OwnsEngines(engines, models, repr) && UniqueNames(models)
    modifies repr
    ensures OwnsEngines(engines, AppendAt(models, [name, device], Leaf(sensor, FRESH)), grownRepr)
    ensures fresh(grownRepr - repr) && repr <= grownRepr
    ensures r == if Reaches(models, [name, device]) then 0 else -1
  {
    r, grownRepr := -1, repr;
    ghost var m, now := FirstMatch(models, name), models;
    AppendBelow(engines, models, repr, name, device, sensor);
    var i := 0;
    while i < |engines|
      invariant 0 <= i <= |engines|
      invariant OwnsEngines(engines, now, grownRepr)
      invariant fresh(grownRepr - repr) && repr <= grownRepr
      invariant now == if m < i then AppendAt(models, [name, device], Leaf(sensor, FRESH)) else models
      invariant r == if m < i && Reaches(models, [name, device]) then 0 else -1
    {
      assert now[i].name == engines[i].name == models[i].name;
      if engines[i].name == name {
        assert i == m;
        r, grownRepr := AddSensorAt(engines, now, grownRepr, i, device, sensor);
        now := AppendAt(models, [name, device], Leaf(sensor, FRESH));
      }
      i := i + 1;
    }
  }

  lemma AppendBelow(engines: seq<Engine>, models: seq<Node>, repr: set<object>, name: string, device: string,
                    sensor: string)
    requires OwnsEngines(engines, models, repr)
    ensures var m, after := FirstMatch(models, name), AppendAt(models, [name, device], Leaf(sensor, FRESH));
      && |after| == |models|
      && (forall k :: 0 <= k < |models| ==> after[k].name == models[k].name)
      && (m == |models| ==> after == models && !Reaches(models, [name, device]))
      && (m < |models| ==>
          && models[m].Group?
          && after == models[m := Group(name, AppendAt(models[m].members, [device], Leaf(sensor, FRESH)))]
          && (Reaches(models, [name, device]) <==> Named(models[m].members, device)))
  {
    var m := FirstMatch(models, name);
    assert [name, device][1..] == [device] && [device][1..] == [];
    if m < |models| {
      assert engines[m].Valid();
      var members := models[m].members;
      if Named(members, device) {
        assert OwnsDevices(engines[m].devices, members, engines[m].DeviceRepr);
        var d := FirstMatch(members, device);
        assert engines[m].devices[d].Valid() && members[d].Group?;
        assert Reaches(members[d].members, []) && Reaches(members, [device]);
      }
    }
  }

  method AddSensorAt(engines: seq<Engine>, ghost models: seq<Node>, ghost repr: set<object>, i: nat, device: string,
                     sensor: string)
    returns (r: int, ghost grownRepr: set<object>)
    requires OwnsEngines(engines, models, repr) && i < |engines|
    modifies repr
    ensures models[i].Group?
    ensures var grown := AppendAt(models[i].members, [device], Leaf(sensor, FRESH));
      OwnsEngines(engines, models[i := Group(models[i].name, grown)], grownRepr)
    ensures fresh(grownRepr - repr) && repr <= grownRepr
    ensures r == if Named(models[i].members, device) then 0 else -1
  {
    r := engines[i].AddSensorToDevice(device, sensor);
    grownRepr := repr + engines[i].Repr;
  }

  method UpdateSensorInEngines(engines: seq<Engine>, ghost models: seq<Node>, ghost repr: set<object>, name: string,
                               device: string, sensor: string, value: string, status: string)
    returns (r: int)
    requires OwnsEngines(engines, models, repr)
    modifies repr
    ensures OwnsEngines(engines, Set(models, [name, device, sensor], Reading(value, status)), repr)
    ensures r == if Get(models, [name, device, sensor]).Some? then 0 else -1
  {
    var i := FindEngine(engines, models, repr, name);
    if i == |engines| {
      return -1;
    }
    r := engines[i].UpdateSensor(device, sensor, value, status);
  }

  /** The statuses a virtual device looks at: the device of its name on every engine of the host. */
  function DeviceStatuses(engines: seq<Node>, device: string): (statuses: seq<Option<string>>)
    ensures |statuses| == |engines|
  {
    seq(|engines|, i requires 0 <= i < |engines| =>
      if engines[i].Group? then StatusOf(Get(engines[i].members, [device, "device-status"])) else None)
  }

  ghost predicate AllPresent(statuses: seq<Option<string>>) {
    forall i :: 0 <= i < |statuses| ==> statuses[i].Some?
  }

  function Present(statuses: seq<Option<string>>): (present: seq<string>)
    requires AllPresent(statuses)
    ensures |present| == |statuses| && forall i :: 0 <= i < |present| ==> present[i] == statuses[i].value
  {
    seq(|statuses|, i requires 0 <= i < |statuses| => statuses[i].value)
  }

  /** Holds a reference to its host: the engine list it reads is the host's own, as it is at the time. */
  class VDevice {
    const name: string
    const host: Host
    var status: string

    constructor (name: string, host: Host)
      ensures this.name == name && this.host == host && status == "unknown"
    {
      this.name, this.host, status := name, host, "unknown";
    }

    /** What the look at the engines needs: each of them has a device of this name. */
    ghost predicate Readable()
      reads host, host.EngineRepr
    {
      && host.Engines() && this !in host.EngineRepr
      && AllPresent(DeviceStatuses(host.Model.engines, name))
    }

    /** One of the three loops: sought overwrites the status once some engine reports it. */
    method StatusPass(sought: string)
      requires Readable()
      modifies this
      ensures Readable()
      ensures status == Pass(Present(DeviceStatuses(host.Model.engines, name)), sought, old(status))
    {
      ghost var statuses := Present(DeviceStatuses(host.Model.engines, name));
      var i := 0;
      while i < |host.engines|
        invariant 0 <= i <= |host.engines| == |statuses|
        invariant Readable()
        invariant status == Pass(statuses[..i], sought, old(status))
      {
        var s := host.engines[i].GetSensorStatus(name, "device-status");
        assert DeviceStatuses(host.Model.engines, name)[i] == s;
        assert statuses[..i + 1] == statuses[..i] + [s.value];
        if s.value == sought {
          status := sought;
        }
        i := i + 1;
      }
      assert statuses[..i] == statuses;
    }

    method GetStatus() returns (s: string)
      requires Readable()
      modifies this
      ensures s == status == Worst(Present(DeviceStatuses(host.Model.engines, name)))
    {
      status := "unknown";
      StatusPass("nominal");
      StatusPass("warn");
      StatusPass("error");
      PassesFindWorst(Present(DeviceStatuses(host.Model.engines, name)));
      s := status;
    }
  }

  class Host {
    var serial: string
    var devices: seq<Device>
    var engines: seq<Engine>
    var vdevices: seq<VDevice>
    ghost var Model: HostV
    ghost var DeviceRepr: set<object>
    ghost var EngineRepr: set<object>
    ghost var Repr: set<object>

    ghost predicate Engines()
      reads this, EngineRepr
    {
      this !in EngineRepr && OwnsEngines(engines, Model.engines, EngineRepr)
    }

    ghost predicate OwnsVDevices()
      reads this, vdevices
    {
      && |vdevices| == |Model.vdevices|
      && forall i :: 0 <= i < |vdevices| ==>
         && vdevices[i] in Repr && vdevices[i] !in DeviceRepr && vdevices[i] !in EngineRepr
         && vdevices[i].host == this && vdevices[i].name == Model.vdevices[i]
    }

    ghost predicate Valid()
      reads this, Repr
      ensures Valid() ==> this in Repr
    {
      && this in Repr && this !in DeviceRepr && this !in EngineRepr
      && DeviceRepr <= Repr && EngineRepr <= Repr && DeviceRepr !! EngineRepr
      && Model.serial == serial
      && OwnsDevices(devices, Model.devices, DeviceRepr)
      && Engines() && UniqueNames(Model.engines)
      && (forall i :: 0 <= i < |vdevices| ==> vdevices[i] in Repr)
      && OwnsVDevices()
    }

    constructor ()
      ensures Valid() && fresh(Repr) && Model == NEW_HOST
    {
      serial, devices, engines, vdevices := "unknwn", [], [], [];
      Model, DeviceRepr, EngineRepr, Repr := NEW_HOST, {}, {}, {this};
    }

    method SetSerial(newSerial: string) returns (r: int)
      requires Valid()
      modifies this
      ensures Valid() && Repr == old(Repr) && Model == old(Model).(serial := newSerial) && r == 1
    {
      serial := newSerial;
      Model := Model.(serial := newSerial);
      r := 1;
    }

    /** Returns the place of the device, new or not. */
    method AddDevice(deviceName: string) returns (r: int)
      requires Valid()
      modifies Repr
      ensures Valid() && fresh(Repr - old(Repr))
      ensures Model == old(Model).(devices := EnsureGroup(old(Model).devices, deviceName))
      ensures r == FirstMatch(Model.devices, deviceName)
    {
      hide OwnsDevices, OwnsEngines;
      var i := FindDevice(devices, Model.devices, DeviceRepr, deviceName);
      if i < |devices| {
        return i;
      }
      FirstMatchAppend(Model.devices, Group(deviceName, []), deviceName);
      devices, DeviceRepr := AppendDevice(devices, Model.devices, DeviceRepr, deviceName);
      Model := Model.(devices := Model.devices + [Group(deviceName, [])]);
      Repr := Repr + DeviceRepr;
      r := |devices| - 1;
    }

    method AddSensorToDevice(deviceName: string, sensorName: string) returns (r: int)
      requires Valid()
      modifies Repr
      ensures Valid() && fresh(Repr - old(Repr))
      ensures Model == old(Model).(devices := AppendAt(old(Model).devices, [deviceName], Leaf(sensorName, FRESH)))
      ensures r == if Named(old(Model).devices, deviceName) then 0 else -1
    {
      hide OwnsDevices, OwnsEngines;
      r, DeviceRepr := AddSensorIn(devices, Model.devices, DeviceRepr, deviceName, sensorName);
      Model := Model.(devices := AppendAt(Model.devices, [deviceName], Leaf(sensorName, FRESH)));
      Repr := Repr + DeviceRepr;
    }

    /** Returns 1 for an engine that exists, the place of a new one otherwise. */
    method AddEngine(engineName: string) returns (r: int)
      requires Valid()
      modifies Repr
      ensures Valid() && fresh(Repr - old(Repr))
      ensures Model == old(Model).(engines := EnsureGroup(old(Model).engines, engineName))
      ensures r == if Named(old(Model).engines, engineName) then 1 else |old(Model).engines|
    {
      hide OwnsDevices, OwnsEngines;
      var i := FindEngine(engines, Model.engines, EngineRepr, engineName);
      if i < |engines| {
        return 1;
      }
      engines, EngineRepr := AppendEngine(engines, Model.engines, EngineRepr, engineName);
      Model := Model.(engines := Model.engines + [Group(engineName, [])]);
      Repr := Repr + EngineRepr;
      r := |engines| - 1;
    }

    method AddDeviceToEngine(engineName: string, deviceName: string) returns (r: int)
      requires Valid()
      modifies Repr
      ensures Valid() && fresh(Repr - old(Repr))
      ensures Model == old(Model).(engines := AppendAt(old(Model).engines, [engineName], Group(deviceName, [])))
      ensures r == if Named(old(Model).engines, engineName) then 0 else -1
    {
      hide OwnsDevices, OwnsEngines;
      r, EngineRepr := AddDeviceIn(engines, Model.engines, EngineRepr, engineName, deviceName);
      Model := Model.(engines := AppendAt(Model.engines, [engineName], Group(deviceName, [])));
      Repr := Repr + EngineRepr;
    }

    method FindVDevice(deviceName: string) returns (i: nat)
      requires Valid()
      ensures i <= |vdevices|
      ensures i < |vdevices| ==> Model.vdevices[i] == deviceName
      ensures forall k :: 0 <= k < i ==> Model.vdevices[k] != deviceName
    {
      i := 0;
      while i < |vdevices|
        invariant 0 <= i <= |vdevices|
        invariant forall k :: 0 <= k < i ==> Model.vdevices[k] != deviceName
      {
        if vdevices[i].name == deviceName {
          return;
        }
        i := i + 1;
      }
    }

    /** A sensor that finds its place also gets the host a virtual device of the device's name. */
    method AddSensorToEngineDevice(engineName: string, deviceName: string, sensorName: string) returns (r: int)
      requires Valid()
      modifies Repr
      ensures Valid() && fresh(Repr - old(Repr))
      ensures r == if Reaches(old(Model).engines, [engineName, deviceName]) then 0 else -1
      ensures Model == old(Model).(
        engines := AppendAt(old(Model).engines, [engineName, deviceName], Leaf(sensorName, FRESH)),
        vdevices := if r == 0 then AddName(old(Model).vdevices, deviceName) else old(Model).vdevices)
    {
      hide OwnsDevices, OwnsEngines;
      r := AddSensorToEngines(engineName, deviceName, sensorName);
      if r >= 0 {
        var i := FindVDevice(deviceName);
        if i == |vdevices| {
          var vdevice := new VDevice(deviceName, this);
          vdevices := vdevices + [vdevice];
          Model := Model.(vdevices := Model.vdevices + [deviceName]);
          Repr := Repr + {vdevice};
        }
      }
    }

    method AddSensorToEngines(engineName: string, deviceName: string, sensorName: string) returns (r: int)
      requires Valid()
      modifies Repr
      ensures Valid() && fresh(Repr - old(Repr))
      ensures r == if Reaches(old(Model).engines, [engineName, deviceName]) then 0 else -1
      ensures Model == old(Model).(
        engines := AppendAt(old(Model).engines, [engineName, deviceName], Leaf(sensorName, FRESH)))
    {
      hide OwnsDevices, OwnsEngines;
      AppendBelow(engines, Model.engines, EngineRepr, engineName, deviceName, sensorName);
      r, EngineRepr := AddSensorInEngines(engines, Model.engines, EngineRepr, engineName, deviceName, sensorName);
      Model := Model.(engines := AppendAt(Model.engines, [engineName, deviceName], Leaf(sensorName, FRESH)));
      Repr := Repr + EngineRepr;
    }

    method GetSensorValue(deviceName: string, sensorName: string) returns (v: Option<string>)
      requires Valid()
      ensures v == ValueOf(Get(Model.devices, [deviceName, sensorName]))
      ensures var r := Get(Model.devices, [deviceName, sensorName]); v == if r.Some? then Some(r.value.value) else None
    {
      var i := FindDevice(devices, Model.devices, DeviceRepr, deviceName);
      if i == |devices| {
        return None;
      }
      v := devices[i].GetSensorValue(sensorName);
    }

    /** Falls back to a virtual device only when the host has no device of that name. */
    method GetSensorStatus(deviceName: string, sensorName: string) returns (s: Option<string>)
      requires Valid()
      requires !Named(Model.devices, deviceName) && deviceName in Model.vdevices ==>
                 AllPresent(DeviceStatuses(Model.engines, deviceName))
      modifies Repr
      ensures Valid() && Repr == old(Repr) && Model == old(Model)
      ensures s == if Named(Model.devices, deviceName) then StatusOf(Get(Model.devices, [deviceName, sensorName]))
                   else if deviceName in Model.vdevices then
                     Some(Worst(Present(DeviceStatuses(Model.engines, deviceName))))
                   else None
    {
      var i := FindDevice(devices, Model.devices, DeviceRepr, deviceName);
      if i < |devices| {
        s := devices[i].GetSensorStatus(sensorName);
        return;
      }
      i := FindVDevice(deviceName);
      if i < |vdevices| {
        var status := vdevices[i].GetStatus();
        return Some(status);
      }
      s := None;
    }

    method UpdateSensor(deviceName: string, sensorName: string, value: string, status: string) returns (r: int)
      requires Valid()
      modifies Repr
      ensures Valid() && Repr == old(Repr)
      ensures Model == HostSet(old(Model), [deviceName, sensorName], Reading(value, status))
      ensures r == if HostGet(old(Model), [deviceName, sensorName]).Some? then 0 else -1
    {
      hide OwnsDevices, OwnsEngines;
      r := UpdateSensorIn(devices, Model.devices, DeviceRepr, deviceName, sensorName, value, status);
      Model := HostSet(Model, [deviceName, sensorName], Reading(value, status));
    }

    method UpdateEngineSensor(engineName: string, deviceName: string, sensorName: string, value: string, status: string)
      returns (r: int)
      requires Valid()
      modifies Repr
      ensures Valid() && Repr == old(Repr)
      ensures Model == HostSet(old(Model), [engineName, deviceName, sensorName], Reading(value, status))
      ensures r == if HostGet(old(Model), [engineName, deviceName, sensorName]).Some? then 0 else -1
    {
      hide OwnsDevices, OwnsEngines;
      SetKeepsNames(Model.engines, [engineName, deviceName, sensorName], Reading(value, status));
      r := UpdateSensorInEngines(engines, Model.engines, EngineRepr, engineName, deviceName, sensorName, value, status);
      Model := HostSet(Model, [engineName, deviceName, sensorName], Reading(value, status));
    }
  }

  lemma SetKeepsNames(ns: seq<Node>, path: seq<string>, r: Reading)
    ensures |Set(ns, path, r)| == |ns| && forall k :: 0 <= k < |ns| ==> Set(ns, path, r)[k].name == ns[k].name
  {
  }

  /** Engine, device and sensor in turn, giving up at the first failure. */
  method AddEnginePath(host: Host, engineName: string, deviceName: string, sensorName: string) returns (r: int)
    requires host.Valid() && Layered(host.Model.engines, 2)
    modifies host.Repr
    ensures host.Valid() && fresh(host.Repr - old(host.Repr))
    ensures host.Model == HostAdd(old(host.Model), [engineName, deviceName, sensorName]) && r == 0
  {
    ghost var before := host.Model.engines;
    EnsureGroupIs(before, engineName);
    GetAppendGroup(before, [], engineName, 2, []);
    AppendedGroupReached(EnsureGroup(before, engineName), engineName, deviceName);
    r := host.AddEngine(engineName);
    if r < 0 {
      return;
    }
    r := host.AddDeviceToEngine(engineName, deviceName);
    if r < 0 {
      return;
    }
    r := host.AddSensorToEngineDevice(engineName, deviceName, sensorName);
  }

  class Team {
    const kind: char
    const antennas: nat
    var hosts: seq<Host>
    ghost var Model: TeamV
    ghost var Repr: set<object>

    ghost predicate Valid()
      reads this, Repr
      ensures Valid() ==> this in Repr
    {
      && this in Repr && Model.kind == kind && |hosts| == |Model.hosts| == antennas
      && (forall i :: 0 <= i < |hosts| ==>
          && hosts[i] in Repr && hosts[i].Repr <= Repr && this !in hosts[i].Repr
          && hosts[i].Valid() && hosts[i].Model == Model.hosts[i])
      && (forall i, j :: 0 <= i < j < |hosts| ==> hosts[i].Repr !! hosts[j].Repr)
    }

    constructor (kind: char, antennas: nat)
      ensures Valid() && fresh(Repr) && this.antennas == antennas
      ensures Model == TeamV(kind, seq(antennas, _ => NEW_HOST))
    {
      this.kind, this.antennas, hosts := kind, antennas, [];
      Model, Repr := TeamV(kind, []), {this};
      new;
      for i := 0 to antennas
        invariant fresh(Repr) && |hosts| == i && this.kind == kind && this.antennas == antennas
        invariant this in Repr && Model == TeamV(kind, seq(i, _ => NEW_HOST))
        invariant forall k :: 0 <= k < i ==>
          && hosts[k] in Repr && hosts[k].Repr <= Repr && this !in hosts[k].Repr
          && hosts[k].Valid() && hosts[k].Model == NEW_HOST
        invariant forall j, k :: 0 <= j < k < i ==> hosts[j].Repr !! hosts[k].Repr
      {
        var host := new Host();
        hosts := hosts + [host];
        Model := TeamV(kind, seq(i + 1, _ => NEW_HOST));
        Repr := Repr + host.Repr;
      }
    }

    /** The team's value with one host replaced. */
    ghost function With(h: nat, host: HostV): TeamV
      requires h < |Model.hosts|
      reads this
    {
      Model.(hosts := Model.hosts[h := host])
    }

    method AddDeviceSensor(h: nat, deviceName: string, sensorName: string) returns (r: int)
      requires Valid()
      modifies Repr
      ensures Valid() && fresh(Repr - old(Repr))
      ensures h >= antennas ==> r == -1 && Model == old(Model)
      ensures h < antennas ==> r == 0 && Model == old(With(h, HostAdd(Model.hosts[h], [deviceName, sensorName])))
    {
      hide Host.Valid;
      if h >= antennas {
        return -1;
      }
      var host := hosts[h];
      EnsureGroupIs(host.Model.devices, deviceName);
      r := host.AddDevice(deviceName);
      if r >= 0 {
        r := host.AddSensorToDevice(deviceName, sensorName);
      }
      Repr := Repr + host.Repr;
      Model := With(h, host.Model);
    }

    method AddEngineDeviceSensor(h: nat, engineName: string, deviceName: string, sensorName: string) returns (r: int)
      requires Valid() && (h < antennas ==> Layered(Model.hosts[h].engines, 2))
      modifies Repr
      ensures Valid() && fresh(Repr - old(Repr))
      ensures h >= antennas ==> r == -1 && Model == old(Model)
      ensures h < antennas ==>
        r == 0 && Model == old(With(h, HostAdd(Model.hosts[h], [engineName, deviceName, sensorName])))
    {
      hide Host.Valid, HostAdd;
      if h >= antennas {
        return -1;
      }
      var host := hosts[h];
      r := AddEnginePath(host, engineName, deviceName, sensorName);
      Repr := Repr + host.Repr;
      Model := With(h, host.Model);
    }

    /** No check of the host number: the caller answers for it. */
    method SetHostSerial(h: nat, serial: string) returns (r: int)
      requires Valid() && h < antennas
      modifies Repr
      ensures Valid() && Repr == old(Repr) && r == 1
      ensures Model == old(With(h, Model.hosts[h].(serial := serial)))
    {
      hide Host.Valid, HostAdd;
      r := hosts[h].SetSerial(serial);
      Model := With(h, hosts[h].Model);
    }

    method UpdateSensor(h: nat, deviceName: string, sensorName: string, value: string, status: string) returns (r: int)
      requires Valid()
      modifies Repr
      ensures Valid() && Repr == old(Repr)
      ensures h >= antennas ==> r == -2 && Model == old(Model)
      ensures h < antennas ==>
        && Model == old(With(h, HostSet(Model.hosts[h], [deviceName, sensorName], Reading(value, status))))
        && r == if HostGet(old(Model).hosts[h], [deviceName, sensorName]).Some? then 0 else -1
    {
      hide Host.Valid, HostAdd;
      if h >= antennas {
        return -2;
      }
      r := hosts[h].UpdateSensor(deviceName, sensorName, value, status);
      Model := With(h, hosts[h].Model);
    }

    method UpdateEngineSensor(h: nat, engineName: string, deviceName: string, sensorName: string, value: string,
                              status: string)
      returns (r: int)
      requires Valid()
      modifies Repr
      ensures Valid() && Repr == old(Repr)
      ensures h >= antennas ==> r == -2 && Model == old(Model)
      ensures h < antennas ==>
        && Model == old(With(h, HostSet(Model.hosts[h], [engineName, deviceName, sensorName], Reading(value, status))))
        && r == if HostGet(old(Model).hosts[h], [engineName, deviceName, sensorName]).Some? then 0 else -1
    {
      hide Host.Valid, HostAdd;
      if h >= antennas {
        return -2;
      }
      r := hosts[h].UpdateEngineSensor(engineName, deviceName, sensorName, value, status);
      Model := With(h, hosts[h].Model);
    }

    method GetSensorValue(h: nat, deviceName: string, sensorName: string) returns (v: Option<string>)
      requires Valid()
      ensures v == if h < antennas then ValueOf(Get(Model.hosts[h].devices, [deviceName, sensorName])) else None
    {
      if h >= antennas {
        return None;
      }
      v := hosts[h].GetSensorValue(deviceName, sensorName);
    }
  }
}
