/** The requests that an activation sends for the sensors it creates, and what follows for the
    monitor connection (src/array.c). */
module Subscriptions {
  import opened Text
  import opened Messages
  import opened Queues
  import opened SensorTree
  import opened Activation
  import opened Connections

  const MAPPING := "hostname-functional-mapping"
  const LOG_LOCAL := Messages.Request(["log-local", "off"])
  const SENSOR_VALUE := Messages.Request(["sensor-value"])
  const INSTRUMENT_STATE := Sampling("instrument-state")
  const INPUT_LABELLING := Sampling("input-labelling")
  const XENG_HOSTS := Messages.Request(["sensor-value", "n-xeng-hosts"])

  function Sampling(name: string): Msg {
    Messages.Request(["sensor-sampling", name, "auto"])
  }

  function SubscriptionsFor(ps: seq<Path>): seq<Msg> {
    if ps == [] then [] else SubscriptionsFor(ps[..|ps| - 1]) + [Sampling(PathName(ps[|ps| - 1]))]
  }

  /** What activation puts on the monitor queue: the mapping first, then one request per sensor. */
  function ActivationRequests(ps: seq<Path>): seq<Msg> {
    [Sampling(MAPPING)] + SubscriptionsFor(ps)
  }

  lemma {:induction false} SubscriptionsAre(ps: seq<Path>)
    ensures |SubscriptionsFor(ps)| == |ps|
    ensures forall k :: 0 <= k < |ps| ==> SubscriptionsFor(ps)[k] == Sampling(PathName(ps[k]))
  {
    if ps == [] {
    } else {
      SubscriptionsAre(ps[..|ps| - 1]);
    }
  }

  lemma RequestsAppend(ps: seq<Path>, p: Path)
    ensures ActivationRequests(ps + [p]) == ActivationRequests(ps) + [Sampling(PathName(p))]
  {
    assert (ps + [p])[..|ps|] == ps;
  }

  ghost predicate Subscribed(config: seq<string>, n: nat, name: string) {
    Sampling(name) in SubscriptionsFor(Plan(config, n))
  }

  lemma SubscribedIs(config: seq<string>, n: nat, name: string)
    ensures Subscribed(config, n, name) <==> exists p :: p in Plan(config, n) && PathName(p) == name
    ensures Sampling(name) in ActivationRequests(Plan(config, n)) <==> name == MAPPING || Subscribed(config, n, name)
  {
    var ps := Plan(config, n);
    assert Sampling(name) == Sampling(MAPPING) <==> Sampling(name).words[1] == Sampling(MAPPING).words[1];
    SubscriptionsAre(ps);
    if Subscribed(config, n, name) {
      var k :| 0 <= k < |ps| && SubscriptionsFor(ps)[k] == Sampling(name);
      assert Sampling(PathName(ps[k])).words[1] == Sampling(name).words[1];
      assert ps[k] in ps && PathName(ps[k]) == name;
    }
    if p :| p in ps && PathName(p) == name {
      var k :| 0 <= k < |ps| && ps[k] == p;
      assert SubscriptionsFor(ps)[k] == Sampling(name);
    }
  }

  /** Coverage: a sensor that was not there before exists after the activation exactly when its name is
      subscribed to. */
  lemma {:induction false} CreatedIffSubscribed(s: Sensors, config: seq<string>, n: nat, p: Path)
    requires WellFormed(s) && Shaped(s, n) && ProperConfig(config)
    requires p !in Readings(s) && Nameable(p) && (p.On? ==> p.host < n)
    ensures p in Readings(AddAll(s, Plan(config, n))) <==> Subscribed(config, n, PathName(p))
  {
    AddAllLookup(s, Plan(config, n), p);
    SubscribedIs(config, n, PathName(p));
    if q :| q in Plan(config, n) && PathName(q) == PathName(p) {
      PlanIsNameable(config, n, q);
      NamesAreDistinct(p, q);
    }
  }

  // ---- The monitor connection over all runs ----

  lemma {:induction false} SetOfSeq<T>(s: seq<T>)
    ensures |set x | x in s| <= |s|
  {
    if s != [] {
      SetOfSeq(s[1..]);
      assert (set x | x in s) == {s[0]} + set x | x in s[1..];
    } else {
      assert (set x | x in s) == {};
    }
  }

  function MonitorVocabulary(config: seq<string>, n: nat): set<Msg> {
    {LOG_LOCAL, SENSOR_VALUE} + set m | m in ActivationRequests(Plan(config, n))
  }

  lemma {:induction false} VocabularySize(config: seq<string>, n: nat)
    ensures |MonitorVocabulary(config, n)| <= 4 + ConfigCount(config, n)
  {
    var requests := ActivationRequests(Plan(config, n));
    SubscriptionsAre(Plan(config, n));
    ConfigPathsCount(config, n);
    SetOfSeq(requests);
    var base := {LOG_LOCAL, SENSOR_VALUE};
    var rest := set m | m in requests;
    assert |base + rest| <= |base| + |rest|;
  }

  lemma {:induction false} FindAfter(s: string, pattern: string, i: nat, place: nat)
    requires i <= place && place + |pattern| <= |s| && pattern != [] && s[place..place + |pattern|] == pattern
    requires forall k :: i <= k < place ==> s[k] != pattern[0]
    ensures FindFrom(s, pattern, i) == Some(place)
    decreases place - i
  {
    if i == place {
    } else {
      if i + |pattern| <= |s| {
        assert s[i..i + |pattern|][0] != pattern[0];
      }
      FindAfter(s, pattern, i + 1, place);
    }
  }

  lemma SamplingText(name: string)
    ensures Compose(Sampling(name)) == Some("?sensor-sampling " + (name + " auto"))
  {
    var words := ["sensor-sampling", name, "auto"];
    assert words[1..] == [name, "auto"] && [name, "auto"][1..] == ["auto"];
    assert Join(["auto"], ' ') == "auto";
    assert Join([name, "auto"], ' ') == name + [' '] + "auto" == name + " auto";
    assert Join(words, ' ') == "sensor-sampling" + [' '] + (name + " auto");
    assert "?sensor-sampling " == ['?'] + "sensor-sampling" + [' '];
    assert ['?'] + ("sensor-sampling" + [' '] + (name + " auto"))
        == (['?'] + "sensor-sampling" + [' ']) + (name + " auto");
  }

  lemma NumberBehindXhost(front: string, digits: string, tail: string)
    requires 'x' !in front && |digits| == 2
    ensures XhostNumber(front + ("xhost" + (digits + tail)), 5) == Some(ToSizeT(Atoi(digits)))
  {
    var text, place := front + ("xhost" + (digits + tail)), |front|;
    assert text[place..] == "xhost" + (digits + tail);
    assert text[place..][..5] == "xhost" && text[place..][5..][..2] == digits;
    assert text[place..place + 5] == "xhost" && text[place + 5..place + 7] == digits;
    assert forall k :: 0 <= k < place ==> text[k] == front[k];
    FindAfter(text, "xhost", 0, place);
  }

  lemma NameOfXhost(host: nat, names: seq<string>)
    requires names != []
    ensures PathName(On('x', host, names)) == "xhost" + (Decimal2(host) + (['.'] + Join(names, '.')))
  {
    hide Decimal2;
    var head, rest := HostName('x', host), Join(names, '.');
    assert ([head] + names)[1..] == names;
    assert head == ['x'] + "host" + Decimal2(host) == "xhost" + Decimal2(host);
  }

  lemma XhostRead(host: nat, names: seq<string>)
    requires names != []
    ensures XhostNumber(Compose(Sampling(PathName(On('x', host, names)))).value, 5) == Some(TwoDigits(host))
  {
    hide PathName, Join, Decimal2, Compose, XhostNumber;
    var name, digits, rest := PathName(On('x', host, names)), Decimal2(host), ['.'] + Join(names, '.');
    var tail := digits[2..] + (rest + " auto");
    NameOfXhost(host, names);
    SamplingText(name);
    assert digits == digits[..2] + digits[2..];
    assert name + " auto" == "xhost" + (digits[..2] + tail);
    NumberBehindXhost("?sensor-sampling ", digits[..2], tail);
  }

  /** On the monitor connection a failed subscription of an x host is asked again while the number read
      for it is below the number of x hosts; that is its own number exactly for hosts below 100. */
  lemma XhostPolicy(host: nat, names: seq<string>)
    requires names != []
    ensures forall xhosts: nat ::
      Retried(Sampling(PathName(On('x', host, names))), xhosts, 5) <==> TwoDigits(host) < xhosts
    ensures (forall xhosts: nat :: Retried(Sampling(PathName(On('x', host, names))), xhosts, 5) <==> host < xhosts)
       <==> host < 100
  {
    XhostRead(host, names);
    TwoCharacterRead(host);
    hide PathName, Compose, XhostNumber, TwoDigits;
    var m := Sampling(PathName(On('x', host, names)));
    assert host >= 100 ==> Retried(m, host, 5) && !(host < host);
  }
}
