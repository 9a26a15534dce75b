/** What a line of the sensor list asks for, in terms of its text (src/array.c, conf/sensor_list.conf). */
module ListedNames {
  import opened Text
  import opened Messages
  import opened Tokenise
  import opened SensorTree
  import opened Activation
  import opened Subscriptions
  import opened CorrelatorArray

  /** A name that the line subscribes to. */
  ghost predicate LineAsks(line: string, n: nat, name: string) {
    exists p :: p in EntryPaths(EntryOf(line), n) && PathName(p) == name
  }

  lemma LineAsksIff(line: string, n: nat, name: string)
    ensures LineAsks(line, n, name) <==> exists p :: Declares(EntryOf(line), n, p) && PathName(p) == name
  {
    forall p
      ensures p in EntryPaths(EntryOf(line), n) <==> Declares(EntryOf(line), n, p)
    {
      EntryPathsAre(EntryOf(line), n, p);
    }
    hide EntryPaths, EntryOf, PathName, Declares;
  }

  /** An activation asks for the mapping, for device-status, and for what the lines of its list ask for. */
  lemma ConfigAsks(config: seq<string>, n: nat, name: string)
    ensures Messages.Request(["sensor-sampling", name, "auto"]) in ActivationRequests(Plan(config, n))
       <==> name == "hostname-functional-mapping" || name == "device-status" ||
            exists k :: 0 <= k < |config| && LineAsks(config[k], n, name)
  {
    SubscribedIs(config, n, name);
    var plan := Plan(config, n);
    assert Sampling(name) == Messages.Request(["sensor-sampling", name, "auto"]);
    hide EntryPaths, EntryOf, Declares, ActivationRequests;
    forall p
      ensures p in plan <==> p == Top("device-status") || DeclaredIn(config, n, p)
    {
      ConfigPathsAre(config, n, p);
    }
    assert PathName(Top("device-status")) == "device-status";
    if p :| p in plan && PathName(p) == name && p != Top("device-status") {
      var k :| 0 <= k < |config| && Declares(EntryOf(config[k]), n, p);
      LineAsksIff(config[k], n, name);
    }
    if k :| 0 <= k < |config| && LineAsks(config[k], n, name) {
      LineAsksIff(config[k], n, name);
      var p :| Declares(EntryOf(config[k]), n, p) && PathName(p) == name;
      assert DeclaredIn(config, n, p);
    }
  }

  predicate LineEnd(end: string) {
    end == "" || end == "\n"
  }

  /** Words without dots and newlines are what the line is split into, with or without a newline behind. */
  lemma SplitLine(words: seq<string>, end: string)
    requires words != [] && LineEnd(end) && forall k :: 0 <= k < |words| ==> CleanName(words[k])
    ensures Tokens(Join(words, '.') + end, '.') == words
  {
    assert CleanName(words[|words| - 1]);
    JoinEnd(words, '.');
    TokeniseJoin(words, '.');
    hide Join, Runs, CleanName;
    Chomped(Join(words, '.'), end);
    Chomped(Join(words, '.'), "");
    assert Join(words, '.') + "" == Join(words, '.');
    hide Chomp;
  }

  lemma Chomped(text: string, end: string)
    requires text != [] && text[|text| - 1] != '\n' && LineEnd(end)
    ensures Chomp(text + end) == text
  {
    assert (text + end)[..|text|] == text;
  }

  /** One word: a top-level sensor of that name. */
  lemma TopLine(t: string, end: string, n: nat, name: string)
    requires CleanName(t) && LineEnd(end)
    ensures LineAsks(t + end, n, name) <==> name == t
  {
    SplitLine([t], end);
    LineAsksIff(t + end, n, name);
    assert EntryOf(t + end) == TopEntry(t);
    hide Tokens, EntryOf, LineAsks;
    assert Declares(TopEntry(t), n, Top(t)) && PathName(Top(t)) == t;
  }

  lemma TwoWords(t: string, d: string, end: string)
    requires CleanName(t) && CleanName(d) && LineEnd(end)
    ensures EntryOf(t + "." + d + end) == DeviceEntry(t[0], d)
  {
    SplitLine([t, d], end);
    assert [t, d][1..] == [d] && Join([d], '.') == d;
    assert Join([t, d], '.') == t + ['.'] + d == t + "." + d;
    hide Tokens;
  }

  /** Two words: the status of that device on every host of the team that the first letter names. */
  lemma DeviceLine(t: string, d: string, end: string, n: nat, name: string)
    requires CleanName(t) && CleanName(d) && LineEnd(end)
    ensures LineAsks(t + "." + d + end, n, name)
       <==> exists i: nat | i < n :: name == [t[0]] + "host" + Decimal2(i) + "." + d + ".device-status"
  {
    TwoWords(t, d, end);
    LineAsksIff(t + "." + d + end, n, name);
    hide Tokens, EntryOf, LineAsks, PathName, Decimal2;
    forall i: nat
      ensures PathName(On(t[0], i, [d, DEVICE_STATUS]))
           == [t[0]] + "host" + Decimal2(i) + "." + d + ".device-status"
    {
      DeviceName(t[0], i, d, DEVICE_STATUS);
    }
    forall i: nat | i < n
      ensures Declares(DeviceEntry(t[0], d), n, On(t[0], i, [d, DEVICE_STATUS]))
    {
    }
  }

  lemma ThreeWords(t: string, b: string, d: string, end: string)
    requires CleanName(t) && CleanName(b) && CleanName(d) && LineEnd(end)
    ensures Tokens(t + "." + b + "." + d + end, '.') == [t, b, d]
  {
    SplitLine([t, b, d], end);
    assert [t, b, d][1..] == [b, d] && [b, d][1..] == [d] && Join([d], '.') == d;
    assert Join([b, d], '.') == b + ['.'] + d;
    assert Join([t, b, d], '.') == t + ['.'] + (b + ['.'] + d) == t + "." + b + "." + d;
    hide Tokens, Join;
  }

  lemma EngineNamed(team: char, b: string, d: string, n: nat, p: Path) returns (j: nat)
    requires Declares(EngineEntry(team, b, d), n, p)
    ensures p.On? && p.host < n && j < 4
    ensures PathName(p) == [team] + "host" + Decimal2(p.host) + "." + (b + Decimal(j)) + "." + d + ".device-status"
  {
    hide PathName, Decimal2, Decimal;
    j :| j < 4 && p == EnginePath(team, p.host, b, d, j);
    EngineName(team, p.host, b + Decimal(j), d);
  }

  lemma NamedEngine(team: char, b: string, d: string, n: nat, i: nat, j: nat)
    requires i < n && j < 4
    ensures var p := EnginePath(team, i, b, d, j);
      && Declares(EngineEntry(team, b, d), n, p)
      && PathName(p) == [team] + "host" + Decimal2(i) + "." + (b + Decimal(j)) + "." + d + ".device-status"
  {
    hide PathName, Decimal2, Decimal;
    EngineName(team, i, b + Decimal(j), d);
    assert EngineSensor(team, i, b, d, 4, EnginePath(team, i, b, d, j));
  }

  lemma EngineNames(team: char, b: string, d: string, n: nat, name: string)
    ensures (exists p :: Declares(EngineEntry(team, b, d), n, p) && PathName(p) == name)
       <==> exists i: nat, j: nat | i < n && j < 4 ::
              name == [team] + "host" + Decimal2(i) + "." + (b + Decimal(j)) + "." + d + ".device-status"
  {
    hide PathName, Decimal2, Decimal, Declares, EnginePath, HostName;
    if p :| Declares(EngineEntry(team, b, d), n, p) && PathName(p) == name {
      var j := EngineNamed(team, b, d, n, p);
    }
    if i: nat, j: nat :|
      i < n && j < 4 && name == [team] + "host" + Decimal2(i) + "." + (b + Decimal(j)) + "." + d + ".device-status"
    {
      NamedEngine(team, b, d, n, i, j);
    }
  }

  /** Three words, the second with "eng" in it: the status of the device on the four numbered engines of
      every host. */
  lemma EngineLine(t: string, x: string, y: string, d: string, end: string, n: nat, name: string)
    requires CleanName(t) && CleanName(x + "eng" + y) && CleanName(d) && LineEnd(end)
    ensures LineAsks(t + "." + (x + "eng" + y) + "." + d + end, n, name)
       <==> exists i: nat, j: nat | i < n && j < 4 ::
              name == [t[0]] + "host" + Decimal2(i) + "." + (x + "eng" + y + Decimal(j)) + "." + d + ".device-status"
  {
    var b := x + "eng" + y;
    ThreeWords(t, b, d, end);
    LineAsksIff(t + "." + b + "." + d + end, n, name);
    assert b[|x|..|x| + 3] == "eng" && OccursAt(b, "eng", |x|);
    assert EntryOf(t + "." + b + "." + d + end) == EngineEntry(t[0], b, d);
    EngineNames(t[0], b, d, n, name);
    hide Tokens, EntryOf, LineAsks, PathName, Decimal2, Decimal, Find, CleanName, Declares;
  }

  /** A format without a conversion prints itself, one with "%02d" the number in at least two digits. */
  lemma FormatPrints(before: string, after: string, j: nat)
    requires '%' !in before && '%' !in after
    ensures Format(before + "%02d" + after, j) == before + Decimal2(j) + after
    ensures Format(before, j) == before
  {
    var format, place := before + "%02d" + after, |before|;
    assert format[place..place + 4] == "%02d" && format[..place] == before && format[place + 4..] == after;
    assert forall k :: 0 <= k < place ==> format[k] == before[k];
    FindAfter(format, "%02d", 0, place);
    FoundMeansPercent(before);
  }

  lemma FoundMeansPercent(s: string)
    ensures Find(s, "%02d").Some? ==> '%' in s
  {
    var found := Find(s, "%02d");
    if found.Some? {
      assert s[found.value] == s[found.value..found.value + 4][0] == '%';
    }
  }

  lemma FoundMeansEng(b: string)
    ensures Find(b, "eng").Some? ==>
      exists k :: 0 <= k < |b| - 2 && b[k] == 'e' && b[k + 1] == 'n' && b[k + 2] == 'g'
  {
    var found := Find(b, "eng");
    if found.Some? {
      var k := found.value;
      assert b[k..k + 3][0] == b[k] && b[k..k + 3][1] == b[k + 1] && b[k..k + 3][2] == b[k + 2];
    }
  }

  lemma PacketNames(team: char, b: string, before: string, after: string, n: nat, name: string)
    requires '%' !in before && '%' !in after
    ensures (exists p :: Declares(PacketEntry(team, b, before + "%02d" + after), n, p) && PathName(p) == name)
       <==> exists i: nat, j: nat | i < n && j < n ::
              name == [team] + "host" + Decimal2(i) + "." + b + "." + (before + Decimal2(j) + after)
  {
    var d := before + "%02d" + after;
    hide PathName, Decimal2, Format;
    if p :| Declares(PacketEntry(team, b, d), n, p) && PathName(p) == name {
      var j: nat :| j < n && p == PacketPath(team, p.host, b, d, j);
      FormatPrints(before, after, j);
      DeviceName(team, p.host, b, Format(d, j));
    }
    if i: nat, j: nat :|
      i < n && j < n && name == [team] + "host" + Decimal2(i) + "." + b + "." + (before + Decimal2(j) + after)
    {
      FormatPrints(before, after, j);
      DeviceName(team, i, b, Format(d, j));
      var p := PacketPath(team, i, b, d, j);
      assert PacketSensor(team, i, b, d, n, p);
      assert Declares(PacketEntry(team, b, d), n, p) && PathName(p) == name;
    }
  }

  /** Three words without "eng": on every host, for every sender, the device's sensor with that number. */
  lemma PacketLine(t: string, b: string, before: string, after: string, end: string, n: nat, name: string)
    requires CleanName(t) && CleanName(b) && CleanName(before + "%02d" + after) && LineEnd(end)
    requires '%' !in before && '%' !in after
    requires forall k :: 0 <= k < |b| - 2 ==> !(b[k] == 'e' && b[k + 1] == 'n' && b[k + 2] == 'g')
    ensures LineAsks(t + "." + b + "." + (before + "%02d" + after) + end, n, name)
       <==> exists i: nat, j: nat | i < n && j < n ::
              name == [t[0]] + "host" + Decimal2(i) + "." + b + "." + (before + Decimal2(j) + after)
  {
    var d := before + "%02d" + after;
    ThreeWords(t, b, d, end);
    FoundMeansEng(b);
    LineAsksIff(t + "." + b + "." + d + end, n, name);
    assert EntryOf(t + "." + b + "." + d + end) == PacketEntry(t[0], b, d);
    PacketNames(t[0], b, before, after, n, name);
    hide Tokens, EntryOf, LineAsks, PathName, Decimal2, Find, Format, CleanName, Declares;
  }

  lemma PlainNames(team: char, b: string, d: string, n: nat, name: string)
    requires '%' !in d
    ensures (exists p :: Declares(PacketEntry(team, b, d), n, p) && PathName(p) == name)
       <==> exists i: nat | i < n :: name == [team] + "host" + Decimal2(i) + "." + b + "." + d
  {
    hide PathName, Decimal2, Format;
    if p :| Declares(PacketEntry(team, b, d), n, p) && PathName(p) == name {
      var j: nat :| j < n && p == PacketPath(team, p.host, b, d, j);
      FormatPrints(d, "", j);
      DeviceName(team, p.host, b, d);
    }
    if i: nat :| i < n && name == [team] + "host" + Decimal2(i) + "." + b + "." + d {
      FormatPrints(d, "", 0);
      DeviceName(team, i, b, d);
      var p := PacketPath(team, i, b, d, 0);
      assert PacketSensor(team, i, b, d, n, p);
      assert Declares(PacketEntry(team, b, d), n, p) && PathName(p) == name;
    }
  }

  /** Three words without "eng" and without a conversion: on every host, that sensor of the device. */
  lemma PlainLine(t: string, b: string, d: string, end: string, n: nat, name: string)
    requires CleanName(t) && CleanName(b) && CleanName(d) && LineEnd(end) && '%' !in d
    requires forall k :: 0 <= k < |b| - 2 ==> !(b[k] == 'e' && b[k + 1] == 'n' && b[k + 2] == 'g')
    ensures LineAsks(t + "." + b + "." + d + end, n, name)
       <==> exists i: nat | i < n :: name == [t[0]] + "host" + Decimal2(i) + "." + b + "." + d
  {
    ThreeWords(t, b, d, end);
    FoundMeansEng(b);
    LineAsksIff(t + "." + b + "." + d + end, n, name);
    assert EntryOf(t + "." + b + "." + d + end) == PacketEntry(t[0], b, d);
    PlainNames(t[0], b, d, n, name);
    hide Tokens, EntryOf, LineAsks, PathName, Decimal2, Find, Format, CleanName, Declares;
  }
}
