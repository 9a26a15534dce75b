/** What array_activate makes of the sensor list (src/array.c), and how the receive path reads the
    names it printed back. */
module Activation {
  import opened Text
  import opened Messages
  import opened Tokenise
  import opened SensorTree

  /** One line of the sensor list. */
  datatype Entry =
    | TopEntry(name: string)
    | DeviceEntry(team: char, device: string)
    | EngineEntry(team: char, base: string, device: string)
    | PacketEntry(team: char, device: string, format: string)
    | Malformed

  function EntryOf(line: string): Entry {
    var tokens := Tokens(line, '.');
    TokensAreClean(line);
    if |tokens| == 1 then TopEntry(tokens[0])
    else if |tokens| == 2 then DeviceEntry(tokens[0][0], tokens[1])
    else if |tokens| == 3 then
      if Find(tokens[1], "eng").Some? then EngineEntry(tokens[0][0], tokens[1], tokens[2])
      else PacketEntry(tokens[0][0], tokens[1], tokens[2])
    else Malformed
  }

  lemma TokensAreClean(line: string)
    ensures forall k :: 0 <= k < |Tokens(line, '.')| ==> CleanToken(Tokens(line, '.')[k], '.')
    ensures forall k, c :: 0 <= k < |Tokens(line, '.')| && c in Tokens(line, '.')[k] ==> c in Chomp(line)
  {
    RunsAreClean(Chomp(line), '.', 0);
  }

  const DEVICE_STATUS := "device-status"
  const CONVERSION := "%02d"

  /** sprintf with one %02d, or with no conversion at all. */
  function Format(format: string, j: nat): string {
    var place := Find(format, CONVERSION);
    if place.None? then format
    else format[..place.value] + Decimal2(j) + format[place.value + 4..]
  }

  /** A format that sprintf can be given one integer for. */
  predicate Printable(format: string) {
    var place := Find(format, CONVERSION);
    if place.None? then '%' !in format
    else '%' !in format[..place.value] && '%' !in format[place.value + 4..]
  }

  // ---- The sensors an entry stands for, in the order in which the loops create them ----

  function DevicePaths(team: char, device: string, hosts: nat): (ps: seq<Path>)
    ensures AllProper(ps)
  {
    if hosts == 0 then []
    else DevicePaths(team, device, hosts - 1) + [On(team, hosts - 1, [device, DEVICE_STATUS])]
  }

  function EnginePath(team: char, host: nat, base: string, device: string, j: nat): Path {
    On(team, host, [base + Decimal(j), device, DEVICE_STATUS])
  }

  function EngineRow(team: char, host: nat, base: string, device: string, engines: nat): (ps: seq<Path>)
    ensures AllProper(ps)
  {
    if engines == 0 then []
    else EngineRow(team, host, base, device, engines - 1) + [EnginePath(team, host, base, device, engines - 1)]
  }

  function EnginePaths(team: char, base: string, device: string, hosts: nat): (ps: seq<Path>)
    ensures AllProper(ps)
  {
    if hosts == 0 then []
    else EnginePaths(team, base, device, hosts - 1) + EngineRow(team, hosts - 1, base, device, 4)
  }

  function PacketPath(team: char, host: nat, device: string, format: string, j: nat): Path {
    On(team, host, [device, Format(format, j)])
  }

  function PacketRow(team: char, host: nat, device: string, format: string, senders: nat): (ps: seq<Path>)
    ensures AllProper(ps)
  {
    if senders == 0 then []
    else PacketRow(team, host, device, format, senders - 1) + [PacketPath(team, host, device, format, senders - 1)]
  }

  function PacketPaths(team: char, device: string, format: string, hosts: nat, senders: nat): (ps: seq<Path>)
    ensures AllProper(ps)
  {
    if hosts == 0 then []
    else PacketPaths(team, device, format, hosts - 1, senders) + PacketRow(team, hosts - 1, device, format, senders)
  }

  function EntryPaths(e: Entry, n: nat): (ps: seq<Path>)
    ensures AllProper(ps)
  {
    match e
    case TopEntry(name) => [Top(name)]
    case DeviceEntry(team, device) => DevicePaths(team, device, n)
    case EngineEntry(team, base, device) => EnginePaths(team, base, device, n)
    case PacketEntry(team, device, format) => PacketPaths(team, device, format, n, n)
    case Malformed => []
  }

  function ConfigPaths(config: seq<string>, n: nat): (ps: seq<Path>)
    ensures AllProper(ps)
  {
    if config == [] then []
    else ConfigPaths(config[..|config| - 1], n) + EntryPaths(EntryOf(config[|config| - 1]), n)
  }

  /** Every sensor one activation creates, "device-status" first. */
  function Plan(config: seq<string>, n: nat): (ps: seq<Path>)
    ensures AllProper(ps)
  {
    [Top(DEVICE_STATUS)] + ConfigPaths(config, n)
  }

  predicate EngineSensor(team: char, host: nat, base: string, device: string, engines: nat, p: Path) {
    exists j: nat :: j < engines && p == EnginePath(team, host, base, device, j)
  }

  predicate PacketSensor(team: char, host: nat, device: string, format: string, senders: nat, p: Path) {
    exists j: nat :: j < senders && p == PacketPath(team, host, device, format, j)
  }

  /** What an entry means, without any order: which sensors of an array of n antennas it asks for. */
  predicate Declares(e: Entry, n: nat, p: Path) {
    match e
    case TopEntry(name) => p == Top(name)
    case DeviceEntry(team, device) => p.On? && p.host < n && p == On(team, p.host, [device, DEVICE_STATUS])
    case EngineEntry(team, base, device) =>
      p.On? && p.host < n && EngineSensor(team, p.host, base, device, 4, p)
    case PacketEntry(team, device, format) =>
      p.On? && p.host < n && PacketSensor(team, p.host, device, format, n, p)
    case Malformed => false
  }

  lemma {:induction false} DevicePathsAre(team: char, device: string, hosts: nat, p: Path)
    ensures |DevicePaths(team, device, hosts)| == hosts
    ensures p in DevicePaths(team, device, hosts) <==> Declares(DeviceEntry(team, device), hosts, p)
  {
    if hosts == 0 {
    } else {
      DevicePathsAre(team, device, hosts - 1, p);
    }
  }

  lemma {:induction false} EngineRowIs(team: char, host: nat, base: string, device: string, engines: nat)
    ensures |EngineRow(team, host, base, device, engines)| == engines
    ensures forall j: nat :: j < engines ==>
        EngineRow(team, host, base, device, engines)[j] == EnginePath(team, host, base, device, j)
  {
    if engines == 0 {
    } else {
      EngineRowIs(team, host, base, device, engines - 1);
    }
  }

  lemma EngineRowHolds(team: char, host: nat, base: string, device: string, engines: nat, p: Path)
    ensures p in EngineRow(team, host, base, device, engines)
       <==> EngineSensor(team, host, base, device, engines, p)
  {
    var row := EngineRow(team, host, base, device, engines);
    EngineRowIs(team, host, base, device, engines);
    if p in row {
      var j :| 0 <= j < |row| && row[j] == p;
      assert p == EnginePath(team, host, base, device, j);
    }
    if j: nat :| j < engines && p == EnginePath(team, host, base, device, j) {
      assert row[j] == p;
    }
  }

  lemma {:induction false} EnginePathsAre(team: char, base: string, device: string, hosts: nat, p: Path)
    ensures |EnginePaths(team, base, device, hosts)| == 4 * hosts
    ensures p in EnginePaths(team, base, device, hosts) <==> Declares(EngineEntry(team, base, device), hosts, p)
  {
    if hosts == 0 {
    } else {
      EnginePathsAre(team, base, device, hosts - 1, p);
      EngineRowIs(team, hosts - 1, base, device, 4);
      EngineRowHolds(team, hosts - 1, base, device, 4, p);
      assert EngineSensor(team, hosts - 1, base, device, 4, p) ==> p.On? && p.host == hosts - 1;
      hide EngineSensor;
    }
  }

  lemma {:induction false} PacketRowIs(team: char, host: nat, device: string, format: string, senders: nat)
    ensures |PacketRow(team, host, device, format, senders)| == senders
    ensures forall j: nat :: j < senders ==>
        PacketRow(team, host, device, format, senders)[j] == PacketPath(team, host, device, format, j)
  {
    hide Format;
    if senders == 0 {
    } else {
      PacketRowIs(team, host, device, format, senders - 1);
    }
  }

  lemma PacketRowHolds(team: char, host: nat, device: string, format: string, senders: nat, p: Path)
    ensures p in PacketRow(team, host, device, format, senders)
       <==> PacketSensor(team, host, device, format, senders, p)
  {
    hide Format;
    var row := PacketRow(team, host, device, format, senders);
    PacketRowIs(team, host, device, format, senders);
    if p in row {
      var j :| 0 <= j < |row| && row[j] == p;
      assert p == PacketPath(team, host, device, format, j);
    }
    if j: nat :| j < senders && p == PacketPath(team, host, device, format, j) {
      assert row[j] == p;
    }
  }

  lemma PacketSensorHost(team: char, host: nat, device: string, format: string, senders: nat, p: Path)
    requires PacketSensor(team, host, device, format, senders, p)
    ensures p.On? && p.host == host
  {
  }

  lemma {:induction false} PacketPathsAre(team: char, device: string, format: string, hosts: nat, senders: nat, p: Path)
    ensures p in PacketPaths(team, device, format, hosts, senders)
       <==> p.On? && p.host < hosts && PacketSensor(team, p.host, device, format, senders, p)
  {
    hide PacketSensor, PacketRow;
    if hosts == 0 {
    } else {
      PacketPathsAre(team, device, format, hosts - 1, senders, p);
      PacketRowHolds(team, hosts - 1, device, format, senders, p);
      if PacketSensor(team, hosts - 1, device, format, senders, p) {
        PacketSensorHost(team, hosts - 1, device, format, senders, p);
      }
    }
  }

  lemma {:induction false} PacketPathsCount(team: char, device: string, format: string, hosts: nat, senders: nat)
    ensures |PacketPaths(team, device, format, hosts, senders)| == hosts * senders
  {
    hide PacketRow;
    if hosts == 0 {
    } else {
      PacketPathsCount(team, device, format, hosts - 1, senders);
      PacketRowIs(team, hosts - 1, device, format, senders);
      OneMoreHost(hosts, senders);
    }
  }

  lemma OneMoreHost(hosts: nat, senders: nat)
    ensures (hosts + 1) * senders == hosts * senders + senders
    ensures hosts > 0 ==> hosts * senders == (hosts - 1) * senders + senders
  {
  }

  function EntryCount(e: Entry, n: nat): nat {
    match e
    case TopEntry(_) => 1
    case DeviceEntry(_, _) => n
    case EngineEntry(_, _, _) => 4 * n
    case PacketEntry(_, _, _) => n * n
    case Malformed => 0
  }

  /** The loops create exactly the declared sensors: one, n, 4n or n*n of them. */
  lemma EntryPathsAre(e: Entry, n: nat, p: Path)
    ensures |EntryPaths(e, n)| == EntryCount(e, n)
    ensures p in EntryPaths(e, n) <==> Declares(e, n, p)
  {
    match e {
      case TopEntry(_) =>
      case DeviceEntry(team, device) => DevicePathsAre(team, device, n, p);
      case EngineEntry(team, base, device) => EnginePathsAre(team, base, device, n, p);
      case PacketEntry(team, device, format) =>
        PacketPathsCount(team, device, format, n, n);
        PacketPathsAre(team, device, format, n, n, p);
      case Malformed =>
    }
  }

  function ConfigCount(config: seq<string>, n: nat): nat {
    if config == [] then 0
    else ConfigCount(config[..|config| - 1], n) + EntryCount(EntryOf(config[|config| - 1]), n)
  }

  lemma {:induction false} ConfigPathsCount(config: seq<string>, n: nat)
    ensures |ConfigPaths(config, n)| == ConfigCount(config, n)
  {
    if config == [] {
    } else {
      ConfigPathsCount(config[..|config| - 1], n);
      EntryPathsAre(EntryOf(config[|config| - 1]), n, Top(""));
    }
  }

  ghost predicate DeclaredIn(config: seq<string>, n: nat, p: Path) {
    exists k :: 0 <= k < |config| && Declares(EntryOf(config[k]), n, p)
  }

  lemma DeclaredInAppend(config: seq<string>, line: string, n: nat, p: Path)
    ensures DeclaredIn(config + [line], n, p) <==> DeclaredIn(config, n, p) || Declares(EntryOf(line), n, p)
  {
    var all := config + [line];
    if k :| 0 <= k < |config| && Declares(EntryOf(config[k]), n, p) {
      assert all[k] == config[k];
    }
    if Declares(EntryOf(line), n, p) {
      assert all[|config|] == line;
    }
  }

  /** An activation creates exactly the sensors that some line declares. */
  lemma {:induction false} ConfigPathsAre(config: seq<string>, n: nat, p: Path)
    ensures p in ConfigPaths(config, n) <==> DeclaredIn(config, n, p)
  {
    if config == [] {
    } else {
      var front, last := config[..|config| - 1], config[|config| - 1];
      ConfigPathsAre(front, n, p);
      EntryPathsAre(EntryOf(last), n, p);
      DeclaredInAppend(front, last, n, p);
      assert config == front + [last];
      assert ConfigPaths(config, n) == ConfigPaths(front, n) + EntryPaths(EntryOf(last), n);
      hide *;
    }
  }

  // ---- Names ----

  /** "%chost%02lu" */
  function HostName(team: char, host: nat): string {
    [team] + "host" + Decimal2(host)
  }

  function PathName(p: Path): string {
    match p
    case Top(name) => name
    case On(team, host, names) => Join([HostName(team, host)] + names, '.')
  }

  datatype Routed = ToSensor(path: Path) | Ignored

  /** The host number in a received name: the two characters after "?host". */
  function HostNumber(token: string): nat
    requires |token| >= 5
  {
    ToSizeT(Atoi(Clip(token, 5, 2)))
  }

  /** What the receive path relies on: a first word of five characters, and a known team when there are more. */
  predicate Routable(name: string) {
    && Chomp(name) != []
    && var tokens := Tokens(name, '.');
       && tokens != [] && |tokens[0]| >= 5
       && (|tokens| == 3 || |tokens| == 4 ==> tokens[0][0] == 'f' || tokens[0][0] == 'x')
  }

  /** Where an inform for a name goes: two or more than four words go nowhere. */
  function Route(name: string): Routed
    requires Routable(name)
  {
    var tokens := Tokens(name, '.');
    if |tokens| == 1 then ToSensor(Top(tokens[0]))
    else if |tokens| == 3 || |tokens| == 4 then ToSensor(On(tokens[0][0], HostNumber(tokens[0]), tokens[1..]))
    else Ignored
  }

  function HandleInform(s: Sensors, name: string, r: Reading): Sensors
    requires Routable(name)
  {
    match Route(name)
    case ToSensor(p) => Update(s, p, r)
    case Ignored => s
  }

  /** Names of two words, or of more than four, lead nowhere. */
  lemma OtherNamesIgnored(s: Sensors, name: string, r: Reading)
    requires Routable(name) && (|Tokens(name, '.')| == 2 || |Tokens(name, '.')| > 4)
    ensures HandleInform(s, name, r) == s
  {
  }

  predicate CleanName(name: string) {
    CleanToken(name, '.') && '\n' !in name
  }

  /** A path whose printed name can be read back word for word. */
  predicate Nameable(p: Path) {
    match p
    case Top(name) => CleanName(name) && |name| >= 5
    case On(team, host, names) =>
      && (team == 'f' || team == 'x') && (|names| == 2 || |names| == 3)
      && forall k :: 0 <= k < |names| ==> CleanName(names[k])
  }

  lemma HostNameIsClean(team: char, host: nat)
    requires team == 'f' || team == 'x'
    ensures CleanName(HostName(team, host))
  {
    forall c | c in HostName(team, host)
      ensures c == team || c in "host" || IsDigit(c)
    {
    }
  }

  lemma HostNameRead(team: char, host: nat)
    ensures |HostName(team, host)| >= 7 && HostName(team, host)[0] == team
    ensures HostNumber(HostName(team, host)) == TwoDigits(host)
  {
    var name, digits := HostName(team, host), Decimal2(host);
    assert name[5..] == digits;
    assert Clip(name, 5, 2) == name[5..7] == digits[..2];
  }

  /** The words that a name is printed from. */
  function NameWords(p: Path): (words: seq<string>)
    ensures words != [] && PathName(p) == Join(words, '.')
  {
    match p
    case Top(name) => [name]
    case On(team, host, names) => [HostName(team, host)] + names
  }

  lemma NameTokens(p: Path)
    requires Nameable(p)
    ensures Chomp(PathName(p)) != [] && Tokens(PathName(p), '.') == NameWords(p)
  {
    var words := NameWords(p);
    if p.On? {
      HostNameIsClean(p.team, p.host);
    }
    assert forall k :: 0 <= k < |words| ==> CleanName(words[k]);
    assert CleanName(words[|words| - 1]);
    TokeniseJoin(words, '.');
    JoinEnd(words, '.');
  }

  /** Where the receive path takes a printed name: only two digits of the host number are read. */
  function ReadBack(p: Path): Path {
    match p
    case Top(_) => p
    case On(team, host, names) => On(team, TwoDigits(host), names)
  }

  /** The printed name is read back as the path it was printed for, exactly when two digits hold the host
      number; otherwise as the same sensor of one of the hosts 10 to 99. */
  lemma NameRoundTrip(p: Path)
    requires Nameable(p)
    ensures Routable(PathName(p)) && Route(PathName(p)) == ToSensor(ReadBack(p))
    ensures ReadBack(p) == p <==> (p.On? ==> p.host < 100)
    ensures p.On? && p.host >= 100 ==> 10 <= ReadBack(p).host < 100
  {
    NameTokens(p);
    if p.On? {
      HostNameRead(p.team, p.host);
      TwoCharacterRead(p.host);
      assert NameWords(p)[1..] == p.names;
    }
  }

  /** Different sensors have different names. */
  lemma NamesAreDistinct(p: Path, q: Path)
    requires Nameable(p) && Nameable(q)
    ensures PathName(p) == PathName(q) <==> p == q
  {
    NameTokens(p);
    NameTokens(q);
    if NameWords(p) == NameWords(q) && p.On? {
      var a, b := NameWords(p), NameWords(q);
      assert p.names == a[1..] == b[1..] == q.names;
      assert a[0] == b[0] && a[0][0] == p.team && b[0][0] == q.team;
      assert Decimal2(p.host) == a[0][5..] == b[0][5..] == Decimal2(q.host);
      Decimal2RoundTrip(p.host);
      Decimal2RoundTrip(q.host);
    }
  }

  // ---- Activation and the informs that answer it ----

  /** A line as fgets delivers it: not empty, and a newline only at its end. */
  predicate ReadLine(line: string) {
    Chomp(line) != [] && '\0' !in line && '\n' !in Chomp(line)
  }

  /** Teams are f or x, formats are safe to print, and top-level names are long enough for the receive path. */
  predicate ProperEntry(e: Entry) {
    match e
    case TopEntry(name) => |name| >= 5
    case DeviceEntry(team, _) => team == 'f' || team == 'x'
    case EngineEntry(team, _, _) => team == 'f' || team == 'x'
    case PacketEntry(team, _, format) => (team == 'f' || team == 'x') && Printable(format)
    case Malformed => true
  }

  ghost predicate ProperConfig(config: seq<string>) {
    forall k :: 0 <= k < |config| ==> ReadLine(config[k]) && ProperEntry(EntryOf(config[k]))
  }

  /** Teams f and x with n hosts each. */
  ghost predicate Shaped(s: Sensors, n: nat) {
    |s.teams| == 2 && s.teams[0].kind == 'f' && s.teams[1].kind == 'x' && |s.teams[0].hosts| == |s.teams[1].hosts| == n
  }

  lemma FormatIsClean(format: string, j: nat)
    requires CleanName(format)
    ensures CleanName(Format(format, j))
  {
    var text := Format(format, j);
    var place := Find(format, CONVERSION);
    hide FindFrom, Decimal2;
    forall c | c in text
      ensures c in format || IsDigit(c)
    {
      if place.Some? {
        assert text == format[..place.value] + Decimal2(j) + format[place.value + 4..];
        assert c in format[..place.value] || c in Decimal2(j) || c in format[place.value + 4..];
      }
    }
    if Find(format, CONVERSION).Some? {
      assert Decimal2(j)[0] in text;
    }
  }

  lemma DeclaredIsNameable(line: string, n: nat, p: Path)
    requires ReadLine(line) && ProperEntry(EntryOf(line)) && Declares(EntryOf(line), n, p)
    ensures Nameable(p) && (p.On? ==> p.host < n)
  {
    TokensAreClean(line);
    var tokens := Tokens(line, '.');
    assert forall i :: 0 <= i < |tokens| ==> CleanName(tokens[i]);
    assert CleanName(DEVICE_STATUS);
    match EntryOf(line) {
      case TopEntry(_) =>
      case DeviceEntry(_, _) =>
      case EngineEntry(team, base, device) =>
        var j: nat :| j < 4 && p == EnginePath(team, p.host, base, device, j);
        DecimalIsClean(base, j);
      case PacketEntry(team, device, format) =>
        var j: nat :| j < n && p == PacketPath(team, p.host, device, format, j);
        FormatIsClean(format, j);
    }
  }

  lemma PlanIsNameable(config: seq<string>, n: nat, p: Path)
    requires ProperConfig(config) && p in Plan(config, n)
    ensures Nameable(p) && (p.On? ==> p.host < n)
  {
    if p != Top(DEVICE_STATUS) {
      ConfigPathsAre(config, n, p);
      var k :| 0 <= k < |config| && Declares(EntryOf(config[k]), n, p);
      DeclaredIsNameable(config[k], n, p);
    }
  }

  lemma DecimalIsClean(base: string, j: nat)
    requires CleanName(base)
    ensures CleanName(base + Decimal(j))
  {
    forall c | c in base + Decimal(j)
      ensures c != '.' && c != '\n'
    {
    }
  }

  /** An inform for a subscribed name writes the sensor that the name is read back as, if it exists, and
      no other. That is the sensor the subscription was made for, which exists after an activation,
      exactly when its host number is below 100. */
  lemma {:induction false} InformReachesItsSensor(s: Sensors, config: seq<string>, n: nat, p: Path, r: Reading)
    requires WellFormed(s) && ProperConfig(config) && p in Plan(config, n)
    ensures Routable(PathName(p))
    ensures Readings(HandleInform(s, PathName(p), r))
         == if ReadBack(p) in Readings(s) then Readings(s)[ReadBack(p) := r] else Readings(s)
    ensures Lookup(s, p).Some? && Lookup(s, p) != Some(r) ==>
      (Lookup(HandleInform(s, PathName(p), r), p) == Some(r) <==> (p.On? ==> p.host < 100))
    ensures Shaped(s, n) ==> p in Readings(AddAll(s, Plan(config, n)))
  {
    PlanIsNameable(config, n, p);
    NameRoundTrip(p);
    AddAllLookup(s, Plan(config, n), p);
    UpdateRefinesMap(s, ReadBack(p), r);
    UpdateLookup(s, ReadBack(p), r, p);
    hide Lookup, WellFormed, Plan, ProperConfig, ReadBack, Update;
  }

  /** Activating again leaves every reading as it was. */
  lemma ReactivationKeepsReadings(s: Sensors, config: seq<string>, n: nat)
    requires WellFormed(s)
    ensures var active := AddAll(s, Plan(config, n));
      Readings(AddAll(active, Plan(config, n))) == Readings(active)
  {
    AddAllTwice(s, Plan(config, n));
  }
}
