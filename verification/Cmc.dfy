/** src/cmc_server.c as functions on values: the request state machine and the registry of arrays. */
module Cmc {
  import opened Text
  import opened Messages
  import opened Queues
  import opened Tokenise
  import opened Connections

  datatype CmcState = WaitConnect | SendNext | AwaitReply | Idle | Offline

  /** What the registry knows of an array; active is cleared while the array is suspect. */
  datatype Entry = Entry(name: string, controlPort: nat, monitorPort: nat, antennas: nat, active: bool)

  datatype Skarabs = Skarabs(standby: nat, up: nat, inUse: nat)

  datatype Server = Server(
    state: CmcState, current: Option<Msg>, queue: seq<Msg>, arrays: seq<Entry>, skarabs: Skarabs)

  const LOG_OFF := Request(["log-local", "off"])
  const CLIENT_CONFIG := Request(["client-config", "info-all"])
  const ARRAY_LIST := Request(["array-list"])
  const RESOURCE_LIST := Request(["resource-list"])
  const NO_SKARABS := Skarabs(0, 0, 0)

  // ---- The registry ----

  function FirstNamed(arrays: seq<Entry>, name: string): (i: nat)
    ensures i <= |arrays| && (i < |arrays| ==> arrays[i].name == name)
    ensures forall k :: 0 <= k < i ==> arrays[k].name != name
  {
    if arrays == [] || arrays[0].name == name then 0 else 1 + FirstNamed(arrays[1..], name)
  }

  function MarkedSuspect(arrays: seq<Entry>): (marked: seq<Entry>)
    ensures |marked| == |arrays| && forall k :: 0 <= k < |arrays| ==> marked[k] == arrays[k].(active := false)
  {
    seq(|arrays|, k requires 0 <= k < |arrays| => arrays[k].(active := false))
  }

  /** Where a new name belongs in a list sorted by name. */
  function Inserted(arrays: seq<Entry>, e: Entry): seq<Entry> {
    if arrays == [] || Less(e.name, arrays[0].name) then [e] + arrays else [arrays[0]] + Inserted(arrays[1..], e)
  }

  /** A known array is fine again; an unknown one joins the list. */
  function Announced(arrays: seq<Entry>, e: Entry): seq<Entry> {
    var i := FirstNamed(arrays, e.name);
    if i < |arrays| then arrays[i := arrays[i].(active := true)] else Inserted(arrays, e)
  }

  function Swept(arrays: seq<Entry>): seq<Entry> {
    if arrays == [] then [] else (if arrays[0].active then [arrays[0]] else []) + Swept(arrays[1..])
  }

  ghost predicate SortedByName(arrays: seq<Entry>) {
    forall i, j :: 0 <= i < j < |arrays| ==> Less(arrays[i].name, arrays[j].name)
  }

  ghost function ActiveNames(arrays: seq<Entry>): set<string> {
    set e | e in arrays && e.active :: e.name
  }

  ghost function AllNames(arrays: seq<Entry>): set<string> {
    set e | e in arrays :: e.name
  }

  // ---- The state machine ----

  function Popped(c: Server): Server {
    if c.queue == [] then c.(current := None) else c.(current := Some(c.queue[0]), queue := c.queue[1..])
  }

  function Created(): Server {
    Popped(Server(WaitConnect, None, PushAll([], [LOG_OFF, CLIENT_CONFIG, ARRAY_LIST, RESOURCE_LIST]), [], NO_SKARABS))
  }

  predicate Online(c: Server) {
    c.state != WaitConnect && c.state != Offline
  }

  function Reconnecting(c: Server): Server {
    if Online(c) then c else c.(state := WaitConnect)
  }

  /** The outcome of a connection attempt. */
  function Connected(c: Server, success: bool): Server {
    if c.state != WaitConnect then c else if success then c.(state := SendNext) else c.(state := Offline)
  }

  /** A read or a write failed. */
  function Dropped(c: Server): Server {
    if Online(c) then c.(state := Offline) else c
  }

  /** Both lists are asked for, and an idle connection is set going. */
  function ListsAskedFor(c: Server): Server {
    var asked := c.(skarabs := NO_SKARABS, queue := Push(Push(c.queue, ARRAY_LIST), RESOURCE_LIST));
    var next := if c.current.None? || c.current.value.words == [] then Popped(asked) else asked;
    if c.state == Idle then next.(state := SendNext) else next
  }

  function Polled(c: Server): Server {
    if Online(c) then ListsAskedFor(c.(arrays := MarkedSuspect(c.arrays))) else c
  }

  function Written(c: Server): Server {
    if c.current.Some? && c.state == SendNext && c.current.value.words != [] then c.(state := AwaitReply) else c
  }

  /** A reply that does not carry the current request's name is ignored. Otherwise "ok" moves on and
      anything else asks again; and an array-list reply sweeps the registry, whatever it says. */
  function ReplyHandled(c: Server, line: Line): Server
    requires IsReply(line) && |line| >= 2 && c.current.Some? && c.current.value.words != []
  {
    var name := line[0][1..];
    if name != c.current.value.words[0] then c
    else
      var next :=
        if line[1] != "ok" then c.(state := SendNext)
        else if c.queue != [] then Popped(c).(state := SendNext)
        else c.(current := None, state := Idle);
      if name == "array-list" then next.(arrays := Swept(next.arrays)) else next
  }

  /** name, "control,monitor", and two multicast groups an antenna. */
  predicate ArrayInform(line: Line) {
    line != [] && line[0] == "#array-list" && |line| >= 3 && |Runs(line[2], ',', 0)| >= 2
  }

  predicate ResourceInform(line: Line) {
    line != [] && line[0] == "#resource-list" && |line| >= 3
  }

  function Port(text: string): nat {
    Atoi(text) % 0x1_0000
  }

  function EntryFrom(line: Line): Entry
    requires ArrayInform(line)
  {
    var ports := Runs(line[2], ',', 0);
    Entry(line[1], Port(ports[0]), Port(ports[1]), (|line| - 3) / 2, true)
  }

  function Counted(s: Skarabs, line: Line): Skarabs
    requires ResourceInform(line)
  {
    if line[2] == "standby" then s.(standby := s.standby + 1)
    else if line[2] == "up" then
      if |line| > 3 then s.(inUse := s.inUse + 1) else s.(up := s.up + 1)
    else s
  }

  function InformHandled(c: Server, line: Line): Server {
    if ArrayInform(line) then c.(arrays := Announced(c.arrays, EntryFrom(line)))
    else if ResourceInform(line) then c.(skarabs := Counted(c.skarabs, line))
    else c
  }

  /** What the line handling dereferences without a check. */
  predicate Readable(c: Server, line: Line) {
    && line != [] && line[0] != ""
    && (IsReply(line) ==> |line| >= 2 && c.current.Some? && c.current.value.words != [])
    && (line[0] == "#array-list" ==> ArrayInform(line))
    && (line[0] == "#resource-list" ==> ResourceInform(line))
  }

  function LineHandled(c: Server, line: Line): Server
    requires Readable(c, line)
  {
    if IsReply(line) then ReplyHandled(c, line) else InformHandled(c, line)
  }

  /** Lines handled one after the other. */
  predicate AllReadable(c: Server, lines: seq<Line>)
    decreases |lines|
  {
    lines == [] || (Readable(c, lines[0]) && AllReadable(LineHandled(c, lines[0]), lines[1..]))
  }

  function LinesHandled(c: Server, lines: seq<Line>): Server
    requires AllReadable(c, lines)
    decreases |lines|
  {
    if lines == [] then c else LinesHandled(LineHandled(c, lines[0]), lines[1..])
  }

  /** Nothing is handled while the connection is down. */
  function Received(c: Server, lines: seq<Line>): Server
    requires Online(c) ==> AllReadable(c, lines)
  {
    if Online(c) then LinesHandled(c, lines) else c
  }

  // ---- What lines mean, in their own terms ----

  /** An announcement "#array-list name control,monitor group..." is of an array of that name with those
      ports, modulo 2^16, and half as many antennas as there are groups. */
  lemma AnnouncementRead(c: Server, name: string, control: nat, monitor: nat, groups: seq<string>)
    ensures var line := ["#array-list", name, Decimal(control) + "," + Decimal(monitor)] + groups;
      && ArrayInform(line) && !IsReply(line)
      && EntryFrom(line).name == name && EntryFrom(line).active
      && EntryFrom(line).controlPort == control % 65536 && EntryFrom(line).monitorPort == monitor % 65536
      && EntryFrom(line).antennas == |groups| / 2
      && InformHandled(c, line) == c.(arrays := Announced(c.arrays, EntryFrom(line)))
  {
    var words := [Decimal(control), Decimal(monitor)];
    NumberRead(control, "");
    NumberRead(monitor, "");
    assert words[1..] == [Decimal(monitor)] && Join([Decimal(monitor)], ',') == Decimal(monitor);
    assert Join(words, ',') == Decimal(control) + [','] + Decimal(monitor) == Decimal(control) + "," + Decimal(monitor);
    forall k | 0 <= k < |words|
      ensures CleanToken(words[k], ',')
    {
      assert words[k] == Decimal(if k == 0 then control else monitor);
    }
    RunsOfJoin(words, ',');
    hide Decimal, Join, Runs, Atoi, Announced;
  }

  /** A resource inform counts a board on standby, or one that is up: in use if an argument follows, free
      if none does. */
  lemma ResourceRead(c: Server, line: Line)
    requires |line| >= 3 && line[0] == "#resource-list"
    ensures ResourceInform(line) && !ArrayInform(line) && Readable(c, line)
    ensures var after := LineHandled(c, line);
      && after.skarabs.standby == c.skarabs.standby + (if line[2] == "standby" then 1 else 0)
      && after.skarabs.inUse == c.skarabs.inUse + (if line[2] == "up" && |line| >= 4 then 1 else 0)
      && after.skarabs.up == c.skarabs.up + (if line[2] == "up" && |line| == 3 then 1 else 0)
      && after == c.(skarabs := after.skarabs)
  {
    assert line[0][0] == '#';
  }

  /** A reply that does not carry the current request's name changes nothing. */
  lemma OtherReplyIgnored(c: Server, name: string, rest: Line)
    requires rest != [] && c.current.Some? && c.current.value.words != [] && name != c.current.value.words[0]
    ensures Readable(c, ["!" + name] + rest)
    ensures LineHandled(c, ["!" + name] + rest) == c
  {
    assert ("!" + name)[0] == '!' && "#array-list"[0] == '#' && "#resource-list"[0] == '#';
    assert ("!" + name)[1..] == name;
  }

  /** The number of lines that a test holds of. */
  function CountOf(lines: seq<Line>, test: Line -> bool): nat {
    if lines == [] then 0 else (if test(lines[0]) then 1 else 0) + CountOf(lines[1..], test)
  }

  /** After a listing each counter is up by the number of its lines. */
  lemma {:induction false} ResourcesCounted(c: Server, lines: seq<Line>)
    requires forall k :: 0 <= k < |lines| ==> |lines[k]| >= 3 && lines[k][0] == "#resource-list"
    ensures AllReadable(c, lines)
    ensures var after := LinesHandled(c, lines);
      && after.skarabs.standby
           == c.skarabs.standby + CountOf(lines, (l: Line) => |l| >= 3 && l[2] == "standby")
      && after.skarabs.inUse == c.skarabs.inUse + CountOf(lines, (l: Line) => |l| >= 4 && l[2] == "up")
      && after.skarabs.up == c.skarabs.up + CountOf(lines, (l: Line) => |l| == 3 && l[2] == "up")
    decreases |lines|
  {
    if lines == [] {
    } else {
      ResourceRead(c, lines[0]);
      ResourcesCounted(LineHandled(c, lines[0]), lines[1..]);
    }
  }

  /** A poll of a server that is online resets the counters and makes both requests wait, or be in hand. */
  lemma PollAsks(c: Server)
    requires Online(c)
    ensures var after := Polled(c);
      && after.skarabs.standby == after.skarabs.up == after.skarabs.inUse == 0
      && forall text | text == "?array-list" || text == "?resource-list" ::
           (after.current.Some? && Compose(after.current.value) == Some(text)) ||
           exists i :: 0 <= i < |after.queue| && Compose(after.queue[i]) == Some(text)
  {
    RequestTexts();
    var q := Push(Push(c.queue, ARRAY_LIST), RESOURCE_LIST);
    PushHolds(c.queue, ARRAY_LIST, ARRAY_LIST);
    PushHolds(Push(c.queue, ARRAY_LIST), RESOURCE_LIST, ARRAY_LIST);
    PushHolds(Push(c.queue, ARRAY_LIST), RESOURCE_LIST, RESOURCE_LIST);
    hide Compose, Push;
    var after := Polled(c);
    forall m | m == ARRAY_LIST || m == RESOURCE_LIST
      ensures (after.current.Some? && Compose(after.current.value) == Compose(m)) || Holds(after.queue, m)
    {
      if q != [] && after.queue != q {
        HoldsFront(q, m);
      }
    }
  }

  /** The texts of the requests a server makes. */
  lemma RequestTexts()
    ensures Compose(LOG_OFF) == Some("?log-local off")
    ensures Compose(CLIENT_CONFIG) == Some("?client-config info-all")
    ensures Compose(ARRAY_LIST) == Some("?array-list")
    ensures Compose(RESOURCE_LIST) == Some("?resource-list")
  {
    PairText("log-local", "off");
    PairText("client-config", "info-all");
    assert Join(["array-list"], ' ') == "array-list" && Join(["resource-list"], ' ') == "resource-list";
    hide Join;
    assert "?" + "log-local" + " " + "off" == "?log-local off";
    assert "?" + "client-config" + " " + "info-all" == "?client-config info-all";
    assert ['?'] + "array-list" == "?array-list" && ['?'] + "resource-list" == "?resource-list";
  }

  // ---- Lemmas about the registry ----

  lemma InsertedLength(arrays: seq<Entry>, e: Entry)
    ensures |Inserted(arrays, e)| == |arrays| + 1
  {
  }

  lemma SweptLength(arrays: seq<Entry>)
    ensures |Swept(arrays)| <= |arrays|
  {
  }

  lemma LineAddsAtMostOne(c: Server, line: Line)
    requires Readable(c, line)
    ensures |LineHandled(c, line).arrays| <= |c.arrays| + 1
  {
    SweptLength(c.arrays);
    if ArrayInform(line) {
      InsertedLength(c.arrays, EntryFrom(line));
    }
  }

  lemma {:induction false} SweptIsFilter(arrays: seq<Entry>)
    ensures forall e :: e in Swept(arrays) <==> e in arrays && e.active
    ensures SortedByName(arrays) ==> SortedByName(Swept(arrays))
  {
    if arrays == [] {
    } else {
      SweptIsFilter(arrays[1..]);
      if SortedByName(arrays) {
        forall e | e in Swept(arrays[1..])
          ensures Less(arrays[0].name, e.name)
        {
          var k :| 0 <= k < |arrays[1..]| && arrays[1..][k] == e;
          assert arrays[k + 1] == e;
        }
      }
    }
  }

  lemma {:induction false} InsertedSorted(arrays: seq<Entry>, e: Entry)
    requires SortedByName(arrays) && forall k :: 0 <= k < |arrays| ==> arrays[k].name != e.name
    ensures SortedByName(Inserted(arrays, e))
    ensures forall x :: x in Inserted(arrays, e) <==> x in arrays || x == e
  {
    if arrays == [] {
    } else {
      LessTrichotomy(e.name, arrays[0].name);
      if Less(e.name, arrays[0].name) {
        forall k | 0 < k < |arrays|
          ensures Less(e.name, arrays[k].name)
        {
          LessTransitive(e.name, arrays[0].name, arrays[k].name);
        }
      } else {
        InsertedSorted(arrays[1..], e);
        var rest := Inserted(arrays[1..], e);
        forall k | 0 <= k < |rest|
          ensures Less(arrays[0].name, rest[k].name)
        {
          assert rest[k] in rest;
          if rest[k] != e {
            var j :| 0 <= j < |arrays[1..]| && arrays[1..][j] == rest[k];
            assert arrays[j + 1] == rest[k];
          }
        }
      }
    }
  }

  lemma SortedNamesDiffer(arrays: seq<Entry>, i: nat, j: nat)
    requires SortedByName(arrays) && i < |arrays| && j < |arrays| && arrays[i].name == arrays[j].name
    ensures i == j
  {
    LessTrichotomy(arrays[i].name, arrays[j].name);
  }

  lemma FirstInNames(arrays: seq<Entry>)
    ensures arrays != [] ==> arrays[0].name in AllNames(arrays)
  {
    if arrays != [] {
      assert arrays[0] in arrays;
    }
  }

  lemma ReplacedNames(arrays: seq<Entry>, i: nat)
    requires i < |arrays|
    ensures var after := arrays[i := arrays[i].(active := true)];
      AllNames(after) == AllNames(arrays) && ActiveNames(after) == ActiveNames(arrays) + {arrays[i].name}
  {
    var after := arrays[i := arrays[i].(active := true)];
    assert after[i] in after && arrays[i] in arrays;
    forall x | x in arrays
      ensures exists y :: y in after && y.name == x.name && (x.active ==> y.active)
    {
      var k :| 0 <= k < |arrays| && arrays[k] == x;
      assert after[k] in after && after[k].name == x.name;
    }
    forall y | y in after
      ensures exists x :: x in arrays && y.name == x.name && (y == x || y == after[i])
    {
      var k :| 0 <= k < |after| && after[k] == y;
      assert arrays[k] in arrays && arrays[k].name == y.name;
    }
  }

  /** An announcement makes exactly the announced name active, and keeps the list sorted. */
  lemma AnnouncedNames(arrays: seq<Entry>, e: Entry)
    requires SortedByName(arrays) && e.active
    ensures SortedByName(Announced(arrays, e))
    ensures ActiveNames(Announced(arrays, e)) == ActiveNames(arrays) + {e.name}
    ensures AllNames(Announced(arrays, e)) == AllNames(arrays) + {e.name}
  {
    var i, after := FirstNamed(arrays, e.name), Announced(arrays, e);
    if i < |arrays| {
      ReplacedNames(arrays, i);
      assert forall k :: 0 <= k < |arrays| ==> after[k].name == arrays[k].name;
      assert arrays[i] in arrays;
    } else {
      InsertedSorted(arrays, e);
    }
  }

  lemma MarkedNames(arrays: seq<Entry>)
    requires SortedByName(arrays)
    ensures SortedByName(MarkedSuspect(arrays)) && ActiveNames(MarkedSuspect(arrays)) == {}
    ensures AllNames(MarkedSuspect(arrays)) == AllNames(arrays)
  {
    var marked := MarkedSuspect(arrays);
    forall k | 0 <= k < |arrays|
      ensures marked[k] in marked && marked[k].name == arrays[k].name && arrays[k] in arrays
    {
    }
  }

  /** The sweep leaves exactly the active names, all of them still active. */
  lemma SweptNames(arrays: seq<Entry>)
    requires SortedByName(arrays)
    ensures SortedByName(Swept(arrays))
    ensures ActiveNames(Swept(arrays)) == ActiveNames(arrays) == AllNames(Swept(arrays))
  {
    SweptIsFilter(arrays);
  }

  /** Sorted lists with the same names list them in the same order: the sorted listing is unique. */
  lemma {:induction false} SortedListingUnique(a: seq<Entry>, b: seq<Entry>)
    requires SortedByName(a) && SortedByName(b) && AllNames(a) == AllNames(b)
    ensures |a| == |b| && forall k :: 0 <= k < |a| ==> a[k].name == b[k].name
  {
    FirstInNames(a);
    FirstInNames(b);
    if a == [] {
    } else {
      FirstNameLeast(a, b);
      RestNames(a);
      RestNames(b);
      SortedListingUnique(a[1..], b[1..]);
    }
  }

  lemma FirstNameLeast(a: seq<Entry>, b: seq<Entry>)
    requires a != [] && b != [] && SortedByName(a) && SortedByName(b) && AllNames(a) == AllNames(b)
    ensures a[0].name == b[0].name
  {
    FirstInNames(a);
    FirstInNames(b);
    var x :| x in a && x.name == b[0].name;
    var y :| y in b && y.name == a[0].name;
    LessTrichotomy(a[0].name, b[0].name);
  }

  lemma RestNames(a: seq<Entry>)
    requires a != [] && SortedByName(a)
    ensures SortedByName(a[1..]) && AllNames(a[1..]) == AllNames(a) - {a[0].name}
  {
    forall k | 0 < k < |a|
      ensures a[k].name != a[0].name
    {
      LessTrichotomy(a[0].name, a[k].name);
    }
    assert a == [a[0]] + a[1..];
    assert forall x :: x in a <==> x == a[0] || x in a[1..];
  }
}
