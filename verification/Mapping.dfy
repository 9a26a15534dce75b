/** The fixed-width hostname-functional-mapping text (src/array.c): records of 30 characters that
    give each host its serial number. */
module Mapping {
  import opened Text
  import opened SensorTree
  import opened Activation
  import opened ArraySensors

  const STRIDE: nat := 30

  /** Whether the loop goes on to record i. */
  predicate Reached(text: string, i: nat) {
    i * STRIDE + 21 <= |text|
  }

  /** Every character that record i is read from lies in the text or is its terminator. */
  predicate InText(text: string, i: nat) {
    i * STRIDE + 26 <= |text|
  }

  /** The number of rounds of the loop. */
  function RecordCount(text: string, antennas: nat): (k: nat)
    ensures k <= 2 * antennas && forall i: nat :: i < k ==> Reached(text, i)
    ensures k < 2 * antennas ==> !Reached(text, k)
  {
    var whole := if |text| < 21 then 0 else (|text| - 21) / STRIDE + 1;
    if whole < 2 * antennas then whole else 2 * antennas
  }

  /** The loop stays inside the text exactly when the text does not break off within the five
      characters before a record's host number. */
  lemma ReadsStayInText(text: string, antennas: nat)
    ensures (forall i: nat :: i < RecordCount(text, antennas) ==> InText(text, i))
       <==> !(21 <= |text| % STRIDE <= 25 && |text| / STRIDE < 2 * antennas)
  {
    var k, q, rest := RecordCount(text, antennas), |text| / STRIDE, |text| % STRIDE;
    assert |text| == q * STRIDE + rest;
    if 21 <= rest <= 25 && q < 2 * antennas {
      assert Reached(text, q) && !InText(text, q);
      assert q < k;
    } else {
      forall i: nat | i < k
        ensures InText(text, i)
      {
        assert Reached(text, i);
        if i < q {
          assert i * STRIDE + STRIDE <= q * STRIDE;
        }
      }
    }
  }

  function RecordKind(text: string, i: nat): char
    requires Reached(text, i)
  {
    if i * STRIDE + 21 < |text| then text[i * STRIDE + 21] else '\0'
  }

  function RecordHost(text: string, i: nat): nat
    requires InText(text, i)
  {
    ToSizeT(Atoi(Clip(text, i * STRIDE + 26, 2)))
  }

  function RecordSerial(text: string, i: nat): string
    requires InText(text, i)
  {
    Clip(text, i * STRIDE + 8, 6)
  }

  predicate Names(text: string, i: nat, team: nat, host: nat)
    requires InText(text, i)
  {
    RecordKind(text, i) == (if team == 0 then 'f' else 'x') && RecordHost(text, i) == host
  }

  /** What the code takes for granted: records are whole and number existing hosts. */
  ghost predicate Legible(text: string, antennas: nat) {
    forall i: nat :: i < RecordCount(text, antennas) ==>
      InText(text, i) && (RecordKind(text, i) == 'f' || RecordKind(text, i) == 'x' ==> RecordHost(text, i) < antennas)
  }

  /** One record's assignment; a type other than f and x is only logged. */
  function AssignRecord(s: Sensors, text: string, i: nat): Sensors
    requires InText(text, i) && |s.teams| == 2
    requires RecordKind(text, i) == 'f' ==> RecordHost(text, i) < |s.teams[0].hosts|
    requires RecordKind(text, i) == 'x' ==> RecordHost(text, i) < |s.teams[1].hosts|
  {
    match RecordKind(text, i)
    case 'f' => WithSerial(s, 0, RecordHost(text, i), RecordSerial(text, i))
    case 'x' => WithSerial(s, 1, RecordHost(text, i), RecordSerial(text, i))
    case _ => s
  }

  /** The sensors after the first k records. */
  ghost function Assigned(s: Sensors, text: string, k: nat, antennas: nat): (r: Sensors)
    requires WellFormed(s) && Shaped(s, antennas) && Legible(text, antennas) && k <= RecordCount(text, antennas)
    ensures WellFormed(r) && Shaped(r, antennas)
  {
    if k == 0 then s
    else
      var before := Assigned(s, text, k - 1, antennas);
      assert InText(text, k - 1);
      AssignRecord(before, text, k - 1)
  }

  lemma AssignRecordHost(s: Sensors, text: string, i: nat, antennas: nat, team: nat, host: nat)
    requires Shaped(s, antennas) && InText(text, i) && team < 2 && host < antennas
    requires RecordKind(text, i) == 'f' || RecordKind(text, i) == 'x' ==> RecordHost(text, i) < antennas
    ensures Shaped(AssignRecord(s, text, i), antennas)
    ensures AssignRecord(s, text, i).teams[team].hosts[host]
         == if Names(text, i, team, host) then s.teams[team].hosts[host].(serial := RecordSerial(text, i))
            else s.teams[team].hosts[host]
  {
  }

  lemma SerialKeepsReadings(s: Sensors, team: nat, host: nat, serial: string, antennas: nat, p: Path)
    requires Shaped(s, antennas) && team < 2 && host < antennas
    ensures var after := WithSerial(s, team, host, serial);
      Hosted(after, p) == Hosted(s, p) && Lookup(after, p) == Lookup(s, p)
  {
    var hosts := s.teams[team].hosts;
    if p.On? {
      TeamIndexReplace(s.teams, team, hosts[host := hosts[host].(serial := serial)], p.team);
    }
  }

  lemma RecordKeepsReadings(s: Sensors, text: string, i: nat, antennas: nat, p: Path)
    requires Shaped(s, antennas) && InText(text, i)
    requires RecordKind(text, i) == 'f' || RecordKind(text, i) == 'x' ==> RecordHost(text, i) < antennas
    ensures |s.teams| == 2 && |s.teams[0].hosts| == |s.teams[1].hosts| == antennas
    ensures var after := AssignRecord(s, text, i);
      Hosted(after, p) == Hosted(s, p) && Lookup(after, p) == Lookup(s, p)
  {
    var host, serial := RecordHost(text, i), RecordSerial(text, i);
    TeamOrder(s, antennas);
    hide Lookup, Hosted;
    match RecordKind(text, i) {
      case 'f' => SerialKeepsReadings(s, 0, host, serial, antennas, p);
      case 'x' => SerialKeepsReadings(s, 1, host, serial, antennas, p);
      case _ =>
    }
  }

  lemma AssignedStep(s: Sensors, text: string, k: nat, antennas: nat)
    requires WellFormed(s) && Shaped(s, antennas) && Legible(text, antennas) && 0 < k <= RecordCount(text, antennas)
    ensures var before := Assigned(s, text, k - 1, antennas);
      && Shaped(before, antennas) && InText(text, k - 1)
      && (RecordKind(text, k - 1) == 'f' || RecordKind(text, k - 1) == 'x' ==> RecordHost(text, k - 1) < antennas)
      && |before.teams| == 2 && |before.teams[0].hosts| == |before.teams[1].hosts| == antennas
      && Assigned(s, text, k, antennas) == AssignRecord(before, text, k - 1)
  {
    LegibleAt(text, k - 1, antennas);
    TeamOrder(Assigned(s, text, k - 1, antennas), antennas);
    hide WellFormed, Legible, InText, RecordCount, RecordKind, RecordHost, AssignRecord;
  }

  lemma AssignedNone(s: Sensors, text: string, antennas: nat)
    requires WellFormed(s) && Shaped(s, antennas) && Legible(text, antennas)
    ensures Assigned(s, text, 0, antennas) == s
  {
  }

  /** Serials are no readings. */
  lemma {:induction false} AssignedKeepsReadings(s: Sensors, text: string, k: nat, antennas: nat, p: Path)
    requires WellFormed(s) && Shaped(s, antennas) && Legible(text, antennas) && k <= RecordCount(text, antennas)
    ensures var after := Assigned(s, text, k, antennas);
      Hosted(after, p) == Hosted(s, p) && Lookup(after, p) == Lookup(s, p)
  {
    hide *;
    if k == 0 {
      AssignedNone(s, text, antennas);
    } else {
      AssignedStep(s, text, k, antennas);
      AssignedKeepsReadings(s, text, k - 1, antennas, p);
      RecordKeepsReadings(Assigned(s, text, k - 1, antennas), text, k - 1, antennas, p);
    }
  }

  /** The last of the first k records that name a host. */
  ghost function LastNaming(text: string, k: nat, team: nat, host: nat): (last: Option<nat>)
    requires forall i: nat :: i < k ==> InText(text, i)
    ensures last.Some? ==> last.value < k && Names(text, last.value, team, host)
    ensures forall i: nat :: i < k && (last.None? || last.value < i) ==> !Names(text, i, team, host)
  {
    if k == 0 then None
    else if Names(text, k - 1, team, host) then Some(k - 1)
    else LastNaming(text, k - 1, team, host)
  }

  /** Each host ends up with the serial of the last record that names it, or keeps the one it had. */
  lemma {:induction false} LastRecordWins(s: Sensors, text: string, k: nat, antennas: nat, team: nat, host: nat)
    requires WellFormed(s) && Shaped(s, antennas) && Legible(text, antennas) && k <= RecordCount(text, antennas)
    requires team < 2 && host < antennas
    ensures forall i: nat :: i < k ==> InText(text, i)
    ensures var last := LastNaming(text, k, team, host);
      Assigned(s, text, k, antennas).teams[team].hosts[host]
        == if last.None? then s.teams[team].hosts[host]
           else s.teams[team].hosts[host].(serial := RecordSerial(text, last.value))
  {
    if k == 0 {
    } else {
      LastRecordWins(s, text, k - 1, antennas, team, host);
      assert InText(text, k - 1);
      AssignRecordHost(Assigned(s, text, k - 1, antennas), text, k - 1, antennas, team, host);
      hide AssignRecord, Names, WellFormed;
    }
  }

  /** A record as the text spells it: 8 characters, the serial of 6, 7 more, the type, 4 more, the host
      number in two digits, and whatever follows. */
  lemma RecordSpelt(before: string, a: string, serial: string, b: string, kind: char, d: string, host: nat,
                    after: string, i: nat)
    requires |before| == 30 * i && |a| == 8 && |serial| == 6 && |b| == 7 && |d| == 4 && host < 100
    ensures var text := before + (a + (serial + (b + ([kind] + (d + (Decimal2(host) + after))))));
      && Reached(text, i) && InText(text, i)
      && RecordSerial(text, i) == serial && RecordKind(text, i) == kind && RecordHost(text, i) == host
  {
    var digits := Decimal2(host);
    Decimal2RoundTrip(host);
    SmallNumber(host);
    hide Decimal2, Atoi, ToSizeT;
    var rest3 := d + (digits + after);
    var rest2 := b + ([kind] + rest3);
    var text := before + (a + (serial + rest2));
    Piece(before, a, serial, rest2);
    Piece(before + a, serial, b, [kind] + rest3);
    Piece(before + a + serial, b, [kind], rest3);
    Piece(before + a + serial + b, [kind], d, digits + after);
    Piece(before + a + serial + b + [kind], d, digits, after);
    assert text[30 * i + 8..30 * i + 14] == serial;
    assert text[30 * i + 21..30 * i + 22] == [kind];
    assert text[30 * i + 21] == text[30 * i + 21..30 * i + 22][0];
    assert text[30 * i + 26..30 * i + 28] == digits;
  }

  /** Moving the boundary past a piece; the next piece stands where the boundary then is. */
  lemma Piece(before: string, a: string, b: string, rest: string)
    ensures before + (a + (b + rest)) == before + a + (b + rest)
    ensures var text := before + (a + (b + rest));
      text[|before| + |a|..|before| + |a| + |b|] == b
  {
    var text := before + (a + (b + rest));
    assert text == before + a + (b + rest);
    assert text[|before| + |a|..] == b + rest;
  }

  lemma LastSpeltIs(text: string, k: nat, kind: char, host: nat, last: nat)
    requires (kind == 'f' || kind == 'x') && forall i: nat :: i < k ==> InText(text, i)
    requires last < k && InText(text, last) && RecordKind(text, last) == kind && RecordHost(text, last) == host
    requires forall i: nat | last < i < k ::
      InText(text, i) && !(RecordKind(text, i) == kind && RecordHost(text, i) == host)
    ensures LastNaming(text, k, if kind == 'f' then 0 else 1, host) == Some(last)
  {
    assert Names(text, last, if kind == 'f' then 0 else 1, host);
    hide RecordKind, RecordHost, InText;
  }

  lemma HostOfTeam(s: Sensors, antennas: nat, kind: char, host: nat)
    requires Shaped(s, antennas) && (kind == 'f' || kind == 'x') && host < antennas
    ensures Hosted(s, On(kind, host, []))
    ensures |s.teams| == 2 && |s.teams[0].hosts| == |s.teams[1].hosts| == antennas
    ensures HostAt(s, kind, host) == s.teams[if kind == 'f' then 0 else 1].hosts[host]
  {
    TeamOrder(s, antennas);
  }

  /** By team and host number: after the first k records a host has the serial of the last one that spells
      its team's letter and its number. */
  lemma SerialIsLastSpelt(s: Sensors, text: string, k: nat, antennas: nat, kind: char, host: nat, last: nat)
    requires WellFormed(s) && Shaped(s, antennas) && Legible(text, antennas) && k <= RecordCount(text, antennas)
    requires (kind == 'f' || kind == 'x') && host < antennas && last < k && forall i: nat :: i < k ==> InText(text, i)
    requires RecordKind(text, last) == kind && RecordHost(text, last) == host
    requires forall i: nat | last < i < k :: !(RecordKind(text, i) == kind && RecordHost(text, i) == host)
    ensures var p, after := On(kind, host, []), Assigned(s, text, k, antennas);
      && Hosted(s, p) && Hosted(after, p)
      && HostAt(after, kind, host) == HostAt(s, kind, host).(serial := RecordSerial(text, last))
  {
    LastSpeltIs(text, k, kind, host, last);
    LastRecordWins(s, text, k, antennas, if kind == 'f' then 0 else 1, host);
    HostOfTeam(s, antennas, kind, host);
    HostOfTeam(Assigned(s, text, k, antennas), antennas, kind, host);
    hide *;
  }

  /** A host that no record spells keeps the serial it had. */
  lemma SerialStays(s: Sensors, text: string, k: nat, antennas: nat, kind: char, host: nat)
    requires WellFormed(s) && Shaped(s, antennas) && Legible(text, antennas) && k <= RecordCount(text, antennas)
    requires (kind == 'f' || kind == 'x') && host < antennas && forall i: nat :: i < k ==> InText(text, i)
    requires forall i: nat | i < k :: !(RecordKind(text, i) == kind && RecordHost(text, i) == host)
    ensures var p, after := On(kind, host, []), Assigned(s, text, k, antennas);
      Hosted(s, p) && Hosted(after, p) && HostAt(after, kind, host) == HostAt(s, kind, host)
  {
    var team := if kind == 'f' then 0 else 1;
    LastRecordWins(s, text, k, antennas, team, host);
    assert LastNaming(text, k, team, host).None?;
    HostOfTeam(s, antennas, kind, host);
    HostOfTeam(Assigned(s, text, k, antennas), antennas, kind, host);
    hide *;
  }

  method ReadRecord(sensors: SensorLists, text: string, i: nat)
    requires sensors.Valid() && InText(text, i)
    requires RecordKind(text, i) == 'f' || RecordKind(text, i) == 'x' ==> RecordHost(text, i) < sensors.antennas
    modifies sensors.Repr
    ensures sensors.Valid() && sensors.Repr == old(sensors.Repr)
    ensures old(|sensors.Model.teams| == 2)
    ensures old(|sensors.Model.teams[0].hosts| == |sensors.Model.teams[1].hosts| == sensors.antennas)
    ensures sensors.Model == AssignRecord(old(sensors.Model), text, i)
  {
    var kind := if i * STRIDE + 21 < |text| then text[i * STRIDE + 21] else '\0';
    var host := ToSizeT(Atoi(Clip(text, i * STRIDE + 26, 2)));
    var serial := Clip(text, i * STRIDE + 8, 6);
    TeamOrder(sensors.Model, sensors.antennas);
    hide SensorLists.Valid, Shaped;
    match kind {
      case 'f' => sensors.SetSerial(0, host, serial);
      case 'x' => sensors.SetSerial(1, host, serial);
      case _ =>
    }
  }

  lemma Counted(text: string, i: nat, antennas: nat)
    requires i < 2 * antennas && i <= RecordCount(text, antennas)
    ensures i * STRIDE + 21 <= |text| <==> i < RecordCount(text, antennas)
  {
    assert Reached(text, i) <==> i * STRIDE + 21 <= |text|;
    hide RecordCount;
  }

  lemma LegibleAt(text: string, i: nat, antennas: nat)
    requires Legible(text, antennas) && i < RecordCount(text, antennas)
    ensures InText(text, i)
    ensures RecordKind(text, i) == 'f' || RecordKind(text, i) == 'x' ==> RecordHost(text, i) < antennas
  {
  }

  method AssignSerials(sensors: SensorLists, text: string)
    requires sensors.Valid() && Legible(text, sensors.antennas) && '\0' !in text
    modifies sensors.Repr
    ensures sensors.Valid() && sensors.Repr == old(sensors.Repr)
    ensures old(WellFormed(sensors.Model) && Shaped(sensors.Model, sensors.antennas))
    ensures sensors.Model
         == Assigned(old(sensors.Model), text, RecordCount(text, sensors.antennas), sensors.antennas)
  {
    assert WellFormed(sensors.Model) && Shaped(sensors.Model, sensors.antennas);
    hide SensorLists.Valid, WellFormed, Shaped, AssignRecord, RecordKind, RecordHost, RecordCount, InText, Reached,
         Legible, RecordSerial;
    ghost var before, count := sensors.Model, RecordCount(text, sensors.antennas);
    var i := 0;
    while i < 2 * sensors.antennas
      invariant 0 <= i <= count && sensors.Valid() && sensors.Repr == old(sensors.Repr)
      invariant sensors.Model == Assigned(before, text, i, sensors.antennas)
    {
      Counted(text, i, sensors.antennas);
      if i * STRIDE + 21 > |text| {
        break;
      }
      LegibleAt(text, i, sensors.antennas);
      ReadRecord(sensors, text, i);
      i := i + 1;
    }
  }
}
