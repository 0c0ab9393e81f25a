/** The single-beacon leash monitor of python-app/app_legacy.py: each
    uplink's decoded object (or, failing that, its raw Lansitec frame) is
    turned into readings; readings of TRACKED_BEACON_ID update the
    dashboard record, and every reading weaker than SAFE_RSSI_THRESHOLD
    calls for the alarm. The MQTT transport and the clock are parameters:
    a message arrives as its deviceInfo, object and base64-decoded data,
    and `now` stands for time.time(). */
module Legacy {
  import opened Text
  import Dict
  import opened PyValue
  import BeaconLogic

  const TRACKED_BEACON_ID: string := "001064b0"
  /** TRACKED_BEACON_ID.upper(), which the comparison uses. */
  const TRACKED_UPPER: string := "001064B0"
  /** The device that should ring (the script's ALARM_TMACRO_SENSOR_EUI). */
  const ALARM_TMACRO_SENSOR_EUI: string := "70b3d5a4d31205cf"
  const SAFE_RSSI_THRESHOLD: int := -85
  const ALARM_PAYLOAD_HEX: string := "01"

  /** A decoded beacon: its id as found, and its RSSI. */
  datatype Reading = Reading(id: Value, rssi: int)

  // ---------------------------------------------------------------------
  // Readings of a message
  // ---------------------------------------------------------------------

  /** int(str(v).replace("dBm", "").split(".")[0]), -999 where int()
      raises. */
  function ParseRssi(v: Value): int {
    ParseInt(BeforeFirst(RemoveAll(PyStr(v), "dBm"), '.')).GetOr(-999)
  }

  /** The RSSI of slot `suffix`: the "rssi<suffix>" member, "-999dBm" when
      it is absent. */
  function RssiFor(obj: Object, suffix: string): int {
    ParseRssi(Dict.Get(obj, "rssi" + suffix).GetOr(JStr("-999dBm")))
  }

  /** A key that names a beacon slot: it starts with "beacon". */
  predicate IsBeaconKey(key: string) {
    IsPrefix("beacon", key)
  }

  /** The reading of a beacon member: its value as id, and the RSSI of
      the slot named by the key with every "beacon" removed. */
  function EntryReading(entry: (string, Value), obj: Object): Reading {
    Reading(entry.1, RssiFor(obj, RemoveAll(entry.0, "beacon")))
  }

  /** The readings of one object member: one for a beacon key, none for
      any other. */
  function MemberReading(entry: (string, Value), obj: Object): seq<Reading> {
    if IsBeaconKey(entry.0) then [EntryReading(entry, obj)] else []
  }

  /** The readings of the members `entries` of `obj`, in member order. */
  function ObjectReadings(entries: Object, obj: Object): (r: seq<Reading>)
    ensures |r| <= |entries|
    decreases |entries|
  {
    if entries == [] then [] else MemberReading(entries[0], obj) + ObjectReadings(entries[1..], obj)
  }

  /** raw_hex as the fallback picks it: the object's "raw" member, else
      the hex of the message's data, else the empty string. */
  function RawHex(obj: Option<Object>, data: Option<seq<byte>>): Value {
    if obj.Some? && Dict.Get(obj.value, "raw").Some? then Dict.Get(obj.value, "raw").value
    else if data.Some? then JStr(ToHex(data.value))
    else JStr("")
  }

  /** The fallback's readings: the Lansitec frame in a truthy raw value.
      A raw value that is not a string makes bytes.fromhex() raise inside
      the decoder, which then returns None. */
  function FallbackReadings(raw: Value): (r: seq<Reading>)
    ensures |r| <= 1
  {
    if !Truthy(raw) || !raw.JStr? then []
    else
      match BeaconLogic.DecodeLansitec(raw.s)
      case None => []
      case Some(l) => [Reading(JStr(l.id), l.rssi)]
  }

  /** decoded_beacons: the object's readings, or the fallback's when the
      object yields none. */
  function DecodedReadings(obj: Option<Object>, data: Option<seq<byte>>): seq<Reading> {
    var parsed := if obj.Some? then ObjectReadings(obj.value, obj.value) else [];
    if parsed != [] then parsed else FallbackReadings(RawHex(obj, data))
  }

  /** RemoveAll leaves a string alone when the pattern's first character
      does not occur in it. */
  lemma {:induction false} RemoveAllAbsent(s: string, pat: string)
    requires pat != [] && pat[0] !in s
    ensures RemoveAll(s, pat) == s
    decreases |s|
  {
    if s != [] {
      assert s[0] != pat[0];
      assert !IsPrefix(pat, s);
      RemoveAllAbsent(s[1..], pat);
      assert s == [s[0]] + s[1..];
    }
  }

  /** RemoveAll goes past a prefix without the pattern's first character. */
  lemma {:induction false} RemoveAllPrefix(s: string, t: string, pat: string)
    requires pat != [] && pat[0] !in s
    ensures RemoveAll(s + t, pat) == s + RemoveAll(t, pat)
    decreases |s|
  {
    if s != [] {
      assert (s + t)[0] == s[0];
      assert !IsPrefix(pat, s + t);
      assert (s + t)[1..] == s[1..] + t;
      RemoveAllPrefix(s[1..], t, pat);
    } else {
      assert s + t == t;
    }
  }

  /** A string made of the pattern alone is removed entirely. */
  lemma RemoveAllOfPattern(pat: string)
    requires pat != []
    ensures RemoveAll(pat, pat) == []
  {
    assert IsPrefix(pat, pat);
    assert pat[|pat|..] == [];
  }

  /** BeforeFirst stops at the first separator. */
  lemma {:induction false} BeforeFirstAt(s: string, t: string, sep: char)
    requires sep !in s
    ensures BeforeFirst(s + [sep] + t, sep) == s
    decreases |s|
  {
    if s != [] {
      assert (s + [sep] + t)[1..] == s[1..] + [sep] + t;
      BeforeFirstAt(s[1..], t, sep);
      assert s == [s[0]] + s[1..];
    }
  }

  /** BeforeFirst keeps a string without the separator. */
  lemma {:induction false} BeforeFirstAbsent(s: string, sep: char)
    requires sep !in s
    ensures BeforeFirst(s, sep) == s
    decreases |s|
  {
    if s != [] {
      BeforeFirstAbsent(s[1..], sep);
      assert s == [s[0]] + s[1..];
    }
  }

  /** str(i) has neither a 'd' nor a '.'. */
  lemma DecimalPlain(i: int)
    ensures 'd' !in Decimal(i) && '.' !in Decimal(i)
  {
    var d := Decimal(i);
    if i < 0 {
      assert d == "-" + NatDecimal(-i);
      assert forall k :: 1 <= k < |d| ==> d[k] == NatDecimal(-i)[k - 1];
    }
  }

  /** The RSSI parse reads an integer member as that integer. */
  lemma ParseRssiOfInt(i: int)
    ensures ParseRssi(JInt(i)) == i
  {
    var d := Decimal(i);
    DecimalPlain(i);
    DecimalRoundTrip(i);
    RemoveAllAbsent(d, "dBm");
    BeforeFirstAbsent(d, '.');
  }

  /** The RSSI parse reads str(i) + "dBm" as i. */
  lemma ParseRssiOfDbm(i: int)
    ensures ParseRssi(JStr(Decimal(i) + "dBm")) == i
  {
    var d := Decimal(i);
    DecimalPlain(i);
    DecimalRoundTrip(i);
    RemoveAllPrefix(d, "dBm", "dBm");
    RemoveAllOfPattern("dBm");
    assert d + [] == d;
    BeforeFirstAbsent(d, '.');
  }

  /** The RSSI parse drops a fraction: str(i) + "." + digits reads as i. */
  lemma ParseRssiOfFraction(i: int, fraction: string)
    requires 'd' !in fraction
    ensures ParseRssi(JStr(Decimal(i) + "." + fraction)) == i
  {
    var d := Decimal(i);
    DecimalPlain(i);
    DecimalRoundTrip(i);
    RemoveAllAbsent("." + fraction, "dBm");
    RemoveAllPrefix(d, "." + fraction, "dBm");
    assert d + "." + fraction == d + ("." + fraction);
    assert d + ['.'] + fraction == d + "." + fraction;
    BeforeFirstAt(d, fraction, '.');
  }

  /** The default "-999dBm" of a missing RSSI member is str(-999) + "dBm". */
  lemma DefaultRssiText()
    ensures Decimal(-999) + "dBm" == "-999dBm"
  {
    assert NatDecimal(9) == "9";
    assert NatDecimal(99) == NatDecimal(9) + [DigitChar(9)];
    assert NatDecimal(999) == NatDecimal(99) + [DigitChar(9)];
  }

  /** A missing RSSI member reads as -999. */
  lemma MissingRssi(obj: Object, suffix: string)
    requires Dict.Get(obj, "rssi" + suffix).None?
    ensures RssiFor(obj, suffix) == -999
  {
    ParseRssiOfDbm(-999);
    DefaultRssiText();
  }

  /** A None RSSI member ("None" to int()) reads as -999. */
  lemma NullRssi()
    ensures ParseRssi(JNull) == -999
  {
    RemoveAllAbsent("None", "dBm");
    BeforeFirstAbsent("None", '.');
    assert !IsDigit("None"[0]);
  }

  /** Every member whose key starts with "beacon" yields a reading, with
      the member's value as id and the RSSI of its slot. */
  lemma {:induction false} EveryBeaconMemberReads(entries: Object, obj: Object)
    ensures forall k :: 0 <= k < |entries| && IsBeaconKey(entries[k].0) ==>
              EntryReading(entries[k], obj) in ObjectReadings(entries, obj)
    decreases |entries|
  {
    if entries != [] {
      EveryBeaconMemberReads(entries[1..], obj);
      assert forall k :: 1 <= k < |entries| ==> entries[k] == entries[1..][k - 1];
    }
  }

  /** Every reading comes from a member whose key starts with "beacon". */
  lemma {:induction false} ReadingsComeFromBeaconMembers(entries: Object, obj: Object)
    ensures forall r :: r in ObjectReadings(entries, obj) ==>
              exists k :: 0 <= k < |entries| && IsBeaconKey(entries[k].0) && r == EntryReading(entries[k], obj)
    decreases |entries|
  {
    if entries != [] {
      ReadingsComeFromBeaconMembers(entries[1..], obj);
      var rest := ObjectReadings(entries[1..], obj);
      forall r | r in ObjectReadings(entries, obj)
        ensures exists k :: 0 <= k < |entries| && IsBeaconKey(entries[k].0) && r == EntryReading(entries[k], obj)
      {
        if r !in MemberReading(entries[0], obj) {
          assert r in rest;
          var k :| 0 <= k < |entries[1..]| && IsBeaconKey(entries[1..][k].0) && r == EntryReading(entries[1..][k], obj);
          assert entries[1..][k] == entries[k + 1];
        }
      }
    }
  }

  /** The fallback is used only when the object yields nothing. */
  lemma FallbackOnlyWhenEmpty(obj: Object, data: Option<seq<byte>>)
    requires ObjectReadings(obj, obj) != []
    ensures DecodedReadings(Some(obj), data) == ObjectReadings(obj, obj)
  {
  }

  /** Without an object member "raw", the fallback decodes the message's
      data: a frame of seven or more bytes gives one reading with the
      lower-case hex of bytes 2..5 and the signed last byte. */
  lemma FallbackDecodesData(obj: Option<Object>, bs: seq<byte>)
    requires obj.None? || (ObjectReadings(obj.value, obj.value) == [] && Dict.Get(obj.value, "raw").None?)
    requires |bs| >= 7
    ensures DecodedReadings(obj, Some(bs)) ==
            [Reading(JStr(ToHex(bs[2..6])), BeaconLogic.SignedByte(bs[|bs| - 1]))]
  {
    BeaconLogic.LansitecRoundTrip(bs);
    assert ToHex(bs) != [];
  }

  // ---------------------------------------------------------------------
  // The decision
  // ---------------------------------------------------------------------

  /** str(id).upper() == TRACKED_BEACON_ID.upper(). */
  predicate Tracked(r: Reading) {
    Upper(PyStr(r.id)) == TRACKED_UPPER
  }

  /** TRACKED_UPPER is TRACKED_BEACON_ID upper-cased, so a reading is
      tracked exactly when its id matches the tracked id regardless of
      case. */
  lemma TrackedUpper(r: Reading)
    ensures Upper(TRACKED_BEACON_ID) == TRACKED_UPPER
    ensures Tracked(r) <==> Upper(PyStr(r.id)) == Upper(TRACKED_BEACON_ID)
  {
    assert Upper(TRACKED_BEACON_ID)[6] == 'B';
  }

  predicate IsSafe(rssi: int) {
    rssi >= SAFE_RSSI_THRESHOLD
  }

  /** last_beacon_stats. The sensor is the message's devEui, None when
      deviceInfo has none. */
  datatype Stats = Stats(seen: bool, rssi: int, sensor: Option<string>, time: int, id: Value)

  const INITIAL_STATS := Stats(false, 0, Some(""), 0, JStr(""))

  /** The alarm downlink: to the alarm device, under the message's
      application id, with the alarm payload. */
  datatype AlarmSend = AlarmSend(deviceEui: string, appId: Option<string>, hex: string)

  /** The dashboard record after a tracked reading. */
  function Seen(r: Reading, sensor: Option<string>, now: int): Stats {
    Stats(true, r.rssi, sensor, now, r.id)
  }

  /** The alarm downlink one reading calls for. */
  function Alarm(appId: Option<string>): AlarmSend {
    AlarmSend(ALARM_TMACRO_SENSOR_EUI, appId, ALARM_PAYLOAD_HEX)
  }

  /** One reading: a tracked one updates the dashboard record and, when
      it is unsafe, sends the alarm; any other reading changes nothing. */
  function HandleOne(stats: Stats, sends: seq<AlarmSend>, r: Reading,
                     sensor: Option<string>, appId: Option<string>, now: int): (Stats, seq<AlarmSend>)
  {
    if !Tracked(r) then (stats, sends)
    else if IsSafe(r.rssi) then (Seen(r, sensor, now), sends)
    else (Seen(r, sensor, now), sends + [Alarm(appId)])
  }

  /** The readings of a message processed in order. */
  function Handle(stats: Stats, sends: seq<AlarmSend>, readings: seq<Reading>,
                  sensor: Option<string>, appId: Option<string>, now: int): (Stats, seq<AlarmSend>)
    decreases |readings|
  {
    if readings == [] then (stats, sends)
    else
      var next := HandleOne(stats, sends, readings[0], sensor, appId, now);
      Handle(next.0, next.1, readings[1..], sensor, appId, now)
  }

  /** One turn of the processing loop: reading i, then the rest. */
  lemma HandleStep(stats: Stats, sends: seq<AlarmSend>, readings: seq<Reading>, i: nat,
                   sensor: Option<string>, appId: Option<string>, now: int)
    requires i < |readings|
    ensures var next := HandleOne(stats, sends, readings[i], sensor, appId, now);
            Handle(stats, sends, readings[i..], sensor, appId, now) == Handle(next.0, next.1, readings[i + 1..], sensor, appId, now)
  {
    assert readings[i..][1..] == readings[i + 1..];
  }

  /** The number of unsafe tracked readings. */
  function UnsafeTracked(readings: seq<Reading>): nat
    decreases |readings|
  {
    if readings == [] then 0
    else (if Tracked(readings[0]) && !IsSafe(readings[0].rssi) then 1 else 0) + UnsafeTracked(readings[1..])
  }

  /** The last tracked reading, if any. */
  function LastTracked(readings: seq<Reading>): Option<Reading>
    decreases |readings|
  {
    if readings == [] then None
    else
      var later := LastTracked(readings[1..]);
      if later.Some? then later else if Tracked(readings[0]) then Some(readings[0]) else None
  }

  /** No debounce and no latch: the alarm goes out once for every unsafe
      tracked reading, after what was sent before. */
  lemma {:induction false} EveryUnsafeReadingAlarms(stats: Stats, sends: seq<AlarmSend>, readings: seq<Reading>,
                                                    sensor: Option<string>, appId: Option<string>, now: int)
    ensures var sends' := Handle(stats, sends, readings, sensor, appId, now).1;
            && |sends'| == |sends| + UnsafeTracked(readings)
            && sends'[..|sends|] == sends
            && (forall k :: |sends| <= k < |sends'| ==> sends'[k] == Alarm(appId))
    decreases |readings|
  {
    if readings != [] {
      var next := HandleOne(stats, sends, readings[0], sensor, appId, now);
      HandleOneSends(stats, sends, readings[0], sensor, appId, now);
      EveryUnsafeReadingAlarms(next.0, next.1, readings[1..], sensor, appId, now);
      var sends' := Handle(next.0, next.1, readings[1..], sensor, appId, now).1;
      assert sends'[..|sends|] == sends'[..|next.1|][..|sends|];
    }
  }

  /** One reading adds the alarm exactly when it is tracked and unsafe. */
  lemma HandleOneSends(stats: Stats, sends: seq<AlarmSend>, r: Reading,
                       sensor: Option<string>, appId: Option<string>, now: int)
    ensures var sends' := HandleOne(stats, sends, r, sensor, appId, now).1;
            && |sends'| == |sends| + (if Tracked(r) && !IsSafe(r.rssi) then 1 else 0)
            && sends'[..|sends|] == sends
            && (forall k :: |sends| <= k < |sends'| ==> sends'[k] == Alarm(appId))
  {
  }

  /** The dashboard shows the last tracked reading of the message, and is
      left alone when there is none. */
  lemma {:induction false} DashboardShowsLastTracked(stats: Stats, sends: seq<AlarmSend>, readings: seq<Reading>,
                                                     sensor: Option<string>, appId: Option<string>, now: int)
    ensures Handle(stats, sends, readings, sensor, appId, now).0 ==
            (match LastTracked(readings) case None => stats case Some(r) => Seen(r, sensor, now))
    decreases |readings|
  {
    if readings != [] {
      var next := HandleOne(stats, sends, readings[0], sensor, appId, now);
      DashboardShowsLastTracked(next.0, next.1, readings[1..], sensor, appId, now);
    }
  }

  /** on_message as written. trigger_alarm() names ALARM_TARGET_EUI, which
      the script never defines, so the first unsafe tracked reading raises
      NameError after the alarm is called for; and the status line takes
      sensor_eui[-4:], which raises TypeError when devEui is absent. Either
      exception ends the message: no alarm is ever sent, and the readings
      after it are dropped. The result is the dashboard record and whether
      the alarm was called for. */
  function HandleAsWritten(stats: Stats, readings: seq<Reading>, sensor: Option<string>, now: int): (Stats, bool)
    decreases |readings|
  {
    if readings == [] then (stats, false)
    else
      var r := readings[0];
      if !Tracked(r) then HandleAsWritten(stats, readings[1..], sensor, now)
      else if sensor.None? then (Seen(r, sensor, now), false)
      else if !IsSafe(r.rssi) then (Seen(r, sensor, now), true)
      else HandleAsWritten(Seen(r, sensor, now), readings[1..], sensor, now)
  }

  /** Two unsafe tracked readings in one message: as written, the
      dashboard stops at the first and nothing is sent. */
  lemma NameErrorDropsAlarms(r1: Reading, r2: Reading, sensor: string, now: int)
    requires Tracked(r1) && !IsSafe(r1.rssi)
    ensures HandleAsWritten(INITIAL_STATS, [r1, r2], Some(sensor), now) == (Seen(r1, Some(sensor), now), true)
  {
  }

  /** The corrected handling of the same message sends the alarm twice and
      shows the second reading. */
  lemma CorrectedSendsBoth(r1: Reading, r2: Reading, sensor: Option<string>, appId: Option<string>, now: int)
    requires Tracked(r1) && Tracked(r2) && !IsSafe(r1.rssi) && !IsSafe(r2.rssi)
    ensures Handle(INITIAL_STATS, [], [r1, r2], sensor, appId, now) == (Seen(r2, sensor, now), [Alarm(appId), Alarm(appId)])
  {
    var last := Handle(Seen(r2, sensor, now), [Alarm(appId), Alarm(appId)], [], sensor, appId, now);
    assert Handle(Seen(r1, sensor, now), [Alarm(appId)], [r2], sensor, appId, now) == last by {
      assert [r2][1..] == [];
      assert [Alarm(appId)] + [Alarm(appId)] == [Alarm(appId), Alarm(appId)];
    }
    assert [r1, r2][1..] == [r2];
    assert [] + [Alarm(appId)] == [Alarm(appId)];
  }

  /** Without a devEui, as written, the first tracked reading ends the
      message even when it is safe, so a later unsafe reading is lost. */
  lemma MissingSensorDropsReadings(r1: Reading, r2: Reading, now: int)
    requires Tracked(r1)
    ensures HandleAsWritten(INITIAL_STATS, [r1, r2], None, now) == (Seen(r1, None, now), false)
  {
  }

  /** As written, a message never sends anything and calls for the alarm
      at most once; the corrected handling agrees with it on the dashboard
      whenever every tracked reading is safe and the devEui is present. */
  lemma {:induction false} AsWrittenAgreesWhenSafe(stats: Stats, readings: seq<Reading>, sensor: string, appId: Option<string>, now: int)
    requires forall k :: 0 <= k < |readings| && Tracked(readings[k]) ==> IsSafe(readings[k].rssi)
    ensures HandleAsWritten(stats, readings, Some(sensor), now) ==
            (Handle(stats, [], readings, Some(sensor), appId, now).0, false)
    ensures Handle(stats, [], readings, Some(sensor), appId, now).1 == []
    decreases |readings|
  {
    if readings != [] {
      assert forall k :: 0 <= k < |readings[1..]| ==> readings[1..][k] == readings[k + 1];
      var next := HandleOne(stats, [], readings[0], Some(sensor), appId, now);
      AsWrittenAgreesWhenSafe(next.0, readings[1..], sensor, appId, now);
    }
  }

  // ---------------------------------------------------------------------
  // The monitor
  // ---------------------------------------------------------------------

  /** payload['deviceInfo']: its devEui and applicationId, None when
      absent. */
  datatype DeviceInfo = DeviceInfo(devEui: Option<string>, applicationId: Option<string>)

  /** The object-parsing loop of on_message(). */
  method ParseObject(obj: Object) returns (decoded: seq<Reading>)
    ensures decoded == ObjectReadings(obj, obj)
  {
    decoded := [];
    var i := 0;
    while i < |obj|
      invariant 0 <= i <= |obj|
      invariant decoded + ObjectReadings(obj[i..], obj) == ObjectReadings(obj, obj)
    {
      ObjectReadingsStep(obj, i);
      var (key, val) := obj[i];
      var rest := ObjectReadings(obj[i + 1..], obj);
      if IsBeaconKey(key) {
        var idx := RemoveAll(key, "beacon");
        var rssiStr := Dict.Get(obj, "rssi" + idx).GetOr(JStr("-999dBm"));
        var rssiVal := ParseRssi(rssiStr);
        assert Reading(val, rssiVal) == EntryReading(obj[i], obj);
        assert decoded + [Reading(val, rssiVal)] + rest == decoded + ([Reading(val, rssiVal)] + rest);
        decoded := decoded + [Reading(val, rssiVal)];
      } else {
        assert [] + rest == rest;
      }
      i := i + 1;
    }
    assert obj[|obj|..] == [];
  }

  /** The readings of the members from i on: member i's, then the rest. */
  lemma ObjectReadingsStep(obj: Object, i: nat)
    requires i < |obj|
    ensures ObjectReadings(obj[i..], obj) == MemberReading(obj[i], obj) + ObjectReadings(obj[i + 1..], obj)
  {
    assert obj[i..][1..] == obj[i + 1..];
  }

  /** decoded_beacons of on_message(): the object's readings, or the
      Lansitec fallback's when there are none. */
  method DecodeMessage(obj: Option<Object>, data: Option<seq<byte>>) returns (decoded: seq<Reading>)
    ensures decoded == DecodedReadings(obj, data)
  {
    decoded := [];
    if obj.Some? {
      decoded := ParseObject(obj.value);
    }
    if decoded == [] {
      var raw := RawHex(obj, data);
      if Truthy(raw) && raw.JStr? {
        var beacon := BeaconLogic.DecodeLansitec(raw.s);
        if beacon.Some? {
          decoded := [Reading(JStr(beacon.value.id), beacon.value.rssi)];
        }
      }
    }
  }

  /** The script's global state: last_beacon_stats and the alarms sent. */
  class Monitor {
    var stats: Stats
    var sends: seq<AlarmSend>

    constructor ()
      ensures stats == INITIAL_STATS && sends == []
    {
      stats := INITIAL_STATS;
      sends := [];
    }

    /** on_message(): nothing without deviceInfo; otherwise the decoded
        readings are handled in order. */
    method OnMessage(info: Option<DeviceInfo>, obj: Option<Object>, data: Option<seq<byte>>, now: int)
      modifies this
      ensures info.None? ==> stats == old(stats) && sends == old(sends)
      ensures info.Some? ==>
                (stats, sends) == Handle(old(stats), old(sends), DecodedReadings(obj, data),
                                         info.value.devEui, info.value.applicationId, now)
    {
      if info.None? {
        return;
      }
      var decoded := DecodeMessage(obj, data);
      HandleReadings(decoded, info.value.devEui, info.value.applicationId, now);
    }

    /** The processing loop of on_message(), with the alarm sent for each
        unsafe tracked reading. */
    method HandleReadings(decoded: seq<Reading>, sensor: Option<string>, appId: Option<string>, now: int)
      modifies this
      ensures (stats, sends) == Handle(old(stats), old(sends), decoded, sensor, appId, now)
    {
      var st, ss := stats, sends;
      var i := 0;
      while i < |decoded|
        invariant 0 <= i <= |decoded|
        invariant Handle(st, ss, decoded[i..], sensor, appId, now) == Handle(stats, sends, decoded, sensor, appId, now)
        invariant unchanged(this)
      {
        HandleStep(st, ss, decoded, i, sensor, appId, now);
        var beacon := decoded[i];
        if Tracked(beacon) {
          st := Stats(true, beacon.rssi, sensor, now, beacon.id);
          if !IsSafe(beacon.rssi) {
            ss := ss + [Alarm(appId)];
          }
        }
        i := i + 1;
      }
      assert decoded[i..] == [];
      stats, sends := st, ss;
    }
  }
}
