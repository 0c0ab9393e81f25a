/** The alarm decision engine of python-app/src/logic/alarm_rules.py. Each
    reading of a beacon updates that beacon's record: the first one forces
    the buzzer silent, a safe reading (right floor, strong signal) silences
    an active alarm, and an unsafe one starts a debounce timer whose expiry
    triggers the three-command alarm sequence once. The wall clock is the
    `now` parameter; every downlink is an entry of a log. */
module AlarmRules {
  import opened Text
  import Dict
  import opened Settings

  // ---------------------------------------------------------------------
  // ProximityConfig
  // ---------------------------------------------------------------------

  const RSSI_THRESHOLD: int := SAFE_RSSI_THRESHOLD
  const MACRO_SENSOR_EUI: string := "70b3d5a4d31205cf"
  const BEACON_MAJOR: string := "0010"
  const MACRO_SENSOR_APP_ID: string := "579dd7d2-1e4d-4e5c-b5ba-751f651142bb"
  const DEBOUNCE: int := 5
  const CMD_VOLUME_HIGH: string := "B0000104"
  const CMD_VOLUME_MUTE: string := "B0000100"
  const CMD_DURATION: string := "B0000206"
  const CMD_TRIGGER_BASE: string := "AC"
  /** The literal stop_alarm() sends. */
  const STOP_HEX: string := "B0000100"
  /** The literal unmute_alarm() sends. */
  const UNMUTE_HEX: string := "B0000101"
  const UNKNOWN: string := "UNKNOWN"

  datatype Zone = SAFE | WEAK | ALARM

  /** SecurityZone.value */
  function ZoneValue(z: Zone): string {
    match z
    case SAFE => "SAFE"
    case WEAK => "WEAK"
    case ALARM => "ALARM"
  }

  /** No zone is spelt "UNKNOWN". */
  lemma ZoneValueKnown(z: Zone)
    ensures ZoneValue(z) != UNKNOWN
  {
    assert ZoneValue(z)[0] != UNKNOWN[0];
  }

  /** The BeaconState dataclass; times are whole seconds. */
  datatype BeaconState = BeaconState(
    beaconId: string,
    zone: Option<Zone>,
    lastRssi: int,
    lastSeen: int,
    weakStart: Option<int>,
    alarmActive: bool,
    initialized: bool,
    currentLocation: string)

  function DefaultState(id: string): (st: BeaconState)
    ensures st.beaconId == id && st.zone.None? && st.weakStart.None?
    ensures !st.alarmActive && !st.initialized
  {
    BeaconState(id, None, -999, 0, None, false, false, "Unknown")
  }

  /** A downlink as published: target DevEUI, application id, hex payload. */
  datatype Downlink = Downlink(deviceEui: string, appId: string, hex: string)

  /** The payload of a "beacon_state_change" event. */
  datatype StateChange = StateChange(beaconId: string, oldState: string, newState: string, rssi: int)

  type States = Dict.Dict<string, BeaconState>

  // ---------------------------------------------------------------------
  // The beacon table
  // ---------------------------------------------------------------------

  /** The message id that follows `c` in the one-byte counter: 255 wraps
      to 0. */
  function NextMsgId(c: nat): (r: nat)
    requires c < 256
    ensures r < 256 && r == (c + 1) % 256
  {
    if c == 255 then 0 else c + 1
  }

  /** minor_id.upper().zfill(4): the key of a beacon. */
  function NormalizeMinor(minorId: string): (key: string)
    ensures |key| >= 4 && IsUpperCased(key)
    ensures |minorId| >= 4 ==> key == Upper(minorId)
  {
    UpperIsUpperCased(minorId);
    ZFillOfUpperCased(Upper(minorId), 4);
    ZFillShape(Upper(minorId), 4);
    ZFill(Upper(minorId), 4)
  }

  /** Normalising a key again gives the same key. */
  lemma NormalizeIdempotent(minorId: string)
    ensures NormalizeMinor(NormalizeMinor(minorId)) == NormalizeMinor(minorId)
  {
    var key := NormalizeMinor(minorId);
    UpperOfUpperCased(key);
  }

  /** The table after get_beacon_state(id): a default record added only
      when the id is not yet a key. */
  function WithState(states: States, id: string): States {
    if id in Dict.Keys(states) then states else Dict.Put(states, id, DefaultState(id))
  }

  /** The record get_beacon_state(id) returns. */
  function StateOf(states: States, id: string): BeaconState {
    match Dict.Get(states, id)
    case None => DefaultState(id)
    case Some(st) => st
  }

  /** get_beacon_state() creates the record on first access only: a second
      access changes nothing and returns the same record, and other ids'
      records are untouched. */
  lemma GetBeaconStateOnce(states: States, id: string, other: string)
    ensures Dict.Get(WithState(states, id), id) == Some(StateOf(states, id))
    ensures WithState(WithState(states, id), id) == WithState(states, id)
    ensures other != id ==> Dict.Get(WithState(states, id), other) == Dict.Get(states, other)
    ensures id in Dict.Keys(states) ==> WithState(states, id) == states
  {
    if id !in Dict.Keys(states) {
      Dict.PutGet(states, id, DefaultState(id), id);
      Dict.PutGet(states, id, DefaultState(id), other);
    }
  }

  /** Writing a record after get_beacon_state() is the same as writing it
      into the table as it was. */
  lemma PutAfterWithState(states: States, id: string, st: BeaconState)
    ensures Dict.Put(WithState(states, id), id, st) == Dict.Put(states, id, st)
  {
    if id !in Dict.Keys(states) {
      Dict.PutPut(states, id, DefaultState(id), st);
    }
  }

  /** One row of get_all_beacon_states(). */
  datatype StatusView = StatusView(
    id: string, zone: string, state: string, rssi: int, lastSeen: int, alarmActive: bool, location: string)

  function ViewOf(st: BeaconState): StatusView {
    var z := if st.zone.Some? then ZoneValue(st.zone.value) else UNKNOWN;
    StatusView(st.beaconId, z, z, st.lastRssi, st.lastSeen, st.alarmActive, st.currentLocation)
  }

  /** get_all_beacon_states(): one row per record, in table order. */
  function AllBeaconStates(states: States): (rows: Dict.Dict<string, StatusView>)
    ensures |rows| == |states|
    ensures forall i :: 0 <= i < |states| ==> rows[i] == (states[i].0, ViewOf(states[i].1))
  {
    if states == [] then [] else [(states[0].0, ViewOf(states[0].1))] + AllBeaconStates(states[1..])
  }

  /** A row reports "UNKNOWN" exactly for a record without a zone, gives
      the same value as "zone" and "state", and copies the other fields. */
  lemma ViewFaithful(st: BeaconState)
    ensures ViewOf(st).zone == UNKNOWN <==> st.zone.None?
    ensures ViewOf(st).zone == ViewOf(st).state
    ensures ViewOf(st).id == st.beaconId && ViewOf(st).alarmActive == st.alarmActive
    ensures ViewOf(st).rssi == st.lastRssi && ViewOf(st).location == st.currentLocation
  {
    if st.zone.Some? {
      ZoneValueKnown(st.zone.value);
    }
  }

  /** The snapshot has the table's keys in the table's order. */
  lemma SnapshotKeys(states: States)
    ensures Dict.Keys(AllBeaconStates(states)) == Dict.Keys(states)
  {
    var rows := AllBeaconStates(states);
    var ks, ks' := Dict.Keys(rows), Dict.Keys(states);
    assert |ks| == |ks'|;
    forall j | 0 <= j < |ks| ensures ks[j] == ks'[j] {
      assert rows[j].0 == states[j].0;
    }
  }

  // ---------------------------------------------------------------------
  // Classifying a reading
  // ---------------------------------------------------------------------

  predicate Truthy(s: Option<string>) {
    s.Some? && s.value != ""
  }

  /** The floor whose gateway heard the beacon; only looked up when a
      gateway EUI is given. */
  function DetectionFloor(devices: DevicesConfig, gatewayEui: Option<string>): Option<Floor> {
    if Truthy(gatewayEui) then GetFloorByDevice(devices, gatewayEui.value) else None
  }

  /** detection_floor.get("id"), or "UNKNOWN" without a floor; None is an
      absent "id". */
  function DetectionFloorId(floor: Option<Floor>): Option<string> {
    if floor.Some? then floor.value.id else Some(UNKNOWN)
  }

  function DetectionFloorName(floor: Option<Floor>): string {
    if floor.Some? then floor.value.name.GetOr("Unknown Floor") else "Unknown Floor"
  }

  /** The home floor of the first devices.json beacon whose id, upper-cased,
      is the key: its "home_floor_id" (None when absent), or "UNKNOWN" when
      no beacon is listed under that id. */
  function HomeFloorOf(beacons: seq<DeviceBeacon>, key: string): (home: Option<string>)
    ensures (forall j :: 0 <= j < |beacons| ==> Upper(beacons[j].id.GetOr("")) != key) ==> home == Some(UNKNOWN)
  {
    if beacons == [] then Some(UNKNOWN)
    else if Upper(beacons[0].id.GetOr("")) == key then beacons[0].homeFloorId
    else
      assert forall j :: 1 <= j < |beacons| ==> beacons[j] == beacons[1..][j - 1];
      HomeFloorOf(beacons[1..], key)
  }

  /** The search loop over devices_config["beacons"], with its break. */
  method FindHomeFloor(beacons: seq<DeviceBeacon>, key: string) returns (home: Option<string>)
    ensures home == HomeFloorOf(beacons, key)
  {
    home := Some(UNKNOWN);
    var i := 0;
    while i < |beacons|
      invariant 0 <= i <= |beacons|
      invariant HomeFloorOf(beacons[i..], key) == HomeFloorOf(beacons, key)
    {
      assert beacons[i..][1..] == beacons[i + 1..];
      if Upper(beacons[i].id.GetOr("")) == key {
        home := beacons[i].homeFloorId;
        return;
      }
      i := i + 1;
    }
  }

  /** Wrong floor: both floor ids known (not "UNKNOWN") and different. */
  predicate IsWrongFloor(detectionId: Option<string>, homeId: Option<string>) {
    detectionId != Some(UNKNOWN) && homeId != Some(UNKNOWN) && detectionId != homeId
  }

  /** A reading is safe when it is on the right floor and its signal is
      not weak. */
  predicate IsSafeReading(rssi: int, floor: Option<Floor>, homeId: Option<string>) {
    !IsWrongFloor(DetectionFloorId(floor), homeId) && !(rssi < RSSI_THRESHOLD)
  }

  /** A reading is unsafe exactly when it is on the wrong floor or weaker
      than the threshold; without a gateway EUI, or with one that no floor
      owns, only the signal counts. */
  lemma SafeIffRightFloorAndStrong(rssi: int, devices: DevicesConfig, gatewayEui: Option<string>, homeId: Option<string>)
    ensures var floor := DetectionFloor(devices, gatewayEui);
            !IsSafeReading(rssi, floor, homeId) <==>
              (DetectionFloorId(floor) != Some(UNKNOWN) && homeId != Some(UNKNOWN) &&
               DetectionFloorId(floor) != homeId) || rssi < RSSI_THRESHOLD
    ensures DetectionFloor(devices, gatewayEui).None? ==>
              (IsSafeReading(rssi, DetectionFloor(devices, gatewayEui), homeId) <==> rssi >= RSSI_THRESHOLD)
    ensures !Truthy(gatewayEui) ==> DetectionFloor(devices, gatewayEui).None?
  {
  }

  /** A beacon listed without "home_floor_id" (None) seen on a floor with a
      known id is on the wrong floor, however strong its signal. */
  lemma MissingHomeFloorIsWrongFloor(rssi: int, floor: Floor, beacons: seq<DeviceBeacon>, key: string, k: nat)
    requires floor.id.Some? && floor.id != Some(UNKNOWN)
    requires k < |beacons| && Upper(beacons[k].id.GetOr("")) == key && beacons[k].homeFloorId.None?
    requires forall j :: 0 <= j < k ==> Upper(beacons[j].id.GetOr("")) != key
    ensures HomeFloorOf(beacons, key).None?
    ensures !IsSafeReading(rssi, Some(floor), HomeFloorOf(beacons, key))
  {
    HomeFloorOfFirst(beacons, key, k);
  }

  lemma {:induction false} HomeFloorOfFirst(beacons: seq<DeviceBeacon>, key: string, k: nat)
    requires k < |beacons| && Upper(beacons[k].id.GetOr("")) == key
    requires forall j :: 0 <= j < k ==> Upper(beacons[j].id.GetOr("")) != key
    ensures HomeFloorOf(beacons, key) == beacons[k].homeFloorId
  {
    if k > 0 {
      assert forall j :: 0 <= j < k - 1 ==> beacons[1..][j] == beacons[j + 1];
      HomeFloorOfFirst(beacons[1..], key, k - 1);
    }
  }

  // ---------------------------------------------------------------------
  // The per-beacon decision
  // ---------------------------------------------------------------------

  /** What one evaluation does besides updating the record: send the mute
      command, run the trigger sequence, emit a zone change. */
  datatype Effect = Effect(mute: bool, trigger: bool, change: Option<(Zone, Zone)>)

  const NO_EFFECT: Effect := Effect(false, false, None)

  /** The zone change to report when the zone goes from `old` to `new`:
      only from a known zone to a different one. */
  function ChangeOf(before: Option<Zone>, after: Zone): Option<(Zone, Zone)> {
    if before.Some? && before.value != after then Some((before.value, after)) else None
  }

  /** check_alarm_conditions() after the reading has been recorded in `st`:
      the new record, the returned zone and the effects. */
  function Step(st: BeaconState, safe: bool, now: int): (r: (BeaconState, Zone, Effect))
    ensures r.0.beaconId == st.beaconId && r.0.lastRssi == st.lastRssi && r.0.lastSeen == st.lastSeen
    ensures r.0.currentLocation == st.currentLocation
    ensures r.1 != WEAK
  {
    if !st.initialized then
      (st.(initialized := true, zone := Some(SAFE), weakStart := None), SAFE, Effect(true, false, None))
    else if safe then
      (st.(alarmActive := false, zone := Some(SAFE), weakStart := None), SAFE,
       Effect(st.alarmActive, false, ChangeOf(st.zone, SAFE)))
    else if st.weakStart.None? then
      (st.(weakStart := Some(now), zone := Some(ALARM)), ALARM, Effect(false, false, ChangeOf(st.zone, ALARM)))
    else if now - st.weakStart.value >= DEBOUNCE then
      (st.(alarmActive := true, zone := Some(ALARM)), ALARM, Effect(false, !st.alarmActive, None))
    else
      (st, ALARM, NO_EFFECT)
  }

  /** The consistency of a record between readings. */
  predicate Inv(st: BeaconState) {
    && (!st.initialized ==> st.zone.None? && st.weakStart.None? && !st.alarmActive)
    && (st.initialized ==> st.zone.Some?)
    && st.zone != Some(WEAK)
    && (st.zone == Some(ALARM) <==> st.weakStart.Some?)
    && (st.alarmActive ==> st.zone == Some(ALARM))
  }

  /** A fresh record is consistent, and every evaluation keeps it so: an
      active alarm always has a running timer and the ALARM zone, a SAFE
      record never has either. */
  lemma StepPreservesInv(st: BeaconState, safe: bool, now: int)
    requires Inv(st)
    ensures Inv(Step(st, safe, now).0)
    ensures Inv(DefaultState(st.beaconId))
    ensures Step(st, safe, now).0.zone == Some(SAFE) ==>
              Step(st, safe, now).0.weakStart.None? && !Step(st, safe, now).0.alarmActive
  {
  }

  /** Startup rule: the first evaluation of a beacon answers SAFE and only
      mutes, whatever the signal or floor; it marks the beacon initialised,
      SAFE, with no timer, and leaves the alarm flag alone. */
  lemma StartupRule(st: BeaconState, safe: bool, now: int)
    requires !st.initialized
    ensures var (st', z, eff) := Step(st, safe, now);
            && z == SAFE && eff.mute && !eff.trigger && eff.change.None?
            && st'.initialized && st'.zone == Some(SAFE) && st'.weakStart.None?
            && st'.alarmActive == st.alarmActive
  {
  }

  /** A safe reading after startup answers SAFE, clears the timer, mutes
      exactly when an alarm was active and clears it, and reports a change
      exactly when the zone was known and not SAFE. */
  lemma SafeReading(st: BeaconState, now: int)
    requires st.initialized
    ensures var (st', z, eff) := Step(st, true, now);
            && z == SAFE && st'.zone == Some(SAFE) && st'.weakStart.None? && !st'.alarmActive
            && (eff.mute <==> st.alarmActive) && !eff.trigger
            && (eff.change.Some? <==> st.zone.Some? && st.zone != Some(SAFE))
  {
  }

  /** The first unsafe reading starts the timer at `now`, answers ALARM
      and sends nothing. */
  lemma FirstUnsafeReading(st: BeaconState, now: int)
    requires st.initialized && st.weakStart.None?
    ensures var (st', z, eff) := Step(st, false, now);
            && z == ALARM && st'.weakStart == Some(now) && st'.zone == Some(ALARM)
            && !eff.mute && !eff.trigger
  {
  }

  /** Debounce: while fewer than DEBOUNCE seconds have passed since the
      timer started, an unsafe reading changes nothing and sends nothing;
      once they have, it triggers exactly when no alarm is active yet, and
      leaves the alarm active. */
  lemma Debounce(st: BeaconState, now: int)
    requires st.initialized && st.weakStart.Some?
    ensures var (st', z, eff) := Step(st, false, now);
            && z == ALARM && !eff.mute
            && (now - st.weakStart.value < DEBOUNCE ==> st' == st && !eff.trigger)
            && (now - st.weakStart.value >= DEBOUNCE ==> (eff.trigger <==> !st.alarmActive) && st'.alarmActive)
            && st'.weakStart == st.weakStart
  {
  }

  /** A run of readings: each (safe, now) pair in turn. */
  function Run(st: BeaconState, readings: seq<(bool, int)>): (r: (BeaconState, nat))
    decreases |readings|
  {
    if readings == [] then (st, 0)
    else
      var (st', _, eff) := Step(st, readings[0].0, readings[0].1);
      var (last, n) := Run(st', readings[1..]);
      (last, n + if eff.trigger then 1 else 0)
  }

  /** Idempotence: along a run of unsafe readings the trigger sequence runs
      at most once, and never when an alarm is already active. */
  lemma {:induction false} TriggersAtMostOnce(st: BeaconState, readings: seq<(bool, int)>)
    requires Inv(st)
    requires forall i :: 0 <= i < |readings| ==> !readings[i].0
    ensures Run(st, readings).1 <= (if st.alarmActive then 0 else 1)
    ensures st.alarmActive ==> Run(st, readings).0.alarmActive
    decreases |readings|
  {
    if readings != [] {
      var (st', _, eff) := Step(st, readings[0].0, readings[0].1);
      StepPreservesInv(st, readings[0].0, readings[0].1);
      TriggersAtMostOnce(st', readings[1..]);
      if eff.trigger {
        assert st'.alarmActive;
      }
    }
  }

  // ---------------------------------------------------------------------
  // Downlinks
  // ---------------------------------------------------------------------

  /** The device a downlink goes to: the given EUI, or MACRO_SENSOR_EUI
      when it is None or empty. */
  function SendTarget(deviceEui: Option<string>): (eui: string)
    ensures Truthy(deviceEui) ==> eui == deviceEui.value
    ensures !Truthy(deviceEui) ==> eui == MACRO_SENSOR_EUI
  {
    if Truthy(deviceEui) then deviceEui.value else MACRO_SENSOR_EUI
  }

  /** The application id used: the captured one, or MACRO_SENSOR_APP_ID
      when none is captured. */
  function SendAppId(appId: Option<string>): (id: string)
    ensures Truthy(appId) ==> id == appId.value
    ensures !Truthy(appId) ==> id == MACRO_SENSOR_APP_ID
  {
    if Truthy(appId) then appId.value else MACRO_SENSOR_APP_ID
  }

  /** What _send_downlink_to_device() publishes: one entry when the hex
      converts to bytes, nothing when bytes.fromhex() raises. */
  function SendEntry(deviceEui: Option<string>, appId: Option<string>, hex: string): (r: seq<Downlink>)
    ensures |r| <= 1
    ensures |r| == 1 <==> FromHex(hex).Some?
  {
    if FromHex(hex).Some? then [Downlink(SendTarget(deviceEui), SendAppId(appId), hex)] else []
  }

  /** The entries of several sends to the same device, in order. */
  function SendLog(deviceEui: Option<string>, appId: Option<string>, hexes: seq<string>): seq<Downlink> {
    if hexes == [] then [] else SendEntry(deviceEui, appId, hexes[0]) + SendLog(deviceEui, appId, hexes[1..])
  }

  lemma SendLog3(deviceEui: Option<string>, appId: Option<string>, h0: string, h1: string, h2: string)
    ensures SendLog(deviceEui, appId, [h0, h1, h2]) ==
              SendEntry(deviceEui, appId, h0) + SendEntry(deviceEui, appId, h1) + SendEntry(deviceEui, appId, h2)
  {
    var e0, e1, e2 := SendEntry(deviceEui, appId, h0), SendEntry(deviceEui, appId, h1), SendEntry(deviceEui, appId, h2);
    calc {
      SendLog(deviceEui, appId, [h0, h1, h2]);
    == { assert [h0, h1, h2] == [h0] + [h1, h2]; SendLogCons(deviceEui, appId, h0, [h1, h2]); }
      e0 + SendLog(deviceEui, appId, [h1, h2]);
    == { assert [h1, h2] == [h1] + [h2]; SendLogCons(deviceEui, appId, h1, [h2]); SendLogOne(deviceEui, appId, h2); }
      e0 + (e1 + e2);
    }
  }

  /** Sending one hex logs its entry. */
  lemma SendLogOne(deviceEui: Option<string>, appId: Option<string>, h: string)
    ensures SendLog(deviceEui, appId, [h]) == SendEntry(deviceEui, appId, h)
  {
    assert [h][1..] == [];
  }

  /** Sending h and then hs logs h's entry, then those of hs. */
  lemma SendLogCons(deviceEui: Option<string>, appId: Option<string>, h: string, hs: seq<string>)
    ensures SendLog(deviceEui, appId, [h] + hs) == SendEntry(deviceEui, appId, h) + SendLog(deviceEui, appId, hs)
  {
    assert ([h] + hs)[1..] == hs;
  }

  /** The search-beacon command: "AC", the message id as two upper-case hex
      digits, BEACON_MAJOR, and the normalised minor. */
  function AcCommand(counter: nat, minor: string): (hex: string)
    requires counter < 256
    ensures |hex| >= 12 && hex[..2] == CMD_TRIGGER_BASE && hex[4..8] == BEACON_MAJOR
    ensures hex[2..4] == Hex2(counter) && HexPairValue(hex[2..4]) == counter
    ensures hex[8..] == NormalizeMinor(minor)
  {
    Hex2RoundTrip(counter);
    CMD_TRIGGER_BASE + Hex2(counter) + BEACON_MAJOR + NormalizeMinor(minor)
  }

  function TriggerHexes(counter: nat, minor: string): seq<string>
    requires counter < 256
  {
    [CMD_VOLUME_HIGH, CMD_DURATION, AcCommand(counter, minor)]
  }

  /** The trigger sequence sends the volume and duration commands first,
      then the search command, all to the same device; the search command
      is published exactly when it is valid hex, which it is whenever the
      normalised minor is four hex digits. */
  lemma TriggerSequence(deviceEui: Option<string>, appId: Option<string>, counter: nat, minor: string)
    requires counter < 256
    ensures var sends := SendLog(deviceEui, appId, TriggerHexes(counter, minor));
            && 2 <= |sends| <= 3
            && sends[0].hex == CMD_VOLUME_HIGH && sends[1].hex == CMD_DURATION
            && (|sends| == 3 <==> FromHex(AcCommand(counter, minor)).Some?)
            && (|sends| == 3 ==> sends[2].hex == AcCommand(counter, minor))
            && forall i :: 0 <= i < |sends| ==> sends[i].deviceEui == SendTarget(deviceEui)
  {
    var ac := AcCommand(counter, minor);
    FixedCommandsConvert();
    SendLog3(deviceEui, appId, CMD_VOLUME_HIGH, CMD_DURATION, ac);
  }

  /** The fixed command strings are all valid hex. */
  lemma FixedCommandsConvert()
    ensures FromHex(CMD_VOLUME_HIGH).Some? && FromHex(CMD_DURATION).Some? && FromHex(CMD_VOLUME_MUTE).Some?
    ensures FromHex(STOP_HEX).Some? && FromHex(UNMUTE_HEX).Some?
  {
    VolumeHighConverts();
    DurationConverts();
    MuteConverts();
    StopConverts();
    UnmuteConverts();
  }

  /** Each fixed command, on its own. */
  lemma VolumeHighConverts()
    ensures FromHex(CMD_VOLUME_HIGH).Some?
  {
    FromHexOfDigits(CMD_VOLUME_HIGH);
  }

  lemma DurationConverts()
    ensures FromHex(CMD_DURATION).Some?
  {
    FromHexOfDigits(CMD_DURATION);
  }

  lemma MuteConverts()
    ensures FromHex(CMD_VOLUME_MUTE).Some?
  {
    FromHexOfDigits(CMD_VOLUME_MUTE);
  }

  lemma StopConverts()
    ensures FromHex(STOP_HEX).Some?
  {
    FromHexOfDigits(STOP_HEX);
  }

  lemma UnmuteConverts()
    ensures FromHex(UNMUTE_HEX).Some?
  {
    FromHexOfDigits(UNMUTE_HEX);
  }

  /** The search command is valid hex whenever the normalised minor is
      four hex digits. */
  lemma AcCommandConverts(counter: nat, minor: string)
    requires counter < 256
    requires |NormalizeMinor(minor)| == 4 && AllHexDigits(NormalizeMinor(minor))
    ensures FromHex(AcCommand(counter, minor)).Some?
  {
    var ac := AcCommand(counter, minor);
    var m := NormalizeMinor(minor);
    assert |ac| == 12;
    forall i | 0 <= i < |ac| ensures IsHexDigit(ac[i]) {
      if i < 2 {
        assert ac[i] == CMD_TRIGGER_BASE[i];
      } else if i < 4 {
        assert ac[i] == ac[2..4][i - 2];
      } else if i < 8 {
        assert ac[i] == ac[4..8][i - 4] == BEACON_MAJOR[i - 4];
      } else {
        assert ac[i] == ac[8..][i - 8] == m[i - 8];
      }
    }
    FromHexOfDigits(ac);
  }

  /** The downlinks an evaluation produces with the given counter. */
  function EffectLog(eff: Effect, target: Option<string>, appId: Option<string>, counter: nat, key: string): seq<Downlink>
    requires counter < 256
  {
    (if eff.mute then SendEntry(target, appId, STOP_HEX) else []) +
    (if eff.trigger then SendLog(target, appId, TriggerHexes(counter, key)) else [])
  }

  /** Without a trigger, an evaluation sends at most the stop command. */
  lemma EffectLogWithoutTrigger(eff: Effect, target: Option<string>, appId: Option<string>, counter: nat, key: string)
    requires counter < 256 && !eff.trigger
    ensures EffectLog(eff, target, appId, counter, key) ==
              if eff.mute then [Downlink(SendTarget(target), SendAppId(appId), STOP_HEX)] else []
  {
    StopConverts();
  }

  /** A trigger without a mute sends the trigger sequence only. */
  lemma EffectLogOfTrigger(eff: Effect, target: Option<string>, appId: Option<string>, counter: nat, key: string)
    requires counter < 256 && eff.trigger && !eff.mute
    ensures EffectLog(eff, target, appId, counter, key) == SendLog(target, appId, TriggerHexes(counter, key))
  {
  }

  function EffectEvents(eff: Effect, key: string, rssi: int): seq<StateChange> {
    if eff.change.Some? then [StateChange(key, ZoneValue(eff.change.value.0), ZoneValue(eff.change.value.1), rssi)]
    else []
  }

  /** The device commands go to: the detection floor's macro sensor (None
      when the floor has none), or MACRO_SENSOR_EUI without a floor. */
  function TargetSensor(floor: Option<Floor>): Option<string> {
    if floor.Some? then floor.value.macroSensorEui else Some(MACRO_SENSOR_EUI)
  }

  /** Commands for a reading on a known floor go to that floor's macro
      sensor when it has a non-empty one; in every other case to
      MACRO_SENSOR_EUI. */
  lemma CommandTarget(devices: DevicesConfig, gatewayEui: Option<string>)
    ensures var floor := DetectionFloor(devices, gatewayEui);
            SendTarget(TargetSensor(floor)) ==
              if floor.Some? && Truthy(floor.value.macroSensorEui) then floor.value.macroSensorEui.value
              else MACRO_SENSOR_EUI
  {
  }

  /** The startup evaluation publishes exactly one downlink, the mute. */
  lemma StartupSendsOneMute(st: BeaconState, safe: bool, now: int, target: Option<string>,
                            appId: Option<string>, counter: nat, key: string)
    requires !st.initialized && counter < 256
    ensures EffectLog(Step(st, safe, now).2, target, appId, counter, key) ==
              [Downlink(SendTarget(target), SendAppId(appId), CMD_VOLUME_MUTE)]
  {
    StopConverts();
  }

  /** One evaluation of check_alarm_conditions() for the beacon `key`
      heard on `floor`: the table's record with the reading stored, put
      through Step with the reading's verdict. */
  function Evaluate(states: States, rssi: int, key: string, floor: Option<Floor>,
                    devices: DevicesConfig, now: int): (BeaconState, Zone, Effect)
  {
    var st := StateOf(states, key).(lastRssi := rssi, lastSeen := now,
                                     currentLocation := DetectionFloorName(floor));
    Step(st, IsSafeReading(rssi, floor, HomeFloorOf(devices.beacons, key)), now)
  }

  /** Every record of a consistent table, and a fresh one, is consistent
      and filed under its own id. */
  lemma StateOfValid(states: States, id: string)
    requires forall p :: p in states ==> Inv(p.1) && p.1.beaconId == p.0
    ensures Inv(StateOf(states, id)) && StateOf(states, id).beaconId == id
  {
    var g := Dict.Get(states, id);
    if g.Some? {
      var i :| 0 <= i < |states| && states[i] == (id, g.value);
      assert states[i] in states;
    }
  }

  // ---------------------------------------------------------------------
  // The module state
  // ---------------------------------------------------------------------

  /** The module globals of alarm_rules.py (_beacon_states, _msg_id_counter,
      _app_id), with the downlinks published and the events emitted. */
  class Engine {
    var states: States
    var counter: nat
    var appId: Option<string>
    var log: seq<Downlink>
    var events: seq<StateChange>

    ghost predicate Valid()
      reads this
    {
      && counter < 256
      && Dict.DistinctKeys(states)
      && forall p :: p in states ==> Inv(p.1) && p.1.beaconId == p.0
    }

    constructor ()
      ensures Valid()
      ensures states == [] && counter == 0 && appId.None? && log == [] && events == []
    {
      states := [];
      counter := 0;
      appId := None;
      log := [];
      events := [];
    }

    /** set_app_id(app_id). */
    method SetAppId(id: Option<string>)
      requires Valid()
      modifies this
      ensures Valid()
      ensures appId == id
      ensures states == old(states) && counter == old(counter) && log == old(log) && events == old(events)
    {
      appId := id;
    }

    /** get_beacon_state(beacon_id). */
    method GetBeaconState(id: string) returns (st: BeaconState)
      requires Valid()
      modifies this
      ensures Valid()
      ensures states == WithState(old(states), id) && st == StateOf(old(states), id)
      ensures counter == old(counter) && appId == old(appId) && log == old(log) && events == old(events)
    {
      var found := Dict.Get(states, id);
      if found.None? {
        Dict.PutDistinct(states, id, DefaultState(id));
        Dict.PutElements(states, id, DefaultState(id));
        states := Dict.Put(states, id, DefaultState(id));
        st := DefaultState(id);
      } else {
        st := found.value;
      }
    }

    /** _send_downlink_to_device(device_eui, hex_cmd). */
    method SendDownlink(deviceEui: Option<string>, hex: string) returns (ok: bool)
      modifies this
      ensures ok <==> FromHex(hex).Some?
      ensures log == old(log) + SendEntry(deviceEui, appId, hex)
      ensures states == old(states) && counter == old(counter) && appId == old(appId) && events == old(events)
    {
      var target := if deviceEui.Some? && deviceEui.value != "" then deviceEui.value else MACRO_SENSOR_EUI;
      var app := appId;
      if !(app.Some? && app.value != "") {
        app := Some(MACRO_SENSOR_APP_ID);
      }
      var bytes := FromHex(hex);
      if bytes.None? {
        return false;
      }
      log := log + [Downlink(target, app.value, hex)];
      return true;
    }

    /** stop_alarm(): the mute command. */
    method StopAlarm(sensorEui: Option<string>) returns (ok: bool)
      modifies this
      ensures ok && log == old(log) + [Downlink(SendTarget(sensorEui), SendAppId(appId), STOP_HEX)]
      ensures states == old(states) && counter == old(counter) && appId == old(appId) && events == old(events)
    {
      StopConverts();
      ok := SendDownlink(sensorEui, STOP_HEX);
    }

    /** unmute_alarm(): the volume-high command B0000101. */
    method UnmuteAlarm(sensorEui: Option<string>) returns (ok: bool)
      modifies this
      ensures ok && log == old(log) + [Downlink(SendTarget(sensorEui), SendAppId(appId), UNMUTE_HEX)]
      ensures states == old(states) && counter == old(counter) && appId == old(appId) && events == old(events)
    {
      UnmuteConverts();
      ok := SendDownlink(sensorEui, UNMUTE_HEX);
    }

    /** trigger_alarm_with_sequence(): volume, duration, then the search
        command with the next message id; the result is that of the last
        send only. */
    method TriggerAlarmWithSequence(sensorEui: Option<string>, beaconMinor: string) returns (ok: bool)
      requires counter < 256
      modifies this
      ensures counter == NextMsgId(old(counter))
      ensures log == old(log) + SendLog(sensorEui, appId, TriggerHexes(old(counter), beaconMinor))
      ensures ok <==> FromHex(AcCommand(old(counter), beaconMinor)).Some?
      ensures states == old(states) && appId == old(appId) && events == old(events)
    {
      var minor := NormalizeMinor(beaconMinor);
      var _ := SendDownlink(sensorEui, CMD_VOLUME_HIGH);
      var _ := SendDownlink(sensorEui, CMD_DURATION);
      var msgId := Hex2(counter);
      var triggerHex := CMD_TRIGGER_BASE + msgId + BEACON_MAJOR + minor;
      assert triggerHex == AcCommand(old(counter), beaconMinor);
      counter := NextMsgId(counter);
      ok := SendDownlink(sensorEui, triggerHex);
      SendLog3(sensorEui, appId, CMD_VOLUME_HIGH, CMD_DURATION, triggerHex);
    }

    /** start_alarm(): the trigger sequence. */
    method StartAlarm(sensorEui: Option<string>, beaconMinor: string) returns (ok: bool)
      requires counter < 256
      modifies this
      ensures counter == NextMsgId(old(counter))
      ensures log == old(log) + SendLog(sensorEui, appId, TriggerHexes(old(counter), beaconMinor))
      ensures ok <==> FromHex(AcCommand(old(counter), beaconMinor)).Some?
      ensures states == old(states) && appId == old(appId) && events == old(events)
    {
      ok := TriggerAlarmWithSequence(sensorEui, beaconMinor);
    }

    /** manual_trigger_alarm(): the trigger sequence on MACRO_SENSOR_EUI. */
    method ManualTriggerAlarm(minorId: string) returns (ok: bool)
      requires counter < 256
      modifies this
      ensures counter == NextMsgId(old(counter))
      ensures log == old(log) + SendLog(Some(MACRO_SENSOR_EUI), appId, TriggerHexes(old(counter), minorId))
      ensures ok <==> FromHex(AcCommand(old(counter), minorId)).Some?
      ensures states == old(states) && appId == old(appId) && events == old(events)
    {
      ok := TriggerAlarmWithSequence(Some(MACRO_SENSOR_EUI), minorId);
    }

    /** manual_silence_alarm(): the mute command on MACRO_SENSOR_EUI. */
    method ManualSilenceAlarm() returns (ok: bool)
      modifies this
      ensures ok && log == old(log) + [Downlink(MACRO_SENSOR_EUI, SendAppId(appId), CMD_VOLUME_MUTE)]
      ensures states == old(states) && counter == old(counter) && appId == old(appId) && events == old(events)
    {
      MuteConverts();
      ok := SendDownlink(Some(MACRO_SENSOR_EUI), CMD_VOLUME_MUTE);
    }

    /** The safe-or-unsafe part of check_alarm_conditions(): the floor
        that heard the beacon, the beacon's home floor, and the verdict. */
    method ClassifyReading(rssi: int, key: string, gatewayEui: Option<string>, devices: DevicesConfig)
      returns (floor: Option<Floor>, safe: bool)
      ensures floor == DetectionFloor(devices, gatewayEui)
      ensures safe == IsSafeReading(rssi, floor, HomeFloorOf(devices.beacons, key))
    {
      floor := None;
      if gatewayEui.Some? && gatewayEui.value != "" {
        floor := GetFloorByDevice(devices, gatewayEui.value);
      }
      var floorId := if floor.Some? then floor.value.id else Some(UNKNOWN);
      var homeFloorId := FindHomeFloor(devices.beacons, key);
      var wrongFloor := false;
      var weakSignal := rssi < RSSI_THRESHOLD;
      if floorId != Some(UNKNOWN) && homeFloorId != Some(UNKNOWN) {
        if floorId != homeFloorId {
          wrongFloor := true;
        }
      }
      if wrongFloor {
        safe := false;
      } else if weakSignal {
        safe := false;
      } else {
        safe := true;
      }
    }

    /** The acting part of check_alarm_conditions() on the record `st`
        (the reading already stored in it): the startup silence, then the
        safe branch or the debounced alarm branch. */
    method Act(st: BeaconState, safe: bool, now: int, target: Option<string>, key: string, rssi: int)
      returns (st': BeaconState, verdict: Zone)
      requires counter < 256
      modifies this
      ensures counter < 256
      ensures (st', verdict) == (Step(st, safe, now).0, Step(st, safe, now).1)
      ensures log == old(log) + EffectLog(Step(st, safe, now).2, target, old(appId), old(counter), key)
      ensures counter == (if Step(st, safe, now).2.trigger then NextMsgId(old(counter)) else old(counter))
      ensures events == old(events) + EffectEvents(Step(st, safe, now).2, key, rssi)
      ensures states == old(states) && appId == old(appId)
    {
      if !st.initialized {
        st', verdict := ActStartup(st, safe, now, target, key, rssi);
      } else if safe {
        st', verdict := ActSafe(st, safe, now, target, key, rssi);
      } else {
        st', verdict := ActUnsafe(st, safe, now, target, key, rssi);
      }
    }

    /** The first reading of a record: silence whatever an earlier run
        left sounding and start in SAFE. */
    method ActStartup(st: BeaconState, safe: bool, now: int, target: Option<string>, key: string, rssi: int)
      returns (st': BeaconState, verdict: Zone)
      requires counter < 256 && !st.initialized
      modifies this
      ensures (st', verdict) == (Step(st, safe, now).0, Step(st, safe, now).1)
      ensures log == old(log) + EffectLog(Step(st, safe, now).2, target, old(appId), old(counter), key)
      ensures !Step(st, safe, now).2.trigger && counter == old(counter)
      ensures events == old(events) + EffectEvents(Step(st, safe, now).2, key, rssi)
      ensures states == old(states) && appId == old(appId)
    {
      EffectLogWithoutTrigger(Step(st, safe, now).2, target, appId, counter, key);
      var _ := StopAlarm(target);
      st' := st.(initialized := true, zone := Some(SAFE), weakStart := None);
      verdict := SAFE;
    }

    /** The safe branch: silence an active alarm, clear the timer, report
        the zone change. */
    method ActSafe(st: BeaconState, safe: bool, now: int, target: Option<string>, key: string, rssi: int)
      returns (st': BeaconState, verdict: Zone)
      requires counter < 256 && st.initialized && safe
      modifies this
      ensures (st', verdict) == (Step(st, safe, now).0, Step(st, safe, now).1)
      ensures log == old(log) + EffectLog(Step(st, safe, now).2, target, old(appId), old(counter), key)
      ensures !Step(st, safe, now).2.trigger && counter == old(counter)
      ensures events == old(events) + EffectEvents(Step(st, safe, now).2, key, rssi)
      ensures states == old(states) && appId == old(appId)
    {
      EffectLogWithoutTrigger(Step(st, safe, now).2, target, appId, counter, key);
      st' := st;
      if st'.alarmActive {
        var _ := StopAlarm(target);
        st' := st'.(alarmActive := false);
      }
      st' := st'.(zone := Some(SAFE), weakStart := None);
      if st.zone.Some? && st.zone != st'.zone {
        events := events + [StateChange(key, ZoneValue(st.zone.value), ZoneValue(SAFE), rssi)];
      }
      verdict := SAFE;
    }

    /** The unsafe branch: start the timer, or once DEBOUNCE seconds have
        passed, trigger the sequence if no alarm is active yet. */
    method ActUnsafe(st: BeaconState, safe: bool, now: int, target: Option<string>, key: string, rssi: int)
      returns (st': BeaconState, verdict: Zone)
      requires counter < 256 && st.initialized && !safe
      modifies this
      ensures (st', verdict) == (Step(st, safe, now).0, Step(st, safe, now).1)
      ensures log == old(log) + EffectLog(Step(st, safe, now).2, target, old(appId), old(counter), key)
      ensures counter == (if Step(st, safe, now).2.trigger then NextMsgId(old(counter)) else old(counter))
      ensures events == old(events) + EffectEvents(Step(st, safe, now).2, key, rssi)
      ensures states == old(states) && appId == old(appId)
    {
      var eff := Step(st, safe, now).2;
      if eff.trigger {
        EffectLogOfTrigger(eff, target, appId, counter, key);
      } else {
        EffectLogWithoutTrigger(eff, target, appId, counter, key);
      }
      st' := st;
      verdict := ALARM;
      if st'.weakStart.None? {
        st' := st'.(weakStart := Some(now), zone := Some(ALARM));
        if st.zone.Some? && st.zone != st'.zone {
          events := events + [StateChange(key, ZoneValue(st.zone.value), ZoneValue(ALARM), rssi)];
        }
      } else if now - st'.weakStart.value >= DEBOUNCE {
        if !st'.alarmActive {
          var _ := TriggerAlarmWithSequence(target, key);
          st' := st'.(alarmActive := true);
        }
        st' := st'.(zone := Some(ALARM));
      }
    }

    /** state_manager[key] = state: the evaluated record back into the table. */
    method Store(key: string, st: BeaconState)
      requires Dict.DistinctKeys(states) && counter < 256
      requires forall p :: p in states ==> Inv(p.1) && p.1.beaconId == p.0
      requires Inv(st) && st.beaconId == key
      modifies this
      ensures Valid()
      ensures states == Dict.Put(old(states), key, st)
      ensures counter == old(counter) && appId == old(appId) && log == old(log) && events == old(events)
    {
      Dict.PutDistinct(states, key, st);
      Dict.PutElements(states, key, st);
      states := Dict.Put(states, key, st);
    }

    /** check_alarm_conditions(rssi, minor_id, mqtt_client, gateway_eui),
        with load_devices() given as `devices` and time.time() as `now`:
        the record is updated as Step says, and the downlinks, the counter
        and the events follow its effects. */
    method CheckAlarmConditions(rssi: int, minorId: string, gatewayEui: Option<string>,
                                devices: DevicesConfig, now: int) returns (verdict: Zone)
      requires Valid()
      modifies this
      ensures Valid()
      ensures var key := NormalizeMinor(minorId);
              var floor := DetectionFloor(devices, gatewayEui);
              var r := Evaluate(old(states), rssi, key, floor, devices, now);
              && verdict == r.1
              && states == Dict.Put(old(states), key, r.0)
              && log == old(log) + EffectLog(r.2, TargetSensor(floor), old(appId), old(counter), key)
              && counter == (if r.2.trigger then NextMsgId(old(counter)) else old(counter))
              && events == old(events) + EffectEvents(r.2, key, rssi)
              && appId == old(appId)
    {
      var key := NormalizeMinor(minorId);
      ghost var before := states;
      var st, floor, safe := Record(rssi, key, gatewayEui, devices, now);
      var target := if floor.Some? then floor.value.macroSensorEui else Some(MACRO_SENSOR_EUI);
      StepPreservesInv(st, safe, now);
      ghost var recorded := st;
      st, verdict := Act(st, safe, now, target, key, rssi);
      PutAfterWithState(before, key, st);
      Store(key, st);
    }

    /** check_floor_security(): check_alarm_conditions() without a
        gateway, its verdict read back as a SecurityZone. The lookup
        SecurityZone[result] cannot fail, since every verdict is the value
        of a zone. */
    method CheckFloorSecurity(rssi: int, minorId: string, devices: DevicesConfig, now: int) returns (zone: Zone)
      requires Valid()
      modifies this
      ensures Valid()
      ensures var key := NormalizeMinor(minorId);
              var floor := DetectionFloor(devices, None);
              var r := Evaluate(old(states), rssi, key, floor, devices, now);
              && zone == r.1
              && ZoneValue(zone) in {"SAFE", "WEAK", "ALARM"}
              && states == Dict.Put(old(states), key, r.0)
              && log == old(log) + EffectLog(r.2, TargetSensor(floor), old(appId), old(counter), key)
              && counter == (if r.2.trigger then NextMsgId(old(counter)) else old(counter))
              && events == old(events) + EffectEvents(r.2, key, rssi)
              && appId == old(appId)
    {
      zone := CheckAlarmConditions(rssi, minorId, None, devices, now);
    }

    /** The first half of check_alarm_conditions(): fetch (or create) the
        record, store the reading and its floor in it, and classify it. */
    method Record(rssi: int, key: string, gatewayEui: Option<string>, devices: DevicesConfig, now: int)
      returns (st: BeaconState, floor: Option<Floor>, safe: bool)
      requires Valid()
      modifies this
      ensures Valid()
      ensures floor == DetectionFloor(devices, gatewayEui)
      ensures safe == IsSafeReading(rssi, floor, HomeFloorOf(devices.beacons, key))
      ensures st == StateOf(old(states), key).(lastRssi := rssi, lastSeen := now,
                                                currentLocation := DetectionFloorName(floor))
      ensures Inv(st) && st.beaconId == key
      ensures states == WithState(old(states), key)
      ensures counter == old(counter) && appId == old(appId) && log == old(log) && events == old(events)
    {
      StateOfValid(states, key);
      st := GetBeaconState(key);
      st := st.(lastRssi := rssi, lastSeen := now);
      floor, safe := ClassifyReading(rssi, key, gatewayEui, devices);
      var floorName := if floor.Some? then floor.value.name.GetOr("Unknown Floor") else "Unknown Floor";
      st := st.(currentLocation := floorName);
    }
  }
}
