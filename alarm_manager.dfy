/** The class-based alarm manager of python-app/src/services/alarm_manager.py.
    Each beacon has its own record (SAFE, WEAK, ALARM, LOST or UNKNOWN); a
    batch of detections updates the records one after the other, a weak
    signal held for strictly more than DEBOUNCE_SECONDS triggers the alarm
    once per incident, and a watchdog marks beacons LOST after
    MAX_SILENCE_DURATION seconds of silence. Every send goes to
    ALARM_TARGET_EUI and is a log entry; time.time() is the `now`
    parameter and get_watchlist() the `wl` parameter. */
module AlarmService {
  import opened Text
  import Dict
  import opened Settings
  import AlarmRules

  type Downlink = AlarmRules.Downlink

  /** The values of BeaconState.state. */
  datatype Status = UNKNOWN | SAFE | WEAK | ALARM | LOST

  /** A BeaconState object; times are whole seconds. */
  datatype Beacon = Beacon(
    beaconId: string,
    name: string,
    lastRssi: int,
    lastSeen: int,
    status: Status,
    weakStart: Option<int>,
    alarmTriggered: bool)

  /** BeaconState(beacon_id, name): an empty name falls back to
      "Beacon <id>". */
  function NewBeacon(id: string, name: string): (b: Beacon)
    ensures b.beaconId == id && b.status == UNKNOWN && b.lastSeen == 0 && b.lastRssi == 0
    ensures b.weakStart.None? && !b.alarmTriggered
    ensures b.name == (if name != "" then name else "Beacon " + id)
  {
    Beacon(id, if name != "" then name else "Beacon " + id, 0, 0, UNKNOWN, None, false)
  }

  /** The name get_beacon_state() gives a new record: the watchlist entry's
      name, or "Beacon <id>". */
  function WatchName(wl: Watchlist, id: string): string {
    match Dict.Get(wl, id)
    case None => "Beacon " + id
    case Some(info) => info.name
  }

  type Table = Dict.Dict<string, Beacon>

  /** The record get_beacon_state(id) returns. */
  function BeaconIn(table: Table, id: string, wl: Watchlist): Beacon {
    match Dict.Get(table, id)
    case None => NewBeacon(id, WatchName(wl, id))
    case Some(b) => b
  }

  /** The table after get_beacon_state(id). */
  function WithBeacon(table: Table, id: string, wl: Watchlist): Table {
    if id in Dict.Keys(table) then table else Dict.Put(table, id, NewBeacon(id, WatchName(wl, id)))
  }

  /** BeaconState.to_dict(): the row the GUI shows for a record. */
  datatype StateRow = StateRow(id: string, name: string, rssi: int, state: Status, lastSeen: int, alarmTriggered: bool)

  function ToRow(b: Beacon): StateRow {
    StateRow(b.beaconId, b.name, b.lastRssi, b.status, b.lastSeen, b.alarmTriggered)
  }

  /** get_all_states(): one row per record, in table order. */
  function AllStates(t: Table): (rows: seq<StateRow>)
    ensures |rows| == |t|
    ensures forall i :: 0 <= i < |t| ==> rows[i] == ToRow(t[i].1)
  {
    if t == [] then [] else [ToRow(t[0].1)] + AllStates(t[1..])
  }

  /** On a well-formed table the rows name their own keys, each beacon
      once, and a row showing ALARM or LOST shows the alarm as triggered. */
  lemma RowsFollowTable(t: Table)
    requires GoodTable(t)
    ensures forall i :: 0 <= i < |t| ==> AllStates(t)[i].id == t[i].0
    ensures forall i, j :: 0 <= i < j < |t| ==> AllStates(t)[i].id != AllStates(t)[j].id
    ensures forall i :: 0 <= i < |t| && (AllStates(t)[i].state == ALARM || AllStates(t)[i].state == LOST) ==>
              AllStates(t)[i].alarmTriggered
  {
    var rows := AllStates(t);
    forall i | 0 <= i < |t|
      ensures rows[i].id == t[i].0
      ensures rows[i].state == ALARM || rows[i].state == LOST ==> rows[i].alarmTriggered
    {
      assert t[i] in t;
    }
  }

  /** The consistency of a record between calls: SAFE and UNKNOWN records
      have no timer and no latched alarm, ALARM and LOST ones have the
      alarm latched, WEAK and ALARM ones have a running timer. */
  predicate Consistent(b: Beacon) {
    && (b.status == SAFE || b.status == UNKNOWN ==> b.weakStart.None? && !b.alarmTriggered)
    && (b.status == ALARM || b.status == LOST ==> b.alarmTriggered)
    && (b.status == WEAK || b.status == ALARM ==> b.weakStart.Some?)
  }

  /** One turn of _init_beacon_states(): a record for the entry's id,
      named as the entry, unless the id already has one. */
  function InitEntry(table: Table, entry: (string, WatchInfo)): Table {
    if entry.0 in Dict.Keys(table) then table else Dict.Put(table, entry.0, NewBeacon(entry.0, entry.1.name))
  }

  /** _init_beacon_states(): InitEntry for each watchlist entry, in
      watchlist order. */
  function InitFrom(table: Table, wl: Watchlist): Table
    decreases |wl|
  {
    if wl == [] then table else InitFrom(InitEntry(table, wl[0]), wl[1..])
  }

  /** A new record per watchlist entry, in watchlist order. */
  function FreshRecords(wl: Watchlist): (r: Table)
    ensures |r| == |wl|
    ensures forall i :: 0 <= i < |wl| ==> r[i] == (wl[i].0, NewBeacon(wl[i].0, wl[i].1.name))
  {
    if wl == [] then [] else [(wl[0].0, NewBeacon(wl[0].0, wl[0].1.name))] + FreshRecords(wl[1..])
  }

  /** Over ids the table does not have yet, initialisation appends one new
      record per watchlist entry, in watchlist order, so an AlarmManager
      starts with exactly the watchlist's ids. */
  lemma {:induction false} InitFollowsWatchlist(table: Table, wl: Watchlist)
    requires Dict.DistinctKeys(wl)
    requires forall i :: 0 <= i < |wl| ==> wl[i].0 !in Dict.Keys(table)
    ensures InitFrom(table, wl) == table + FreshRecords(wl)
    decreases |wl|
  {
    if wl != [] {
      var x := (wl[0].0, NewBeacon(wl[0].0, wl[0].1.name));
      InitHead(table, wl);
      InitFollowsWatchlist(table + [x], wl[1..]);
      FreshCons(table, wl);
    }
  }

  lemma FreshCons(table: Table, wl: Watchlist)
    requires wl != []
    ensures (table + [(wl[0].0, NewBeacon(wl[0].0, wl[0].1.name))]) + FreshRecords(wl[1..]) == table + FreshRecords(wl)
  {
  }

  /** The first watchlist entry appends its record, and the rest of the
      watchlist meets the same conditions over the longer table. */
  lemma InitHead(table: Table, wl: Watchlist)
    requires wl != [] && Dict.DistinctKeys(wl)
    requires forall i :: 0 <= i < |wl| ==> wl[i].0 !in Dict.Keys(table)
    ensures var x := (wl[0].0, NewBeacon(wl[0].0, wl[0].1.name));
            && InitEntry(table, wl[0]) == table + [x]
            && Dict.DistinctKeys(wl[1..])
            && forall i :: 0 <= i < |wl[1..]| ==> wl[1..][i].0 !in Dict.Keys(table + [x])
  {
    var x := (wl[0].0, NewBeacon(wl[0].0, wl[0].1.name));
    Dict.PutNew(table, x.0, x.1);
    assert Dict.Keys(table + [x]) == Dict.Keys(table) + [x.0];
    forall i | 0 <= i < |wl[1..]| ensures wl[1..][i].0 !in Dict.Keys(table + [x]) {
      assert wl[1..][i] == wl[i + 1];
    }
    Dict.DistinctTail(wl);
  }

  /** A new AlarmManager tracks exactly the watchlist's ids, in order. */
  lemma InitKeys(wl: Watchlist)
    requires Dict.DistinctKeys(wl)
    ensures Dict.Keys(InitFrom([], wl)) == Dict.Keys(wl)
  {
    InitFollowsWatchlist([], wl);
    var r := FreshRecords(wl);
    assert [] + r == r;
    assert forall i :: 0 <= i < |wl| ==> Dict.Keys(r)[i] == Dict.Keys(wl)[i];
  }

  /** One turn of the initialisation loop. */
  lemma InitStep(table: Table, wl: Watchlist, i: nat)
    requires i < |wl|
    ensures InitFrom(table, wl[i..]) == InitFrom(InitEntry(table, wl[i]), wl[i + 1..])
  {
    assert wl[i..][1..] == wl[i + 1..];
  }

  // ---------------------------------------------------------------------
  // Commands
  // ---------------------------------------------------------------------

  /** What send_downlink(app_id, hex) publishes to ALARM_TARGET_EUI: one
      entry when the hex converts to bytes, nothing when bytes.fromhex()
      raises (the exception is caught). */
  function Publish(appId: string, hex: string): seq<Downlink>
  {
    if FromHex(hex).Some? then [AlarmRules.Downlink(ALARM_TARGET_EUI, appId, hex)] else []
  }

  /** build_alarm_trigger_cmd(beacon_minor_hex) with message id `counter`:
      "AC", the id as two upper-case hex digits, then the minor ("0000"
      when none is given) upper-cased and padded to four characters. */
  function TriggerCmd(counter: nat, minor: Option<string>): (cmd: string)
    requires counter < 256
    ensures |cmd| >= 8 && cmd[..2] == "AC"
    ensures cmd[2..4] == Hex2(counter) && HexPairValue(cmd[2..4]) == counter
    ensures cmd[4..] == AlarmRules.NormalizeMinor(if AlarmRules.Truthy(minor) then minor.value else "0000")
  {
    Hex2RoundTrip(counter);
    "AC" + Hex2(counter) + AlarmRules.NormalizeMinor(if AlarmRules.Truthy(minor) then minor.value else "0000")
  }

  /** The state the manager's sends depend on and change. */
  datatype World = World(states: Table, counter: nat, log: seq<Downlink>)

  /** trigger_alarm(app_id, beacon_minor): nothing without an app id;
      otherwise the unmute command, then the trigger command with the next
      message id. */
  function TriggerSends(w: World, appId: Option<string>, minor: string): (r: World)
    requires w.counter < 256
    ensures r.states == w.states && r.counter < 256
    ensures !AlarmRules.Truthy(appId) ==> r == w
  {
    if !AlarmRules.Truthy(appId) then w
    else
      var cmd := TriggerCmd(w.counter, Some(minor));
      World(w.states, AlarmRules.NextMsgId(w.counter),
            w.log + Publish(appId.value, ALARM_VOL_HIGH_HEX) + Publish(appId.value, cmd))
  }

  /** silence_alarm(app_id): nothing without an app id, otherwise the mute
      command. */
  function SilenceSends(w: World, appId: Option<string>): (r: World)
    ensures r.states == w.states && r.counter == w.counter
    ensures !AlarmRules.Truthy(appId) ==> r == w
  {
    if !AlarmRules.Truthy(appId) then w
    else w.(log := w.log + Publish(appId.value, ALARM_OFF_HEX))
  }

  /** The mute and unmute commands are valid hex. */
  lemma AlarmCommandsConvert()
    ensures FromHex(ALARM_OFF_HEX).Some? && FromHex(ALARM_VOL_HIGH_HEX).Some?
  {
    FromHexOfDigits(ALARM_OFF_HEX);
    FromHexOfDigits(ALARM_VOL_HIGH_HEX);
  }

  /** With an app id, the trigger sends the unmute command and then the
      trigger command carrying the old counter, and advances the counter. */
  lemma TriggerSendsOrder(w: World, appId: Option<string>, minor: string)
    requires w.counter < 256 && AlarmRules.Truthy(appId)
    ensures var r := TriggerSends(w, appId, minor);
            && r.counter == AlarmRules.NextMsgId(w.counter)
            && |r.log| >= |w.log| + 1 && r.log[..|w.log|] == w.log
            && r.log[|w.log|] == AlarmRules.Downlink(ALARM_TARGET_EUI, appId.value, ALARM_VOL_HIGH_HEX)
            && |r.log| <= |w.log| + 2
            && (|r.log| == |w.log| + 2 <==> FromHex(TriggerCmd(w.counter, Some(minor))).Some?)
            && (|r.log| == |w.log| + 2 ==> r.log[|w.log| + 1].hex == TriggerCmd(w.counter, Some(minor)))
  {
    AlarmCommandsConvert();
  }

  /** With an app id, the silence sends exactly the mute command. */
  lemma SilenceSendsMute(w: World, appId: Option<string>)
    requires AlarmRules.Truthy(appId)
    ensures SilenceSends(w, appId).log == w.log + [AlarmRules.Downlink(ALARM_TARGET_EUI, appId.value, ALARM_OFF_HEX)]
  {
    AlarmCommandsConvert();
  }

  /** trigger_alarm_with_unmute(): the unmute command then "AC00" and the
      padded minor, both to the given device; the result is the
      conjunction of the two sends. */
  function TriggerWithUnmute(deviceEui: string, beaconMinor: string, appId: string): (r: (seq<Downlink>, bool))
  {
    var cmd := "AC00" + AlarmRules.NormalizeMinor(beaconMinor);
    var ok1 := FromHex(ALARM_VOL_HIGH_HEX).Some?;
    var ok2 := FromHex(cmd).Some?;
    var sends := (if ok1 then [AlarmRules.Downlink(deviceEui, appId, ALARM_VOL_HIGH_HEX)] else []) +
                 (if ok2 then [AlarmRules.Downlink(deviceEui, appId, cmd)] else []);
    (sends, ok1 && ok2)
  }

  /** The unmute command always goes out first; the result is true exactly
      when the trigger command went out too, which it does whenever the
      padded minor is four hex digits. */
  lemma UnmuteThenTrigger(deviceEui: string, beaconMinor: string, appId: string)
    ensures var (sends, ok) := TriggerWithUnmute(deviceEui, beaconMinor, appId);
            && 1 <= |sends| <= 2
            && sends[0] == AlarmRules.Downlink(deviceEui, appId, ALARM_VOL_HIGH_HEX)
            && (ok <==> |sends| == 2)
            && (ok ==> sends[1].hex == "AC00" + AlarmRules.NormalizeMinor(beaconMinor))
    ensures |AlarmRules.NormalizeMinor(beaconMinor)| == 4 && AllHexDigits(AlarmRules.NormalizeMinor(beaconMinor)) ==>
              TriggerWithUnmute(deviceEui, beaconMinor, appId).1
  {
    AlarmCommandsConvert();
    var m := AlarmRules.NormalizeMinor(beaconMinor);
    if |m| == 4 && AllHexDigits(m) {
      var cmd := "AC00" + m;
      forall i | 0 <= i < |cmd| ensures IsHexDigit(cmd[i]) {
        if i >= 4 {
          assert cmd[i] == m[i - 4];
        }
      }
      FromHexOfDigits(cmd);
    }
  }

  // ---------------------------------------------------------------------
  // One beacon
  // ---------------------------------------------------------------------

  /** What an evaluation asks for besides the record update. */
  datatype Request = Request(silence: bool, trigger: bool)

  /** The evaluation of one reading in process_beacon_data(), after
      last_rssi and last_seen have been stored in `b`. */
  function Evaluate(b: Beacon, safe: bool, now: int): (r: (Beacon, Request))
    ensures r.0.beaconId == b.beaconId && r.0.name == b.name
    ensures r.0.lastRssi == b.lastRssi && r.0.lastSeen == b.lastSeen
    ensures !(r.1.silence && r.1.trigger)
  {
    if safe then
      if b.status != SAFE then
        (b.(weakStart := None, alarmTriggered := false, status := SAFE), Request(b.alarmTriggered, false))
      else (b.(weakStart := None), Request(false, false))
    else if b.weakStart.None? then
      (b.(weakStart := Some(now), status := WEAK), Request(false, false))
    else if now - b.weakStart.value > DEBOUNCE_SECONDS && !b.alarmTriggered then
      (b.(alarmTriggered := true, status := ALARM), Request(false, true))
    else (b, Request(false, false))
  }

  /** Every evaluation keeps a record consistent, and a new record is
      consistent. */
  lemma EvaluatePreserves(b: Beacon, safe: bool, now: int)
    requires Consistent(b)
    ensures Consistent(Evaluate(b, safe, now).0)
    ensures Consistent(NewBeacon(b.beaconId, b.name))
  {
  }

  /** A safe reading ends in SAFE with no timer and no latched alarm, and
      silences exactly when the record was not SAFE and had an alarm
      latched. */
  lemma SafeReading(b: Beacon, now: int)
    ensures var (b', req) := Evaluate(b, true, now);
            && b'.status == SAFE && b'.weakStart.None?
            && (b.status != SAFE ==> !b'.alarmTriggered)
            && (req.silence <==> b.status != SAFE && b.alarmTriggered) && !req.trigger
  {
  }

  /** The first weak reading starts the timer at `now`, labels the record
      WEAK and sends nothing. */
  lemma FirstWeakReading(b: Beacon, now: int)
    requires b.weakStart.None?
    ensures var (b', req) := Evaluate(b, false, now);
            && b'.status == WEAK && b'.weakStart == Some(now) && b'.alarmTriggered == b.alarmTriggered
            && req == Request(false, false)
  {
  }

  /** Strict debounce: a weak reading triggers exactly when strictly more
      than DEBOUNCE_SECONDS have passed since the timer started and no
      alarm is latched; then it latches the alarm and labels the record
      ALARM. Otherwise the record is left as it was. */
  lemma StrictDebounce(b: Beacon, now: int)
    requires b.weakStart.Some?
    ensures var (b', req) := Evaluate(b, false, now);
            && !req.silence
            && (req.trigger <==> now - b.weakStart.value > DEBOUNCE_SECONDS && !b.alarmTriggered)
            && (req.trigger ==> b' == b.(alarmTriggered := true, status := ALARM))
            && (!req.trigger ==> b' == b)
  {
  }

  /** The two engines disagree exactly at the boundary: a weak signal held
      for DEBOUNCE_SECONDS triggers in the rule engine (>=) but not here
      (>). */
  lemma DebounceBoundary(b: Beacon, st: AlarmRules.BeaconState, start: int)
    requires b.weakStart == Some(start) && !b.alarmTriggered
    requires st.initialized && st.weakStart == Some(start) && !st.alarmActive
    ensures !Evaluate(b, false, start + DEBOUNCE_SECONDS).1.trigger
    ensures AlarmRules.Step(st, false, start + DEBOUNCE_SECONDS).2.trigger
    ensures Evaluate(b, false, start + DEBOUNCE_SECONDS + 1).1.trigger
  {
  }

  /** The watchdog's view of one record: never-seen records are skipped; a
      record silent for more than MAX_SILENCE_DURATION and not yet LOST
      becomes LOST with the alarm latched, and asks for a trigger only if
      none was latched. */
  function WatchStep(b: Beacon, now: int): (r: (Beacon, bool))
    ensures r.0.beaconId == b.beaconId && r.0.lastSeen == b.lastSeen
  {
    if b.lastSeen == 0 then (b, false)
    else if now - b.lastSeen > MAX_SILENCE_DURATION && b.status != LOST then
      (b.(alarmTriggered := true, status := LOST), !b.alarmTriggered)
    else (b, false)
  }

  /** The watchdog keeps records consistent; a second tick without a new
      reading changes nothing and triggers nothing; a record never seen is
      never touched. */
  lemma WatchdogOnce(b: Beacon, now: int, later: int)
    requires Consistent(b)
    requires now <= later
    ensures Consistent(WatchStep(b, now).0)
    ensures var b' := WatchStep(b, now).0;
            now - b.lastSeen > MAX_SILENCE_DURATION ==> WatchStep(b', later) == (b', false)
    ensures b.lastSeen == 0 ==> WatchStep(b, now) == (b, false)
    ensures WatchStep(b, now).1 ==> WatchStep(b, now).0.status == LOST && !b.alarmTriggered
  {
  }

  /** What happens to one beacon: readings of its rssi (which store the
      rssi and the time before they are evaluated) and watchdog ticks. */
  datatype Event = Reading(at: int, rssi: int) | Tick(at: int)

  /** A reading that is not safe. */
  predicate Weak(e: Event) {
    e.Reading? ==> e.rssi < SAFE_RSSI_THRESHOLD
  }

  /** One event applied to the record, and whether it asked for a trigger. */
  function EventStep(b: Beacon, e: Event): (Beacon, bool) {
    match e
    case Reading(now, rssi) =>
      var (x, req) := Evaluate(b.(lastRssi := rssi, lastSeen := now), rssi >= SAFE_RSSI_THRESHOLD, now);
      (x, req.trigger)
    case Tick(now) => WatchStep(b, now)
  }

  /** The record after the events, and how many triggers they asked for. */
  function Incident(b: Beacon, events: seq<Event>): (r: (Beacon, nat))
    decreases |events|
  {
    if events == [] then (b, 0)
    else
      var (b', t) := EventStep(b, events[0]);
      var (last, n) := Incident(b', events[1..]);
      (last, n + if t then 1 else 0)
  }

  /** Once per incident: between safe readings the alarm is triggered at
      most once, by the debounce or by the watchdog, and never when it is
      already latched; once latched it stays latched. */
  lemma {:induction false} TriggersOncePerIncident(b: Beacon, events: seq<Event>)
    requires forall k :: 0 <= k < |events| ==> Weak(events[k])
    ensures Incident(b, events).1 <= (if b.alarmTriggered then 0 else 1)
    ensures b.alarmTriggered ==> Incident(b, events).0.alarmTriggered
    decreases |events|
  {
    if events != [] {
      assert Weak(events[0]);
      var (b', t) := EventStep(b, events[0]);
      assert t ==> b'.alarmTriggered && !b.alarmTriggered;
      assert b.alarmTriggered ==> b'.alarmTriggered;
      TriggersOncePerIncident(b', events[1..]);
    }
  }

  // ---------------------------------------------------------------------
  // Batches and the watchdog sweep
  // ---------------------------------------------------------------------

  /** A beacon dict from the decoder: "matched_id", "minor", "id" and
      "rssi", None standing for an absent key. */
  datatype Detection = Detection(matchedId: Option<string>, minor: Option<string>, id: Option<string>, rssi: Option<int>)

  /** The key a detection is filed under: "matched_id" when truthy, else
      "minor" when present, else "id"; upper-cased; None when that is
      falsy (the detection is skipped). */
  function DetectionKey(d: Detection): (key: Option<string>)
    ensures key.Some? ==> key.value != "" && IsUpperCased(key.value)
  {
    var m := if AlarmRules.Truthy(d.matchedId) then d.matchedId else if d.minor.Some? then d.minor else d.id;
    if AlarmRules.Truthy(m) then UpperIsUpperCased(m.value); Some(Upper(m.value)) else None
  }

  /** The sends an evaluation asks for. */
  function Requested(w: World, req: Request, appId: Option<string>, key: string): (r: World)
    requires w.counter < 256
    ensures r.states == w.states && r.counter < 256
  {
    if req.silence then SilenceSends(w, appId)
    else if req.trigger then TriggerSends(w, appId, key)
    else w
  }

  /** The sends do not depend on the table. */
  lemma RequestedAnyTable(w: World, req: Request, appId: Option<string>, key: string, t: Table)
    requires w.counter < 256
    ensures Requested(w.(states := t), req, appId, key) == Requested(w, req, appId, key).(states := t)
  {
  }

  /** One reading of the beacon filed under `key`. */
  function ProcessKey(w: World, key: string, rssi: int, appId: Option<string>, now: int, wl: Watchlist): (r: World)
    requires w.counter < 256
    ensures r.counter < 256
  {
    var b := BeaconIn(w.states, key, wl).(lastRssi := rssi, lastSeen := now);
    var (b', req) := Evaluate(b, rssi >= SAFE_RSSI_THRESHOLD, now);
    Requested(w.(states := Dict.Put(w.states, key, b')), req, appId, key)
  }

  /** ProcessKey as the sends of the evaluation followed by the store. */
  lemma ProcessKeyIs(w: World, key: string, rssi: int, appId: Option<string>, now: int, wl: Watchlist)
    requires w.counter < 256
    ensures var e := Evaluate(BeaconIn(w.states, key, wl).(lastRssi := rssi, lastSeen := now), rssi >= SAFE_RSSI_THRESHOLD, now);
            ProcessKey(w, key, rssi, appId, now, wl) == Requested(w, e.1, appId, key).(states := Dict.Put(w.states, key, e.0))
  {
    var e := Evaluate(BeaconIn(w.states, key, wl).(lastRssi := rssi, lastSeen := now), rssi >= SAFE_RSSI_THRESHOLD, now);
    RequestedAnyTable(w, e.1, appId, key, Dict.Put(w.states, key, e.0));
  }

  /** Storing under a key after get_beacon_state() fetched it is storing
      into the table as it was before the fetch. */
  lemma PutAfterFetch(table: Table, key: string, wl: Watchlist, b: Beacon)
    ensures Dict.Put(WithBeacon(table, key, wl), key, b) == Dict.Put(table, key, b)
  {
    if key !in Dict.Keys(table) {
      Dict.PutPut(table, key, NewBeacon(key, WatchName(wl, key)), b);
    }
  }

  /** One detection of process_beacon_data(). */
  function ProcessOne(w: World, d: Detection, appId: Option<string>, now: int, wl: Watchlist): (r: World)
    requires w.counter < 256
    ensures r.counter < 256
  {
    match DetectionKey(d)
    case None => w
    case Some(key) => ProcessKey(w, key, d.rssi.GetOr(-999), appId, now, wl)
  }

  /** process_beacon_data(beacons, app_id): the detections in list order. */
  function ProcessAll(w: World, ds: seq<Detection>, appId: Option<string>, now: int, wl: Watchlist): (r: World)
    requires w.counter < 256
    ensures r.counter < 256
    decreases |ds|
  {
    if ds == [] then w else ProcessAll(ProcessOne(w, ds[0], appId, now, wl), ds[1..], appId, now, wl)
  }

  /** A detection with a key leaves its record evaluated and stored under
      that key, seen at `now` with its rssi (-999 when absent); the alarm
      is latched even when no app id lets the trigger go out, in which
      case nothing is sent and the counter stays. */
  lemma ProcessOneRecord(w: World, d: Detection, appId: Option<string>, now: int, wl: Watchlist)
    requires w.counter < 256 && DetectionKey(d).Some?
    ensures var key := DetectionKey(d).value;
            var r := ProcessOne(w, d, appId, now, wl);
            var b := BeaconIn(w.states, key, wl).(lastRssi := d.rssi.GetOr(-999), lastSeen := now);
            && Dict.Get(r.states, key) == Some(Evaluate(b, d.rssi.GetOr(-999) >= SAFE_RSSI_THRESHOLD, now).0)
            && Dict.Get(r.states, key).value.lastSeen == now
            && (!AlarmRules.Truthy(appId) ==> r.log == w.log && r.counter == w.counter)
  {
    var key := DetectionKey(d).value;
    var b := BeaconIn(w.states, key, wl).(lastRssi := d.rssi.GetOr(-999), lastSeen := now);
    var b' := Evaluate(b, d.rssi.GetOr(-999) >= SAFE_RSSI_THRESHOLD, now).0;
    Dict.PutGet(w.states, key, b', key);
  }

  /** A detection with a key moves the record filed under it by one
      Reading event of Incident, and a watchdog sweep moves every record by
      one Tick. */
  lemma EventsAreTheManagers(w: World, d: Detection, appId: Option<string>, now: int, wl: Watchlist)
    requires w.counter < 256 && DetectionKey(d).Some?
    ensures var key := DetectionKey(d).value;
            Dict.Get(ProcessOne(w, d, appId, now, wl).states, key)
              == Some(EventStep(BeaconIn(w.states, key, wl), Reading(now, d.rssi.GetOr(-999))).0)
    ensures forall j :: 0 <= j < |w.states| ==>
              WatchFrom(w, 0, appId, now).states[j].1 == EventStep(w.states[j].1, Tick(now)).0
  {
    ProcessOneRecord(w, d, appId, now, wl);
    WatchFromRecords(w, 0, appId, now);
  }

  /** A detection without a key changes nothing. */
  lemma ProcessSkips(w: World, d: Detection, appId: Option<string>, now: int, wl: Watchlist)
    requires w.counter < 256 && DetectionKey(d).None?
    ensures ProcessOne(w, d, appId, now, wl) == w
  {
  }

  /** check_watchdog(app_id) from entry i on, in table order. */
  function WatchFrom(w: World, i: nat, appId: Option<string>, now: int): (r: World)
    requires w.counter < 256
    ensures |r.states| == |w.states| && r.counter < 256
    ensures forall j :: 0 <= j < |w.states| ==> r.states[j].0 == w.states[j].0
    decreases |w.states| - i
  {
    if i >= |w.states| then w
    else
      var (id, b) := w.states[i];
      var (b', t) := WatchStep(b, now);
      var w' := w.(states := w.states[i := (id, b')]);
      WatchFrom(if t then TriggerSends(w', appId, id) else w', i + 1, appId, now)
  }

  /** The sweep from entry i on leaves the entries before i alone. */
  lemma {:induction false} WatchFromKeepsDone(w: World, i: nat, appId: Option<string>, now: int)
    requires w.counter < 256
    ensures forall j :: 0 <= j < i && j < |w.states| ==> WatchFrom(w, i, appId, now).states[j] == w.states[j]
    decreases |w.states| - i
  {
    if i < |w.states| {
      var (id, b) := w.states[i];
      var (b', t) := WatchStep(b, now);
      var w' := w.(states := w.states[i := (id, b')]);
      var w'' := if t then TriggerSends(w', appId, id) else w';
      WatchFromKeepsDone(w'', i + 1, appId, now);
    }
  }

  /** The sweep only rewrites records in place: every record from entry i
      on becomes the watchdog's view of the old one (the keys stay, by
      WatchFrom's contract). */
  lemma {:induction false} WatchFromRecords(w: World, i: nat, appId: Option<string>, now: int)
    requires w.counter < 256
    ensures forall j :: i <= j < |w.states| ==>
              WatchFrom(w, i, appId, now).states[j].1 == WatchStep(w.states[j].1, now).0
    decreases |w.states| - i
  {
    if i < |w.states| {
      var (id, b) := w.states[i];
      var (b', t) := WatchStep(b, now);
      var w' := w.(states := w.states[i := (id, b')]);
      var w'' := if t then TriggerSends(w', appId, id) else w';
      WatchFromKeepsDone(w'', i + 1, appId, now);
      WatchFromRecords(w'', i + 1, appId, now);
    }
  }

  // ---------------------------------------------------------------------
  // The manager object
  // ---------------------------------------------------------------------

  /** An AlarmManager: its beacon_states dict, in insertion order, its
      message-id counter and what it published. */
  class AlarmManager {
    var states: Table
    var counter: nat
    var log: seq<Downlink>

    function Model(): World
      reads this
    {
      World(states, counter, log)
    }

    ghost predicate Valid()
      reads this
    {
      counter < 256 && GoodTable(states)
    }

    /** AlarmManager(mqtt_client): an empty table, then a record per
        watchlist entry. */
    constructor (wl: Watchlist)
      ensures Valid()
      ensures states == InitFrom([], wl) && counter == 0 && log == []
    {
      states := [];
      counter := 0;
      log := [];
      new;
      InitBeaconStates(wl);
    }

    /** _init_beacon_states(). */
    method InitBeaconStates(wl: Watchlist)
      requires Valid()
      modifies this
      ensures Valid()
      ensures states == InitFrom(old(states), wl) && counter == old(counter) && log == old(log)
    {
      var i := 0;
      while i < |wl|
        invariant 0 <= i <= |wl|
        invariant Valid()
        invariant InitFrom(states, wl[i..]) == InitFrom(old(states), wl)
        invariant counter == old(counter) && log == old(log)
      {
        InitStep(states, wl, i);
        var (id, info) := wl[i];
        if id !in Dict.Keys(states) {
          var b := NewBeacon(id, info.name);
          Dict.PutDistinct(states, id, b);
          Dict.PutElements(states, id, b);
          states := Dict.Put(states, id, b);
        }
        i := i + 1;
      }
    }

    /** get_beacon_state(beacon_id). */
    method GetBeaconState(id: string, wl: Watchlist) returns (b: Beacon)
      requires Valid()
      modifies this
      ensures Valid()
      ensures states == WithBeacon(old(states), id, wl) && b == BeaconIn(old(states), id, wl)
      ensures counter == old(counter) && log == old(log)
    {
      WithBeaconGood(states, id, wl);
      var found := Dict.Get(states, id);
      if found.None? {
        b := NewBeacon(id, WatchName(wl, id));
        states := Dict.Put(states, id, b);
      } else {
        b := found.value;
      }
    }

    /** build_alarm_trigger_cmd(beacon_minor_hex). */
    method BuildAlarmTriggerCmd(minor: Option<string>) returns (cmd: string)
      requires counter < 256
      modifies this
      ensures cmd == TriggerCmd(old(counter), minor)
      ensures counter == AlarmRules.NextMsgId(old(counter))
      ensures states == old(states) && log == old(log)
    {
      var m := if minor.Some? && minor.value != "" then minor.value else "0000";
      var msgId := Hex2(counter);
      counter := AlarmRules.NextMsgId(counter);
      m := ZFill(Upper(m), 4);
      cmd := "AC" + msgId + m;
    }

    /** send_downlink(app_id, hex_cmd). */
    method SendDownlink(appId: string, hex: string)
      modifies this
      ensures log == old(log) + Publish(appId, hex)
      ensures states == old(states) && counter == old(counter)
    {
      var bytes := FromHex(hex);
      if bytes.Some? {
        log := log + [AlarmRules.Downlink(ALARM_TARGET_EUI, appId, hex)];
      }
    }

    /** trigger_alarm(app_id, reason, beacon_minor). */
    method TriggerAlarm(appId: Option<string>, beaconMinor: string)
      requires counter < 256
      modifies this
      ensures Model() == TriggerSends(old(Model()), appId, beaconMinor)
    {
      if !(appId.Some? && appId.value != "") {
        return;
      }
      SendDownlink(appId.value, ALARM_VOL_HIGH_HEX);
      var cmd := BuildAlarmTriggerCmd(Some(beaconMinor));
      SendDownlink(appId.value, cmd);
    }

    /** silence_alarm(app_id, beacon_id). */
    method SilenceAlarm(appId: Option<string>)
      modifies this
      ensures Model() == SilenceSends(old(Model()), appId)
    {
      if !(appId.Some? && appId.value != "") {
        return;
      }
      SendDownlink(appId.value, ALARM_OFF_HEX);
    }

    /** The body of process_beacon_data()'s loop for one detection. */
    method ProcessDetection(d: Detection, appId: Option<string>, now: int, wl: Watchlist)
      requires Valid()
      modifies this
      ensures Valid()
      ensures Model() == ProcessOne(old(Model()), d, appId, now, wl)
    {
      var matched := if d.matchedId.Some? && d.matchedId.value != "" then d.matchedId
                     else if d.minor.Some? then d.minor else d.id;
      if !(matched.Some? && matched.value != "") {
        return;
      }
      ProcessReading(Upper(matched.value), d.rssi.GetOr(-999), appId, now, wl);
    }

    /** The reading of the beacon filed under `key`: fetch or create its
        record, store the reading, evaluate it and send what it asks for. */
    method ProcessReading(key: string, rssi: int, appId: Option<string>, now: int, wl: Watchlist)
      requires Valid()
      modifies this
      ensures Valid()
      ensures Model() == ProcessKey(old(Model()), key, rssi, appId, now, wl)
    {
      ghost var before := states;
      var b := GetBeaconState(key, wl);
      b := b.(lastRssi := rssi, lastSeen := now);
      ConsistentIn(before, key, wl);
      ghost var fetched := Model();
      b := EvaluateReading(b, rssi, now, appId, key);
      PutAfterFetch(before, key, wl, b);
      Store(key, b);
      ProcessKeyIs(old(Model()), key, rssi, appId, now, wl);
      RequestedAnyTable(old(Model()), Evaluate(BeaconIn(before, key, wl).(lastRssi := rssi, lastSeen := now), rssi >= SAFE_RSSI_THRESHOLD, now).1, appId, key, fetched.states);
    }

    /** The state machine of one reading on the fetched record `b`, with
        the sends it asks for. */
    method EvaluateReading(b: Beacon, rssi: int, now: int, appId: Option<string>, key: string)
      returns (b': Beacon)
      requires counter < 256 && b.lastRssi == rssi
      modifies this
      ensures b' == Evaluate(b, rssi >= SAFE_RSSI_THRESHOLD, now).0
      ensures Model() == Requested(old(Model()), Evaluate(b, rssi >= SAFE_RSSI_THRESHOLD, now).1, appId, key)
    {
      b' := b;
      if rssi >= SAFE_RSSI_THRESHOLD {
        b' := b'.(weakStart := None);
        if b'.status != SAFE {
          if b'.alarmTriggered {
            SilenceAlarm(appId);
            b' := b'.(alarmTriggered := false);
          }
          b' := b'.(status := SAFE);
        }
      } else if b'.weakStart.None? {
        b' := b'.(weakStart := Some(now), status := WEAK);
      } else {
        var duration := now - b'.weakStart.value;
        if duration > DEBOUNCE_SECONDS {
          if !b'.alarmTriggered {
            TriggerAlarm(appId, key);
            b' := b'.(alarmTriggered := true, status := ALARM);
          }
        }
      }
    }

    /** beacon_states[key] = the evaluated record. */
    method Store(key: string, b: Beacon)
      requires counter < 256 && GoodTable(states)
      requires Consistent(b) && b.beaconId == key
      modifies this
      ensures Valid()
      ensures states == Dict.Put(old(states), key, b) && counter == old(counter) && log == old(log)
    {
      Dict.PutDistinct(states, key, b);
      Dict.PutElements(states, key, b);
      states := Dict.Put(states, key, b);
    }

    /** process_beacon_data(beacons, app_id). */
    method ProcessBeaconData(beacons: seq<Detection>, appId: Option<string>, now: int, wl: Watchlist)
      requires Valid()
      modifies this
      ensures Valid()
      ensures Model() == ProcessAll(old(Model()), beacons, appId, now, wl)
    {
      if beacons == [] {
        return;
      }
      var i := 0;
      while i < |beacons|
        invariant 0 <= i <= |beacons|
        invariant Valid()
        invariant ProcessAll(Model(), beacons[i..], appId, now, wl) == ProcessAll(old(Model()), beacons, appId, now, wl)
      {
        assert beacons[i..][1..] == beacons[i + 1..];
        ProcessDetection(beacons[i], appId, now, wl);
        i := i + 1;
      }
    }

    /** check_watchdog(app_id). */
    method CheckWatchdog(appId: Option<string>, now: int)
      requires Valid()
      modifies this
      ensures Valid()
      ensures Model() == WatchFrom(old(Model()), 0, appId, now)
    {
      var i := 0;
      while i < |states|
        invariant 0 <= i <= |states|
        invariant Valid()
        invariant WatchFrom(Model(), i, appId, now) == WatchFrom(old(Model()), 0, appId, now)
      {
        var (id, b) := states[i];
        var (b', t) := WatchStep(b, now);
        WatchKeepsTable(states, i, now);
        states := states[i := (id, b')];
        if t {
          TriggerAlarm(appId, id);
        }
        i := i + 1;
      }
    }
  }

  /** A well-formed beacon_states table: one record per id, each
      consistent and filed under its own id. */
  ghost predicate GoodTable(t: Table) {
    && Dict.DistinctKeys(t)
    && forall p :: p in t ==> Consistent(p.1) && p.1.beaconId == p.0
  }

  /** get_beacon_state() keeps the table well formed. */
  lemma WithBeaconGood(table: Table, id: string, wl: Watchlist)
    requires GoodTable(table)
    ensures GoodTable(WithBeacon(table, id, wl))
  {
    if id !in Dict.Keys(table) {
      var b := NewBeacon(id, WatchName(wl, id));
      Dict.PutDistinct(table, id, b);
      Dict.PutElements(table, id, b);
    }
  }

  /** Every record of a consistent table, and a new one, is consistent and
      filed under its own id. */
  lemma ConsistentIn(table: Table, id: string, wl: Watchlist)
    requires GoodTable(table)
    ensures Consistent(BeaconIn(table, id, wl)) && BeaconIn(table, id, wl).beaconId == id
  {
    var g := Dict.Get(table, id);
    if g.Some? {
      var i :| 0 <= i < |table| && table[i] == (id, g.value);
      assert table[i] in table;
    }
  }

  /** Rewriting entry i with the watchdog's view of its record keeps the
      table well formed. */
  lemma WatchKeepsTable(table: Table, i: nat, now: int)
    requires i < |table| && GoodTable(table)
    ensures GoodTable(table[i := (table[i].0, WatchStep(table[i].1, now).0)])
  {
    assert table[i] in table;
    WatchdogOnce(table[i].1, now, now);
    var t := table[i := (table[i].0, WatchStep(table[i].1, now).0)];
    forall p | p in t ensures Consistent(p.1) && p.1.beaconId == p.0 {
      var j :| 0 <= j < |t| && t[j] == p;
      if j != i {
        assert table[j] in table;
      }
    }
  }
}
