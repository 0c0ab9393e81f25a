# LoRaWAN beacon alarm — a verified model

LoRaWAN-UiTM watches BLE beacons through LoRaWAN gateways and macro
sensors on the floors of a building. Each beacon has a home floor. Uplinks
arrive from the network server as JSON, and the decoders turn them into
(beacon, RSSI, gateway) readings. A per-beacon alarm engine then decides
whether the beacon is safe: it must be seen on its home floor with a
strong enough signal. A weak or wrong-floor reading starts a debounce
timer. When that timer expires, a three-command downlink sequence makes
the floor's macro sensor search for, and buzz at, the beacon. The alarm
fires once per incident, and a safe reading silences it at once.

This project models that core in Dafny and proves what it promises. One
module follows each source file:

- `Settings` (`settings.dfy`): the constants, the beacons.json watchlist and the devices.json floor table.
- `Decoder` (`decoder.dfy`): the cached watchlist, beacon matching, minor-id extraction and the gateway/uplink decoders.
- `Events` (`event_manager.dfy`): the process-wide publish/subscribe registry.
- `AlarmRules` (`alarm_rules.dfy`): the floor-aware engine (`check_alarm_conditions`) with its downlink command builders.
- `AlarmService` (`alarm_manager.dfy`): the class-based manager with its batch processing, watchdog, and its trigger and silence sends.
- `BeaconLogic` (`beacon_logic.dfy`): the stand-alone BLE advertising walker, the Lansitec frame decoder and the five-slot gateway search.
- `Legacy` (`app_legacy.dfy`): the single-beacon "leash" script's message handling.
- `DeviceConfig` (`device_config_window.dfy`): the configuration edits of the settings window.
- `Text`, `Dict` and `PyValue` (`text.dfy`, `pyvalue.dfy`): the Python built-ins these rely on, namely ASCII case mapping, strip, zfill, hex, str/int conversion, and insertion-ordered dicts.

How the source is represented:

- Objects whose fields the source updates in place are classes, with `modifies` clauses: the engine, the manager, the event registry, the watchlist cache, the legacy monitor and the configuration window.
- Decisions are pure functions, and each method is proved against one of them.
- The clock (`time.time()`) is a `now` parameter.
- Files are passed in already parsed.
- MQTT publishes are entries appended to a log.
- Callbacks are opaque handles.

Where the source's promises and its code differ, the model follows the
code:

- `AlarmService` triggers only when a weak signal has lasted strictly more than `DEBOUNCE_SECONDS` (`>`). `AlarmRules` triggers at `>=`. `AlarmService.DebounceBoundary` proves the two differ exactly at the boundary.
- Negative durations, which a clock going backwards would cause, are not clamped: the code has no such clamp.
- `AlarmRules` labels a pending (still debouncing) unsafe reading ALARM, not WEAK. The code returns "ALARM" there, and the model keeps that label.

There is one exception, the legacy script's message handling (see
"## Findings"). `Legacy.Monitor.OnMessage` and `Legacy.Monitor.HandleReadings`
model the corrected decision: one alarm for every unsafe tracked reading,
with processing going on past a missing devEui. The code as written, which
stops the message with NameError at the first unsafe tracked reading or
with TypeError at the first tracked reading without a devEui, is
`Legacy.HandleAsWritten`.

## Model

| member | source | states |
|---|---|---|
| Settings.LoadWatchlist | python-app/src/config/settings.py:48-84 | load_watchlist(): the entries of a parsed beacons.json when it yields any; otherwise (missing, unreadable, empty) the TARGET_BEACONS fallback |
| Settings.IngestLoop | python-app/src/config/settings.py:62-68 | the loop over the file's beacons gives the watchlist `IngestRecords` specifies, or reports that a record raised |
| Settings.AddTargetsLoop | python-app/src/config/settings.py:76-81 | the fallback loop adds one upper-cased entry per TARGET_BEACONS id, named "Beacon <ID>" |
| Settings.IngestKeepsGood | python-app/src/config/settings.py:62-68 | every key written from the file is non-empty, upper-cased and equal to its entry's id, and keys stay distinct |
| Settings.AddTargetsKeepsGood | python-app/src/config/settings.py:76-81 | the fallback keeps the same watchlist invariant |
| Settings.WatchlistIsGood | python-app/src/config/settings.py:48-84 | whatever the file holds, the returned watchlist has distinct, non-empty, upper-cased keys matching their ids |
| Settings.TargetEntries | python-app/src/config/settings.py:76-81 | entry i of the fallback is (id, {id, "Beacon " + id}) for the i-th id |
| Settings.AddTargetsAppends | python-app/src/config/settings.py:76-81 | adding ids that are new and upper-case appends their entries in list order |
| Settings.FallbackWatchlist | python-app/src/config/settings.py:75-84 | without a parsed file the watchlist is exactly the three TARGET_BEACONS entries, in order |
| Settings.TargetsNormalised | python-app/src/config/settings.py:11 | the TARGET_BEACONS ids are already upper-case and pairwise distinct |
| Settings.FileEntryListed | python-app/src/config/settings.py:62-71 | when no record raises, every record with a non-empty id is listed under its upper-cased id |
| Settings.IngestAddsKey | python-app/src/config/settings.py:63-68 | ingesting a record with a non-empty id adds its upper-cased key |
| Settings.IngestKeepsKey | python-app/src/config/settings.py:65 | a key once in the watchlist stays in it (later records only overwrite) |
| Settings.LoadDevices | python-app/src/config/settings.py:91-122 | load_devices() never returns an empty floors list, never invents a config (the file's or the one-floor default), and returns the file's whenever it has floors |
| Settings.FirstOwner | python-app/src/config/settings.py:158-163 | the index of the first floor whose macro sensor or gateway EUI matches case-insensitively, or none when no floor does |
| Settings.GetFloorByDeviceIsFirstOwner | python-app/src/config/settings.py:145-163 | get_floor_by_device() finds a floor iff some floor owns the EUI, and then it is the first such floor |
| Settings.LorawanIdIgnored | python-app/src/config/settings.py:159-160 | the LoRaWAN gateway id plays no part in the floor lookup |
| Settings.EmptyEuiFindsDefaultFloor | python-app/src/config/settings.py:101-108 | an empty EUI matches the default floor's empty Bluetooth gateway EUI |
| Settings.MacroSensorOfFirstFloor | python-app/src/config/settings.py:166-180 | get_macro_sensor_for_floor() returns the first floor with that id's macro sensor, ALARM_TARGET_EUI when that floor has none |
| Settings.FirstFloorWithId | python-app/src/config/settings.py:178-180 | the same on the floors list |
| Settings.MacroSensorWithoutFloor | python-app/src/config/settings.py:182 | with no floor of that id the result is ALARM_TARGET_EUI |
| Decoder.FirstTracked | python-app/src/services/decoder.py:31-34 | the first watchlist key, in key order, contained in the upper-cased id; a key found is a key of the watchlist contained in the id |
| Decoder.UntrackedIffNoKey | python-app/src/services/decoder.py:31-34 | no match is found iff no watchlist key is a substring of the id |
| Decoder.FindTracked | python-app/src/services/decoder.py:31-34 | the loop over watchlist.keys() returns the match FirstTracked specifies |
| Decoder.TrackedIffFirstContained | python-app/src/services/decoder.py:31-34 | key k is the one returned iff the id contains it and contains no earlier key |
| Decoder.ExtractMinorId | python-app/src/services/decoder.py:36-44 | extract_minor_id(): an upper-cased suffix of the upper-cased id, four characters long when the id has at least four, the whole id otherwise |
| Decoder.MinorIdIdempotent | python-app/src/services/decoder.py:36-44 | extracting the minor of a minor gives it back |
| Decoder.MinorIdOfSuffix | python-app/src/services/decoder.py:42-43 | ids ending in the same four characters (ignoring case) have the same minor, the upper-cased ending |
| Decoder.DecodeSlot | python-app/src/services/decoder.py:73-112 | one slot: absent leaves the watchlist and adds nothing; a present slot without an rssi key reads -999; with auto-discovery an entry is always tracked; None when int() rejects the rssi |
| Decoder.ScanFrom | python-app/src/services/decoder.py:72-112 | the slot loop computes the watchlist and kept entries ScanSlots specifies |
| Decoder.ScanOne | python-app/src/services/decoder.py:73-112 | one iteration either stops the scan (the rssi raised) or hands on to the next slot as ScanSlots does |
| Decoder.ReadSlot | python-app/src/services/decoder.py:76-105 | reading one slot computes DecodeSlot |
| Decoder.GatewayResult | python-app/src/services/decoder.py:114 | a list is returned only when it is non-empty |
| Decoder.ScanRaisesIffBadSlot | python-app/src/services/decoder.py:72-118 | the whole decode returns None through the exception handler iff some present slot has an rssi int() rejects |
| Decoder.KeptEntriesMembers | python-app/src/services/decoder.py:108-112 | an entry survives the filter iff it is among the entries and filter_tracked is off or it is tracked |
| Decoder.KeptEntriesAppend | python-app/src/services/decoder.py:108-112 | the filter works entry by entry: filtering a concatenation filters each part in order |
| Decoder.PresentSlotHasEntry | python-app/src/services/decoder.py:76-96 | every present slot whose rssi parses decodes to an entry, which is among the slot entries |
| Decoder.EntryHasSlot | python-app/src/services/decoder.py:72-96 | every slot entry is the decoded entry of some slot 1..10 |
| Decoder.ScanCollectsSlots | python-app/src/services/decoder.py:72-112 | without auto-discovery and when no rssi is rejected, the scan returns the entries of the present slots in slot order: all of them, or with filter_tracked exactly the tracked ones |
| Decoder.ScanAutoDiscoverKeepsAll | python-app/src/services/decoder.py:72-112 | with auto-discovery and no rssi rejected, every present slot yields one returned entry whatever filter_tracked says |
| Decoder.SlotRaisesIffBad | python-app/src/services/decoder.py:76-78 | one slot raises iff it is present and its rssi does not parse |
| Decoder.ScanKeepsTracked | python-app/src/services/decoder.py:99-112 | with filter_tracked, or with auto-discovery, every entry returned is tracked |
| Decoder.ScanExtends | python-app/src/services/decoder.py:108-112 | entries are only appended: the list so far is a prefix of the result |
| Decoder.ScanMatchedAreKeys | python-app/src/services/decoder.py:84-105 | every matched_id returned is a key of the watchlist afterwards, and no key is ever removed |
| Decoder.ScanKeepsWatchlist | python-app/src/services/decoder.py:99 | without auto-discovery the watchlist is left unchanged |
| Decoder.AutoDiscoverySlot | python-app/src/services/decoder.py:98-105 | with auto-discovery an untracked present slot files its minor in the watchlist as "Auto-Discovered <minor>" and its entry becomes tracked with matched_id = minor, keeping the name "Beacon <minor>"; tracked, absent and raising slots decode as without it |
| Decoder.DecodedSlotFields | python-app/src/services/decoder.py:77-96 | a decoded entry has the upper-cased id, its minor, the parsed rssi, tracked iff some key is contained in the id, and a matched_id that is such a key |
| Decoder.WatchlistCache.GetWatchlist | python-app/src/services/decoder.py:7-12 | get_watchlist(): the cached watchlist when there is one, otherwise the loaded one, which is then cached |
| Decoder.WatchlistCache.ReloadWatchlist | python-app/src/services/decoder.py:14-18 | reload_watchlist() always loads and caches |
| Decoder.WatchlistCache.IsBeaconTracked | python-app/src/services/decoder.py:20-34 | is_beacon_tracked(): the cache keeps its watchlist, or holds the one loaded from the file on a cold first call; the result is (True, key) for its first contained key, (False, None) when there is none |
| Decoder.WatchlistCache.DecodeGatewayJson | python-app/src/services/decoder.py:46-118 | decode_gateway_json(): the scan of slots 1..10 over the cached (or loaded) watchlist, which keeps any auto-discovered entries; what the scan returns is stated by Decoder.ScanCollectsSlots, Decoder.ScanAutoDiscoverKeepsAll and Decoder.ScanKeepsTracked |
| Decoder.WatchlistCache.DecodeUplink | python-app/src/services/decoder.py:120-152 | decode_uplink(): the gateway decode of the 'object' member when there is one, and None in every other case; a non-object 'object' member still loads the watchlist into an empty cache |
| Events.Subscribed | python-app/src/services/event_manager.py:36-38 | after subscribe() the event has a subscriber list |
| Events.Deliveries | python-app/src/services/event_manager.py:50-53 | emit() calls every subscriber once, in subscription order, with the same data |
| Events.Failures | python-app/src/services/event_manager.py:52-55 | only subscribers that raise are logged as errors, each against this event |
| Events.SubscribeAppends | python-app/src/services/event_manager.py:36-38 | subscribe() appends the callback to the end of the event's list, keeping earlier subscribers |
| Events.SubscribeLeavesOthers | python-app/src/services/event_manager.py:36-38 | subscribing to one event leaves every other event's list unchanged |
| Events.SubscribeOrder | python-app/src/services/event_manager.py:36-38 | subscribing several callbacks in turn lists them in that order, a callback subscribed twice being called twice |
| Events.FailuresCount | python-app/src/services/event_manager.py:52-55 | every call is logged as an error iff every subscriber raises; none is logged when none raises |
| Events.EventManager.New | python-app/src/services/event_manager.py:20-24 | __new__(): the first instantiation clears the registry, later ones keep it |
| Events.EventManager.Subscribe | python-app/src/services/event_manager.py:27-39 | subscribe() changes only the registry, as Subscribed says |
| Events.EventManager.Emit | python-app/src/services/event_manager.py:42-55 | emit() performs exactly the deliveries and logs exactly the failures above, and a raising subscriber does not stop the others |
| AlarmRules.ZoneValueKnown | python-app/src/logic/alarm_rules.py:84-87 | a zone's value is never the "UNKNOWN" reported for a record without a zone |
| AlarmRules.DefaultState | python-app/src/logic/alarm_rules.py:94-103 | a fresh BeaconState has no zone, no timer, no active alarm and is not initialized |
| AlarmRules.NextMsgId | python-app/src/logic/alarm_rules.py:373 | the message id counter advances by one modulo 256 and stays below 256 |
| AlarmRules.NormalizeMinor | python-app/src/logic/alarm_rules.py:157 | upper().zfill(4): an upper-cased key of at least four characters, the upper-cased id itself when it already has four |
| AlarmRules.NormalizeIdempotent | python-app/src/logic/alarm_rules.py:157 | normalising a normalised key changes nothing |
| AlarmRules.GetBeaconStateOnce | python-app/src/logic/alarm_rules.py:120-123 | get_beacon_state() creates a record on first access only; a second access returns the same record and other records are untouched |
| AlarmRules.PutAfterWithState | python-app/src/logic/alarm_rules.py:120-123 | updating a record after fetching it is the same as writing it into the table as it was |
| AlarmRules.AllBeaconStates | python-app/src/logic/alarm_rules.py:126-138 | get_all_beacon_states(): one row per record, in table order, keyed as the table |
| AlarmRules.ViewFaithful | python-app/src/logic/alarm_rules.py:128-136 | a row reports "UNKNOWN" iff the record has no zone, zone and state agree, and id, rssi, alarm flag and location are copied |
| AlarmRules.SnapshotKeys | python-app/src/logic/alarm_rules.py:126-138 | the snapshot has exactly the table's keys |
| AlarmRules.HomeFloorOf | python-app/src/logic/alarm_rules.py:182-186 | a beacon not listed in the config keeps the home floor "UNKNOWN" |
| AlarmRules.FindHomeFloor | python-app/src/logic/alarm_rules.py:182-186 | the loop over the configured beacons computes HomeFloorOf |
| AlarmRules.HomeFloorOfFirst | python-app/src/logic/alarm_rules.py:183-186 | the first configured beacon whose upper-cased id equals the key gives the home floor (break) |
| AlarmRules.SafeIffRightFloorAndStrong | python-app/src/logic/alarm_rules.py:171-219 | a reading is unsafe iff both floors are known and differ, or the rssi is below the threshold; without a gateway EUI there is no detection floor and only the rssi decides |
| AlarmRules.MissingHomeFloorIsWrongFloor | python-app/src/logic/alarm_rules.py:182-205 | a listed beacon without home_floor_id gets None, which differs from every known detection floor id, so the reading is unsafe whatever the rssi |
| AlarmRules.Step | python-app/src/logic/alarm_rules.py:227-311 | one evaluation keeps the record's id, rssi, time and location and never returns WEAK |
| AlarmRules.StepPreservesInv | python-app/src/logic/alarm_rules.py:227-311 | every evaluation keeps the record consistent: an active alarm has the ALARM zone, the timer runs exactly in ALARM, a SAFE record has neither timer nor alarm |
| AlarmRules.StartupRule | python-app/src/logic/alarm_rules.py:227-237 | the first reading returns SAFE, sends one stop command, triggers nothing, reports no change and leaves the alarm flag as it was |
| AlarmRules.SafeReading | python-app/src/logic/alarm_rules.py:243-268 | a safe reading returns SAFE, clears timer and alarm, mutes iff an alarm was active, and reports a change iff the old zone was known and different |
| AlarmRules.FirstUnsafeReading | python-app/src/logic/alarm_rules.py:276-288 | the first unsafe reading starts the timer at now, sets ALARM and sends nothing |
| AlarmRules.Debounce | python-app/src/logic/alarm_rules.py:290-311 | with the timer running, nothing changes before DEBOUNCE_SECONDS; from then on the sequence is triggered iff no alarm is active yet |
| AlarmRules.TriggersAtMostOnce | python-app/src/logic/alarm_rules.py:296-305 | along any run of unsafe readings the trigger sequence runs at most once, and not at all when an alarm is already active |
| AlarmRules.SendTarget | python-app/src/logic/alarm_rules.py:485 | a downlink goes to the given EUI, or to MACRO_SENSOR_EUI when it is None or empty |
| AlarmRules.SendAppId | python-app/src/logic/alarm_rules.py:489-493 | the captured application id is used, MACRO_SENSOR_APP_ID when none is captured |
| AlarmRules.SendEntry | python-app/src/logic/alarm_rules.py:495-519 | a send publishes exactly one downlink iff bytes.fromhex() accepts the command, nothing otherwise |
| AlarmRules.SendLog3 | python-app/src/logic/alarm_rules.py:350-383 | three sends log their entries in order |
| AlarmRules.AcCommand | python-app/src/logic/alarm_rules.py:372-375 | the search command is "AC", the counter as two upper-case hex digits that read back as the counter, "0010", then the normalised minor |
| AlarmRules.TriggerSequence | python-app/src/logic/alarm_rules.py:323-390 | the sequence sends the volume command, then the duration command, then the search command exactly when it is valid hex, all to the same device |
| AlarmRules.FixedCommandsConvert | python-app/src/logic/alarm_rules.py:78-80 | every fixed command string is valid hex, so those sends always publish |
| AlarmRules.AcCommandConverts | python-app/src/logic/alarm_rules.py:372-375 | the search command is valid hex whenever the normalised minor is four hex digits |
| AlarmRules.EffectLogWithoutTrigger | python-app/src/logic/alarm_rules.py:227-252 | an evaluation that triggers nothing sends at most the stop command |
| AlarmRules.EffectLogOfTrigger | python-app/src/logic/alarm_rules.py:304 | an evaluation that triggers sends the trigger sequence only |
| AlarmRules.CommandTarget | python-app/src/logic/alarm_rules.py:222 | commands go to the detection floor's macro sensor when it has a non-empty one, to MACRO_SENSOR_EUI in every other case |
| AlarmRules.StartupSendsOneMute | python-app/src/logic/alarm_rules.py:227-237 | the first reading of a beacon sends exactly one B0000100 |
| AlarmRules.StateOfValid | python-app/src/logic/alarm_rules.py:120-123 | every record of a consistent table, and a fresh one, is consistent and filed under its own id |
| AlarmRules.Engine.SetAppId | python-app/src/logic/alarm_rules.py:115-117 | set_app_id() changes the captured id only |
| AlarmRules.Engine.GetBeaconState | python-app/src/logic/alarm_rules.py:120-123 | the table gains a fresh record for a new id; the record returned is the stored one |
| AlarmRules.Engine.SendDownlink | python-app/src/logic/alarm_rules.py:469-519 | returns True iff the hex converts, and logs the downlink SendEntry describes |
| AlarmRules.Engine.StopAlarm | python-app/src/logic/alarm_rules.py:393-419 | sends B0000100 and succeeds |
| AlarmRules.Engine.UnmuteAlarm | python-app/src/logic/alarm_rules.py:422-448 | sends B0000101 and succeeds |
| AlarmRules.Engine.TriggerAlarmWithSequence | python-app/src/logic/alarm_rules.py:323-390 | logs the three-command sequence with the current counter, advances the counter, and returns the search command's result only |
| AlarmRules.Engine.StartAlarm | python-app/src/logic/alarm_rules.py:451-467 | start_alarm() is the trigger sequence |
| AlarmRules.Engine.ManualTriggerAlarm | python-app/src/logic/alarm_rules.py:526-533 | the trigger sequence to MACRO_SENSOR_EUI |
| AlarmRules.Engine.ManualSilenceAlarm | python-app/src/logic/alarm_rules.py:536-544 | one mute command to MACRO_SENSOR_EUI, which succeeds |
| AlarmRules.Engine.ClassifyReading | python-app/src/logic/alarm_rules.py:168-219 | the detection floor found from the gateway EUI and the safe/unsafe verdict |
| AlarmRules.Engine.Act | python-app/src/logic/alarm_rules.py:227-311 | the record, verdict, downlinks, counter and events are those Step specifies |
| AlarmRules.Engine.ActStartup | python-app/src/logic/alarm_rules.py:227-237 | the startup branch, as Step specifies |
| AlarmRules.Engine.ActSafe | python-app/src/logic/alarm_rules.py:243-268 | the safe branch, as Step specifies |
| AlarmRules.Engine.ActUnsafe | python-app/src/logic/alarm_rules.py:274-311 | the unsafe branch, as Step specifies |
| AlarmRules.Engine.Record | python-app/src/logic/alarm_rules.py:157-219 | the fetched record with the reading and location written in, the floor and the verdict; the table gains the record if it was new |
| AlarmRules.Engine.CheckAlarmConditions | python-app/src/logic/alarm_rules.py:145-311 | check_alarm_conditions(): the stored record, verdict, downlinks, counter and events are those Evaluate specifies for the normalised key, and the table stays consistent |
| AlarmRules.Engine.CheckFloorSecurity | python-app/src/logic/alarm_rules.py:314-316 | check_floor_security(): check_alarm_conditions() without a gateway, and its verdict always names a SecurityZone member, so the lookup cannot fail |
| AlarmService.NewBeacon | python-app/src/services/alarm_manager.py:12-19 | a new record is UNKNOWN, never seen, rssi 0, no timer, no alarm, and named "Beacon <id>" when given no name |
| AlarmService.AllStates | python-app/src/services/alarm_manager.py:66-68 | get_all_states(): one to_dict() row per record, in table order |
| AlarmService.RowsFollowTable | python-app/src/services/alarm_manager.py:21-30 | on a well-formed table each row carries its own key, each beacon appears once, and ALARM or LOST rows show the alarm triggered |
| AlarmService.FreshRecords | python-app/src/services/alarm_manager.py:50-55 | one new record per watchlist entry, in watchlist order, named as the entry |
| AlarmService.InitFollowsWatchlist | python-app/src/services/alarm_manager.py:47-56 | over ids the table does not have, _init_beacon_states() appends exactly one fresh record per watchlist entry, in order |
| AlarmService.InitKeys | python-app/src/services/alarm_manager.py:39-56 | a new AlarmManager tracks exactly the watchlist's ids, in watchlist order |
| AlarmService.InitStep | python-app/src/services/alarm_manager.py:50-55 | one loop turn handles one entry, then the rest |
| AlarmService.TriggerCmd | python-app/src/services/alarm_manager.py:70-79 | build_alarm_trigger_cmd(): "AC", the counter as two upper-case hex digits that read back as the counter, then the padded minor, "0000" when none is given |
| AlarmService.TriggerSends | python-app/src/services/alarm_manager.py:167-183 | trigger_alarm() leaves the records alone and does nothing at all without an app id |
| AlarmService.SilenceSends | python-app/src/services/alarm_manager.py:185-190 | silence_alarm() leaves records and counter alone and does nothing without an app id |
| AlarmService.AlarmCommandsConvert | python-app/src/config/settings.py:36-37 | the mute and unmute commands are valid hex |
| AlarmService.TriggerSendsOrder | python-app/src/services/alarm_manager.py:171-183 | with an app id: the unmute command first, then the trigger command exactly when it converts from hex and nothing more, and the counter advances by one modulo 256 |
| AlarmService.SilenceSendsMute | python-app/src/services/alarm_manager.py:185-190 | with an app id exactly one ALARM_OFF_HEX goes to ALARM_TARGET_EUI |
| AlarmService.UnmuteThenTrigger | python-app/src/services/alarm_manager.py:214-249 | trigger_alarm_with_unmute() always sends the unmute command first; it returns true iff the "AC00"+minor command went out too, which it does whenever the padded minor is four hex digits |
| AlarmService.Evaluate | python-app/src/services/alarm_manager.py:113-140 | evaluating a reading keeps id, name, rssi and time, and never asks to silence and trigger at once |
| AlarmService.EvaluatePreserves | python-app/src/services/alarm_manager.py:113-140 | every evaluation keeps the record consistent (SAFE/UNKNOWN: no timer, no alarm; ALARM/LOST: alarm latched; WEAK/ALARM: timer running) |
| AlarmService.SafeReading | python-app/src/services/alarm_manager.py:115-124 | a safe reading gives SAFE with no timer, silences iff the record was not SAFE and had triggered, and never triggers |
| AlarmService.FirstWeakReading | python-app/src/services/alarm_manager.py:127-129 | the first weak reading starts the timer at now, gives WEAK and asks for nothing |
| AlarmService.StrictDebounce | python-app/src/services/alarm_manager.py:130-140 | with the timer running the alarm is triggered iff strictly more than DEBOUNCE_SECONDS passed and it had not triggered; otherwise the record is unchanged |
| AlarmService.DebounceBoundary | python-app/src/services/alarm_manager.py:132 | at exactly DEBOUNCE_SECONDS this manager does not trigger where alarm_rules.py (>=) does; one second later it does |
| AlarmService.WatchStep | python-app/src/services/alarm_manager.py:149-165 | the watchdog's view of one record keeps its id and last-seen time |
| AlarmService.WatchdogOnce | python-app/src/services/alarm_manager.py:142-165 | the watchdog keeps records consistent, skips never-seen records, marks a silent one LOST once and never again, and triggers only if it had not triggered |
| AlarmService.TriggersOncePerIncident | python-app/src/services/alarm_manager.py:105-165 | between safe readings, weak readings (each storing its rssi and time before the evaluation) and watchdog ticks together trigger at most once, never when already triggered, and a triggered record stays triggered |
| AlarmService.DetectionKey | python-app/src/services/alarm_manager.py:98-102 | the key of a detection is matched_id, else minor, else id, upper-cased; a detection with none is skipped |
| AlarmService.Requested | python-app/src/services/alarm_manager.py:121-138 | the sends of an evaluation leave the records alone |
| AlarmService.RequestedAnyTable | python-app/src/services/alarm_manager.py:167-190 | what is sent does not depend on the records |
| AlarmService.ProcessKeyIs | python-app/src/services/alarm_manager.py:105-140 | one detection is the sends of its evaluation, then the record stored under its key |
| AlarmService.PutAfterFetch | python-app/src/services/alarm_manager.py:58-64 | storing after get_beacon_state() is storing into the table as it was |
| AlarmService.ProcessOneRecord | python-app/src/services/alarm_manager.py:96-140 | after a detection its key holds the evaluated record with last_seen = now; without an app id nothing is sent |
| AlarmService.EventsAreTheManagers | python-app/src/services/alarm_manager.py:96-165 | a detection moves its record by one Reading event (rssi and last_seen stored, then evaluated) and the watchdog sweep moves every record by one Tick event |
| AlarmService.ProcessSkips | python-app/src/services/alarm_manager.py:99-100 | a detection without any id changes nothing |
| AlarmService.WatchFrom | python-app/src/services/alarm_manager.py:149-165 | the watchdog keeps the table's length and keys |
| AlarmService.WatchFromKeepsDone | python-app/src/services/alarm_manager.py:149 | records already visited are not touched again |
| AlarmService.WatchFromRecords | python-app/src/services/alarm_manager.py:149-165 | every record from i on ends as the watchdog step makes it |
| AlarmService.WithBeaconGood | python-app/src/services/alarm_manager.py:58-64 | get_beacon_state() keeps the table well formed |
| AlarmService.ConsistentIn | python-app/src/services/alarm_manager.py:58-64 | the record fetched is consistent and has the requested id |
| AlarmService.WatchKeepsTable | python-app/src/services/alarm_manager.py:149-165 | rewriting one record with its watchdog step keeps the table well formed |
| AlarmService.AlarmManager.InitBeaconStates | python-app/src/services/alarm_manager.py:47-56 | the loop over the watchlist computes InitFrom and keeps the table well formed |
| AlarmService.AlarmManager.GetBeaconState | python-app/src/services/alarm_manager.py:58-64 | returns the stored record or a new one named from the watchlist, which is then stored |
| AlarmService.AlarmManager.BuildAlarmTriggerCmd | python-app/src/services/alarm_manager.py:70-79 | returns TriggerCmd for the current counter and advances the counter modulo 256 |
| AlarmService.AlarmManager.SendDownlink | python-app/src/services/alarm_manager.py:192-209 | publishes one downlink to ALARM_TARGET_EUI when the hex converts; a conversion error is swallowed |
| AlarmService.AlarmManager.TriggerAlarm | python-app/src/services/alarm_manager.py:167-183 | trigger_alarm(), as TriggerSends specifies |
| AlarmService.AlarmManager.SilenceAlarm | python-app/src/services/alarm_manager.py:185-190 | silence_alarm(), as SilenceSends specifies |
| AlarmService.AlarmManager.ProcessDetection | python-app/src/services/alarm_manager.py:97-140 | one loop turn of process_beacon_data(), as ProcessOne specifies |
| AlarmService.AlarmManager.ProcessReading | python-app/src/services/alarm_manager.py:105-140 | fetch, record and evaluate one reading, as ProcessKey specifies |
| AlarmService.AlarmManager.EvaluateReading | python-app/src/services/alarm_manager.py:113-140 | the state machine of one reading and its sends, as Evaluate specifies |
| AlarmService.AlarmManager.ProcessBeaconData | python-app/src/services/alarm_manager.py:81-140 | process_beacon_data(): the detections in list order, as ProcessAll specifies, keeping the table well formed |
| AlarmService.AlarmManager.CheckWatchdog | python-app/src/services/alarm_manager.py:142-165 | check_watchdog(): every record in table order, as WatchFrom specifies, keeping the table well formed |
| BeaconLogic.Chunk | python-app/beacon_logic.py:24 | the structure's content is at most length-1 bytes, cut short at the end of the data |
| BeaconLogic.UuidHex | python-app/beacon_logic.py:29-30 | the UUID of service data is four hex characters (the two bytes reversed) |
| BeaconLogic.DecodeBle | python-app/beacon_logic.py:3-46 | decode_ble_packet() returns a result only when it found a non-empty id |
| BeaconLogic.WalkFrom | python-app/beacon_logic.py:13-40 | the while loop over the length-type-value structures computes AdWalk |
| BeaconLogic.DecodeBlePacket | python-app/beacon_logic.py:3-46 | decode_ble_packet(), as DecodeBle specifies: None when bytes.fromhex() raises or no id was found |
| BeaconLogic.WalkEncoded | python-app/beacon_logic.py:13-40 | walking the encoding of well-formed structures applies each structure in order (round trip of encoding and parsing) |
| BeaconLogic.WalkEncodedThen | python-app/beacon_logic.py:13-40 | the walk over encoded structures followed by more data continues on that data |
| BeaconLogic.WalkHead | python-app/beacon_logic.py:16-40 | one step reads the length and type, applies the structure, and advances by 1 + length |
| BeaconLogic.WalkSuffix | python-app/beacon_logic.py:13-40 | the walk depends only on the bytes from its position on |
| BeaconLogic.ZeroPaddingIgnored | python-app/beacon_logic.py:17 | a zero length byte ends the walk: whatever follows it is ignored |
| BeaconLogic.ApplyAllAppend | python-app/beacon_logic.py:13-40 | applying one more structure at the end is one more step |
| BeaconLogic.ServiceDataStores | python-app/beacon_logic.py:27-37 | service data for the target UUID sets the id, for the battery UUID sets the battery, anything else changes nothing |
| BeaconLogic.LaterOverwrites | python-app/beacon_logic.py:34-35 | when the target UUID occurs more than once the last occurrence wins |
| BeaconLogic.DecodeEncoded | python-app/beacon_logic.py:3-46 | decoding the hex of encoded structures gives their combined result exactly when it has a non-empty id |
| BeaconLogic.SignedByte | python-app/beacon_logic.py:61 | the signed reading of a byte lies in -128..127 and is congruent to the byte modulo 256 |
| BeaconLogic.SignedByteRoundTrip | python-app/beacon_logic.py:61 | every value in -128..127 is the signed reading of its own byte |
| BeaconLogic.DecodeLansitec | python-app/beacon_logic.py:48-65 | decode_lansitec_hex() succeeds iff the hex converts to at least seven bytes; the id is eight lower-case hex digits and the rssi a signed byte |
| BeaconLogic.LansitecRoundTrip | python-app/beacon_logic.py:48-65 | for any bytes, decoding their hex gives bytes 2..5 as the id and the signed last byte as the rssi, or None under seven bytes |
| BeaconLogic.DecodeOfBytes | python-app/beacon_logic.py:53-63 | any hex that converts to given bytes decodes as those bytes do |
| BeaconLogic.CheckSlot | python-app/beacon_logic.py:86-107 | a hit returns the slot's own value and its rssi, -999 when the rssi key is absent |
| BeaconLogic.GatewayFromFirstHit | python-app/beacon_logic.py:81-109 | from slot i, the result is h iff some slot up to 5 hits with h and every earlier slot does not match |
| BeaconLogic.GatewayFirstHit | python-app/beacon_logic.py:67-112 | decode_gateway_json() returns the first matching slot among 1..5, with that slot's value and rssi |
| BeaconLogic.MinorRuleKeepsSlotValue | python-app/beacon_logic.py:95-107 | a slot whose beaconN_minor equals TARGET_MAJOR_VALUE matches, and the value returned is the slot's, not the minor |
| BeaconLogic.NonTextSlotAborts | python-app/beacon_logic.py:102-112 | a non-string slot value reaching the substring test raises, and the decode returns None |
| BeaconLogic.NoSlotsNoHit | python-app/beacon_logic.py:86-109 | with no beaconN keys the decode returns None |
| Legacy.ObjectReadings | python-app/app_legacy.py:142-152 | the object-parsing loop yields at most one reading per member |
| Legacy.FallbackReadings | python-app/app_legacy.py:165-168 | the raw-hex fallback yields at most one reading |
| Legacy.RemoveAllAbsent | python-app/app_legacy.py:149 | replace("dBm", "") leaves a string without a 'd' unchanged |
| Legacy.RemoveAllPrefix | python-app/app_legacy.py:149 | replace() passes over a prefix that cannot start the pattern |
| Legacy.RemoveAllOfPattern | python-app/app_legacy.py:149 | replace() removes a string made of the pattern alone |
| Legacy.BeforeFirstAt | python-app/app_legacy.py:149 | split(".")[0] is the text before the first dot |
| Legacy.BeforeFirstAbsent | python-app/app_legacy.py:149 | split(".")[0] of a string without a dot is the whole string |
| Legacy.DecimalPlain | python-app/app_legacy.py:149 | str() of an integer holds neither 'd' nor '.' |
| Legacy.ParseRssiOfInt | python-app/app_legacy.py:149 | an integer RSSI member parses back to that integer |
| Legacy.ParseRssiOfDbm | python-app/app_legacy.py:149 | "<n>dBm" parses to n for every integer n |
| Legacy.ParseRssiOfFraction | python-app/app_legacy.py:149 | "<n>.<fraction>" parses to n: the fraction is dropped |
| Legacy.DefaultRssiText | python-app/app_legacy.py:147 | the default "-999dBm" is str(-999) followed by "dBm" |
| Legacy.MissingRssi | python-app/app_legacy.py:147-151 | a beacon slot without its rssi member reads -999 |
| Legacy.NullRssi | python-app/app_legacy.py:148-151 | a None RSSI makes int() raise, and the reading is -999 |
| Legacy.EveryBeaconMemberReads | python-app/app_legacy.py:144-152 | every member whose key starts with "beacon" yields its reading (its value as id, the RSSI of its slot) |
| Legacy.ReadingsComeFromBeaconMembers | python-app/app_legacy.py:144-152 | every reading comes from such a member: no other member yields one |
| Legacy.FallbackOnlyWhenEmpty | python-app/app_legacy.py:157 | when the object yields readings, the raw fallback is not consulted |
| Legacy.FallbackDecodesData | python-app/app_legacy.py:157-168 | without readings or "raw", data of 7 or more bytes gives one reading: the hex of bytes 2..5 and the signed last byte |
| Legacy.TrackedUpper | python-app/app_legacy.py:178 | a reading is tracked exactly when its id equals TRACKED_BEACON_ID, ignoring case |
| Legacy.HandleStep | python-app/app_legacy.py:173-200 | one turn of the loop handles reading i, then the rest follow |
| Legacy.HandleOneSends | python-app/app_legacy.py:192-200 | one reading adds the alarm exactly when it is tracked and weaker than the threshold, and keeps what was sent |
| Legacy.EveryUnsafeReadingAlarms | python-app/app_legacy.py:173-200 | once corrected, a message sends the alarm once for every unsafe tracked reading, after what was sent before (no debounce, no latch) |
| Legacy.DashboardShowsLastTracked | python-app/app_legacy.py:178-185 | the dashboard record shows the message's last tracked reading, and is unchanged when there is none |
| Legacy.NameErrorDropsAlarms | python-app/app_legacy.py:117-124 | as written, the first unsafe tracked reading raises NameError: no alarm is sent and later readings are dropped |
| Legacy.CorrectedSendsBoth | python-app/app_legacy.py:173-200 | corrected, two unsafe tracked readings send the alarm twice and the dashboard shows the second |
| Legacy.MissingSensorDropsReadings | python-app/app_legacy.py:197 | as written, a missing devEui makes sensor_eui[-4:] raise at the first tracked reading, so later readings are lost |
| Legacy.AsWrittenAgreesWhenSafe | python-app/app_legacy.py:173-200 | when every tracked reading is safe and devEui is present, the code as written and the corrected code show the same dashboard, and nothing is sent |
| Legacy.ParseObject | python-app/app_legacy.py:140-152 | the object loop computes ObjectReadings |
| Legacy.ObjectReadingsStep | python-app/app_legacy.py:144-152 | one turn of the object loop: member i's readings, then the rest |
| Legacy.DecodeMessage | python-app/app_legacy.py:140-168 | decoded_beacons is DecodedReadings: the object's readings, else the Lansitec fallback's |
| Legacy.Monitor.constructor | python-app/app_legacy.py:42-48 | the dashboard record starts unseen, and nothing has been sent |
| Legacy.Monitor.OnMessage | python-app/app_legacy.py:126-200 | without deviceInfo nothing changes; otherwise the decoded readings are handled in order by the corrected decision (Handle); the NameError and TypeError stops of the code as written are in HandleAsWritten |
| Legacy.Monitor.HandleReadings | python-app/app_legacy.py:173-200 | the processing loop, corrected: it updates the dashboard record and sends as Handle specifies, where the code as written stops as HandleAsWritten says |
| DeviceConfig.LoadConfig | python-app/src/ui/device_config_window.py:67-81 | the parsed file when it could be read, otherwise no floors and no beacons |
| DeviceConfig.NewFloor | python-app/src/ui/device_config_window.py:328-335 | the new floor is numbered one past the floor count: id "floor_<n+1>", name "Floor <n+1>", the default macro sensor and empty gateways |
| DeviceConfig.WithoutFloor | python-app/src/ui/device_config_window.py:356-357 | the floors kept are exactly those whose id differs from the deleted one |
| DeviceConfig.FirstFloor | python-app/src/ui/device_config_window.py:381-382 | the index of the first floor with the id, and None exactly when no floor has it |
| DeviceConfig.UpdatedFloors | python-app/src/ui/device_config_window.py:381-387 | an update keeps the number of floors |
| DeviceConfig.UpdateEditsFirstOnly | python-app/src/ui/device_config_window.py:381-387 | only the first floor with the selected id takes the entered details (stripped, device ids lower-cased); every other floor is unchanged |
| DeviceConfig.DeleteThenAddDuplicates | python-app/src/ui/device_config_window.py:327-330 | the new id counts the floors left, so deleting floor_1 of two floors and adding one gives two floors with id floor_2 |
| DeviceConfig.AssignmentMatchesSelection | python-app/src/ui/device_config_window.py:390-397 | after an update a beacon is on the floor exactly when its row is selected; an unselected beacon of another floor is unchanged; id and name are kept |
| DeviceConfig.UnassignClearsFloor | python-app/src/ui/device_config_window.py:360-362 | after a floor is deleted no beacon is on it, and beacons of other floors are unchanged |
| DeviceConfig.EnteredName | python-app/src/ui/device_config_window.py:405 | the beacon name is never empty: the stripped entry or "Beacon <ID>" |
| DeviceConfig.AddKeepsIdsUnique | python-app/src/ui/device_config_window.py:402-424 | adding a beacon keeps beacon ids distinct regardless of case, and a non-empty entered id is then present |
| DeviceConfig.Kept | python-app/src/ui/device_config_window.py:438-442 | deletion never lengthens the list |
| DeviceConfig.KeptAppend | python-app/src/ui/device_config_window.py:438-442 | deleting in reverse index order keeps the survivors in their original order |
| DeviceConfig.KeptUnselected | python-app/src/ui/device_config_window.py:438-442 | every unselected beacon survives deletion |
| DeviceConfig.KeptNoneSelected | python-app/src/ui/device_config_window.py:441 | a selection that misses every index (such as one past the end) deletes nothing |
| DeviceConfig.KeptStep | python-app/src/ui/device_config_window.py:440-442 | one step of the reverse deletion loop: index i-1 is dropped when selected |
| DeviceConfig.FindBeacon | python-app/src/ui/device_config_window.py:412-415 | the duplicate check finds a match exactly when some beacon has the id regardless of case |
| DeviceConfig.DeviceConfigWindow.constructor | python-app/src/ui/device_config_window.py:36-65 | the loaded configuration, with the first floor selected when there is one |
| DeviceConfig.DeviceConfigWindow.AddFloor | python-app/src/ui/device_config_window.py:325-346 | NewFloor is appended and selected; the beacons are unchanged |
| DeviceConfig.DeviceConfigWindow.DeleteFloor | python-app/src/ui/device_config_window.py:348-364 | without a selection or confirmation nothing changes; otherwise the floor is removed, its beacons unassigned and the selection cleared |
| DeviceConfig.DeviceConfigWindow.UpdateFloorDetails | python-app/src/ui/device_config_window.py:374-397 | without a selection nothing changes; otherwise the floors are UpdatedFloors and every beacon is Reassigned by its row's selection |
| DeviceConfig.DeviceConfigWindow.EditFirstFloor | python-app/src/ui/device_config_window.py:380-387 | the floor loop computes UpdatedFloors and changes nothing else |
| DeviceConfig.DeviceConfigWindow.AddBeacon | python-app/src/ui/device_config_window.py:402-424 | the beacons become AddedBeacons, assigned to the selected floor; the floors are unchanged |
| DeviceConfig.DeviceConfigWindow.DeleteBeacon | python-app/src/ui/device_config_window.py:430-442 | without a selection or confirmation nothing changes; otherwise the unselected beacons are kept in order |
| Text.Upper | python-app/src/services/decoder.py:29 | str.upper(): same length, each lower-case ASCII letter raised and every other character kept |
| Text.Lower | python-app/src/ui/device_config_window.py:384 | str.lower(): same length, each upper-case ASCII letter lowered and every other character kept |
| Text.UpperIsUpperCased | python-app/src/logic/alarm_rules.py:157 | upper() yields an upper-cased string and is idempotent |
| Text.UpperAppend | python-app/src/services/decoder.py:41-44 | upper() distributes over concatenation |
| Text.Strip | python-app/src/ui/device_config_window.py:383 | strip() yields a substring with no white space at either end |
| Text.ZFillShape | python-app/src/logic/alarm_rules.py:157 | zfill(w) keeps a string of w or more characters and otherwise left-pads an unsigned one with zeros to w |
| Text.ZFillOfUpperCased | python-app/src/logic/alarm_rules.py:342 | zfill() of an upper-cased string stays upper-cased |
| Text.Hex2RoundTrip | python-app/src/logic/alarm_rules.py:372-375 | a byte written as two hex digits reads back as the same byte |
| Text.ToHex | python-app/beacon_logic.py:32 | bytes.hex(): two lower-case hex digits per byte |
| Text.ToHexAppend | python-app/beacon_logic.py:32 | bytes.hex() distributes over concatenation |
| Text.FromHexToHex | python-app/beacon_logic.py:9 | bytes.fromhex() inverts bytes.hex() |
| Text.FromHexOfDigits | python-app/src/logic/alarm_rules.py:498 | bytes.fromhex() accepts every even-length string of hex digits, giving half as many bytes |
| Text.NatDecimalValue | python-app/src/ui/device_config_window.py:330 | str() of a natural number has that value |
| Text.DecimalRoundTrip | python-app/app_legacy.py:149 | int() inverts str() on every integer |
| Text.Contains | python-app/src/services/decoder.py:29-34 | the in operator on strings: true exactly when the needle occurs somewhere |
| Text.BeforeFirst | python-app/app_legacy.py:149 | split(sep)[0]: a prefix without the separator, followed in the string by the separator when shorter |
| Dict.Get | python-app/src/services/decoder.py:78 | dict.get(): None exactly when the key is absent, otherwise a value stored under the key |
| Dict.GetDistinct | python-app/src/services/alarm_manager.py:58-64 | in a dictionary with distinct keys, every entry is found under its key |
| Dict.Put | python-app/src/services/alarm_manager.py:58-64 | item assignment keeps the key order and appends a new key |
| Dict.PutNew | python-app/src/services/alarm_manager.py:47-56 | assigning a new key appends the entry |
| Dict.PutPut | python-app/src/services/alarm_manager.py:58-64 | a second assignment to a key overrides the first |
| Dict.PutGet | python-app/src/services/alarm_manager.py:58-64 | after assignment the key reads the new value and every other key reads as before |
| Dict.PutElements | python-app/src/services/alarm_manager.py:58-64 | assignment adds the new entry and keeps only old entries besides it |
| Dict.PutDistinct | python-app/src/services/alarm_manager.py:58-64 | assignment keeps the keys distinct |
| PyValue.PyInt | python-app/src/services/decoder.py:78 | int() of a JSON value: an integer is kept, None raises |
| PyValue.PyIntOfPyStr | python-app/src/services/decoder.py:78 | int(str(i)) == i for every integer |
| AlarmService.AlarmManager.constructor | python-app/src/services/alarm_manager.py:39-45 | __init__(): a fresh record for every watchlist beacon, the message counter at 0 and nothing sent |
| AlarmService.ProcessOne | python-app/src/services/alarm_manager.py:81-140 | one detection keeps the message counter within a byte |
| AlarmService.ProcessAll | python-app/src/services/alarm_manager.py:81-140 | a batch keeps the message counter within a byte |
| AlarmRules.Engine.constructor | python-app/src/logic/alarm_rules.py:110-112 | the module's global state at import: no records, counter 0, no app id, nothing sent, no events |
| Decoder.WatchlistCache.constructor | python-app/src/services/decoder.py:5 | the watchlist cache starts empty |
| Events.EventManager.constructor | python-app/src/services/event_manager.py:17-18 | the class before its first instantiation: no instance, no subscribers, no calls |

## Left out

- Transport: MQTT connection, subscription and `publish()` are not modelled. A publish is a log entry, and publish is assumed not to raise.
- Encoding: base64 encoding of downlinks and base64 decoding of uplink `data` are not modelled. Uplink data arrives already decoded as bytes.
- Output: console output, logging and the desktop windows are not modelled. Tkinter widget contents and dialog answers are parameters of the `DeviceConfig` methods.
- Delays: the `time.sleep()` pauses between the commands of an alarm sequence are not modelled.
- Clock: one call stands for the source's several `time.time()` reads in one evaluation, which in Python may differ by microseconds.
- Files: reading and writing JSON files is not modelled. `load_watchlist()`, `load_devices()` and `_load_config()` take the parsed file contents, or None when reading fails.
- save_devices() and `_save_config()` only write a file, so they are not modelled.
- JSON values are scalars (null, booleans, integers and strings), and objects are ordered key/value lists. Floats, and nested arrays inside beacon slots, are not modelled.
- Config records (floors, beacons) are datatypes. A record missing one of its keys, or holding a non-string value where a string is read, is not modelled.
- Text: `int()` is modelled on optionally signed decimal digits. Its acceptance of surrounding white space and `_` separators is not modelled.
- Text: upper(), lower() and strip() act on ASCII only.
- Legacy.DecodeMessage: a `payload['object']` that is not a JSON object (so that `.items()` raises) is not modelled.
- Events.EventManager: callbacks are opaque handles. What a callback does, other than whether it raises, is not modelled.
- Alarm records in `AlarmRules` and `AlarmService` are values in a dictionary field. Aliasing of a record fetched by a caller and then changed in place is not modelled.
- Legacy.Monitor.OnMessage: models the corrected decision, not the NameError (line 124) and TypeError (line 197) stops of the code as written. Those are modelled by Legacy.HandleAsWritten.
- AlarmRules.Engine: the state-change events of check_alarm_conditions() are appended to the engine's own `events` log. They are not delivered through Events.EventManager.Emit, so subscribers being called, and failing, are not modelled on that path.
- Dict.Get: a parsed JSON object with a repeated key is a list with both entries, and Get finds the first one, where json.loads keeps the last value. Objects with repeated keys are otherwise not modelled.
- BeaconLogic and Decoder: BeaconLogic scans slots 1..5 while Decoder scans slots 1..10. Both are modelled as written.
- Devices: the default macro sensor of a new floor ("…05ce") differs from the legacy script's alarm device ("…05cf"). Both constants are kept as written.

## Findings

| source | as written | input that shows it | evidently intended | confidence | as-written member | corrected member |
|---|---|---|---|---|---|---|
| python-app/app_legacy.py:117-124 | trigger_alarm() names ALARM_TARGET_EUI, which the script never defines (line 31 defines ALARM_TMACRO_SENSOR_EUI). The first unsafe tracked reading therefore raises NameError: no downlink is ever sent, and the message's remaining readings are dropped | one message with two readings of beacon 001064b0 at -95 dBm | the alarm is sent to the macro sensor once for each unsafe tracked reading | high (not executed) | Legacy.NameErrorDropsAlarms | Legacy.EveryUnsafeReadingAlarms |
| python-app/app_legacy.py:197 | the status line slices sensor_eui[-4:], which raises TypeError when deviceInfo has no devEui. The first tracked reading ends the message, even a safe one | deviceInfo without devEui; readings 001064b0 at -60 dBm, then 001064b0 at -95 dBm | the missing sensor only affects the status text, and the unsafe second reading still calls for the alarm | high (not executed) | Legacy.MissingSensorDropsReadings | Legacy.CorrectedSendsBoth |
