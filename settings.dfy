/** Configuration of the alarm service: the constants of
    python-app/src/config/settings.py, the beacon watchlist built from
    beacons.json and the floor/device table of devices.json. The files
    themselves are not read here: each operation takes what reading the
    file gave as a value. */
module Settings {
  import opened Text
  import Dict

  const SAFE_RSSI_THRESHOLD: int := -60
  const DEBOUNCE_SECONDS: int := 5
  const MAX_SILENCE_DURATION: int := 120
  const ALARM_TARGET_EUI: string := "70b3d5a4d31205ce"
  const ALARM_OFF_HEX: string := "B0000100"
  const ALARM_VOL_HIGH_HEX: string := "B0000101"
  const TARGET_BEACONS: seq<string> := ["64B0", "64AF", "64AE"]

  /** The outcome of opening and parsing a JSON file. `Unreadable` covers
      every exception raised while reading or parsing it. */
  datatype FileRead<T> = Missing | Unreadable | Parsed(data: T)

  // ---------------------------------------------------------------------
  // Watchlist (beacons.json)
  // ---------------------------------------------------------------------

  /** The "id" member of a beacons.json entry: absent, a string, or some
      other JSON value (on which .upper() raises). */
  datatype IdField = NoId | IdText(text: string) | IdNotText

  /** One entry of the "beacons" list of beacons.json. */
  datatype BeaconRecord = BeaconRecord(id: IdField, name: Option<string>)

  /** A watchlist entry: {"id": ..., "name": ...}. */
  datatype WatchInfo = WatchInfo(id: string, name: string)

  /** The watchlist dict, keyed by upper-cased beacon id, in insertion order. */
  type Watchlist = Dict.Dict<string, WatchInfo>

  /** What one beacons.json entry does to the watchlist under
      construction; None where it raises. */
  function IngestRecord(wl: Watchlist, rec: BeaconRecord): Option<Watchlist>
  {
    match rec.id
    case NoId => Some(wl)
    case IdNotText => None
    case IdText(text) =>
      var bid := Upper(text);
      if bid == "" then Some(wl)
      else Some(Dict.Put(wl, bid, WatchInfo(bid, rec.name.GetOr("Beacon " + bid))))
  }

  /** The entries of beacons.json taken in order, starting from `wl`; the
      flag says whether an entry raised, which stops the walk with what
      was added so far. */
  function IngestRecords(wl: Watchlist, recs: seq<BeaconRecord>): (r: (Watchlist, bool))
    decreases |recs|
  {
    if recs == [] then (wl, false)
    else match IngestRecord(wl, recs[0])
      case None => (wl, true)
      case Some(wl') => IngestRecords(wl', recs[1..])
  }

  /** The TARGET_BEACONS fallback, added to `wl` in list order. */
  function AddTargets(wl: Watchlist, targets: seq<string>): Watchlist
    decreases |targets|
  {
    if targets == [] then wl
    else
      var bid := Upper(targets[0]);
      AddTargets(Dict.Put(wl, bid, WatchInfo(bid, "Beacon " + bid)), targets[1..])
  }

  /** load_watchlist(): the file's entries when it yields at least one
      beacon without raising; otherwise TARGET_BEACONS, added on top of
      whatever the file had contributed before it raised. */
  function WatchlistOf(file: FileRead<seq<BeaconRecord>>): Watchlist
  {
    var (fromFile, raised) := if file.Parsed? then IngestRecords([], file.data) else ([], false);
    if file.Parsed? && !raised && fromFile != [] then fromFile
    else AddTargets(fromFile, TARGET_BEACONS)
  }

  /** load_watchlist() as the source runs it: a loop over the entries that
      fills the dict, then the fallback loop. */
  method LoadWatchlist(file: FileRead<seq<BeaconRecord>>) returns (wl: Watchlist)
    ensures wl == WatchlistOf(file)
  {
    wl := [];
    var raised := false;
    if file.Parsed? {
      wl, raised := IngestLoop(file.data);
      if !raised && wl != [] {
        return;
      }
    }
    wl := AddTargetsLoop(wl);
  }

  /** The loop over the file's entries; it stops at the entry that raises. */
  method IngestLoop(recs: seq<BeaconRecord>) returns (wl: Watchlist, raised: bool)
    ensures (wl, raised) == IngestRecords([], recs)
  {
    wl := [];
    raised := false;
    var i := 0;
    while i < |recs|
      invariant 0 <= i <= |recs|
      invariant IngestRecords(wl, recs[i..]) == IngestRecords([], recs)
    {
      assert recs[i..][1..] == recs[i + 1..];
      var next := IngestRecord(wl, recs[i]);
      if next.None? {
        raised := true;
        return;
      }
      wl := next.value;
      i := i + 1;
    }
    assert recs[i..] == [];
  }

  /** The fallback loop adding TARGET_BEACONS. */
  method AddTargetsLoop(start: Watchlist) returns (wl: Watchlist)
    ensures wl == AddTargets(start, TARGET_BEACONS)
  {
    wl := start;
    var k := 0;
    while k < |TARGET_BEACONS|
      invariant 0 <= k <= |TARGET_BEACONS|
      invariant AddTargets(wl, TARGET_BEACONS[k..]) == AddTargets(start, TARGET_BEACONS)
    {
      assert TARGET_BEACONS[k..][1..] == TARGET_BEACONS[k + 1..];
      var bid := Upper(TARGET_BEACONS[k]);
      wl := Dict.Put(wl, bid, WatchInfo(bid, "Beacon " + bid));
      k := k + 1;
    }
  }

  /** A well-formed watchlist: distinct keys, each an upper-cased non-empty
      id stored as its own "id". */
  ghost predicate GoodWatchlist(wl: Watchlist) {
    && Dict.DistinctKeys(wl)
    && forall i :: 0 <= i < |wl| ==> wl[i].0 != "" && IsUpperCased(wl[i].0) && wl[i].1.id == wl[i].0
  }

  lemma PutKeepsGood(wl: Watchlist, bid: string, name: string)
    requires GoodWatchlist(wl) && bid != "" && IsUpperCased(bid)
    ensures GoodWatchlist(Dict.Put(wl, bid, WatchInfo(bid, name)))
  {
    Dict.PutDistinct(wl, bid, WatchInfo(bid, name));
    var r := Dict.Put(wl, bid, WatchInfo(bid, name));
    forall i | 0 <= i < |r| ensures r[i].0 != "" && IsUpperCased(r[i].0) && r[i].1.id == r[i].0 {
      var k := r[i].0;
      assert k == Dict.Keys(r)[i];
      Dict.GetDistinct(r, i);
      Dict.PutGet(wl, bid, WatchInfo(bid, name), k);
      if k != bid {
        assert k in Dict.Keys(wl);
        var j :| 0 <= j < |wl| && wl[j].0 == k;
        Dict.GetDistinct(wl, j);
      }
    }
  }

  lemma {:induction false} IngestKeepsGood(wl: Watchlist, recs: seq<BeaconRecord>)
    requires GoodWatchlist(wl)
    ensures GoodWatchlist(IngestRecords(wl, recs).0)
    decreases |recs|
  {
    if recs != [] {
      var next := IngestRecord(wl, recs[0]);
      if next.Some? {
        if recs[0].id.IdText? && Upper(recs[0].id.text) != "" {
          var bid := Upper(recs[0].id.text);
          UpperIsUpperCased(recs[0].id.text);
          PutKeepsGood(wl, bid, recs[0].name.GetOr("Beacon " + bid));
        }
        IngestKeepsGood(next.value, recs[1..]);
      }
    }
  }

  lemma {:induction false} AddTargetsKeepsGood(wl: Watchlist, targets: seq<string>)
    requires GoodWatchlist(wl)
    requires forall i :: 0 <= i < |targets| ==> targets[i] != ""
    ensures GoodWatchlist(AddTargets(wl, targets))
    decreases |targets|
  {
    if targets != [] {
      var bid := Upper(targets[0]);
      UpperIsUpperCased(targets[0]);
      PutKeepsGood(wl, bid, "Beacon " + bid);
      AddTargetsKeepsGood(Dict.Put(wl, bid, WatchInfo(bid, "Beacon " + bid)), targets[1..]);
    }
  }

  /** Every watchlist key is a non-empty upper-cased id, keys are distinct,
      and each entry's "id" is its key. */
  lemma WatchlistIsGood(file: FileRead<seq<BeaconRecord>>)
    ensures GoodWatchlist(WatchlistOf(file))
  {
    if file.Parsed? {
      IngestKeepsGood([], file.data);
    }
    var fromFile := if file.Parsed? then IngestRecords([], file.data).0 else [];
    AddTargetsKeepsGood(fromFile, TARGET_BEACONS);
  }

  /** The watchlist entries "<ID>" -> {"id": "<ID>", "name": "Beacon <ID>"}
      for the given ids, in order. */
  function TargetEntries(ids: seq<string>): (r: Watchlist)
    ensures |r| == |ids|
    ensures forall i :: 0 <= i < |ids| ==> r[i] == (ids[i], WatchInfo(ids[i], "Beacon " + ids[i]))
  {
    if ids == [] then [] else [(ids[0], WatchInfo(ids[0], "Beacon " + ids[0]))] + TargetEntries(ids[1..])
  }

  /** Distinct upper-cased ids, none of them yet a key of `wl`. */
  predicate NewIds(wl: Watchlist, ids: seq<string>) {
    && (forall i :: 0 <= i < |ids| ==> Upper(ids[i]) == ids[i] && ids[i] !in Dict.Keys(wl))
    && (forall i, j :: 0 <= i < j < |ids| ==> ids[i] != ids[j])
  }

  /** The default watchlist entry of an id. */
  function TargetEntry(id: string): (string, WatchInfo) {
    (id, WatchInfo(id, "Beacon " + id))
  }

  /** Adding distinct upper-cased ids that are not yet keys appends their
      default entries in order. */
  lemma {:induction false} AddTargetsAppends(wl: Watchlist, ids: seq<string>)
    requires NewIds(wl, ids)
    ensures AddTargets(wl, ids) == wl + TargetEntries(ids)
    decreases |ids|
  {
    if ids != [] {
      var wl', rest := wl + [TargetEntry(ids[0])], ids[1..];
      AddTargetsHead(wl, ids);
      TargetsStayFresh(wl, ids);
      AddTargetsAppends(wl', rest);
      TargetEntriesCons(wl, ids);
    }
  }

  /** The entries of the ids after the first's entry: those of all ids. */
  lemma TargetEntriesCons(wl: Watchlist, ids: seq<string>)
    requires ids != []
    ensures wl + [TargetEntry(ids[0])] + TargetEntries(ids[1..]) == wl + TargetEntries(ids)
  {
    assert TargetEntries(ids) == [TargetEntry(ids[0])] + TargetEntries(ids[1..]);
  }

  /** The first of the ids, new and upper-cased, is appended. */
  lemma AddTargetsHead(wl: Watchlist, ids: seq<string>)
    requires ids != [] && Upper(ids[0]) == ids[0] && ids[0] !in Dict.Keys(wl)
    ensures AddTargets(wl, ids) == AddTargets(wl + [TargetEntry(ids[0])], ids[1..])
  {
    Dict.PutNew(wl, ids[0], WatchInfo(ids[0], "Beacon " + ids[0]));
  }

  /** The remaining ids are still new once the first has been added. */
  lemma TargetsStayFresh(wl: Watchlist, ids: seq<string>)
    requires ids != [] && NewIds(wl, ids)
    ensures NewIds(wl + [TargetEntry(ids[0])], ids[1..])
  {
    var wl' := wl + [TargetEntry(ids[0])];
    assert Dict.Keys(wl') == Dict.Keys(wl) + [ids[0]];
    assert forall i :: 0 <= i < |ids[1..]| ==> ids[1..][i] == ids[i + 1];
  }

  /** A file that is missing or unreadable gives exactly the three
      TARGET_BEACONS, in order, each named "Beacon <ID>". */
  lemma FallbackWatchlist(file: FileRead<seq<BeaconRecord>>)
    requires !file.Parsed?
    ensures WatchlistOf(file) == TargetEntries(TARGET_BEACONS)
  {
    TargetsNormalised();
    AddTargetsAppends([], TARGET_BEACONS);
  }

  /** The TARGET_BEACONS are distinct and already upper-case. */
  lemma TargetsNormalised()
    ensures forall i :: 0 <= i < |TARGET_BEACONS| ==> Upper(TARGET_BEACONS[i]) == TARGET_BEACONS[i]
    ensures forall i, j :: 0 <= i < j < |TARGET_BEACONS| ==> TARGET_BEACONS[i] != TARGET_BEACONS[j]
  {
    var ts := TARGET_BEACONS;
    assert ts[0][2] != ts[1][2] && ts[0][2] != ts[2][2] && ts[1][3] != ts[2][3];
    forall i | 0 <= i < |ts| ensures Upper(ts[i]) == ts[i] {
      UpperOfUpperCased(ts[i]);
    }
  }

  /** When no entry raises and some entry has a non-empty id, the watchlist
      is exactly the file's, and its key for that entry is the upper-cased
      id, named by the entry or "Beacon <ID>". */
  lemma {:induction false} FileEntryListed(recs: seq<BeaconRecord>, i: nat)
    requires i < |recs| && recs[i].id.IdText? && Upper(recs[i].id.text) != ""
    requires !IngestRecords([], recs).1
    ensures WatchlistOf(Parsed(recs)) == IngestRecords([], recs).0
    ensures Upper(recs[i].id.text) in Dict.Keys(WatchlistOf(Parsed(recs)))
  {
    IngestAddsKey([], recs, i);
  }

  lemma {:induction false} IngestAddsKey(wl: Watchlist, recs: seq<BeaconRecord>, i: nat)
    requires i < |recs| && recs[i].id.IdText? && Upper(recs[i].id.text) != ""
    requires !IngestRecords(wl, recs).1
    ensures Upper(recs[i].id.text) in Dict.Keys(IngestRecords(wl, recs).0)
    decreases |recs|
  {
    var next := IngestRecord(wl, recs[0]);
    if i == 0 {
      IngestKeepsKey(next.value, recs[1..], Upper(recs[0].id.text));
    } else {
      IngestAddsKey(next.value, recs[1..], i - 1);
    }
  }

  lemma {:induction false} IngestKeepsKey(wl: Watchlist, recs: seq<BeaconRecord>, k: string)
    requires k in Dict.Keys(wl)
    ensures k in Dict.Keys(IngestRecords(wl, recs).0)
    decreases |recs|
  {
    if recs != [] {
      var next := IngestRecord(wl, recs[0]);
      if next.Some? {
        IngestKeepsKey(next.value, recs[1..], k);
      }
    }
  }

  // ---------------------------------------------------------------------
  // Floors and devices (devices.json)
  // ---------------------------------------------------------------------

  /** A floor of devices.json; None stands for a member that is absent. */
  datatype Floor = Floor(
    id: Option<string>,
    name: Option<string>,
    macroSensorEui: Option<string>,
    bluetoothGatewayEui: Option<string>,
    lorawanGatewayId: Option<string>)

  /** A beacon of devices.json; None stands for an absent or null member. */
  datatype DeviceBeacon = DeviceBeacon(
    id: Option<string>,
    name: Option<string>,
    floorId: Option<string>,
    homeFloorId: Option<string>)

  datatype DevicesConfig = DevicesConfig(floors: seq<Floor>, beacons: seq<DeviceBeacon>)

  const DEFAULT_FLOOR: Floor :=
    Floor(Some("floor_1"), Some("Default Floor"), Some(ALARM_TARGET_EUI), Some(""), Some(""))

  const DEFAULT_DEVICES: DevicesConfig := DevicesConfig([DEFAULT_FLOOR], [])

  /** load_devices(): the file's content only when its "floors" list is
      non-empty, otherwise the single default floor. */
  function LoadDevices(file: FileRead<DevicesConfig>): (c: DevicesConfig)
    ensures |c.floors| > 0
    ensures c == DEFAULT_DEVICES || (file.Parsed? && c == file.data)
    ensures file.Parsed? && |file.data.floors| > 0 ==> c == file.data
  {
    if file.Parsed? && |file.data.floors| > 0 then file.data else DEFAULT_DEVICES
  }

  /** A floor belongs to a device when its macro sensor or its Bluetooth
      gateway EUI equals the device EUI, ignoring case; an absent EUI
      reads as "". */
  predicate OwnsDevice(f: Floor, deviceEui: string) {
    Lower(f.macroSensorEui.GetOr("")) == Lower(deviceEui) ||
    Lower(f.bluetoothGatewayEui.GetOr("")) == Lower(deviceEui)
  }

  /** The position of the first floor that owns the device. */
  function FirstOwner(floors: seq<Floor>, deviceEui: string): (r: Option<nat>)
    ensures r.Some? ==> r.value < |floors| && OwnsDevice(floors[r.value], deviceEui)
    ensures r.Some? ==> forall j :: 0 <= j < r.value ==> !OwnsDevice(floors[j], deviceEui)
    ensures r.None? ==> forall j :: 0 <= j < |floors| ==> !OwnsDevice(floors[j], deviceEui)
  {
    if floors == [] then None
    else if OwnsDevice(floors[0], deviceEui) then Some(0)
    else match FirstOwner(floors[1..], deviceEui)
      case None => None
      case Some(k) => Some(k + 1)
  }

  /** get_floor_by_device(device_eui). */
  function GetFloorByDevice(config: DevicesConfig, deviceEui: string): (r: Option<Floor>)
  {
    match FirstOwner(config.floors, deviceEui)
    case None => None
    case Some(k) => Some(config.floors[k])
  }

  /** The floor found is the first, in list order, that owns the device,
      and None means no floor owns it. */
  lemma GetFloorByDeviceIsFirstOwner(config: DevicesConfig, deviceEui: string)
    ensures GetFloorByDevice(config, deviceEui).Some? <==>
              exists j :: 0 <= j < |config.floors| && OwnsDevice(config.floors[j], deviceEui)
    ensures GetFloorByDevice(config, deviceEui).Some? ==>
              exists k :: 0 <= k < |config.floors| && config.floors[k] == GetFloorByDevice(config, deviceEui).value &&
                OwnsDevice(config.floors[k], deviceEui) &&
                forall j :: 0 <= j < k ==> !OwnsDevice(config.floors[j], deviceEui)
  {
  }

  /** The LoRaWAN gateway id of a floor plays no part in the lookup. */
  lemma {:induction false} LorawanIdIgnored(floors: seq<Floor>, others: seq<Floor>, deviceEui: string)
    requires |others| == |floors|
    requires forall i :: 0 <= i < |floors| ==>
               others[i] == floors[i].(lorawanGatewayId := others[i].lorawanGatewayId)
    ensures FirstOwner(others, deviceEui) == FirstOwner(floors, deviceEui)
  {
    if floors != [] {
      assert OwnsDevice(others[0], deviceEui) == OwnsDevice(floors[0], deviceEui);
      LorawanIdIgnored(floors[1..], others[1..], deviceEui);
    }
  }

  /** An empty device EUI is owned by the first floor with an empty or
      absent macro sensor or Bluetooth gateway EUI: with the default
      configuration, the default floor. */
  lemma EmptyEuiFindsDefaultFloor()
    ensures GetFloorByDevice(DEFAULT_DEVICES, "") == Some(DEFAULT_FLOOR)
  {
    assert OwnsDevice(DEFAULT_FLOOR, "");
  }

  /** get_macro_sensor_for_floor(floor_id). */
  function GetMacroSensorForFloor(config: DevicesConfig, floorId: string): string {
    MacroSensorIn(config.floors, floorId)
  }

  /** The search over the floors: the first with that id gives its macro
      sensor (ALARM_TARGET_EUI when it has none). */
  function MacroSensorIn(floors: seq<Floor>, floorId: string): string {
    if floors == [] then ALARM_TARGET_EUI
    else if floors[0].id == Some(floorId) then floors[0].macroSensorEui.GetOr(ALARM_TARGET_EUI)
    else MacroSensorIn(floors[1..], floorId)
  }

  /** The macro sensor of the first floor with that id, or ALARM_TARGET_EUI
      if that floor has none. */
  lemma {:induction false} MacroSensorOfFirstFloor(config: DevicesConfig, floorId: string, k: nat)
    requires k < |config.floors| && config.floors[k].id == Some(floorId)
    requires forall j :: 0 <= j < k ==> config.floors[j].id != Some(floorId)
    ensures GetMacroSensorForFloor(config, floorId) == config.floors[k].macroSensorEui.GetOr(ALARM_TARGET_EUI)
  {
    FirstFloorWithId(config.floors, floorId, k);
  }

  lemma {:induction false} FirstFloorWithId(floors: seq<Floor>, floorId: string, k: nat)
    requires k < |floors| && floors[k].id == Some(floorId)
    requires forall j :: 0 <= j < k ==> floors[j].id != Some(floorId)
    ensures MacroSensorIn(floors, floorId) == floors[k].macroSensorEui.GetOr(ALARM_TARGET_EUI)
  {
    if k > 0 {
      assert forall j :: 0 <= j < k - 1 ==> floors[1..][j] == floors[j + 1];
      FirstFloorWithId(floors[1..], floorId, k - 1);
    }
  }

  /** When no floor has that id, ALARM_TARGET_EUI. */
  lemma {:induction false} MacroSensorWithoutFloor(floors: seq<Floor>, floorId: string)
    requires forall j :: 0 <= j < |floors| ==> floors[j].id != Some(floorId)
    ensures MacroSensorIn(floors, floorId) == ALARM_TARGET_EUI
  {
    if floors != [] {
      assert forall j :: 0 <= j < |floors| - 1 ==> floors[1..][j] == floors[j + 1];
      MacroSensorWithoutFloor(floors[1..], floorId);
    }
  }
}
