/** The configuration edits of the settings window
    (python-app/src/ui/device_config_window.py): the floors and beacons of
    devices.json, held in memory while the user adds, edits, assigns and
    deletes them. Widget contents (entry text, list selections) and the
    confirmation dialogs are parameters; the file itself is passed in
    already parsed. */
module DeviceConfig {
  import opened Text

  /** A floor: its id, display name and the three device ids. */
  datatype Floor = Floor(id: string, name: string, macroSensorEui: string,
                         bluetoothGatewayEui: string, lorawanGatewayId: string)

  /** A configured beacon; floorId is None when it is unassigned. */
  datatype Beacon = Beacon(id: string, name: string, floorId: Option<string>)

  /** The parsed devices.json. */
  datatype Config = Config(floors: seq<Floor>, beacons: seq<Beacon>)

  /** The macro sensor a new floor starts with. */
  const DEFAULT_MACRO_SENSOR_EUI: string := "70b3d5a4d31205ce"

  /** _load_config(): the parsed file, or no floors and no beacons when it
      is absent or unreadable. */
  function LoadConfig(parsed: Option<Config>): (c: Config)
    ensures parsed.None? ==> c.floors == [] && c.beacons == []
    ensures parsed.Some? ==> c == parsed.value
  {
    parsed.GetOr(Config([], []))
  }

  /** Python's truth value of selected_floor_id: neither None nor "". */
  predicate HasSelection(sel: Option<string>) {
    sel.Some? && sel.value != ""
  }

  // ---------------------------------------------------------------------
  // Floors
  // ---------------------------------------------------------------------

  /** The floor _add_floor() appends to a list of n floors. */
  function NewFloor(n: nat): (f: Floor)
    ensures f.id == "floor_" + NatDecimal(n + 1) && f.name == "Floor " + NatDecimal(n + 1)
    ensures f.macroSensorEui == DEFAULT_MACRO_SENSOR_EUI && f.bluetoothGatewayEui == "" && f.lorawanGatewayId == ""
  {
    Floor("floor_" + NatDecimal(n + 1), "Floor " + NatDecimal(n + 1), DEFAULT_MACRO_SENSOR_EUI, "", "")
  }

  /** The floors without any floor whose id is `id`, in their order. */
  function WithoutFloor(floors: seq<Floor>, id: string): (r: seq<Floor>)
    ensures |r| <= |floors|
    ensures forall f :: f in r <==> f in floors && f.id != id
    decreases |floors|
  {
    if floors == [] then []
    else (if floors[0].id == id then [] else [floors[0]]) + WithoutFloor(floors[1..], id)
  }

  /** The index of the first floor with id `id`. */
  function FirstFloor(floors: seq<Floor>, id: string): (k: Option<nat>)
    ensures k.Some? ==> k.value < |floors| && floors[k.value].id == id &&
                        forall j :: 0 <= j < k.value ==> floors[j].id != id
    ensures k.None? ==> forall j :: 0 <= j < |floors| ==> floors[j].id != id
    decreases |floors|
  {
    if floors == [] then None
    else if floors[0].id == id then Some(0)
    else
      match FirstFloor(floors[1..], id)
      case None => None
      case Some(k) => Some(k + 1)
  }

  /** A floor with the details as entered: the name stripped, the device
      ids stripped and lower-cased; the id is kept. */
  function Edited(f: Floor, name: string, macro: string, bt: string, lora: string): Floor {
    Floor(f.id, Strip(name), Lower(Strip(macro)), Lower(Strip(bt)), Lower(Strip(lora)))
  }

  /** The floors after _update_floor_details(): the first floor with the
      id edited, every other floor as it was. */
  function UpdatedFloors(floors: seq<Floor>, id: string, name: string, macro: string, bt: string, lora: string): (r: seq<Floor>)
    ensures |r| == |floors|
  {
    match FirstFloor(floors, id)
    case None => floors
    case Some(k) => floors[k := Edited(floors[k], name, macro, bt, lora)]
  }

  /** Only the first floor with the selected id changes, and it takes the
      entered details; later floors with the same id keep theirs. */
  lemma UpdateEditsFirstOnly(floors: seq<Floor>, id: string, name: string, macro: string, bt: string, lora: string)
    ensures var r := UpdatedFloors(floors, id, name, macro, bt, lora);
            forall j :: 0 <= j < |floors| ==>
              r[j] == (if FirstFloor(floors, id) == Some(j) then Edited(floors[j], name, macro, bt, lora) else floors[j])
    ensures (exists j :: 0 <= j < |floors| && floors[j].id == id) <==> FirstFloor(floors, id).Some?
  {
  }

  /** The new floor's id is not always fresh: deleting floor_1 of
      [floor_1, floor_2] and adding a floor gives a second floor_2, since
      the new id counts the floors left. */
  lemma DeleteThenAddDuplicates(f1: Floor, f2: Floor)
    requires f1.id == "floor_1" && f2.id == "floor_2"
    ensures var left := WithoutFloor([f1, f2], "floor_1");
            var after := left + [NewFloor(|left|)];
            |after| == 2 && after[0].id == after[1].id
  {
    assert [f1, f2][1..] == [f2];
    assert [f2][1..] == [];
    assert WithoutFloor([f1, f2], "floor_1") == [f2];
    assert NatDecimal(2) == "2";
  }

  // ---------------------------------------------------------------------
  // Beacons
  // ---------------------------------------------------------------------

  /** A beacon after its floor is deleted: unassigned if it was on it. */
  function Unassigned(b: Beacon, id: string): Beacon {
    if b.floorId == Some(id) then b.(floorId := None) else b
  }

  /** A beacon after the floor's assignment is saved: beacon i is on the
      floor when its row is selected, off it when it was on it and is not
      selected, and unchanged otherwise. */
  function Reassigned(b: Beacon, selected: bool, id: string): Beacon {
    if selected then b.(floorId := Some(id))
    else if b.floorId == Some(id) then b.(floorId := None)
    else b
  }

  /** After the assignment, the beacons on the floor are exactly the
      selected rows; beacons of other floors move only when selected. */
  lemma AssignmentMatchesSelection(b: Beacon, selected: bool, id: string)
    ensures Reassigned(b, selected, id).floorId == Some(id) <==> selected
    ensures !selected && b.floorId != Some(id) ==> Reassigned(b, selected, id) == b
    ensures Reassigned(b, selected, id).id == b.id && Reassigned(b, selected, id).name == b.name
  {
  }

  /** After a floor is deleted no beacon refers to it, and beacons of
      other floors are untouched. */
  lemma UnassignClearsFloor(b: Beacon, id: string)
    ensures Unassigned(b, id).floorId != Some(id)
    ensures b.floorId != Some(id) ==> Unassigned(b, id) == b
    ensures Unassigned(b, id).id == b.id && Unassigned(b, id).name == b.name
  {
  }

  /** The id _add_beacon() takes from its entry: stripped, upper-cased. */
  function EnteredId(text: string): string {
    Upper(Strip(text))
  }

  /** The name _add_beacon() takes: the stripped entry, or "Beacon <ID>". */
  function EnteredName(text: string, id: string): (r: string)
    ensures r != []
  {
    if Strip(text) != "" then Strip(text) else "Beacon " + id
  }

  /** Beacon ids are distinct regardless of case. */
  predicate UniqueIds(bs: seq<Beacon>) {
    forall i, j :: 0 <= i < j < |bs| ==> Upper(bs[i].id) != Upper(bs[j].id)
  }

  /** Some beacon has the id, regardless of case. */
  predicate Known(bs: seq<Beacon>, id: string) {
    exists i :: 0 <= i < |bs| && Upper(bs[i].id) == id
  }

  /** The beacons after _add_beacon(): unchanged for an empty id or one
      already present; otherwise the new beacon appended. */
  function AddedBeacons(bs: seq<Beacon>, idText: string, nameText: string, floor: Option<string>): seq<Beacon> {
    var id := EnteredId(idText);
    if id == "" || Known(bs, id) then bs else bs + [Beacon(id, EnteredName(nameText, id), floor)]
  }

  /** Adding a beacon keeps the ids distinct regardless of case, and the
      added beacon is found under its entered id. */
  lemma AddKeepsIdsUnique(bs: seq<Beacon>, idText: string, nameText: string, floor: Option<string>)
    requires UniqueIds(bs)
    ensures UniqueIds(AddedBeacons(bs, idText, nameText, floor))
    ensures EnteredId(idText) != "" ==> Known(AddedBeacons(bs, idText, nameText, floor), EnteredId(idText))
  {
    var id := EnteredId(idText);
    UpperIsUpperCased(Strip(idText));
    if id != "" && !Known(bs, id) {
      var r := AddedBeacons(bs, idText, nameText, floor);
      assert Upper(r[|bs|].id) == id;
    }
  }

  /** The beacons whose index, counting from `offset`, is not selected,
      in their order. */
  function Kept(bs: seq<Beacon>, selection: set<nat>, offset: nat): (r: seq<Beacon>)
    ensures |r| <= |bs|
    decreases |bs|
  {
    if bs == [] then []
    else (if offset in selection then [] else [bs[0]]) + Kept(bs[1..], selection, offset + 1)
  }

  /** Deletion keeps the survivors' relative order: those of a front part
      come before those of the rest. */
  lemma {:induction false} KeptAppend(a: seq<Beacon>, b: seq<Beacon>, selection: set<nat>, offset: nat)
    ensures Kept(a + b, selection, offset) == Kept(a, selection, offset) + Kept(b, selection, offset + |a|)
    decreases |a|
  {
    if a == [] {
      assert a + b == b;
    } else {
      assert (a + b)[1..] == a[1..] + b;
      KeptAppend(a[1..], b, selection, offset + 1);
    }
  }

  /** Every unselected beacon survives deletion. */
  lemma {:induction false} KeptUnselected(bs: seq<Beacon>, selection: set<nat>, offset: nat)
    ensures forall i :: 0 <= i < |bs| && offset + i !in selection ==> bs[i] in Kept(bs, selection, offset)
    decreases |bs|
  {
    if bs != [] {
      KeptUnselected(bs[1..], selection, offset + 1);
      forall i | 1 <= i < |bs| && offset + i !in selection
        ensures bs[i] in Kept(bs, selection, offset)
      {
        assert bs[1..][i - 1] == bs[i];
        assert offset + 1 + (i - 1) == offset + i;
      }
    }
  }

  /** A selection that misses every index, such as one past the end of
      the list, deletes nothing. */
  lemma {:induction false} KeptNoneSelected(bs: seq<Beacon>, selection: set<nat>, offset: nat)
    requires forall k :: k in selection ==> !(offset <= k < offset + |bs|)
    ensures Kept(bs, selection, offset) == bs
    decreases |bs|
  {
    if bs != [] {
      KeptNoneSelected(bs[1..], selection, offset + 1);
      assert bs == [bs[0]] + bs[1..];
    }
  }

  /** One deletion step: the part before i, then i's survivors. */
  lemma KeptStep(bs: seq<Beacon>, selection: set<nat>, i: nat)
    requires 0 < i <= |bs|
    ensures Kept(bs[i - 1..], selection, i - 1) ==
            (if i - 1 in selection then [] else [bs[i - 1]]) + Kept(bs[i..], selection, i)
  {
    assert bs[i - 1..][1..] == bs[i..];
  }

  /** The duplicate check of _add_beacon(): a search that stops at the
      first beacon whose id matches regardless of case. */
  method FindBeacon(bs: seq<Beacon>, id: string) returns (found: bool)
    ensures found <==> Known(bs, id)
  {
    var i := 0;
    while i < |bs|
      invariant 0 <= i <= |bs|
      invariant forall j :: 0 <= j < i ==> Upper(bs[j].id) != id
    {
      if Upper(bs[i].id) == id {
        return true;
      }
      i := i + 1;
    }
    return false;
  }

  // ---------------------------------------------------------------------
  // The window
  // ---------------------------------------------------------------------

  /** The window's config_data and selected_floor_id. */
  class DeviceConfigWindow {
    var floors: seq<Floor>
    var beacons: seq<Beacon>
    var selectedFloorId: Option<string>

    /** __init__(): the loaded configuration, with the first floor
        selected when there is one. */
    constructor (parsed: Option<Config>)
      ensures floors == LoadConfig(parsed).floors && beacons == LoadConfig(parsed).beacons
      ensures selectedFloorId == (if floors == [] then None else Some(floors[0].id))
    {
      var config := LoadConfig(parsed);
      floors := config.floors;
      beacons := config.beacons;
      selectedFloorId := None;
      if config.floors != [] {
        selectedFloorId := Some(config.floors[0].id);
      }
    }

    /** _add_floor(): the new floor appended and selected. */
    method AddFloor()
      modifies this
      ensures floors == old(floors) + [NewFloor(|old(floors)|)]
      ensures selectedFloorId == Some(NewFloor(|old(floors)|).id)
      ensures beacons == old(beacons)
    {
      var floorNum := |floors| + 1;
      var newFloor := Floor("floor_" + NatDecimal(floorNum), "Floor " + NatDecimal(floorNum), DEFAULT_MACRO_SENSOR_EUI, "", "");
      floors := floors + [newFloor];
      selectedFloorId := Some(newFloor.id);
    }

    /** _delete_floor(): without a selection or confirmation nothing
        changes; otherwise every floor with the selected id goes, its
        beacons are unassigned and the selection is cleared. */
    method DeleteFloor(confirmed: bool)
      modifies this
      ensures !HasSelection(old(selectedFloorId)) || !confirmed ==>
                floors == old(floors) && beacons == old(beacons) && selectedFloorId == old(selectedFloorId)
      ensures HasSelection(old(selectedFloorId)) && confirmed ==>
                && floors == WithoutFloor(old(floors), old(selectedFloorId).value)
                && |beacons| == |old(beacons)|
                && (forall i :: 0 <= i < |beacons| ==> beacons[i] == Unassigned(old(beacons)[i], old(selectedFloorId).value))
                && selectedFloorId == None
    {
      if !HasSelection(selectedFloorId) || !confirmed {
        return;
      }
      var id := selectedFloorId.value;
      floors := WithoutFloor(floors, id);
      var bs := beacons;
      var i := 0;
      while i < |bs|
        invariant 0 <= i <= |bs| == |beacons|
        invariant forall j :: 0 <= j < i ==> bs[j] == Unassigned(beacons[j], id)
        invariant forall j :: i <= j < |bs| ==> bs[j] == beacons[j]
      {
        if bs[i].floorId == Some(id) {
          bs := bs[i := bs[i].(floorId := None)];
        }
        i := i + 1;
      }
      beacons := bs;
      selectedFloorId := None;
    }

    /** _update_floor_details(): without a selection nothing changes;
        otherwise the first floor with the selected id takes the entered
        details and the beacons are reassigned from the selected rows. */
    method UpdateFloorDetails(name: string, macro: string, bt: string, lora: string, selectedRows: set<nat>)
      modifies this
      ensures selectedFloorId == old(selectedFloorId)
      ensures !HasSelection(selectedFloorId) ==> floors == old(floors) && beacons == old(beacons)
      ensures HasSelection(selectedFloorId) ==>
                && floors == UpdatedFloors(old(floors), selectedFloorId.value, name, macro, bt, lora)
                && |beacons| == |old(beacons)|
                && (forall i :: 0 <= i < |beacons| ==>
                      beacons[i] == Reassigned(old(beacons)[i], i in selectedRows, selectedFloorId.value))
    {
      if !HasSelection(selectedFloorId) {
        return;
      }
      var id := selectedFloorId.value;
      EditFirstFloor(id, name, macro, bt, lora);
      var bs := beacons;
      var i := 0;
      while i < |bs|
        invariant 0 <= i <= |bs| == |beacons|
        invariant forall j :: 0 <= j < i ==> bs[j] == Reassigned(beacons[j], j in selectedRows, id)
        invariant forall j :: i <= j < |bs| ==> bs[j] == beacons[j]
      {
        if i in selectedRows {
          bs := bs[i := bs[i].(floorId := Some(id))];
        } else if bs[i].floorId == Some(id) {
          bs := bs[i := bs[i].(floorId := None)];
        }
        i := i + 1;
      }
      beacons := bs;
    }

    /** The search loop of _update_floor_details(): the first floor with
        the id is edited, and the search stops there. */
    method EditFirstFloor(id: string, name: string, macro: string, bt: string, lora: string)
      modifies this
      ensures floors == UpdatedFloors(old(floors), id, name, macro, bt, lora)
      ensures beacons == old(beacons) && selectedFloorId == old(selectedFloorId)
    {
      var i := 0;
      while i < |floors|
        invariant 0 <= i <= |floors|
        invariant forall j :: 0 <= j < i ==> floors[j].id != id
      {
        if floors[i].id == id {
          floors := floors[i := Edited(floors[i], name, macro, bt, lora)];
          return;
        }
        i := i + 1;
      }
    }

    /** _add_beacon(): the new beacon appended on the selected floor,
        unless its id is empty or already present. */
    method AddBeacon(idText: string, nameText: string)
      modifies this
      ensures beacons == AddedBeacons(old(beacons), idText, nameText, old(selectedFloorId))
      ensures floors == old(floors) && selectedFloorId == old(selectedFloorId)
    {
      var beaconId := EnteredId(idText);
      var beaconName := EnteredName(nameText, beaconId);
      if beaconId == "" {
        return;
      }
      var duplicate := FindBeacon(beacons, beaconId);
      if duplicate {
        return;
      }
      beacons := beacons + [Beacon(beaconId, beaconName, selectedFloorId)];
    }

    /** _delete_beacon(): with rows selected and the deletion confirmed,
        the selected beacons go, highest index first; a selected index
        past the end is skipped. */
    method DeleteBeacon(selectedRows: set<nat>, confirmed: bool)
      modifies this
      ensures selectedRows == {} || !confirmed ==> beacons == old(beacons)
      ensures selectedRows != {} && confirmed ==> beacons == Kept(old(beacons), selectedRows, 0)
      ensures floors == old(floors) && selectedFloorId == old(selectedFloorId)
    {
      if selectedRows == {} || !confirmed {
        return;
      }
      // Deleting in descending order, an index at or past the current end
      // is one past the original end, so walking the indices of the
      // original list downwards visits every index that gets deleted.
      var original := beacons;
      var bs := beacons;
      var idx := |bs|;
      while idx > 0
        invariant 0 <= idx <= |original|
        invariant floors == old(floors) && selectedFloorId == old(selectedFloorId)
        invariant bs == original[..idx] + Kept(original[idx..], selectedRows, idx)
      {
        KeptStep(original, selectedRows, idx);
        if idx - 1 in selectedRows {
          assert bs[..idx - 1] == original[..idx - 1];
          bs := bs[..idx - 1] + bs[idx..];
        } else {
          assert original[..idx] == original[..idx - 1] + [original[idx - 1]];
        }
        idx := idx - 1;
      }
      assert original[..0] == [] && original[0..] == original;
      beacons := bs;
    }
  }
}
