/** The uplink normaliser of python-app/src/services/decoder.py: the cached
    watchlist, the substring match of a beacon id against it, the minor-id
    extraction and the slot-by-slot reading of a gateway's decoded JSON
    object. */
module Decoder {
  import opened Text
  import Dict
  import opened PyValue
  import opened Settings

  // ---------------------------------------------------------------------
  // Matching a beacon id against the watchlist
  // ---------------------------------------------------------------------

  /** The first watchlist key, in insertion order, that occurs in `id`. */
  function FirstTracked(wl: Watchlist, id: string): (r: Option<string>)
    ensures r.Some? ==> r.value in Dict.Keys(wl) && Contains(id, r.value)
  {
    if wl == [] then None
    else if Contains(id, wl[0].0) then Some(wl[0].0)
    else
      var r := FirstTracked(wl[1..], id);
      assert Dict.Keys(wl) == [wl[0].0] + Dict.Keys(wl[1..]);
      r
  }

  /** A beacon is untracked exactly when no key occurs in its id. */
  lemma {:induction false} UntrackedIffNoKey(wl: Watchlist, id: string)
    ensures FirstTracked(wl, id).None? <==> forall j :: 0 <= j < |wl| ==> !Contains(id, wl[j].0)
  {
    if wl != [] && !Contains(id, wl[0].0) {
      UntrackedIffNoKey(wl[1..], id);
      assert forall j :: 0 < j < |wl| ==> wl[j] == wl[1..][j - 1];
    }
  }

  /** The search loop of is_beacon_tracked() over the watchlist keys, with
      its early return. */
  method FindTracked(wl: Watchlist, beaconUpper: string) returns (matched: Option<string>)
    ensures matched == FirstTracked(wl, beaconUpper)
  {
    var i := 0;
    while i < |wl|
      invariant 0 <= i <= |wl|
      invariant FirstTracked(wl[i..], beaconUpper) == FirstTracked(wl, beaconUpper)
    {
      assert wl[i..][1..] == wl[i + 1..];
      if Contains(beaconUpper, wl[i].0) {
        return Some(wl[i].0);
      }
      i := i + 1;
    }
    return None;
  }

  /** Whether a beacon is tracked is decided by the first key it contains:
      a key k is reported exactly when k occurs in the id and no earlier key
      does. */
  lemma {:induction false} TrackedIffFirstContained(wl: Watchlist, id: string, k: nat)
    requires Dict.DistinctKeys(wl) && k < |wl|
    ensures FirstTracked(wl, id) == Some(wl[k].0) <==>
              Contains(id, wl[k].0) && forall j :: 0 <= j < k ==> !Contains(id, wl[j].0)
  {
    var tail := wl[1..];
    Dict.DistinctTail(wl);
    if Contains(id, wl[0].0) {
      if k > 0 {
        assert wl[0].0 != wl[k].0;
      }
    } else if k > 0 {
      TrackedIffFirstContained(tail, id, k - 1);
      assert tail[k - 1] == wl[k];
      assert forall j :: 0 <= j < k - 1 ==> tail[j] == wl[j + 1];
    }
  }

  // ---------------------------------------------------------------------
  // Minor id
  // ---------------------------------------------------------------------

  /** extract_minor_id(): the upper-cased id's last four characters, or all
      of it when it is shorter. */
  function ExtractMinorId(fullId: string): (minor: string)
    ensures |minor| == if |fullId| >= 4 then 4 else |fullId|
    ensures IsUpperCased(minor)
    ensures exists k :: OccursAt(Upper(fullId), minor, k) && k + |minor| == |fullId|
  {
    var u := Upper(fullId);
    UpperIsUpperCased(fullId);
    var m := if |u| >= 4 then u[|u| - 4..] else u;
    assert OccursAt(u, m, |u| - |m|);
    m
  }

  /** A minor id is its own minor id. */
  lemma MinorIdIdempotent(fullId: string)
    ensures ExtractMinorId(ExtractMinorId(fullId)) == ExtractMinorId(fullId)
  {
    var m := ExtractMinorId(fullId);
    UpperOfUpperCased(m);
  }

  /** Ids that agree on their last four characters (up to case) share a
      minor id: "001064AF" and "64af" both give "64AF". */
  lemma MinorIdOfSuffix(fullId: string, tail: string)
    requires |tail| == 4 && |fullId| >= 4 && Upper(fullId[|fullId| - 4..]) == Upper(tail)
    ensures ExtractMinorId(fullId) == Upper(tail)
  {
    MinorIdIsLastFour(fullId);
    UpperSuffix(fullId, |fullId| - 4);
  }

  /** The minor id of a long id is the last four upper-cased characters. */
  lemma MinorIdIsLastFour(fullId: string)
    requires |fullId| >= 4
    ensures ExtractMinorId(fullId) == Upper(fullId)[|fullId| - 4..]
  {
  }

  /** Upper-casing commutes with taking a suffix. */
  lemma UpperSuffix(s: string, k: nat)
    requires k <= |s|
    ensures Upper(s)[k..] == Upper(s[k..])
  {
    assert forall j :: 0 <= j < |s| - k ==> Upper(s)[k..][j] == Upper(s[k..])[j];
  }

  // ---------------------------------------------------------------------
  // Gateway JSON object
  // ---------------------------------------------------------------------

  /** One decoded beacon, as the dict decode_gateway_json() appends. */
  datatype BeaconData = BeaconData(
    id: string,
    minor: string,
    rssi: int,
    tracked: bool,
    matchedId: Option<string>,
    name: string)

  const FIRST_SLOT: nat := 1
  const LAST_SLOT: nat := 10

  function SlotKey(i: nat): string { "beacon" + NatDecimal(i) }
  function RssiKey(i: nat): string { "rssi" + NatDecimal(i) }

  /** The name shown for a beacon: the watchlist entry's name when a
      non-empty key matched, "Beacon <minor>" otherwise. */
  function NameFor(wl: Watchlist, matched: Option<string>, minor: string): string {
    var fallback := "Beacon " + minor;
    if matched.Some? && matched.value != "" then
      match Dict.Get(wl, matched.value)
      case None => fallback
      case Some(info) => info.name
    else fallback
  }

  /** What slot i contributes: None where int() of its rssi raises (which
      aborts the whole object), otherwise the watchlist after an eventual
      auto-discovery and the decoded entry of a present slot. */
  function DecodeSlot(wl: Watchlist, obj: Object, i: nat, autoDiscover: bool): (r: Option<(Watchlist, Option<BeaconData>)>)
    ensures r.Some? && r.value.1.Some? ==> Dict.Get(obj, SlotKey(i)).Some?
    ensures r.Some? && Dict.Get(obj, SlotKey(i)).None? ==> r.value == (wl, None)
    ensures autoDiscover && r.Some? && r.value.1.Some? ==> r.value.1.value.tracked
    ensures Dict.Get(obj, SlotKey(i)).Some? && Dict.Get(obj, RssiKey(i)).None? ==>
              r.Some? && r.value.1.Some? && r.value.1.value.rssi == -999
  {
    match Dict.Get(obj, SlotKey(i))
    case None => Some((wl, None))
    case Some(slot) =>
      var beaconVal := Upper(PyStr(slot));
      match PyInt(Dict.Get(obj, RssiKey(i)).GetOr(JInt(-999)))
      case None => None
      case Some(rssi) =>
        var minor := ExtractMinorId(beaconVal);
        var matched := FirstTracked(wl, Upper(beaconVal));
        var name := NameFor(wl, matched, minor);
        if matched.None? && autoDiscover then
          var wl' := Dict.Put(wl, minor, WatchInfo(minor, "Auto-Discovered " + minor));
          Some((wl', Some(BeaconData(beaconVal, minor, rssi, true, Some(minor), name))))
        else
          Some((wl, Some(BeaconData(beaconVal, minor, rssi, matched.Some?, matched, name))))
  }

  /** Whether an entry is kept. */
  predicate Keep(d: BeaconData, filterTracked: bool) {
    !filterTracked || d.tracked
  }

  /** Slots i..LAST_SLOT taken in order on top of `kept`: the final
      watchlist, and the kept entries or None when a slot raised. */
  function ScanSlots(wl: Watchlist, obj: Object, filterTracked: bool, autoDiscover: bool,
                     i: nat, kept: seq<BeaconData>): (r: (Watchlist, Option<seq<BeaconData>>))
    decreases LAST_SLOT + 1 - i
  {
    if i > LAST_SLOT then (wl, Some(kept))
    else match DecodeSlot(wl, obj, i, autoDiscover)
      case None => (wl, None)
      case Some((wl', d)) =>
        var kept' := if d.Some? && Keep(d.value, filterTracked) then kept + [d.value] else kept;
        ScanSlots(wl', obj, filterTracked, autoDiscover, i + 1, kept')
  }

  /** One step of the scan: slot i taken, then the slots after it. */
  lemma ScanStep(wl: Watchlist, obj: Object, filterTracked: bool, autoDiscover: bool,
                 i: nat, kept: seq<BeaconData>)
    requires i <= LAST_SLOT && DecodeSlot(wl, obj, i, autoDiscover).Some?
    ensures var (wl', d) := DecodeSlot(wl, obj, i, autoDiscover).value;
            var kept' := if d.Some? && Keep(d.value, filterTracked) then kept + [d.value] else kept;
            ScanSlots(wl, obj, filterTracked, autoDiscover, i, kept) ==
            ScanSlots(wl', obj, filterTracked, autoDiscover, i + 1, kept')
  {
  }

  /** decode_gateway_json(): the watchlist afterwards and the result, None
      when nothing was kept or a slot raised. */
  function GatewayResult(wl: Watchlist, obj: Object, filterTracked: bool, autoDiscover: bool)
    : (r: (Watchlist, Option<seq<BeaconData>>))
    ensures r.1.Some? ==> |r.1.value| > 0
  {
    var (wl', kept) := ScanSlots(wl, obj, filterTracked, autoDiscover, FIRST_SLOT, []);
    if kept.Some? && kept.value != [] then (wl', kept) else (wl', None)
  }

  /** The slot loop of decode_gateway_json() from slot `start` on, with
      `acc0` kept so far: slots in order up to LAST_SLOT, stopping at the
      first whose rssi int() rejects. */
  method ScanFrom(wl: Watchlist, obj: Object, filterTracked: bool, autoDiscover: bool,
                  start: nat, acc0: seq<BeaconData>)
    returns (after: Watchlist, kept: Option<seq<BeaconData>>)
    ensures (after, kept) == ScanSlots(wl, obj, filterTracked, autoDiscover, start, acc0)
  {
    after := wl;
    var acc := acc0;
    var i := start;
    while i <= LAST_SLOT
      invariant start <= i
      invariant i > LAST_SLOT ==> i == start || i == LAST_SLOT + 1
      invariant ScanSlots(after, obj, filterTracked, autoDiscover, i, acc) ==
                ScanSlots(wl, obj, filterTracked, autoDiscover, start, acc0)
      decreases LAST_SLOT + 1 - i
    {
      var stop;
      after, acc, stop := ScanOne(after, obj, filterTracked, autoDiscover, i, acc);
      if stop {
        return after, None;
      }
      i := i + 1;
    }
    ScanDone(after, obj, filterTracked, autoDiscover, i, acc);
    kept := Some(acc);
  }

  /** Past the last slot the scan returns what it has. */
  lemma ScanDone(wl: Watchlist, obj: Object, filterTracked: bool, autoDiscover: bool, i: nat, kept: seq<BeaconData>)
    requires i > LAST_SLOT
    ensures ScanSlots(wl, obj, filterTracked, autoDiscover, i, kept) == (wl, Some(kept))
  {
  }

  /** One turn of the slot loop: slot i read and its entry kept or not;
      `stop` when the slot raises, which ends the scan. */
  method ScanOne(wl: Watchlist, obj: Object, filterTracked: bool, autoDiscover: bool,
                 i: nat, kept: seq<BeaconData>)
    returns (wl': Watchlist, kept': seq<BeaconData>, stop: bool)
    requires i <= LAST_SLOT
    ensures stop ==> ScanSlots(wl, obj, filterTracked, autoDiscover, i, kept) == (wl', None)
    ensures !stop ==> ScanSlots(wl, obj, filterTracked, autoDiscover, i, kept) ==
                      ScanSlots(wl', obj, filterTracked, autoDiscover, i + 1, kept')
  {
    var step := ReadSlot(wl, obj, i, autoDiscover);
    if step.None? {
      ScanStops(wl, obj, filterTracked, autoDiscover, i, kept);
      return wl, kept, true;
    }
    ScanStep(wl, obj, filterTracked, autoDiscover, i, kept);
    wl' := step.value.0;
    var d := step.value.1;
    kept' := if d.Some? && Keep(d.value, filterTracked) then kept + [d.value] else kept;
    stop := false;
  }

  /** A slot that raises ends the scan with the watchlist as it stands. */
  lemma ScanStops(wl: Watchlist, obj: Object, filterTracked: bool, autoDiscover: bool,
                  i: nat, kept: seq<BeaconData>)
    requires i <= LAST_SLOT && DecodeSlot(wl, obj, i, autoDiscover).None?
    ensures ScanSlots(wl, obj, filterTracked, autoDiscover, i, kept) == (wl, None)
  {
  }

  /** The body of the slot loop for slot i: the slot's entry, with the
      watchlist after an eventual auto-discovery; None where int() of the
      rssi raises. */
  method ReadSlot(wl: Watchlist, obj: Object, i: nat, autoDiscover: bool)
    returns (step: Option<(Watchlist, Option<BeaconData>)>)
    ensures step == DecodeSlot(wl, obj, i, autoDiscover)
  {
    var slot := Dict.Get(obj, SlotKey(i));
    if slot.None? {
      return Some((wl, None));
    }
    var beaconVal := Upper(PyStr(slot.value));
    var rssi := PyInt(Dict.Get(obj, RssiKey(i)).GetOr(JInt(-999)));
    if rssi.None? {
      return None;
    }
    var minor := ExtractMinorId(beaconVal);
    var matched := FindTracked(wl, Upper(beaconVal));
    var d := BeaconData(beaconVal, minor, rssi.value, matched.Some?, matched, NameFor(wl, matched, minor));
    var wl' := wl;
    if !d.tracked && autoDiscover {
      wl' := Dict.Put(wl, minor, WatchInfo(minor, "Auto-Discovered " + minor));
      d := d.(tracked := true, matchedId := Some(minor));
    }
    return Some((wl', Some(d)));
  }

  /** The rssi of slot i, or None when int() raises on it. */
  function SlotRssi(obj: Object, i: nat): Option<int> {
    PyInt(Dict.Get(obj, RssiKey(i)).GetOr(JInt(-999)))
  }

  /** A slot is bad when it is present and its rssi does not parse. */
  predicate BadSlot(obj: Object, i: nat) {
    Dict.Get(obj, SlotKey(i)).Some? && SlotRssi(obj, i).None?
  }

  /** Some slot from i to the last one is bad. */
  predicate BadFrom(obj: Object, i: nat) {
    exists j :: i <= j <= LAST_SLOT && BadSlot(obj, j)
  }

  /** A bad slot from i on is slot i or a bad slot from i + 1 on. */
  lemma BadFromStep(obj: Object, i: nat)
    requires i <= LAST_SLOT
    ensures BadFrom(obj, i) <==> BadSlot(obj, i) || BadFrom(obj, i + 1)
  {
    if BadFrom(obj, i) {
      var j :| i <= j <= LAST_SLOT && BadSlot(obj, j);
      if j != i {
        assert i + 1 <= j <= LAST_SLOT && BadSlot(obj, j);
      }
    }
    if BadFrom(obj, i + 1) {
      var j :| i + 1 <= j <= LAST_SLOT && BadSlot(obj, j);
      assert i <= j <= LAST_SLOT && BadSlot(obj, j);
    }
    if BadSlot(obj, i) {
      assert i <= i <= LAST_SLOT && BadSlot(obj, i);
    }
  }

  /** The scan raises exactly when some present slot from i on has an
      rssi that int() rejects. */
  lemma {:induction false} ScanRaisesIffBadSlot(wl: Watchlist, obj: Object, filterTracked: bool, autoDiscover: bool,
                                                i: nat, kept: seq<BeaconData>)
    ensures ScanSlots(wl, obj, filterTracked, autoDiscover, i, kept).1.None? <==> BadFrom(obj, i)
    decreases LAST_SLOT + 1 - i
  {
    if i <= LAST_SLOT {
      var s := DecodeSlot(wl, obj, i, autoDiscover);
      SlotRaisesIffBad(wl, obj, i, autoDiscover);
      BadFromStep(obj, i);
      if s.Some? {
        var (wl', d) := s.value;
        var kept' := if d.Some? && Keep(d.value, filterTracked) then kept + [d.value] else kept;
        ScanStep(wl, obj, filterTracked, autoDiscover, i, kept);
        ScanRaisesIffBadSlot(wl', obj, filterTracked, autoDiscover, i + 1, kept');
      }
    }
  }

  /** Slot i raises exactly when it is bad. */
  lemma SlotRaisesIffBad(wl: Watchlist, obj: Object, i: nat, autoDiscover: bool)
    ensures DecodeSlot(wl, obj, i, autoDiscover).None? <==> BadSlot(obj, i)
  {
  }

  predicate AllTracked(ds: seq<BeaconData>) {
    forall k :: 0 <= k < |ds| ==> ds[k].tracked
  }

  predicate NoneOrAllTracked(r: Option<seq<BeaconData>>) {
    r.Some? ==> AllTracked(r.value)
  }

  /** The entry slot i adds, if any, is tracked when filtering or
      auto-discovering. */
  lemma SlotKeepsTracked(wl: Watchlist, obj: Object, filterTracked: bool, autoDiscover: bool, i: nat)
    requires filterTracked || autoDiscover
    requires DecodeSlot(wl, obj, i, autoDiscover).Some?
    ensures var d := DecodeSlot(wl, obj, i, autoDiscover).value.1;
            d.Some? && Keep(d.value, filterTracked) ==> d.value.tracked
  {
  }

  /** With filter_tracked every entry returned is tracked; with
      auto-discovery every entry is tracked whatever the filter says. */
  lemma {:induction false} ScanKeepsTracked(wl: Watchlist, obj: Object, filterTracked: bool, autoDiscover: bool,
                                            i: nat, kept: seq<BeaconData>)
    requires filterTracked || autoDiscover
    requires AllTracked(kept)
    ensures NoneOrAllTracked(ScanSlots(wl, obj, filterTracked, autoDiscover, i, kept).1)
    decreases LAST_SLOT + 1 - i
  {
    if i <= LAST_SLOT && DecodeSlot(wl, obj, i, autoDiscover).Some? {
      var (wl', d) := DecodeSlot(wl, obj, i, autoDiscover).value;
      var kept' := if d.Some? && Keep(d.value, filterTracked) then kept + [d.value] else kept;
      SlotKeepsTracked(wl, obj, filterTracked, autoDiscover, i);
      ScanStep(wl, obj, filterTracked, autoDiscover, i, kept);
      ScanKeepsTracked(wl', obj, filterTracked, autoDiscover, i + 1, kept');
    }
  }

  /** Entries are only ever appended: what was kept before slot i is a
      prefix of what is returned. */
  lemma {:induction false} ScanExtends(wl: Watchlist, obj: Object, filterTracked: bool, autoDiscover: bool,
                                       i: nat, kept: seq<BeaconData>)
    ensures var r := ScanSlots(wl, obj, filterTracked, autoDiscover, i, kept).1;
            r.Some? ==> |kept| <= |r.value| && r.value[..|kept|] == kept
    decreases LAST_SLOT + 1 - i
  {
    if i <= LAST_SLOT {
      var s := DecodeSlot(wl, obj, i, autoDiscover);
      if s.Some? {
        var (wl', d) := s.value;
        var kept' := if d.Some? && Keep(d.value, filterTracked) then kept + [d.value] else kept;
        ScanExtends(wl', obj, filterTracked, autoDiscover, i + 1, kept');
        var r := ScanSlots(wl', obj, filterTracked, autoDiscover, i + 1, kept').1;
        if r.Some? {
          assert r.value[..|kept|] == r.value[..|kept'|][..|kept|];
        }
      }
    }
  }

  /** Every matched id of a returned entry is a key of the watchlist left
      behind, and every key of the watchlist before the scan is still one. */
  lemma {:induction false} ScanMatchedAreKeys(wl: Watchlist, obj: Object, filterTracked: bool, autoDiscover: bool,
                                              i: nat, kept: seq<BeaconData>)
    requires forall k :: 0 <= k < |kept| && kept[k].matchedId.Some? ==> kept[k].matchedId.value in Dict.Keys(wl)
    ensures var (wl', r) := ScanSlots(wl, obj, filterTracked, autoDiscover, i, kept);
            && (forall key :: key in Dict.Keys(wl) ==> key in Dict.Keys(wl'))
            && (r.Some? ==> forall k :: 0 <= k < |r.value| && r.value[k].matchedId.Some? ==>
                              r.value[k].matchedId.value in Dict.Keys(wl'))
    decreases LAST_SLOT + 1 - i
  {
    if i <= LAST_SLOT {
      var s := DecodeSlot(wl, obj, i, autoDiscover);
      if s.Some? {
        var (wl', d) := s.value;
        assert forall key :: key in Dict.Keys(wl) ==> key in Dict.Keys(wl');
        var kept' := if d.Some? && Keep(d.value, filterTracked) then kept + [d.value] else kept;
        ScanMatchedAreKeys(wl', obj, filterTracked, autoDiscover, i + 1, kept');
      }
    }
  }

  /** Without auto-discovery the watchlist is left as it was. */
  lemma {:induction false} ScanKeepsWatchlist(wl: Watchlist, obj: Object, filterTracked: bool,
                                              i: nat, kept: seq<BeaconData>)
    ensures ScanSlots(wl, obj, filterTracked, false, i, kept).0 == wl
    decreases LAST_SLOT + 1 - i
  {
    if i <= LAST_SLOT {
      var s := DecodeSlot(wl, obj, i, false);
      if s.Some? {
        var (wl', d) := s.value;
        var kept' := if d.Some? && Keep(d.value, filterTracked) then kept + [d.value] else kept;
        ScanKeepsWatchlist(wl', obj, filterTracked, i + 1, kept');
      }
    }
  }

  /** The entries of the present slots i..LAST_SLOT in increasing slot
      order, each decoded against the same watchlist. */
  function SlotEntries(wl: Watchlist, obj: Object, i: nat): seq<BeaconData>
    decreases LAST_SLOT + 1 - i
  {
    if i > LAST_SLOT then [] else SlotHere(wl, obj, i) + SlotEntries(wl, obj, i + 1)
  }

  /** The entry of slot i as a sequence of at most one element: empty for
      an absent or raising slot. */
  function SlotHere(wl: Watchlist, obj: Object, i: nat): seq<BeaconData> {
    match DecodeSlot(wl, obj, i, false)
    case Some((_, Some(d))) => [d]
    case _ => []
  }

  /** Without auto-discovery a slot that does not raise leaves the
      watchlist as it was and contributes its entry to SlotHere. */
  lemma SlotHereIs(wl: Watchlist, obj: Object, i: nat)
    requires DecodeSlot(wl, obj, i, false).Some?
    ensures DecodeSlot(wl, obj, i, false).value.0 == wl
    ensures var d := DecodeSlot(wl, obj, i, false).value.1;
            SlotHere(wl, obj, i) == if d.Some? then [d.value] else []
  {
  }

  /** The entries a filter keeps, in their order. */
  function KeptEntries(ds: seq<BeaconData>, filterTracked: bool): (r: seq<BeaconData>)
    ensures |r| <= |ds|
    ensures !filterTracked ==> r == ds
  {
    if ds == [] then []
    else
      assert ds == [ds[0]] + ds[1..];
      (if Keep(ds[0], filterTracked) then [ds[0]] else []) + KeptEntries(ds[1..], filterTracked)
  }

  /** An entry survives the filter exactly when it is among the entries
      and the filter keeps it. */
  lemma {:induction false} KeptEntriesMembers(ds: seq<BeaconData>, filterTracked: bool, d: BeaconData)
    ensures d in KeptEntries(ds, filterTracked) <==> d in ds && Keep(d, filterTracked)
  {
    if ds != [] {
      assert ds == [ds[0]] + ds[1..];
      KeptEntriesMembers(ds[1..], filterTracked, d);
    }
  }

  /** A single entry is kept exactly when the filter keeps it. */
  lemma KeptEntriesOne(d: BeaconData, filterTracked: bool)
    ensures KeptEntries([d], filterTracked) == if Keep(d, filterTracked) then [d] else []
  {
    assert [d][1..] == [];
  }

  /** Filtering a concatenation filters each part. */
  lemma {:induction false} KeptEntriesAppend(kept: seq<BeaconData>, xs: seq<BeaconData>, ys: seq<BeaconData>,
                                             filterTracked: bool)
    ensures KeptEntries(xs + ys, filterTracked) == KeptEntries(xs, filterTracked) + KeptEntries(ys, filterTracked)
    ensures kept + KeptEntries(xs + ys, filterTracked)
         == (kept + KeptEntries(xs, filterTracked)) + KeptEntries(ys, filterTracked)
    decreases |xs|
  {
    if xs != [] {
      assert (xs + ys)[1..] == xs[1..] + ys;
      KeptEntriesAppend([], xs[1..], ys, filterTracked);
    } else {
      assert xs + ys == ys;
    }
  }

  /** Every present slot from i on whose rssi parses has its entry in
      SlotEntries. */
  lemma {:induction false} PresentSlotHasEntry(wl: Watchlist, obj: Object, i: nat, j: nat)
    requires i <= j <= LAST_SLOT && Dict.Get(obj, SlotKey(j)).Some? && !BadSlot(obj, j)
    ensures DecodeSlot(wl, obj, j, false).Some? && DecodeSlot(wl, obj, j, false).value.1.Some?
    ensures DecodeSlot(wl, obj, j, false).value.1.value in SlotEntries(wl, obj, i)
    decreases j - i
  {
    SlotRaisesIffBad(wl, obj, j, false);
    if i < j {
      PresentSlotHasEntry(wl, obj, i + 1, j);
    } else {
      SlotHereIs(wl, obj, j);
    }
  }

  /** Every entry of SlotEntries is the decoded entry of a slot from i on. */
  lemma {:induction false} EntryHasSlot(wl: Watchlist, obj: Object, i: nat, d: BeaconData)
    requires d in SlotEntries(wl, obj, i)
    ensures exists j :: i <= j <= LAST_SLOT && DecodeSlot(wl, obj, j, false) == Some((wl, Some(d)))
    decreases LAST_SLOT + 1 - i
  {
    if d in SlotHere(wl, obj, i) {
      SlotRaisesIffBad(wl, obj, i, false);
      SlotHereIs(wl, obj, i);
    } else {
      EntryHasSlot(wl, obj, i + 1, d);
    }
  }

  /** Without auto-discovery and when no slot raises, the scan returns the
      entries of the present slots in slot order: all of them, or with
      filter_tracked exactly the tracked ones. */
  lemma {:induction false} ScanCollectsSlots(wl: Watchlist, obj: Object, filterTracked: bool,
                                             i: nat, kept: seq<BeaconData>)
    requires !BadFrom(obj, i)
    ensures ScanSlots(wl, obj, filterTracked, false, i, kept).1
              == Some(kept + KeptEntries(SlotEntries(wl, obj, i), filterTracked))
    decreases LAST_SLOT + 1 - i
  {
    if i <= LAST_SLOT {
      BadFromStep(obj, i);
      SlotRaisesIffBad(wl, obj, i, false);
      ScanCollectStep(wl, obj, filterTracked, i, kept);
      var here := SlotHere(wl, obj, i);
      var rest := SlotEntries(wl, obj, i + 1);
      var kept' := kept + KeptEntries(here, filterTracked);
      ScanCollectsSlots(wl, obj, filterTracked, i + 1, kept');
      KeptEntriesAppend(kept, here, rest, filterTracked);
    } else {
      assert kept + [] == kept;
    }
  }

  /** One slot of ScanCollectsSlots: a slot that does not raise adds its
      kept entry to `kept` and to the front of the slot entries. */
  lemma ScanCollectStep(wl: Watchlist, obj: Object, filterTracked: bool, i: nat, kept: seq<BeaconData>)
    requires i <= LAST_SLOT && DecodeSlot(wl, obj, i, false).Some?
    ensures ScanSlots(wl, obj, filterTracked, false, i, kept)
         == ScanSlots(wl, obj, filterTracked, false, i + 1, kept + KeptEntries(SlotHere(wl, obj, i), filterTracked))
    ensures SlotEntries(wl, obj, i) == SlotHere(wl, obj, i) + SlotEntries(wl, obj, i + 1)
  {
    SlotHereIs(wl, obj, i);
    var d := DecodeSlot(wl, obj, i, false).value.1;
    if d.Some? {
      KeptEntriesOne(d.value, filterTracked);
    } else {
      assert kept + [] == kept;
    }
    ScanStep(wl, obj, filterTracked, false, i, kept);
  }

  /** The number of present slots from i to LAST_SLOT. */
  function PresentSlots(obj: Object, i: nat): nat
    decreases LAST_SLOT + 1 - i
  {
    if i > LAST_SLOT then 0
    else (if Dict.Get(obj, SlotKey(i)).Some? then 1 else 0) + PresentSlots(obj, i + 1)
  }

  /** With auto-discovery and no slot raising, every present slot yields a
      returned entry, whatever filter_tracked says. */
  lemma {:induction false} ScanAutoDiscoverKeepsAll(wl: Watchlist, obj: Object, filterTracked: bool,
                                                    i: nat, kept: seq<BeaconData>)
    requires !BadFrom(obj, i)
    ensures var r := ScanSlots(wl, obj, filterTracked, true, i, kept).1;
            r.Some? && |r.value| == |kept| + PresentSlots(obj, i)
    decreases LAST_SLOT + 1 - i
  {
    if i <= LAST_SLOT {
      BadFromStep(obj, i);
      SlotRaisesIffBad(wl, obj, i, true);
      var (wl', d) := DecodeSlot(wl, obj, i, true).value;
      assert d.Some? <==> Dict.Get(obj, SlotKey(i)).Some?;
      var kept' := if d.Some? && Keep(d.value, filterTracked) then kept + [d.value] else kept;
      assert |kept'| == |kept| + (if Dict.Get(obj, SlotKey(i)).Some? then 1 else 0);
      ScanStep(wl, obj, filterTracked, true, i, kept);
      ScanAutoDiscoverKeepsAll(wl', obj, filterTracked, i + 1, kept');
    }
  }

  /** The fields the decoder derives from a present slot: the id is the
      upper-cased str() of the value, the minor its last four characters,
      tracking decided by the first contained key, rssi from rssiN. */
  lemma DecodedSlotFields(wl: Watchlist, obj: Object, i: nat)
    requires DecodeSlot(wl, obj, i, false).Some? && DecodeSlot(wl, obj, i, false).value.1.Some?
    ensures var d := DecodeSlot(wl, obj, i, false).value.1.value;
            var v := Upper(PyStr(Dict.Get(obj, SlotKey(i)).value));
            && d.id == v
            && d.minor == ExtractMinorId(v)
            && d.rssi == SlotRssi(obj, i).value
            && (d.tracked <==> exists j :: 0 <= j < |wl| && Contains(v, wl[j].0))
            && (d.matchedId.Some? ==> d.matchedId.value in Dict.Keys(wl) && Contains(v, d.matchedId.value))
  {
    var v := Upper(PyStr(Dict.Get(obj, SlotKey(i)).value));
    UpperIsUpperCased(PyStr(Dict.Get(obj, SlotKey(i)).value));
    UntrackedIffNoKey(wl, Upper(v));
  }

  /** Auto-discovery changes only untracked present slots: the minor is
      filed in the watchlist as "Auto-Discovered <minor>", and the entry
      becomes tracked under its minor while keeping the name "Beacon
      <minor>". A tracked, absent or raising slot decodes as without
      auto-discovery. */
  lemma AutoDiscoverySlot(wl: Watchlist, obj: Object, i: nat)
    ensures DecodeSlot(wl, obj, i, true).None? <==> DecodeSlot(wl, obj, i, false).None?
    ensures DecodeSlot(wl, obj, i, false).Some? && DecodeSlot(wl, obj, i, false).value.1.None? ==>
              DecodeSlot(wl, obj, i, true) == DecodeSlot(wl, obj, i, false)
    ensures DecodeSlot(wl, obj, i, false).Some? && DecodeSlot(wl, obj, i, false).value.1.Some? ==>
              var d := DecodeSlot(wl, obj, i, false).value.1.value;
              if d.matchedId.None? then
                && d.name == "Beacon " + d.minor
                && DecodeSlot(wl, obj, i, true) ==
                     Some((Dict.Put(wl, d.minor, WatchInfo(d.minor, "Auto-Discovered " + d.minor)),
                           Some(d.(tracked := true, matchedId := Some(d.minor)))))
              else DecodeSlot(wl, obj, i, true) == DecodeSlot(wl, obj, i, false)
  {
  }

  /** The raw "data" path of decode_uplink() never yields beacons, so only
      the "object" member matters: absent, some non-object JSON value, or
      an object. */
  datatype UplinkObject = NoObject | NotAnObject | Members(obj: Object)

  // ---------------------------------------------------------------------
  // The module-level cache and the entry points that read it
  // ---------------------------------------------------------------------

  /** The module state of decoder.py: the cached watchlist, None until the
      first get_watchlist(). */
  class WatchlistCache {
    var cache: Option<Watchlist>

    constructor ()
      ensures cache == None
    {
      cache := None;
    }

    /** get_watchlist(): loads on first use, then returns the cached dict. */
    method GetWatchlist(file: FileRead<seq<BeaconRecord>>) returns (wl: Watchlist)
      modifies this
      ensures old(cache).Some? ==> wl == old(cache).value && cache == old(cache)
      ensures old(cache).None? ==> wl == WatchlistOf(file) && cache == Some(wl)
    {
      if cache.None? {
        var loaded := LoadWatchlist(file);
        cache := Some(loaded);
      }
      wl := cache.value;
    }

    /** reload_watchlist(): replaces the cache with a fresh load. */
    method ReloadWatchlist(file: FileRead<seq<BeaconRecord>>) returns (wl: Watchlist)
      modifies this
      ensures wl == WatchlistOf(file) && cache == Some(wl)
    {
      wl := LoadWatchlist(file);
      cache := Some(wl);
    }

    /** is_beacon_tracked(beacon_id). */
    method IsBeaconTracked(beaconId: Value, file: FileRead<seq<BeaconRecord>>)
      returns (tracked: bool, matched: Option<string>)
      modifies this
      ensures cache == Some(if old(cache).Some? then old(cache).value else WatchlistOf(file))
      ensures matched == FirstTracked(cache.value, Upper(PyStr(beaconId)))
      ensures tracked <==> matched.Some?
    {
      var wl := GetWatchlist(file);
      matched := FindTracked(wl, Upper(PyStr(beaconId)));
      tracked := matched.Some?;
    }

    /** decode_gateway_json(payload_object, filter_tracked), with
        AUTO_DISCOVER_BEACONS as a parameter. Auto-discovered entries go
        into the cached watchlist itself, and stay there when a later slot
        raises. */
    method DecodeGatewayJson(obj: Object, filterTracked: bool, autoDiscover: bool,
                             file: FileRead<seq<BeaconRecord>>)
      returns (result: Option<seq<BeaconData>>)
      modifies this
      ensures var before := if old(cache).Some? then old(cache).value else WatchlistOf(file);
              (cache, result) == (Some(GatewayResult(before, obj, filterTracked, autoDiscover).0),
                                  GatewayResult(before, obj, filterTracked, autoDiscover).1)
    {
      var wl := GetWatchlist(file);
      var after, kept := ScanFrom(wl, obj, filterTracked, autoDiscover, FIRST_SLOT, []);
      cache := Some(after);
      result := if kept.Some? && kept.value != [] then kept else None;
    }

    /** decode_uplink(payload, filter_tracked): the gateway object's
        entries, or None. */
    method DecodeUplink(payload: UplinkObject, filterTracked: bool, autoDiscover: bool,
                        file: FileRead<seq<BeaconRecord>>)
      returns (result: Option<seq<BeaconData>>)
      modifies this
      ensures payload.NoObject? ==> result.None? && cache == old(cache)
      ensures payload.NotAnObject? ==>
                result.None? && cache == Some(if old(cache).Some? then old(cache).value else WatchlistOf(file))
      ensures payload.Members? ==>
                var before := if old(cache).Some? then old(cache).value else WatchlistOf(file);
                (cache, result) == (Some(GatewayResult(before, payload.obj, filterTracked, autoDiscover).0),
                                    GatewayResult(before, payload.obj, filterTracked, autoDiscover).1)
    {
      match payload
      case NoObject =>
        result := None;
      case NotAnObject =>
        var _ := GetWatchlist(file);
        result := None;
      case Members(obj) =>
        result := DecodeGatewayJson(obj, filterTracked, autoDiscover, file);
    }
  }
}
