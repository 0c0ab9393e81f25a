/** The stand-alone uplink decoders of python-app/beacon_logic.py: a walker
    over BLE advertising data (the AD structures of the Bluetooth Core
    Specification, Vol 3, Part C, section 11: a length byte, a type byte,
    then length - 1 content bytes), the fixed-layout Lansitec macro-sensor
    frame, and a five-slot search of a gateway's decoded JSON object.
    TARGET_SERVICE_UUID, BATTERY_UUID, TRACKED_BEACON_ID and
    TARGET_MAJOR_VALUE are parameters. */
module BeaconLogic {
  import opened Text
  import Dict
  import opened PyValue
  import Decoder

  // ---------------------------------------------------------------------
  // decode_ble_packet
  // ---------------------------------------------------------------------

  /** AD type 0x16: Service Data with a 16-bit UUID (Core Specification
      Supplement, Part A, section 1.11). */
  const SERVICE_DATA: byte := 0x16

  /** The result dict of decode_ble_packet(): the values found under the
      two UUIDs, as lower-case hex, None until found. */
  datatype BleResult = BleResult(id: Option<string>, battery: Option<string>)

  const NOTHING_FOUND := BleResult(None, None)

  function Min(a: int, b: int): int { if a <= b then a else b }

  /** data[idx+2 : idx+1+length]: the content of the structure at idx, cut
      short at the end of the data. */
  function Chunk(data: seq<byte>, idx: nat): (c: seq<byte>)
    requires idx + 1 < |data| && data[idx] != 0
    ensures |c| <= data[idx] - 1
  {
    data[idx + 2..Min(idx + 1 + data[idx], |data|)]
  }

  /** The UUID of a Service Data content, written big-endian as four
      lower-case hex digits (the content carries it little-endian). */
  function UuidHex(chunk: seq<byte>): (r: string)
    requires |chunk| >= 2
    ensures |r| == 4
  {
    ToHex([chunk[1], chunk[0]])
  }

  /** What one AD structure does to the result: a Service Data structure
      of at least two content bytes stores the rest of its content under
      the field its UUID names (the id first); anything else is skipped. */
  function ApplyAd(acc: BleResult, adType: byte, chunk: seq<byte>, targetUuid: string, batteryUuid: string): BleResult {
    if adType == SERVICE_DATA && |chunk| >= 2 then
      var uuid := UuidHex(chunk);
      if uuid == targetUuid then acc.(id := Some(ToHex(chunk[2..])))
      else if uuid == batteryUuid then acc.(battery := Some(ToHex(chunk[2..])))
      else acc
    else acc
  }

  /** The loop of decode_ble_packet() from offset idx: it stops at the end
      of the data, at a zero length byte, or when the type byte would lie
      past the end; otherwise it applies the structure and moves past it. */
  function AdWalk(data: seq<byte>, idx: nat, acc: BleResult, targetUuid: string, batteryUuid: string): BleResult
    decreases |data| - idx
  {
    if idx >= |data| || data[idx] == 0 || idx + 1 >= |data| then acc
    else
      AdWalk(data, idx + 1 + data[idx], ApplyAd(acc, data[idx + 1], Chunk(data, idx), targetUuid, batteryUuid),
             targetUuid, batteryUuid)
  }

  /** decode_ble_packet(raw_hex): None for invalid hex or when no
      non-empty id was found. */
  function DecodeBle(rawHex: string, targetUuid: string, batteryUuid: string): (r: Option<BleResult>)
    ensures r.Some? ==> r.value.id.Some? && r.value.id.value != ""
  {
    match FromHex(rawHex)
    case None => None
    case Some(data) =>
      var res := AdWalk(data, 0, NOTHING_FOUND, targetUuid, batteryUuid);
      if res.id.Some? && res.id.value != "" then Some(res) else None
  }

  /** One advertising structure, as a sender lays it out. */
  datatype AdStructure = AdStructure(adType: byte, content: seq<byte>)

  predicate Encodable(ads: seq<AdStructure>) {
    forall k :: 0 <= k < |ads| ==> |ads[k].content| <= 254
  }

  /** The advertising data of a list of structures: each one's length
      byte (the type byte plus the content), type byte and content. */
  function EncodeAds(ads: seq<AdStructure>): (data: seq<byte>)
    requires Encodable(ads)
  {
    if ads == [] then []
    else [(1 + |ads[0].content|) as byte, ads[0].adType] + ads[0].content + EncodeAds(ads[1..])
  }

  /** The structures applied in order: a later one overwrites what an
      earlier one stored in the same field. */
  function ApplyAll(acc: BleResult, ads: seq<AdStructure>, targetUuid: string, batteryUuid: string): BleResult
    decreases |ads|
  {
    if ads == [] then acc
    else ApplyAll(ApplyAd(acc, ads[0].adType, ads[0].content, targetUuid, batteryUuid), ads[1..], targetUuid, batteryUuid)
  }

  /** The walk from an offset only sees the bytes from that offset on. */
  lemma {:induction false} WalkSuffix(x: seq<byte>, t: seq<byte>, j: nat, acc: BleResult, targetUuid: string, batteryUuid: string)
    ensures AdWalk(x + t, |x| + j, acc, targetUuid, batteryUuid) == AdWalk(t, j, acc, targetUuid, batteryUuid)
    decreases |t| - j
  {
    var d := x + t;
    if j < |t| && t[j] != 0 && j + 1 < |t| {
      assert d[|x| + j] == t[j] && d[|x| + j + 1] == t[j + 1];
      assert Chunk(d, |x| + j) == Chunk(t, j) by {
        assert Min(|x| + j + 1 + t[j], |d|) == |x| + Min(j + 1 + t[j], |t|);
      }
      var acc' := ApplyAd(acc, t[j + 1], Chunk(t, j), targetUuid, batteryUuid);
      WalkSuffix(x, t, j + 1 + t[j], acc', targetUuid, batteryUuid);
    } else {
      assert j < |t| ==> d[|x| + j] == t[j];
    }
  }

  /** The walker reads back what a sender encodes: over the encoding of
      any list of structures, followed by any bytes, it applies exactly
      those structures, in order, and then walks the bytes that follow. */
  lemma {:induction false} WalkEncodedThen(ads: seq<AdStructure>, tail: seq<byte>, acc: BleResult, targetUuid: string, batteryUuid: string)
    requires Encodable(ads)
    ensures AdWalk(EncodeAds(ads) + tail, 0, acc, targetUuid, batteryUuid) ==
            AdWalk(tail, 0, ApplyAll(acc, ads, targetUuid, batteryUuid), targetUuid, batteryUuid)
    decreases |ads|
  {
    if ads != [] {
      var a := ads[0];
      var head := [(1 + |a.content|) as byte, a.adType] + a.content;
      var rest := EncodeAds(ads[1..]) + tail;
      var data := head + rest;
      assert EncodeAds(ads) + tail == data;
      var acc' := ApplyAd(acc, a.adType, a.content, targetUuid, batteryUuid);
      WalkHead(a, rest, acc, targetUuid, batteryUuid);
      WalkSuffix(head, rest, 0, acc', targetUuid, batteryUuid);
      assert Encodable(ads[1..]) by {
        forall k | 0 <= k < |ads[1..]| ensures |ads[1..][k].content| <= 254 {
          assert ads[1..][k] == ads[k + 1];
        }
      }
      WalkEncodedThen(ads[1..], tail, acc', targetUuid, batteryUuid);
    } else {
      assert EncodeAds(ads) + tail == tail;
    }
  }

  /** The first step of the walk over an encoded structure. */
  lemma WalkHead(a: AdStructure, rest: seq<byte>, acc: BleResult, targetUuid: string, batteryUuid: string)
    requires |a.content| <= 254
    ensures var head := [(1 + |a.content|) as byte, a.adType] + a.content;
            AdWalk(head + rest, 0, acc, targetUuid, batteryUuid) ==
            AdWalk(head + rest, |head|, ApplyAd(acc, a.adType, a.content, targetUuid, batteryUuid), targetUuid, batteryUuid)
  {
    var head := [(1 + |a.content|) as byte, a.adType] + a.content;
    var data := head + rest;
    assert data[0] == (1 + |a.content|) as byte && data[1] == a.adType;
    assert Chunk(data, 0) == a.content;
  }

  /** Over the encoding of a list of structures alone, the walk is
      ApplyAll. */
  lemma WalkEncoded(ads: seq<AdStructure>, acc: BleResult, targetUuid: string, batteryUuid: string)
    requires Encodable(ads)
    ensures AdWalk(EncodeAds(ads), 0, acc, targetUuid, batteryUuid) == ApplyAll(acc, ads, targetUuid, batteryUuid)
  {
    WalkEncodedThen(ads, [], acc, targetUuid, batteryUuid);
    assert EncodeAds(ads) + [] == EncodeAds(ads);
  }

  /** A zero length byte ends the walk: padding after the structures, and
      whatever follows it, is ignored. */
  lemma ZeroPaddingIgnored(ads: seq<AdStructure>, junk: seq<byte>, acc: BleResult, targetUuid: string, batteryUuid: string)
    requires Encodable(ads)
    ensures AdWalk(EncodeAds(ads) + ([0] + junk), 0, acc, targetUuid, batteryUuid) == ApplyAll(acc, ads, targetUuid, batteryUuid)
  {
    WalkEncodedThen(ads, [0] + junk, acc, targetUuid, batteryUuid);
  }

  /** Applying one more structure after a list is applying it last. */
  lemma {:induction false} ApplyAllAppend(acc: BleResult, ads: seq<AdStructure>, a: AdStructure, targetUuid: string, batteryUuid: string)
    ensures ApplyAll(acc, ads + [a], targetUuid, batteryUuid) ==
            ApplyAd(ApplyAll(acc, ads, targetUuid, batteryUuid), a.adType, a.content, targetUuid, batteryUuid)
    decreases |ads|
  {
    if ads != [] {
      assert (ads + [a])[1..] == ads[1..] + [a];
      ApplyAllAppend(ApplyAd(acc, ads[0].adType, ads[0].content, targetUuid, batteryUuid), ads[1..], a, targetUuid, batteryUuid);
    }
  }

  /** The Service Data structure a sender builds for a 16-bit UUID: the
      UUID little-endian, then the value. */
  function ServiceData(uuid: nat, value: seq<byte>): AdStructure
    requires uuid < 0x1_0000
  {
    AdStructure(SERVICE_DATA, [(uuid % 256) as byte, (uuid / 256) as byte] + value)
  }

  /** A Service Data structure under the target UUID sets the id to its
      value in lower-case hex, whatever came before; under the battery UUID
      (and another target) it sets the battery; other structures leave
      the result alone. */
  lemma ServiceDataStores(acc: BleResult, uuid: nat, value: seq<byte>, targetUuid: string, batteryUuid: string)
    requires uuid < 0x1_0000
    ensures var s := ServiceData(uuid, value);
            var hex := ToHex([(uuid / 256) as byte, (uuid % 256) as byte]);
            var r := ApplyAd(acc, s.adType, s.content, targetUuid, batteryUuid);
            && (hex == targetUuid ==> r == acc.(id := Some(ToHex(value))))
            && (hex != targetUuid && hex == batteryUuid ==> r == acc.(battery := Some(ToHex(value))))
            && (hex != targetUuid && hex != batteryUuid ==> r == acc)
  {
    var s := ServiceData(uuid, value);
    assert s.content[2..] == value;
  }

  /** The last structure under the target UUID decides the id: later
      structures overwrite earlier ones. */
  lemma LaterOverwrites(ads: seq<AdStructure>, uuid: nat, value: seq<byte>, targetUuid: string, batteryUuid: string)
    requires uuid < 0x1_0000 && ToHex([(uuid / 256) as byte, (uuid % 256) as byte]) == targetUuid
    ensures ApplyAll(NOTHING_FOUND, ads + [ServiceData(uuid, value)], targetUuid, batteryUuid).id == Some(ToHex(value))
  {
    ApplyAllAppend(NOTHING_FOUND, ads, ServiceData(uuid, value), targetUuid, batteryUuid);
    ServiceDataStores(ApplyAll(NOTHING_FOUND, ads, targetUuid, batteryUuid), uuid, value, targetUuid, batteryUuid);
  }

  /** decode_ble_packet() of the hex of an encoded packet gives what its
      structures store, when that includes a non-empty id; invalid hex
      gives None. */
  lemma DecodeEncoded(ads: seq<AdStructure>, targetUuid: string, batteryUuid: string)
    requires Encodable(ads)
    ensures var r := ApplyAll(NOTHING_FOUND, ads, targetUuid, batteryUuid);
            DecodeBle(ToHex(EncodeAds(ads)), targetUuid, batteryUuid) ==
              if r.id.Some? && r.id.value != "" then Some(r) else None
  {
    FromHexToHex(EncodeAds(ads));
    WalkEncoded(ads, NOTHING_FOUND, targetUuid, batteryUuid);
  }

  /** The loop of decode_ble_packet(), from offset `start` with the result
      `acc0` built so far. */
  method WalkFrom(data: seq<byte>, start: nat, acc0: BleResult, targetUuid: string, batteryUuid: string)
    returns (result: BleResult)
    ensures result == AdWalk(data, start, acc0, targetUuid, batteryUuid)
  {
    var idx := start;
    result := acc0;
    while idx < |data|
      invariant start <= idx
      invariant AdWalk(data, idx, result, targetUuid, batteryUuid) == AdWalk(data, start, acc0, targetUuid, batteryUuid)
      decreases |data| - idx
    {
      var length := data[idx];
      if length == 0 {
        break;
      }
      if idx + 1 >= |data| {
        break;
      }
      var adType := data[idx + 1];
      var chunk := data[idx + 2..Min(idx + 1 + length, |data|)];
      if adType == SERVICE_DATA && |chunk| >= 2 {
        var uuidHex := ToHex([chunk[1], chunk[0]]);
        var valueHex := ToHex(chunk[2..]);
        if uuidHex == targetUuid {
          result := result.(id := Some(valueHex));
        } else if uuidHex == batteryUuid {
          result := result.(battery := Some(valueHex));
        }
      }
      idx := idx + 1 + length;
    }
  }

  /** decode_ble_packet(raw_hex). */
  method DecodeBlePacket(rawHex: string, targetUuid: string, batteryUuid: string) returns (r: Option<BleResult>)
    ensures r == DecodeBle(rawHex, targetUuid, batteryUuid)
  {
    var data := FromHex(rawHex);
    if data.None? {
      return None;
    }
    var result := WalkFrom(data.value, 0, NOTHING_FOUND, targetUuid, batteryUuid);
    r := if result.id.Some? && result.id.value != "" then Some(result) else None;
  }

  // ---------------------------------------------------------------------
  // decode_lansitec_hex
  // ---------------------------------------------------------------------

  /** The result dict of decode_lansitec_hex(). */
  datatype Lansitec = Lansitec(id: string, rssi: int)

  /** A byte read as a signed 8-bit integer. */
  function SignedByte(b: byte): (r: int)
    ensures -128 <= r <= 127 && r % 256 == b
  {
    if b > 127 then b - 256 else b
  }

  /** Every signed 8-bit value is read back from its byte. */
  lemma SignedByteRoundTrip(r: int)
    requires -128 <= r <= 127
    ensures SignedByte((r % 256) as byte) == r
  {
  }

  /** decode_lansitec_hex(hex_string): None for invalid hex or fewer than
      seven bytes; otherwise bytes 2..5 as lower-case hex and the last byte
      as a signed RSSI. */
  function DecodeLansitec(hex: string): (r: Option<Lansitec>)
    ensures r.Some? ==> |r.value.id| == 8 && -128 <= r.value.rssi <= 127
    ensures r.Some? ==> forall k :: 0 <= k < 8 ==> IsHexDigit(r.value.id[k]) && !IsUpperLetter(r.value.id[k])
    ensures r.Some? <==> FromHex(hex).Some? && |FromHex(hex).value| >= 7
  {
    match FromHex(hex)
    case None => None
    case Some(data) =>
      if |data| < 7 then None
      else Some(Lansitec(ToHex(data[2..6]), SignedByte(data[|data| - 1])))
  }

  /** The frame a sensor sends is read back: for any seven or more bytes,
      the id is the hex of bytes 2..5 and the RSSI the signed last byte;
      shorter frames give None. */
  lemma LansitecRoundTrip(bs: seq<byte>)
    ensures |bs| >= 7 ==> DecodeLansitec(ToHex(bs)) == Some(Lansitec(ToHex(bs[2..6]), SignedByte(bs[|bs| - 1])))
    ensures |bs| < 7 ==> DecodeLansitec(ToHex(bs)).None?
  {
    FromHexToHex(bs);
    DecodeOfBytes(ToHex(bs), bs);
  }

  /** The decode depends on the hex only through the bytes it spells. */
  lemma DecodeOfBytes(hex: string, bs: seq<byte>)
    requires FromHex(hex) == Some(bs)
    ensures DecodeLansitec(hex) == if |bs| < 7 then None else Some(Lansitec(ToHex(bs[2..6]), SignedByte(bs[|bs| - 1])))
  {
  }

  // ---------------------------------------------------------------------
  // decode_gateway_json
  // ---------------------------------------------------------------------

  /** The slots decode_gateway_json() looks at. */
  const LAST_GATEWAY_SLOT: nat := 5

  function MinorKey(i: nat): string { "beacon" + NatDecimal(i) + "_minor" }

  /** The returned dict: the slot's value and its rssi (-999 when the
      rssi key is absent), both as found in the object. */
  datatype GatewayHit = GatewayHit(id: Value, rssi: Value)

  /** The verdict on one slot; SlotError where Python raises TypeError
      (`in` on a value that is not a string), which ends the whole decode
      with None. */
  datatype SlotVerdict = NoMatch | Hit(hit: GatewayHit) | SlotError

  /** The three match rules for slot i, tried in order: the value equals
      the upper-cased tracked id; the slot's minor equals the major value;
      the upper-cased major value occurs in the value (only for a non-empty
      major value). */
  function CheckSlot(obj: Object, i: nat, trackedId: string, majorValue: string): (v: SlotVerdict)
    ensures v.Hit? ==> Dict.Get(obj, Decoder.SlotKey(i)) == Some(v.hit.id)
    ensures v.Hit? ==> v.hit.rssi == Dict.Get(obj, Decoder.RssiKey(i)).GetOr(JInt(-999))
  {
    match Dict.Get(obj, Decoder.SlotKey(i))
    case None => NoMatch
    case Some(val) =>
      var hit := GatewayHit(val, Dict.Get(obj, Decoder.RssiKey(i)).GetOr(JInt(-999)));
      if val == JStr(Upper(trackedId)) then Hit(hit)
      else if Dict.Get(obj, MinorKey(i)) == Some(JStr(majorValue)) then Hit(hit)
      else if majorValue == "" then NoMatch
      else if !val.JStr? then SlotError
      else if Contains(val.s, Upper(majorValue)) then Hit(hit)
      else NoMatch
  }

  /** The scan from slot i on: the first hit, None after an error or when
      no slot matches. */
  function GatewayFrom(obj: Object, i: nat, trackedId: string, majorValue: string): Option<GatewayHit>
    decreases LAST_GATEWAY_SLOT + 1 - i
  {
    if i > LAST_GATEWAY_SLOT then None
    else
      match CheckSlot(obj, i, trackedId, majorValue)
      case SlotError => None
      case Hit(h) => Some(h)
      case NoMatch => GatewayFrom(obj, i + 1, trackedId, majorValue)
  }

  /** decode_gateway_json(payload_object). */
  function DecodeGatewayJson(obj: Object, trackedId: string, majorValue: string): Option<GatewayHit> {
    GatewayFrom(obj, 1, trackedId, majorValue)
  }

  /** The scan from slot i returns h exactly when some slot k from i to 5
      is a hit with h and every slot before it, from i on, matched
      nothing. */
  lemma {:induction false} GatewayFromFirstHit(obj: Object, i: nat, trackedId: string, majorValue: string, h: GatewayHit)
    ensures GatewayFrom(obj, i, trackedId, majorValue) == Some(h) <==>
            exists k :: i <= k <= LAST_GATEWAY_SLOT && CheckSlot(obj, k, trackedId, majorValue) == Hit(h) &&
                        forall j :: i <= j < k ==> CheckSlot(obj, j, trackedId, majorValue) == NoMatch
    decreases LAST_GATEWAY_SLOT + 1 - i
  {
    if i <= LAST_GATEWAY_SLOT {
      var v := CheckSlot(obj, i, trackedId, majorValue);
      GatewayFromFirstHit(obj, i + 1, trackedId, majorValue, h);
      if GatewayFrom(obj, i, trackedId, majorValue) == Some(h) {
        if v != Hit(h) {
          var k :| i + 1 <= k <= LAST_GATEWAY_SLOT && CheckSlot(obj, k, trackedId, majorValue) == Hit(h) &&
                   forall j :: i + 1 <= j < k ==> CheckSlot(obj, j, trackedId, majorValue) == NoMatch;
          assert forall j :: i <= j < k ==> CheckSlot(obj, j, trackedId, majorValue) == NoMatch;
        }
      }
      if exists k :: i <= k <= LAST_GATEWAY_SLOT && CheckSlot(obj, k, trackedId, majorValue) == Hit(h) &&
                     forall j :: i <= j < k ==> CheckSlot(obj, j, trackedId, majorValue) == NoMatch {
        var k :| i <= k <= LAST_GATEWAY_SLOT && CheckSlot(obj, k, trackedId, majorValue) == Hit(h) &&
                 forall j :: i <= j < k ==> CheckSlot(obj, j, trackedId, majorValue) == NoMatch;
        if k > i {
          assert v == NoMatch;
          assert forall j :: i + 1 <= j < k ==> CheckSlot(obj, j, trackedId, majorValue) == NoMatch;
        }
      }
    }
  }

  /** decode_gateway_json() returns the first hit among beacon1..beacon5,
      provided no earlier slot raised; its id is the slot's own value,
      even when the minor rule matched, and its rssi the slot's rssi or
      -999. */
  lemma GatewayFirstHit(obj: Object, trackedId: string, majorValue: string, h: GatewayHit)
    ensures DecodeGatewayJson(obj, trackedId, majorValue) == Some(h) <==>
            exists k :: 1 <= k <= LAST_GATEWAY_SLOT && CheckSlot(obj, k, trackedId, majorValue) == Hit(h) &&
                        forall j :: 1 <= j < k ==> CheckSlot(obj, j, trackedId, majorValue) == NoMatch
    ensures DecodeGatewayJson(obj, trackedId, majorValue) == Some(h) ==>
            exists k :: 1 <= k <= LAST_GATEWAY_SLOT && Dict.Get(obj, Decoder.SlotKey(k)) == Some(h.id) &&
                        h.rssi == Dict.Get(obj, Decoder.RssiKey(k)).GetOr(JInt(-999))
  {
    GatewayFromFirstHit(obj, 1, trackedId, majorValue, h);
  }

  /** A slot whose minor equals the major value matches even when its
      value is unrelated, and the result carries the slot's value. */
  lemma MinorRuleKeepsSlotValue(obj: Object, trackedId: string, majorValue: string, v: Value)
    requires Dict.Get(obj, Decoder.SlotKey(1)) == Some(v)
    requires Dict.Get(obj, MinorKey(1)) == Some(JStr(majorValue))
    ensures DecodeGatewayJson(obj, trackedId, majorValue) ==
            Some(GatewayHit(v, Dict.Get(obj, Decoder.RssiKey(1)).GetOr(JInt(-999))))
  {
  }

  /** A slot holding a non-string value that the first two rules do not
      match makes the whole decode None when a major value is set, even if
      a later slot would match. */
  lemma NonTextSlotAborts(obj: Object, trackedId: string, majorValue: string, v: Value)
    requires majorValue != "" && !v.JStr?
    requires Dict.Get(obj, Decoder.SlotKey(1)) == Some(v)
    requires Dict.Get(obj, MinorKey(1)) != Some(JStr(majorValue))
    ensures DecodeGatewayJson(obj, trackedId, majorValue).None?
  {
  }

  /** An object without beacon1..beacon5 decodes to None. */
  lemma {:induction false} NoSlotsNoHit(obj: Object, i: nat, trackedId: string, majorValue: string)
    requires forall k :: i <= k <= LAST_GATEWAY_SLOT ==> Decoder.SlotKey(k) !in Dict.Keys(obj)
    ensures GatewayFrom(obj, i, trackedId, majorValue).None?
    decreases LAST_GATEWAY_SLOT + 1 - i
  {
    if i <= LAST_GATEWAY_SLOT {
      NoSlotsNoHit(obj, i + 1, trackedId, majorValue);
    }
  }
}
