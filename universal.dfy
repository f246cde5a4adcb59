/** Universal exclusive messages (manufacturer ids 7Eh and 7Fh), the only ones
  * the MIDI 1.0 Detailed Specification defines itself: a device id, two
  * sub-ids and data. */
module Universal {
  import opened Wrappers
  import opened Bytes
  import opened SysExCommon

  /** `ParsedUniversalSysExBody`. */
  datatype UniversalBody = UniversalBody(realTime: bool, deviceId: byte, subId1: byte, subId2: byte, data: seq<byte>)

  /** `parse_sysex_body`: the first three bytes are the header, the rest is data. */
  function ParseUniversalBody(realTime: bool, body: seq<byte>): (r: Option<UniversalBody>)
    ensures r.Some? <==> |body| >= 3
    ensures r.Some? ==> r.value.realTime == realTime &&
                        [r.value.deviceId, r.value.subId1, r.value.subId2] + r.value.data == body
  {
    if |body| < 3 then None
    else
      assert body == [body[0], body[1], body[2]] + body[3..];
      Some(UniversalBody(realTime, body[0], body[1], body[2], body[3..]))
  }

  /** The bytes a universal body stands for. */
  function UniversalBytes(u: UniversalBody): (s: seq<byte>)
    ensures |s| == 3 + |u.data|
  {
    [u.deviceId, u.subId1, u.subId2] + u.data
  }

  /** The bytes of a body parse back to it. */
  lemma UniversalRoundTrip(u: UniversalBody)
    ensures ParseUniversalBody(u.realTime, UniversalBytes(u)) == Some(u)
  {
    var body := UniversalBytes(u);
    assert body[3..] == u.data;
  }

  /** The header as `Display` renders it, before the data: "Broadcast" for
    * device 7Fh, otherwise the device id in hex, then both sub-ids in hex. */
  function Header(u: UniversalBody): string {
    (if u.deviceId == DV_ID_BROADCAST then "Broadcast" else "Device " + Hex2(u.deviceId) + "h") +
    SubIds(u.subId1, u.subId2)
  }

  /** The part of the header after the device. */
  function SubIds(subId1: byte, subId2: byte): string {
    ", Sub-ID#1 " + Hex2(subId1) + "h" + ", Sub-ID#2 " + Hex2(subId2) + "h"
  }

  /** Reads the sub-ids back from the part of a header after the device. */
  function ReadSubIds(rest: string): (r: Option<(byte, byte)>) {
    if |rest| != 28 || rest[..11] != ", Sub-ID#1 " || rest[13..25] != "h, Sub-ID#2 " || rest[27] != 'h' then None
    else
      match (ParseHex2(rest[11..13]), ParseHex2(rest[25..27]))
      case (Some(s1), Some(s2)) => Some((s1, s2))
      case _ => None
  }

  /** Reads the device and sub-ids back from a rendered header. */
  function ReadHeader(h: string): Option<(byte, byte, byte)> {
    var (device, rest) :=
      if |h| >= 9 && h[..9] == "Broadcast" then (Some(DV_ID_BROADCAST), h[9..])
      else if |h| >= 10 && h[..7] == "Device " && h[9] == 'h' then (ParseHex2(h[7..9]), h[10..])
      else (None, h);
    match (device, ReadSubIds(rest))
    case (Some(d), Some((s1, s2))) => Some((d, s1, s2))
    case _ => None
  }

  lemma SubIdsRoundTrip(subId1: byte, subId2: byte)
    ensures ReadSubIds(SubIds(subId1, subId2)) == Some((subId1, subId2))
  {
    var t := SubIds(subId1, subId2);
    ParseHex2RoundTrip(subId1);
    ParseHex2RoundTrip(subId2);
    assert t[11..13] == Hex2(subId1);
    assert t[25..27] == Hex2(subId2);
  }

  /** The rendered header shows the device (as "Broadcast" exactly for 7Fh)
    * and both sub-ids, and they can be read back from it. */
  lemma HeaderShows(u: UniversalBody)
    ensures ReadHeader(Header(u)) == Some((u.deviceId, u.subId1, u.subId2))
    ensures (Header(u)[..9] == "Broadcast") <==> u.deviceId == DV_ID_BROADCAST
  {
    var h := Header(u);
    var tail := SubIds(u.subId1, u.subId2);
    SubIdsRoundTrip(u.subId1, u.subId2);
    if u.deviceId == DV_ID_BROADCAST {
      assert h == "Broadcast" + tail;
      assert h[9..] == tail;
    } else {
      var head := "Device " + Hex2(u.deviceId) + "h";
      assert h == head + tail;
      ParseHex2RoundTrip(u.deviceId);
      assert h[7..9] == Hex2(u.deviceId);
      assert h[10..] == tail;
      assert h[..9] != "Broadcast" by { assert h[0] == 'D'; }
    }
  }
}
