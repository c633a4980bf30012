/** LOC frames, the container of a track's pictures (internal/cmaf/loc.go). */
module Loc {
  import opened Prelude
  import opened Varint
  import Frames

  /** A LOC frame: a timestamp in microseconds and the encoded picture. */
  datatype Media = Media(timestamp: nat, data: seq<byte>)

  function EncodeLoc(timestamp: u64, data: seq<byte>): seq<byte>
    requires |data| <= MAX_VARINT
  {
    Encode(timestamp) + Encode(|data|) + data
  }

  function DecodeLoc(b: seq<byte>): Result<Media> {
    match Decode(b)
    case None => Err
    case Some((ts, n)) =>
      match Decode(b[n..])
      case None => Err
      case Some((size, m)) =>
        if |b| - n - m < size then Err else Ok(Media(ts, b[n + m..n + m + size]))
  }

  /** Reading undoes writing exactly for the timestamps a varint carries; a larger one loses its top two bits. What follows the picture is ignored. */
  lemma LocRoundTrip(timestamp: u64, data: seq<byte>, rest: seq<byte>)
    requires |data| <= MAX_VARINT
    ensures DecodeLoc(EncodeLoc(timestamp, data) + rest) == Ok(Media(timestamp % 0x4000_0000_0000_0000, data))
    ensures DecodeLoc(EncodeLoc(timestamp, data) + rest) == Ok(Media(timestamp, data)) <==> timestamp <= MAX_VARINT
  {
    hide Encode, Decode;
    var t, l := Encode(timestamp), Encode(|data|);
    var b := t + l + data + rest;
    assert b == t + (l + (data + rest));
    DecodeEncode(timestamp, l + (data + rest));
    assert b[|t|..] == l + (data + rest);
    DecodeEncode(|data|, data + rest);
    assert b[|t| + |l|..|t| + |l| + |data|] == data;
  }

  lemma LocExact(timestamp: u64, data: seq<byte>)
    requires |data| <= MAX_VARINT && timestamp <= MAX_VARINT
    ensures DecodeLoc(EncodeLoc(timestamp, data)) == Ok(Media(timestamp, data))
  {
    LocRoundTrip(timestamp, data, []);
    assert EncodeLoc(timestamp, data) + [] == EncodeLoc(timestamp, data);
  }

  /** A LOC frame cut short is not read. */
  lemma CutLoc(timestamp: u64, data: seq<byte>, k: nat)
    requires |data| <= MAX_VARINT && k < |EncodeLoc(timestamp, data)|
    ensures DecodeLoc(EncodeLoc(timestamp, data)[..k]).Err?
  {
    var t, l := Encode(timestamp), Encode(|data|);
    hide Encode, Decode;
    Frames.CutParts(t, l, data, k);
    if k < |t| {
      CutVarint(timestamp, k);
    } else if k < |t| + |l| {
      DecodeEncode(timestamp, l[..k - |t|]);
      Frames.DropFront(t, l[..k - |t|]);
      CutVarint(|data|, k - |t|);
    } else {
      var part := data[..k - |t| - |l|];
      DecodeEncode(timestamp, l + part);
      Frames.DropFront(t, l + part);
      DecodeEncode(|data|, part);
    }
  }

  lemma LocBound(b: seq<byte>)
    ensures DecodeLoc(b).Ok? ==> DecodeLoc(b).value.timestamp <= MAX_VARINT
  {
    DecodeBound(b);
  }
}
