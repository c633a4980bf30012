/**
 * A group's frames in the moq-lite-05 encoding (internal/hls/frame.go; section 7.18 of
 * draft-lcurley-moq-lite-05): for each frame a zigzag-mapped timestamp delta, a
 * length, and the payload.
 */
module Frames {
  import opened Prelude
  import opened Varint

  const MAX_INT64: u64 := 0x7fff_ffff_ffff_ffff

  /** A Go int64. */
  type i64 = x: int | -0x8000_0000_0000_0000 <= x <= 0x7fff_ffff_ffff_ffff

  /** A Go byte slice, whose length is an int. */
  type Bytes = b: seq<byte> | |b| <= MAX_INT64 witness []

  datatype Frame = Frame(timestamp: u64, body: Bytes)

  function ZigZag(s: i64): u64 { if s >= 0 then 2 * s else -2 * s - 1 }

  function UnZigZag(u: u64): i64 { if u % 2 == 0 then u / 2 else -(u / 2) - 1 }

  /** Each is the other's inverse, over all 64-bit values. */
  lemma ZigZagInverse(s: i64, u: u64)
    ensures UnZigZag(ZigZag(s)) == s && ZigZag(UnZigZag(u)) == u
  {
  }

  /** Two's complement wrap-around of a sum. */
  function Wrap(x: int): i64 {
    (x + 0x8000_0000_0000_0000) % 0x1_0000_0000_0000_0000 - 0x8000_0000_0000_0000
  }

  /** prev + delta as 64-bit arithmetic computes it, refused when it leaves the timeline. */
  function AddDelta(prev: u64, delta: i64): Option<u64>
    requires prev <= MAX_INT64
  {
    var sum := Wrap(prev + delta);
    if delta > 0 && sum < prev then None
    else if sum < 0 then None
    else Some(sum)
  }

  /** The wrapped check is the exact mathematical one. */
  lemma AddDeltaExact(prev: u64, delta: i64)
    requires prev <= MAX_INT64
    ensures AddDelta(prev, delta) == if 0 <= prev + delta <= MAX_INT64 then Some(prev + delta) else None
  {
  }

  // ----- writing -----

  function One(delta: u64, body: Bytes): seq<byte> {
    Encode(delta) + Encode(|body|) + body
  }

  /** The frame can follow one at prev: its timestamp and its delta fit the encoding. */
  predicate Fits(f: Frame, prev: u64) {
    prev <= MAX_INT64 && f.timestamp <= MAX_INT64 && ZigZag(f.timestamp - prev) <= MAX_VARINT
  }

  function EncodeFrom(frames: seq<Frame>, prev: u64): Result<seq<byte>> {
    if frames == [] then Ok([])
    else if !Fits(frames[0], prev) then Err
    else
      match EncodeFrom(frames[1..], frames[0].timestamp)
      case Err => Err
      case Ok(rest) => Ok(One(ZigZag(frames[0].timestamp - prev), frames[0].body) + rest)
  }

  function After(payload: seq<byte>, rest: Result<seq<byte>>): Result<seq<byte>> {
    match rest
    case Err => Err
    case Ok(b) => Ok(payload + b)
  }

  lemma EncodeStep(payload: seq<byte>, frames: seq<Frame>, i: nat, prev: u64)
    requires i < |frames|
    ensures !Fits(frames[i], prev) ==> EncodeFrom(frames[i..], prev) == Err
    ensures Fits(frames[i], prev) ==>
      var f := frames[i];
      After(payload, EncodeFrom(frames[i..], prev)) ==
      After(payload + Encode(ZigZag(f.timestamp - prev)) + Encode(|f.body|) + f.body, EncodeFrom(frames[i + 1..], f.timestamp))
  {
    hide Encode;
    assert frames[i..][0] == frames[i] && frames[i..][1..] == frames[i + 1..];
    if Fits(frames[i], prev) && EncodeFrom(frames[i + 1..], frames[i].timestamp).Ok? {
      var f := frames[i];
      var rest := EncodeFrom(frames[i + 1..], f.timestamp).value;
      var d, l := Encode(ZigZag(f.timestamp - prev)), Encode(|f.body|);
      assert payload + (d + l + f.body + rest) == payload + d + l + f.body + rest;
    }
  }

  /** The loop over the frames. */
  method EncodeFrames(frames: seq<Frame>) returns (r: Result<seq<byte>>)
    ensures r == EncodeFrom(frames, 0)
  {
    hide Encode, EncodeFrom;
    var payload: seq<byte> := [];
    var prev: u64 := 0;
    assert frames[0..] == frames;
    EmptyBefore(EncodeFrom(frames, 0));
    for i := 0 to |frames|
      invariant prev <= MAX_INT64
      invariant EncodeFrom(frames, 0) == After(payload, EncodeFrom(frames[i..], prev))
    {
      var f := frames[i];
      EncodeStep(payload, frames, i, prev);
      if f.timestamp > MAX_INT64 {
        return Err;
      }
      var delta := ZigZag(f.timestamp - prev);
      if delta > MAX_VARINT {
        return Err;
      }
      payload := payload + Encode(delta);
      payload := payload + Encode(|f.body|);
      payload := payload + f.body;
      prev := f.timestamp;
    }
    assert frames[|frames|..] == [];
    NothingLeft(prev);
    assert payload + [] == payload;
    return Ok(payload);
  }

  lemma EmptyBefore(r: Result<seq<byte>>)
    ensures After([], r) == r
  {
    if r.Ok? {
      assert [] + r.value == r.value;
    }
  }

  lemma NothingLeft(prev: u64)
    ensures EncodeFrom([], prev) == Ok([])
  {
  }

  // ----- reading -----

  /** The frames before a fault, and whether there was none. */
  datatype Decoded = Decoded(frames: seq<Frame>, ok: bool)

  /** The first frame of a payload and the bytes it took. */
  function First(payload: seq<byte>, prev: u64): (r: Option<(Frame, nat)>)
    requires prev <= MAX_INT64
    ensures r.Some? ==> 2 <= r.value.1 <= |payload| && r.value.0.timestamp <= MAX_INT64
  {
    match Decode(payload)
    case None => None
    case Some((delta, n)) =>
      match Decode(payload[n..])
      case None => None
      case Some((length, m)) =>
        DecodeBound(payload);
        DecodeBound(payload[n..]);
        if length > |payload| - n - m then None
        else
          match AddDelta(prev, UnZigZag(delta))
          case None => None
          case Some(ts) => Some((Frame(ts, payload[n + m..n + m + length]), n + m + length))
  }

  function DecodeFrom(payload: seq<byte>, prev: u64): (d: Decoded)
    requires prev <= MAX_INT64
    ensures forall i :: 0 <= i < |d.frames| ==> d.frames[i].timestamp <= MAX_INT64
    decreases |payload|
  {
    if payload == [] then Decoded([], true)
    else
      match First(payload, prev)
      case None => Decoded([], false)
      case Some((f, n)) =>
        var rest := DecodeFrom(payload[n..], f.timestamp);
        Decoded([f] + rest.frames, rest.ok)
  }

  /** One turn of the decoding loop. */
  method ReadFrame(payload: seq<byte>, prev: u64) returns (r: Option<(Frame, nat)>)
    requires prev <= MAX_INT64
    ensures r == First(payload, prev)
  {
    hide BigEndian;
    var delta, n := Read(payload);
    if n == 0 {
      return None;
    }
    var rest := payload[n..];
    var length, m := Read(rest);
    if m == 0 {
      return None;
    }
    DecodeBound(payload);
    DecodeBound(rest);
    rest := rest[m..];
    if length > |rest| {
      return None;
    }
    var ts := AddDelta(prev, UnZigZag(delta));
    if ts.None? {
      return None;
    }
    assert rest[..length] == payload[n + m..n + m + length];
    return Some((Frame(ts.value, rest[..length]), n + m + length));
  }

  /** The decoding loop, on any bytes: it ends, stays within the payload, and yields the frames before a fault. */
  method AllFrames(payload: seq<byte>) returns (d: Decoded)
    ensures d == DecodeFrom(payload, 0)
    ensures forall i :: 0 <= i < |d.frames| ==> d.frames[i].timestamp <= MAX_INT64
  {
    hide First;
    var rest: seq<byte>, prev: u64, frames: seq<Frame> := payload, 0, [];
    assert frames + DecodeFrom(payload, 0).frames == DecodeFrom(payload, 0).frames;
    while |rest| > 0
      invariant prev <= MAX_INT64
      invariant var t := DecodeFrom(rest, prev); DecodeFrom(payload, 0) == Decoded(frames + t.frames, t.ok)
      decreases |rest|
    {
      var r := ReadFrame(rest, prev);
      if r.None? {
        assert frames + [] == frames;
        return Decoded(frames, false);
      }
      var (f, n) := r.value;
      ghost var t := DecodeFrom(rest[n..], f.timestamp);
      assert frames + ([f] + t.frames) == frames + [f] + t.frames;
      rest, frames, prev := rest[n..], frames + [f], f.timestamp;
    }
    d := Decoded(frames, true);
    assert frames + [] == frames;
  }

  // ----- round trip -----

  /** Any delta a varint carries, written before a body, is read as the frame it leads to, or as a fault if that is outside the timeline. */
  lemma FirstExact(delta: i64, body: Bytes, prev: u64, rest: seq<byte>)
    requires prev <= MAX_INT64 && ZigZag(delta) <= MAX_VARINT && |body| <= MAX_VARINT
    ensures
      var b := One(ZigZag(delta), body);
      First(b + rest, prev) ==
      if 0 <= prev + delta <= MAX_INT64 then Some((Frame(prev + delta, body), |b|)) else None
  {
    var d, l := Encode(ZigZag(delta)), Encode(|body|);
    var p := One(ZigZag(delta), body) + rest;
    assert p == d + (l + body + rest);
    DecodeEncode(ZigZag(delta), l + body + rest);
    assert p[|d|..] == l + (body + rest);
    DecodeEncode(|body|, body + rest);
    ZigZagInverse(delta, 0);
    AddDeltaExact(prev, delta);
    assert p[|d| + |l|..|d| + |l| + |body|] == body;
    hide Encode, ZigZag, UnZigZag, Decode;
  }

  lemma FirstOfOne(f: Frame, prev: u64, rest: seq<byte>)
    requires Fits(f, prev) && |f.body| <= MAX_VARINT
    ensures
      var b := One(ZigZag(f.timestamp - prev), f.body);
      First(b + rest, prev) == Some((f, |b|))
  {
    FirstExact(f.timestamp - prev, f.body, prev, rest);
    hide First, One;
  }

  function LastTime(frames: seq<Frame>, prev: u64): u64 {
    if frames == [] then prev else frames[|frames| - 1].timestamp
  }

  lemma DecodeFront(b: seq<byte>, rest: seq<byte>, prev: u64, f: Frame)
    requires prev <= MAX_INT64 && First(b + rest, prev) == Some((f, |b|))
    ensures f.timestamp <= MAX_INT64
    ensures DecodeFrom(b + rest, prev) == Decoded([f] + DecodeFrom(rest, f.timestamp).frames, DecodeFrom(rest, f.timestamp).ok)
  {
    hide First;
    DropFront(b, rest);
  }

  lemma DecodeFault(b: seq<byte>, prev: u64)
    requires prev <= MAX_INT64 && b != [] && First(b, prev) == None
    ensures DecodeFrom(b, prev) == Decoded([], false)
  {
    hide First;
  }

  /** Reading what was written, whatever follows it, gives back exactly those frames and then what follows. */
  lemma {:induction false} ReadsOn(frames: seq<Frame>, prev: u64, rest: seq<byte>)
    requires prev <= MAX_INT64 && EncodeFrom(frames, prev).Ok?
    requires forall i :: 0 <= i < |frames| ==> |frames[i].body| <= MAX_VARINT
    ensures LastTime(frames, prev) <= MAX_INT64
    ensures
      var d := DecodeFrom(rest, LastTime(frames, prev));
      DecodeFrom(EncodeFrom(frames, prev).value + rest, prev) == Decoded(frames + d.frames, d.ok)
    decreases |frames|
  {
    hide One, First, Encode, ZigZag;
    if frames == [] {
      assert EncodeFrom(frames, prev).value + rest == rest;
    } else {
      var f := frames[0];
      var more := EncodeFrom(frames[1..], f.timestamp).value;
      var b := One(ZigZag(f.timestamp - prev), f.body);
      FirstOfOne(f, prev, more + rest);
      TimestampBound(f, prev);
      assert EncodeFrom(frames, prev).value + rest == b + (more + rest);
      hide EncodeFrom, DecodeFrom;
      DecodeFront(b, more + rest, prev, f);
      ReadsOn(frames[1..], f.timestamp, rest);
      var d := DecodeFrom(rest, LastTime(frames, prev));
      assert [f] + (frames[1..] + d.frames) == frames + d.frames;
    }
  }

  /** Whenever writing succeeds, reading gives back exactly those frames and no fault. */
  lemma RoundTripFrom(frames: seq<Frame>, prev: u64)
    requires prev <= MAX_INT64 && EncodeFrom(frames, prev).Ok?
    requires forall i :: 0 <= i < |frames| ==> |frames[i].body| <= MAX_VARINT
    ensures DecodeFrom(EncodeFrom(frames, prev).value, prev) == Decoded(frames, true)
  {
    ReadsOn(frames, prev, []);
    var b := EncodeFrom(frames, prev).value;
    assert b + [] == b && frames + [] == frames;
    hide EncodeFrom;
  }

  /** A frame cut short is a fault. */
  lemma CutFrame(f: Frame, prev: u64, k: nat)
    requires Fits(f, prev) && |f.body| <= MAX_VARINT && k < |One(ZigZag(f.timestamp - prev), f.body)|
    ensures First(One(ZigZag(f.timestamp - prev), f.body)[..k], prev) == None
  {
    var delta := ZigZag(f.timestamp - prev);
    var d, l := Encode(delta), Encode(|f.body|);
    hide Encode, ZigZag, Decode;
    CutParts(d, l, f.body, k);
    if k < |d| {
      CutVarint(delta, k);
    } else if k < |d| + |l| {
      DecodeEncode(delta, l[..k - |d|]);
      DropFront(d, l[..k - |d|]);
      CutVarint(|f.body|, k - |d|);
    } else {
      var part := f.body[..k - |d| - |l|];
      DecodeEncode(delta, l + part);
      DropFront(d, l + part);
      DecodeEncode(|f.body|, part);
    }
  }

  lemma DropFront(a: seq<byte>, b: seq<byte>)
    ensures (a + b)[|a|..] == b
  {
  }

  lemma CutParts(d: seq<byte>, l: seq<byte>, body: seq<byte>, k: nat)
    requires k < |d + l + body|
    ensures k < |d| ==> (d + l + body)[..k] == d[..k]
    ensures |d| <= k < |d| + |l| ==> (d + l + body)[..k] == d + l[..k - |d|]
    ensures |d| + |l| <= k ==> (d + l + body)[..k] == d + (l + body[..k - |d| - |l|])
  {
  }

  /** So of a payload cut off within a frame all frames before it are read, and then the fault. */
  lemma CutPayload(frames: seq<Frame>, f: Frame, k: nat)
    requires EncodeFrom(frames, 0).Ok? && Fits(f, LastTime(frames, 0))
    requires (forall i :: 0 <= i < |frames| ==> |frames[i].body| <= MAX_VARINT) && |f.body| <= MAX_VARINT
    requires 0 < k < |One(ZigZag(f.timestamp - LastTime(frames, 0)), f.body)|
    ensures
      var cut := One(ZigZag(f.timestamp - LastTime(frames, 0)), f.body)[..k];
      DecodeFrom(EncodeFrom(frames, 0).value + cut, 0) == Decoded(frames, false)
  {
    var cut := One(ZigZag(f.timestamp - LastTime(frames, 0)), f.body)[..k];
    hide EncodeFrom, One, First, ZigZag, DecodeFrom;
    CutFrame(f, LastTime(frames, 0), k);
    ReadsOn(frames, 0, cut);
    DecodeFault(cut, LastTime(frames, 0));
    assert frames + [] == frames;
  }

  lemma RoundTrip(frames: seq<Frame>)
    requires EncodeFrom(frames, 0).Ok?
    requires forall i :: 0 <= i < |frames| ==> |frames[i].body| <= MAX_VARINT
    ensures DecodeFrom(EncodeFrom(frames, 0).value, 0) == Decoded(frames, true)
  {
    RoundTripFrom(frames, 0);
  }

  /** Frame i fits after the frame before it, or after prev. */
  predicate FitsAt(frames: seq<Frame>, prev: u64, i: nat)
    requires i < |frames|
  {
    Fits(frames[i], if i == 0 then prev else frames[i - 1].timestamp)
  }

  /** Writing succeeds exactly when every timestamp, and every delta between neighbours, fits. */
  lemma {:induction false} EncodesExactlyWhenFits(frames: seq<Frame>, prev: u64)
    requires prev <= MAX_INT64
    ensures EncodeFrom(frames, prev).Ok? <==> forall i: nat :: i < |frames| ==> FitsAt(frames, prev, i)
    decreases |frames|
  {
    hide Fits, Encode, One;
    if frames != [] {
      var f := frames[0];
      assert FitsAt(frames, prev, 0) <==> Fits(f, prev);
      if Fits(f, prev) {
        TimestampBound(f, prev);
        EncodesExactlyWhenFits(frames[1..], f.timestamp);
        forall i: nat | i < |frames[1..]|
          ensures FitsAt(frames[1..], f.timestamp, i) <==> FitsAt(frames, prev, i + 1)
        {
        }
        if j: nat :| 0 < j < |frames| && !FitsAt(frames, prev, j) {
          assert !FitsAt(frames[1..], f.timestamp, j - 1);
        }
      }
    }
  }

  /** A frame fits after another exactly if its timestamp is in the timeline and it is less than 2^61 away, or exactly that before. */
  lemma FitsMeans(f: Frame, prev: u64)
    ensures Fits(f, prev) <==>
              && prev <= 0x7fff_ffff_ffff_ffff && f.timestamp <= 0x7fff_ffff_ffff_ffff
              && -0x2000_0000_0000_0000 <= f.timestamp - prev < 0x2000_0000_0000_0000
  {
  }

  lemma TimestampBound(f: Frame, prev: u64)
    requires Fits(f, prev)
    ensures f.timestamp <= MAX_INT64
  {
  }

  /** Every payload read without fault can be written again, and reads the same. */
  lemma {:induction false} AcceptedCanBeRewritten(payload: seq<byte>, prev: u64)
    requires prev <= MAX_INT64 && DecodeFrom(payload, prev).ok
    ensures
      var frames := DecodeFrom(payload, prev).frames;
      EncodeFrom(frames, prev).Ok? && DecodeFrom(EncodeFrom(frames, prev).value, prev) == Decoded(frames, true)
    decreases |payload|
  {
    if payload != [] {
      var (f, n) := First(payload, prev).value;
      FirstFits(payload, prev);
      AcceptedCanBeRewritten(payload[n..], f.timestamp);
      var frames := DecodeFrom(payload, prev).frames;
      assert frames[1..] == DecodeFrom(payload[n..], f.timestamp).frames;
      BodiesFit(payload, prev);
      RoundTripFrom(frames, prev);
    }
  }

  lemma FirstFits(payload: seq<byte>, prev: u64)
    requires prev <= MAX_INT64 && First(payload, prev).Some?
    ensures Fits(First(payload, prev).value.0, prev) && |First(payload, prev).value.0.body| <= MAX_VARINT
  {
    var (delta, n) := Decode(payload).value;
    DecodeBound(payload);
    DecodeBound(payload[n..]);
    ZigZagInverse(0, delta);
    AddDeltaExact(prev, UnZigZag(delta));
  }

  lemma {:induction false} BodiesFit(payload: seq<byte>, prev: u64)
    requires prev <= MAX_INT64
    ensures forall i :: 0 <= i < |DecodeFrom(payload, prev).frames| ==> |DecodeFrom(payload, prev).frames[i].body| <= MAX_VARINT
    decreases |payload|
  {
    if payload != [] && First(payload, prev).Some? {
      var (f, n) := First(payload, prev).value;
      FirstFits(payload, prev);
      BodiesFit(payload[n..], f.timestamp);
    }
  }
}
