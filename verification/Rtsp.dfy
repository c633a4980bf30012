/**
 * H.264 over RTP: fragments and aggregates to NAL units, NAL units to access
 * units, access units to AVCC samples (internal/ingest/rtsp.go; RFC 6184), and the
 * independent reader of those samples (internal/integration/media.go).
 */
module Rtsp {
  import opened Prelude
  import opened Varint

  type Nalu = seq<byte>

  /** The cap on a reassembled unit: 16 MiB. */
  const MAX_FU := 0x100_0000

  datatype Packet = Packet(timestamp: nat, marker: bool, payload: seq<byte>)

  /** The type in the low five bits of a unit's first byte; 5 is an IDR slice. */
  function NalType(b: byte): byte { b % 0x20 }

  predicate IsIdr(n: Nalu) { n != [] && NalType(n[0]) == 5 }

  predicate AnyIdr(ns: seq<Nalu>) { exists i :: 0 <= i < |ns| && IsIdr(ns[i]) }

  /** Two bytes, big-endian. */
  function Word(hi: int, lo: int): (n: nat)
    requires 0 <= hi && 0 <= lo
  {
    hi * 0x100 + lo
  }

  // ----- packets to NAL units -----

  /** The units of a STAP-A aggregate from offset off; a truncated or empty entry ends it. */
  function Stap(payload: seq<byte>, off: nat): seq<Nalu>
    decreases |payload| - off
  {
    if off + 2 > |payload| then []
    else
      var n := Word(payload[off], payload[off + 1]);
      if off + 2 + n > |payload| || n == 0 then []
      else [payload[off + 2..off + 2 + n]] + Stap(payload, off + 2 + n)
  }

  /** One FU-A fragment: the unit in flight after it, and the unit it completes. */
  function Fragment(fu: Option<Nalu>, payload: seq<byte>): (Option<Nalu>, Option<Nalu>) {
    if |payload| < 2 then (fu, None)
    else
      var start, end := payload[1] / 0x80 == 1, payload[1] / 0x40 % 2 == 1;
      var header := payload[0] / 0x20 * 0x20 + payload[1] % 0x20;
      if !start && fu.None? then (None, None)
      else
        var buf := (if start then [header] else fu.value) + payload[2..];
        if |buf| > MAX_FU then (None, None)
        else if end then (None, Some(buf))
        else (Some(buf), None)
  }

  function Extract(fu: Option<Nalu>, payload: seq<byte>): (Option<Nalu>, seq<Nalu>)
    requires payload != []
  {
    var typ := NalType(payload[0]);
    if 1 <= typ <= 23 then (fu, [payload])
    else if typ == 24 then (fu, Stap(payload, 1))
    else if typ == 28 then
      var (fu', done) := Fragment(fu, payload);
      (fu', if done.Some? then [done.value] else [])
    else (fu, [])
  }

  // ----- NAL units to AVCC samples -----

  /** A unit's length as four big-endian bytes, truncated to 32 bits. */
  function Length4(n: nat): seq<byte> {
    [n / 0x100_0000 % 0x100, n / 0x1_0000 % 0x100, n / 0x100 % 0x100, n % 0x100]
  }

  function Avcc(ns: seq<Nalu>): seq<byte> {
    if ns == [] then []
    else Avcc(ns[..|ns| - 1]) + Length4(|ns[|ns| - 1]|) + ns[|ns| - 1]
  }

  datatype Sample = Sample(pts: int, data: seq<byte>, key: bool)

  // ----- the depacketizer -----

  datatype State = State(
    fu: Option<Nalu>,
    nalus: seq<Nalu>,
    ts: nat,
    open: bool,
    base: Option<int>)

  /** The presentation time of a 90 kHz timestamp in microseconds, from the first sample's. */
  function Pts(s: State): int {
    var t := s.ts * 1000 / 90;
    t - (if s.base.Some? then s.base.value else t)
  }

  function Flush(s: State): (State, seq<Sample>) {
    if !s.open || s.nalus == [] then (s.(open := false, nalus := []), [])
    else
      (s.(open := false, nalus := [], base := if s.base.Some? then s.base else Some(s.ts * 1000 / 90)),
       [Sample(Pts(s), Avcc(s.nalus), AnyIdr(s.nalus))])
  }

  function Admit(s: State, p: Packet): State
    requires p.payload != []
  {
    var (fu, ns) := Extract(s.fu, p.payload);
    s.(fu := fu, ts := p.timestamp, open := true, nalus := s.nalus + ns)
  }

  function Handle(s: State, p: Packet): (State, seq<Sample>) {
    if p.payload == [] then (s, [])
    else
      var (s1, out1) := if s.open && p.timestamp != s.ts then Flush(s) else (s, []);
      var s2 := Admit(s1, p);
      var (s3, out2) := if p.marker then Flush(s2) else (s2, []);
      (s3, out1 + out2)
  }

  class Depacketizer {
    var fu: Option<Nalu>
    var nalus: seq<Nalu>
    var ts: nat
    var open: bool
    var base: Option<int>
    // Every sample pushed to the session.
    var pushed: seq<Sample>

    constructor ()
      ensures Now() == START && pushed == []
    {
      fu, nalus, ts, open, base, pushed := None, [], 0, false, None, [];
    }

    ghost function Now(): State
      reads this
    {
      State(fu, nalus, ts, open, base)
    }

    method HandleVideoRtp(p: Packet)
      modifies this
      ensures Now() == Handle(old(Now()), p).0
      ensures pushed == old(pushed) + Handle(old(Now()), p).1
    {
      hide Extract, Flush;
      if |p.payload| == 0 {
        return;
      }
      if open && p.timestamp != ts {
        FlushAccessUnit();
      }
      ts := p.timestamp;
      open := true;
      var ns := ExtractNalus(p.payload);
      nalus := nalus + ns;
      if p.marker {
        FlushAccessUnit();
      }
    }

    method ExtractNalus(payload: seq<byte>) returns (ns: seq<Nalu>)
      requires payload != []
      modifies this`fu
      ensures (fu, ns) == Extract(old(fu), payload)
    {
      var typ := NalType(payload[0]);
      if 1 <= typ <= 23 {
        return [payload];
      } else if typ == 24 {
        ns := ParseStapA(payload);
      } else if typ == 28 {
        var done := ReassembleFu(payload);
        return if done.Some? then [done.value] else [];
      } else {
        return [];
      }
    }

    method ReassembleFu(payload: seq<byte>) returns (done: Option<Nalu>)
      modifies this`fu
      ensures (fu, done) == Fragment(old(fu), payload)
    {
      if |payload| < 2 {
        return None;
      }
      var start, end := payload[1] / 0x80 == 1, payload[1] / 0x40 % 2 == 1;
      if start {
        fu := Some([payload[0] / 0x20 * 0x20 + payload[1] % 0x20]);
      } else if fu.None? {
        return None;
      }
      fu := Some(fu.value + payload[2..]);
      if |fu.value| > MAX_FU {
        fu := None;
        return None;
      }
      if end {
        done := fu;
        fu := None;
        return done;
      }
      return None;
    }

    method FlushAccessUnit()
      modifies this`nalus, this`open, this`base, this`pushed
      ensures Now() == Flush(old(Now())).0
      ensures pushed == old(pushed) + Flush(old(Now())).1
    {
      if !open || nalus == [] {
        open, nalus := false, [];
        return;
      }
      var data, key := Assemble(nalus);
      var t := ts * 1000 / 90;
      if base.None? {
        base := Some(t);
      }
      pushed := pushed + [Sample(t - base.value, data, key)];
      nalus, open := [], false;
    }
  }

  /** The loop that concatenates an access unit and looks for an IDR slice. */
  method Assemble(ns: seq<Nalu>) returns (data: seq<byte>, key: bool)
    ensures data == Avcc(ns) && key == AnyIdr(ns)
  {
    data, key := [], false;
    for i := 0 to |ns|
      invariant data == Avcc(ns[..i]) && key == AnyIdr(ns[..i])
    {
      assert ns[..i + 1] == ns[..i] + [ns[i]];
      AnyIdrSnoc(ns[..i], ns[i]);
      data := data + Length4(|ns[i]|) + ns[i];
      if ns[i] != [] && NalType(ns[i][0]) == 5 {
        key := true;
      }
    }
    assert ns[..|ns|] == ns;
  }

  lemma AnyIdrSnoc(ns: seq<Nalu>, n: Nalu)
    ensures AnyIdr(ns + [n]) <==> AnyIdr(ns) || IsIdr(n)
  {
    if AnyIdr(ns) {
      var i :| 0 <= i < |ns| && IsIdr(ns[i]);
      assert IsIdr((ns + [n])[i]);
    }
    if IsIdr(n) {
      assert IsIdr((ns + [n])[|ns|]);
    }
  }

  const START := State(None, [], 0, false, None)

  method ParseStapA(payload: seq<byte>) returns (ns: seq<Nalu>)
    requires payload != []
    ensures ns == Stap(payload, 1)
  {
    ns := [];
    var off := 1;
    while off + 2 <= |payload|
      invariant off <= |payload|
      invariant ns + Stap(payload, off) == Stap(payload, 1)
      decreases |payload| - off
    {
      var n := Word(payload[off], payload[off + 1]);
      if off + 2 + n > |payload| || n == 0 {
        return;
      }
      ghost var rest := Stap(payload, off + 2 + n);
      assert ns + ([payload[off + 2..off + 2 + n]] + rest) == ns + [payload[off + 2..off + 2 + n]] + rest;
      ns := ns + [payload[off + 2..off + 2 + n]];
      off := off + 2 + n;
    }
  }

  /** The independent reader: is any unit of the sample an IDR slice. */
  function KeyFrom(avcc: seq<byte>, off: nat): bool
    decreases |avcc| - off
  {
    if off + 4 > |avcc| then false
    else
      var n := BigEndian(0, avcc[off..off + 4]);
      if off + 4 + n > |avcc| || n == 0 then false
      else if NalType(avcc[off + 4]) == 5 then true
      else KeyFrom(avcc, off + 4 + n)
  }

  method IsAvccKeyframe(avcc: seq<byte>) returns (key: bool)
    ensures key == KeyFrom(avcc, 0)
  {
    var off := 0;
    while off + 4 <= |avcc|
      invariant off <= |avcc| && KeyFrom(avcc, off) == KeyFrom(avcc, 0)
      decreases |avcc| - off
    {
      var n := BigEndian(0, avcc[off..off + 4]);
      off := off + 4;
      if off > |avcc| || off + n > |avcc| || n == 0 {
        return false;
      }
      if NalType(avcc[off]) == 5 {
        return true;
      }
      off := off + n;
    }
    return false;
  }
}
