/** What holds of the depacketizer over any sequence of packets. */
module RtspTheorems {
  import opened Prelude
  import opened Varint
  import opened Rtsp

  /** A unit with the timestamp of the packet that completed it. */
  datatype Unit = Unit(ts: nat, nalu: Nalu)

  /** Not empty, and of a length four bytes can state. */
  predicate Proper(n: Nalu) { 0 < |n| < 0x1_0000_0000 }

  /** The depacketizer with everything it ever extracted, and the units of each sample pushed. */
  datatype World = World(s: State, extracted: seq<Unit>, samples: seq<Sample>, units: seq<seq<Unit>>)

  function Tag(ts: nat, ns: seq<Nalu>): (us: seq<Unit>)
    ensures |us| == |ns|
  {
    seq(|ns|, i requires 0 <= i < |ns| => Unit(ts, ns[i]))
  }

  function Extracted(s: State, p: Packet): seq<Nalu> {
    if p.payload == [] then [] else Extract(s.fu, p.payload).1
  }

  /** The units of the samples a packet causes to be pushed: those open when the timestamp moved on, and those its marker completes. */
  function FlushedBy(s: State, p: Packet): seq<seq<Unit>> {
    if p.payload == [] then []
    else
      var moved := s.open && p.timestamp != s.ts;
      var before := if moved && s.nalus != [] then [Tag(s.ts, s.nalus)] else [];
      var ns := (if moved then [] else s.nalus) + Extracted(s, p);
      before + (if p.marker && ns != [] then [Tag(p.timestamp, ns)] else [])
  }

  function Apply(w: World, p: Packet): World {
    var (s, out) := Handle(w.s, p);
    World(s, w.extracted + Tag(p.timestamp, Extracted(w.s, p)), w.samples + out, w.units + FlushedBy(w.s, p))
  }

  function Run(w: World, ps: seq<Packet>): World
    decreases |ps|
  {
    if ps == [] then w else Run(Apply(w, ps[0]), ps[1..])
  }

  function Flat(uss: seq<seq<Unit>>): seq<Unit> {
    if uss == [] then [] else Flat(uss[..|uss| - 1]) + uss[|uss| - 1]
  }

  function Nalus(us: seq<Unit>): (ns: seq<Nalu>)
    ensures |ns| == |us|
  {
    seq(|us|, i requires 0 <= i < |us| => us[i].nalu)
  }

  /** A sample is the AVCC form of units completed under one timestamp, none empty, and its key flag says whether one is an IDR slice. */
  ghost predicate SampleOk(sample: Sample, us: seq<Unit>) {
    && us != []
    && (forall i, j :: 0 <= i < j < |us| ==> us[i].ts == us[j].ts)
    && (forall i :: 0 <= i < |us| ==> Proper(us[i].nalu))
    && sample.data == Avcc(Nalus(us))
    && sample.key == AnyIdr(Nalus(us))
  }

  ghost predicate Inv(w: World) {
    && (!w.s.open ==> w.s.nalus == [])
    && (forall i :: 0 <= i < |w.s.nalus| ==> Proper(w.s.nalus[i]))
    && (w.s.fu.Some? ==> 0 < |w.s.fu.value| <= MAX_FU)
    && w.extracted == Flat(w.units) + Tag(w.s.ts, w.s.nalus)
    && |w.samples| == |w.units|
    && (forall k :: 0 <= k < |w.units| ==> SampleOk(w.samples[k], w.units[k]))
  }

  const START_WORLD := World(START, [], [], [])

  lemma {:induction false} StapProper(payload: seq<byte>, off: nat)
    requires |payload| < 0x1_0000_0000
    ensures forall i :: 0 <= i < |Stap(payload, off)| ==> Proper(Stap(payload, off)[i])
    decreases |payload| - off
  {
    if off + 2 <= |payload| {
      var n := Word(payload[off], payload[off + 1]);
      if off + 2 + n <= |payload| && n != 0 {
        StapProper(payload, off + 2 + n);
      }
    }
  }

  /** No unit extracted, and none in flight, is empty or beyond the cap. */
  lemma ExtractProper(fu: Option<Nalu>, payload: seq<byte>)
    requires 0 < |payload| < 0x1_0000_0000 && (fu.Some? ==> 0 < |fu.value| <= MAX_FU)
    ensures
      var (fu', ns) := Extract(fu, payload);
      && (fu'.Some? ==> 0 < |fu'.value| <= MAX_FU)
      && (forall i :: 0 <= i < |ns| ==> Proper(ns[i]))
  {
    StapProper(payload, 1);
    hide Stap;
  }

  lemma FlatSnoc(uss: seq<seq<Unit>>, us: seq<Unit>)
    ensures Flat(uss + [us]) == Flat(uss) + us
  {
  }

  lemma TagConcat(ts: nat, a: seq<Nalu>, b: seq<Nalu>)
    ensures Tag(ts, a + b) == Tag(ts, a) + Tag(ts, b)
  {
  }

  lemma TagSampleOk(s: State)
    requires s.open && s.nalus != [] && (forall i :: 0 <= i < |s.nalus| ==> Proper(s.nalus[i]))
    ensures |Flush(s).1| == 1 && SampleOk(Flush(s).1[0], Tag(s.ts, s.nalus))
  {
    assert Nalus(Tag(s.ts, s.nalus)) == s.nalus;
    hide Avcc;
  }

  /** Flushing moves the open units, all of one timestamp, to a sample. */
  function AfterFlush(w: World): World {
    var (s, out) := Flush(w.s);
    w.(s := s, samples := w.samples + out,
       units := if w.s.open && w.s.nalus != [] then w.units + [Tag(w.s.ts, w.s.nalus)] else w.units)
  }

  lemma FlushKeeps(w: World)
    requires Inv(w)
    ensures Inv(AfterFlush(w)) && AfterFlush(w).s.nalus == []
  {
    var w' := AfterFlush(w);
    assert Tag(w'.s.ts, []) == [];
    if w.s.open && w.s.nalus != [] {
      TagSampleOk(w.s);
      FlatSnoc(w.units, Tag(w.s.ts, w.s.nalus));
      assert w.extracted + [] == w.extracted;
    }
    hide SampleOk, Flat, Tag;
  }

  function AfterAdmit(w: World, p: Packet): World
    requires p.payload != []
  {
    w.(s := Admit(w.s, p), extracted := w.extracted + Tag(p.timestamp, Extract(w.s.fu, p.payload).1))
  }

  lemma AdmitKeeps(w: World, p: Packet)
    requires Inv(w) && 0 < |p.payload| < 0x1_0000_0000 && (w.s.open ==> w.s.ts == p.timestamp)
    ensures Inv(AfterAdmit(w, p))
  {
    var w', ns := AfterAdmit(w, p), Extract(w.s.fu, p.payload).1;
    ExtractProper(w.s.fu, p.payload);
    TagConcat(p.timestamp, w.s.nalus, ns);
    if w.s.open {
      assert Tag(w.s.ts, w.s.nalus) == Tag(p.timestamp, w.s.nalus);
    } else {
      assert Tag(w.s.ts, w.s.nalus) == [] && Tag(p.timestamp, w.s.nalus) == [];
    }
    hide SampleOk, Flat, Tag, Extract;
    assert Flat(w.units) + Tag(p.timestamp, w.s.nalus) + Tag(p.timestamp, ns)
        == Flat(w.units) + (Tag(p.timestamp, w.s.nalus) + Tag(p.timestamp, ns));
  }

  /** A packet is a flush if its timestamp is new, an admission, and a flush if marked. */
  lemma ApplyParts(w: World, p: Packet)
    requires Inv(w) && p.payload != []
    ensures
      var w1 := if w.s.open && p.timestamp != w.s.ts then AfterFlush(w) else w;
      var w2 := AfterAdmit(w1, p);
      Apply(w, p) == if p.marker then AfterFlush(w2) else w2
  {
    hide Inv, Extract, Avcc, AnyIdr, Tag;
    var w1 := if w.s.open && p.timestamp != w.s.ts then AfterFlush(w) else w;
    assert w1.s.fu == w.s.fu;
    var w2 := AfterAdmit(w1, p);
    var out := Handle(w.s, p).1;
    assert Apply(w, p).s == (if p.marker then AfterFlush(w2) else w2).s;
    assert Apply(w, p).samples == (if p.marker then AfterFlush(w2) else w2).samples;
    assert Apply(w, p).units == (if p.marker then AfterFlush(w2) else w2).units;
  }

  lemma ApplyInv(w: World, p: Packet)
    requires Inv(w) && |p.payload| < 0x1_0000_0000
    ensures Inv(Apply(w, p))
  {
    if p.payload == [] {
      assert Apply(w, p).extracted == w.extracted;
      assert Apply(w, p) == w;
    } else {
      ApplyParts(w, p);
      var w1 := if w.s.open && p.timestamp != w.s.ts then AfterFlush(w) else w;
      FlushKeeps(w);
      FlushCloses(w);
      hide *;
      AdmitKeeps(w1, p);
      FlushKeeps(AfterAdmit(w1, p));
    }
  }

  lemma FlushCloses(w: World)
    ensures !AfterFlush(w).s.open
  {
  }

  lemma {:induction false} RunInv(w: World, ps: seq<Packet>)
    requires Inv(w) && forall i :: 0 <= i < |ps| ==> |ps[i].payload| < 0x1_0000_0000
    ensures Inv(Run(w, ps))
    decreases |ps|
  {
    hide Inv;
    if ps != [] {
      ApplyInv(w, ps[0]);
      RunInv(Apply(w, ps[0]), ps[1..]);
    }
  }

  /**
   * Over any packets: the units of the samples pushed, followed by those still
   * open, are exactly the units extracted, in order; every sample holds units
   * completed under one timestamp, none empty, with its key flag exact; and the
   * AVCC reader finds a keyframe in exactly the samples so flagged.
   */
  lemma NothingLostOrReordered(ps: seq<Packet>)
    requires forall i :: 0 <= i < |ps| ==> |ps[i].payload| < 0x1_0000_0000
    ensures
      var w := Run(START_WORLD, ps);
      && w.extracted == Flat(w.units) + Tag(w.s.ts, w.s.nalus)
      && |w.samples| == |w.units|
      && (forall k :: 0 <= k < |w.units| ==> SampleOk(w.samples[k], w.units[k]))
      && (forall k :: 0 <= k < |w.samples| ==> KeyFrom(w.samples[k].data, 0) == w.samples[k].key)
  {
    assert Inv(START_WORLD);
    RunInv(START_WORLD, ps);
    var w := Run(START_WORLD, ps);
    hide Run, KeyFrom;
    forall k | 0 <= k < |w.samples|
      ensures KeyFrom(w.samples[k].data, 0) == w.samples[k].key
    {
      assert SampleOk(w.samples[k], w.units[k]);
      KeyVerdict(Nalus(w.units[k]), []);
      assert w.samples[k].data + [] == w.samples[k].data;
    }
  }

  // ----- the reader's verdict -----

  lemma LengthRead(n: nat)
    requires n < 0x1_0000_0000
    ensures BigEndian(0, Length4(n)) == n
  {
    Shift(n, 0x100);
    Shift(n, 0x1_0000);
    Digits(n / 0x100_0000, 0, [], 0);
    Digits(n / 0x1_0000, 0, [] + [n / 0x100_0000 % 0x100], n / 0x100_0000);
    Digits(n / 0x100, 0, [] + [n / 0x100_0000 % 0x100] + [n / 0x1_0000 % 0x100], n / 0x1_0000);
    Digits(n, 0, [] + [n / 0x100_0000 % 0x100] + [n / 0x1_0000 % 0x100] + [n / 0x100 % 0x100], n / 0x100);
    assert Length4(n) == [] + [n / 0x100_0000 % 0x100] + [n / 0x1_0000 % 0x100] + [n / 0x100 % 0x100] + [n % 0x100];
  }

  /** An AVCC sample begins with its first unit. */
  lemma {:induction false} AvccFront(n: Nalu, rest: seq<Nalu>)
    ensures Avcc([n] + rest) == Length4(|n|) + n + Avcc(rest)
    decreases |rest|
  {
    var all := [n] + rest;
    if rest == [] {
      assert all == [n] && all[..0] == [];
      assert Avcc(all) == [] + Length4(|n|) + n;
    } else {
      var init, last := rest[..|rest| - 1], rest[|rest| - 1];
      assert all[..|all| - 1] == [n] + init;
      AvccFront(n, init);
      assert Length4(|n|) + n + Avcc(init) + Length4(|last|) + last
          == Length4(|n|) + n + (Avcc(init) + Length4(|last|) + last);
    }
  }

  /** No unit of an AVCC sample: too short for its length, or for the unit that states, or of none. */
  predicate CutUnit(tail: seq<byte>) {
    |tail| < 4 || BigEndian(0, tail[..4]) == 0 || 4 + BigEndian(0, tail[..4]) > |tail|
  }

  lemma KeyEnds(before: seq<byte>, tail: seq<byte>)
    requires CutUnit(tail)
    ensures !KeyFrom(before + tail, |before|)
  {
    if |tail| >= 4 {
      assert (before + tail)[|before|..|before| + 4] == tail[..4];
    }
    hide BigEndian;
  }

  lemma {:induction false} KeyAfter(before: seq<byte>, ns: seq<Nalu>, tail: seq<byte>)
    requires (forall i :: 0 <= i < |ns| ==> Proper(ns[i])) && CutUnit(tail)
    ensures KeyFrom(before + Avcc(ns) + tail, |before|) == AnyIdr(ns)
    decreases |ns|
  {
    hide Length4, CutUnit;
    if ns == [] {
      assert before + Avcc(ns) + tail == before + tail;
      KeyEnds(before, tail);
    } else {
      var n, rest := ns[0], ns[1..];
      assert ns == [n] + rest;
      AvccFront(n, rest);
      LengthRead(|n|);
      LengthSize(|n|);
      var all := before + Avcc(ns) + tail;
      var before' := before + Length4(|n|) + n;
      assert all == before' + Avcc(rest) + tail;
      assert all[|before|..|before| + 4] == Length4(|n|);
      assert all[|before| + 4] == n[0];
      KeyAfter(before', rest, tail);
      AnyIdrCons(n, rest);
      hide AnyIdr, Avcc;
    }
  }

  lemma AnyIdrCons(n: Nalu, rest: seq<Nalu>)
    ensures AnyIdr([n] + rest) <==> IsIdr(n) || AnyIdr(rest)
  {
    var ns := [n] + rest;
    if IsIdr(n) {
      assert IsIdr(ns[0]);
    }
    if i :| 0 <= i < |rest| && IsIdr(rest[i]) {
      assert IsIdr(ns[i + 1]);
    }
  }

  lemma LengthSize(n: nat)
    ensures |Length4(n)| == 4
  {
  }

  /** The independent reader's verdict on the AVCC form of proper units, up to the first that is cut short, is whether one of them is an IDR slice. */
  lemma KeyVerdict(ns: seq<Nalu>, tail: seq<byte>)
    requires (forall i :: 0 <= i < |ns| ==> Proper(ns[i])) && CutUnit(tail)
    ensures KeyFrom(Avcc(ns) + tail, 0) == AnyIdr(ns)
  {
    hide *;
    KeyAfter([], ns, tail);
    assert [] + Avcc(ns) + tail == Avcc(ns) + tail;
  }

  // ----- fragmentation (section 5.8 of RFC 6184) -----

  function FuPacket(h: byte, first: bool, last: bool, fragment: seq<byte>): (p: seq<byte>)
    ensures |p| >= 2
  {
    [h / 0x20 * 0x20 + 28, (if first then 0x80 else 0) + (if last then 0x40 else 0) + h % 0x20] + fragment
  }

  /** The packets of all fragments but the first. */
  function Following(h: byte, fragments: seq<seq<byte>>): (ps: seq<seq<byte>>)
    ensures |ps| == |fragments|
    ensures forall i :: 0 <= i < |ps| ==> ps[i] != []
    decreases |fragments|
  {
    if fragments == [] then []
    else [FuPacket(h, false, |fragments| == 1, fragments[0])] + Following(h, fragments[1..])
  }

  function FuPackets(h: byte, fragments: seq<seq<byte>>): (ps: seq<seq<byte>>)
    requires fragments != []
    ensures forall i :: 0 <= i < |ps| ==> ps[i] != []
  {
    [FuPacket(h, true, |fragments| == 1, fragments[0])] + Following(h, fragments[1..])
  }

  function Join(fragments: seq<seq<byte>>): seq<byte> {
    if fragments == [] then [] else fragments[0] + Join(fragments[1..])
  }

  /** The units extracted from packets one after the other; an empty one is ignored. */
  function ExtractAll(fu: Option<Nalu>, payloads: seq<seq<byte>>): (Option<Nalu>, seq<Nalu>)
    decreases |payloads|
  {
    if payloads == [] then (fu, [])
    else if payloads[0] == [] then ExtractAll(fu, payloads[1..])
    else
      var (fu1, ns1) := Extract(fu, payloads[0]);
      var (fu2, ns2) := ExtractAll(fu1, payloads[1..]);
      (fu2, ns1 + ns2)
  }

  /** What one fragment of a unit does to the unit in flight. */
  lemma FuStep(fu: Option<Nalu>, h: byte, first: bool, last: bool, fragment: seq<byte>)
    ensures
      var r := Extract(fu, FuPacket(h, first, last, fragment));
      if !first && fu.None? then r == (None, [])
      else
        var buf := (if first then [h] else fu.value) + fragment;
        r == if |buf| > MAX_FU then (None, []) else if last then (None, [buf]) else (Some(buf), [])
  {
  }

  lemma ExtractCons(fu: Option<Nalu>, p: seq<byte>, rest: seq<seq<byte>>)
    requires p != []
    ensures
      var r := ExtractAll(Extract(fu, p).0, rest);
      && ExtractAll(fu, [p] + rest) == (r.0, Extract(fu, p).1 + r.1)
      && (Extract(fu, p).1 == [] ==> ExtractAll(fu, [p] + rest).1 == r.1)
      && (r.1 == [] ==> ExtractAll(fu, [p] + rest).1 == Extract(fu, p).1)
  {
  }

  lemma {:induction false} FollowingRebuilds(fu: Option<Nalu>, h: byte, fragments: seq<seq<byte>>)
    ensures fragments == [] ==> ExtractAll(fu, Following(h, fragments)) == (fu, [])
    ensures fragments != [] ==>
      ExtractAll(fu, Following(h, fragments)) ==
      (None, if fu.Some? && |fu.value + Join(fragments)| <= MAX_FU then [fu.value + Join(fragments)] else [])
    decreases |fragments|
  {
    hide Extract, FuPacket;
    if fragments != [] {
      var f, rest := fragments[0], fragments[1..];
      var p := FuPacket(h, false, |fragments| == 1, f);
      FuStep(fu, h, false, |fragments| == 1, f);
      ExtractCons(fu, p, Following(h, rest));
      FollowingRebuilds(Extract(fu, p).0, h, rest);
      assert Following(h, fragments) == [p] + Following(h, rest);
      var j := Join(rest);
      assert Join(fragments) == f + j && (rest == [] ==> j == []);
      hide *;
      if fu.Some? {
        Regroup(fu.value, f, j);
      }
    }
  }

  lemma Regroup(a: seq<byte>, b: seq<byte>, c: seq<byte>)
    ensures a + (b + c) == a + b + c
    ensures |a + b| <= |a + (b + c)|
    ensures c == [] ==> a + (b + c) == a + b
  {
  }

  /**
   * However a unit is cut into fragments, and whatever was in flight before, its
   * packets give back exactly that unit with the last of them if it is within the
   * cap, and nothing otherwise; nothing stays in flight.
   */
  lemma FragmentsRebuilt(fu: Option<Nalu>, h: byte, fragments: seq<seq<byte>>)
    requires fragments != []
    ensures
      var unit := [h] + Join(fragments);
      ExtractAll(fu, FuPackets(h, fragments)) == (None, if |unit| <= MAX_FU then [unit] else [])
  {
    hide Extract, FuPacket;
    var f, rest := fragments[0], fragments[1..];
    var p := FuPacket(h, true, |fragments| == 1, f);
    FuStep(fu, h, true, |fragments| == 1, f);
    ExtractCons(fu, p, Following(h, rest));
    FollowingRebuilds(Extract(fu, p).0, h, rest);
    assert [h] + (f + Join(rest)) == [h] + f + Join(rest);
    assert rest == [] ==> [h] + f + Join(rest) == [h] + f;
  }

  // ----- aggregation (section 5.7 of RFC 6184) -----

  /** The entries of a STAP-A packet. */
  function StapEntries(ns: seq<Nalu>): seq<byte>
    requires forall i :: 0 <= i < |ns| ==> |ns[i]| < 0x1_0000
  {
    if ns == [] then [] else [|ns[0]| / 0x100, |ns[0]| % 0x100] + ns[0] + StapEntries(ns[1..])
  }

  lemma StapHead(all: seq<byte>, off: nat, n: Nalu)
    requires 0 < |n| < 0x1_0000 && off + 2 + |n| <= |all|
    requires all[off] == |n| / 0x100 && all[off + 1] == |n| % 0x100 && all[off + 2..off + 2 + |n|] == n
    ensures Stap(all, off) == [n] + Stap(all, off + 2 + |n|)
  {
  }

  /** No entry of a STAP-A packet: too short for its length, or for the unit that states, or of none. */
  predicate CutEntry(tail: seq<byte>) {
    |tail| < 2 || Word(tail[0], tail[1]) == 0 || 2 + Word(tail[0], tail[1]) > |tail|
  }

  lemma StapEnds(before: seq<byte>, tail: seq<byte>)
    requires CutEntry(tail)
    ensures Stap(before + tail, |before|) == []
  {
  }

  /** Units aggregated into one packet come out as they went in, up to the first entry that is cut short. */
  lemma {:induction false} AggregateSplit(before: seq<byte>, ns: seq<Nalu>, tail: seq<byte>)
    requires (forall i :: 0 <= i < |ns| ==> 0 < |ns[i]| < 0x1_0000) && CutEntry(tail)
    ensures Stap(before + StapEntries(ns) + tail, |before|) == ns
    decreases |ns|
  {
    var all := before + StapEntries(ns) + tail;
    if ns == [] {
      assert all == before + tail;
      StapEnds(before, tail);
    } else {
      var n, more := ns[0], StapEntries(ns[1..]);
      var before' := before + [|n| / 0x100, |n| % 0x100] + n;
      assert StapEntries(ns) == [|n| / 0x100, |n| % 0x100] + n + more;
      hide *;
      Regrouped(before, [|n| / 0x100, |n| % 0x100], n, more, tail);
      StapFront(before, n, more + tail);
      AggregateSplit(before', ns[1..], tail);
      assert ns == [n] + ns[1..];
    }
  }

  lemma Regrouped(a: seq<byte>, b: seq<byte>, c: seq<byte>, d: seq<byte>, e: seq<byte>)
    ensures a + (b + c + d) + e == a + b + c + (d + e) == a + b + c + d + e
  {
  }

  lemma Slices(a: seq<byte>, x: byte, y: byte, n: seq<byte>, c: seq<byte>)
    ensures
      var s := a + [x, y] + n + c;
      s[|a|] == x && s[|a| + 1] == y && s[|a| + 2..|a| + 2 + |n|] == n
  {
  }

  lemma StapFront(before: seq<byte>, n: Nalu, more: seq<byte>)
    requires 0 < |n| < 0x1_0000
    ensures
      var before' := before + [|n| / 0x100, |n| % 0x100] + n;
      Stap(before' + more, |before|) == [n] + Stap(before' + more, |before'|)
  {
    hide *;
    Slices(before, |n| / 0x100, |n| % 0x100, n, more);
    StapHead(before + [|n| / 0x100, |n| % 0x100] + n + more, |before|, n);
  }
}
