/**
 * The depacketizer seen from the sender (RFC 6184): units sent singly, aggregated
 * or in fragments come out as they were sent, and access units come out as samples.
 */
module RtspSender {
  import opened Prelude
  import opened Varint
  import opened Rtsp
  import opened RtspTheorems

  /** How some units are sent: one in a packet of its own, several in one packet, or one in fragments. */
  datatype Sending =
    | Single(unit: Nalu)
    | Aggregate(h: byte, units: seq<Nalu>)
    | Fragmented(h: byte, fragments: seq<seq<byte>>)

  /** As the three payload formats allow it, and within the cap on a fragmented unit. */
  predicate Sendable(s: Sending) {
    match s
    case Single(unit) => unit != [] && 1 <= unit[0] % 0x20 <= 23
    case Aggregate(h, units) => h % 0x20 == 24 && forall i :: 0 <= i < |units| ==> 0 < |units[i]| < 0x1_0000
    case Fragmented(_, fragments) => fragments != [] && 1 + |Join(fragments)| <= MAX_FU
  }

  function UnitsOf(s: Sending): seq<Nalu> {
    match s
    case Single(unit) => [unit]
    case Aggregate(_, units) => units
    case Fragmented(h, fragments) => [[h] + Join(fragments)]
  }

  function PayloadsOf(s: Sending): (ps: seq<seq<byte>>)
    requires Sendable(s)
    ensures ps != [] && forall i :: 0 <= i < |ps| ==> ps[i] != []
  {
    match s
    case Single(unit) => [unit]
    case Aggregate(h, units) => [[h] + StapEntries(units)]
    case Fragmented(h, fragments) => FuPackets(h, fragments)
  }

  ghost predicate AllSendable(ss: seq<Sending>) { forall i :: 0 <= i < |ss| ==> Sendable(ss[i]) }

  function AllUnits(ss: seq<Sending>): seq<Nalu> { if ss == [] then [] else UnitsOf(ss[0]) + AllUnits(ss[1..]) }

  ghost function AllPayloads(ss: seq<Sending>): (ps: seq<seq<byte>>)
    requires AllSendable(ss)
    ensures forall i :: 0 <= i < |ps| ==> ps[i] != []
  {
    if ss == [] then [] else PayloadsOf(ss[0]) + AllPayloads(ss[1..])
  }

  // ----- units -----

  lemma {:induction false} ExtractConcat(fu: Option<Nalu>, a: seq<seq<byte>>, b: seq<seq<byte>>)
    ensures
      var r1 := ExtractAll(fu, a);
      var r2 := ExtractAll(r1.0, b);
      ExtractAll(fu, a + b) == (r2.0, r1.1 + r2.1)
    decreases |a|
  {
    hide Extract;
    if a == [] {
      assert a + b == b;
      assert [] + ExtractAll(fu, b).1 == ExtractAll(fu, b).1;
    } else {
      assert (a + b)[0] == a[0] && (a + b)[1..] == a[1..] + b;
      if a[0] == [] {
        ExtractConcat(fu, a[1..], b);
      } else {
        var fu1, ns1 := Extract(fu, a[0]).0, Extract(fu, a[0]).1;
        ExtractConcat(fu1, a[1..], b);
        var r1 := ExtractAll(fu1, a[1..]);
        assert ns1 + (r1.1 + ExtractAll(r1.0, b).1) == ns1 + r1.1 + ExtractAll(r1.0, b).1;
      }
    }
  }

  lemma OnePacket(fu: Option<Nalu>, p: seq<byte>)
    requires p != []
    ensures ExtractAll(fu, [p]) == Extract(fu, p)
  {
    assert [p][1..] == [];
    assert ExtractAll(Extract(fu, p).0, []) == (Extract(fu, p).0, []);
    assert Extract(fu, p).1 + [] == Extract(fu, p).1;
    hide Extract;
  }

  /** One sending, whatever was in flight before. */
  lemma SendingArrives(fu: Option<Nalu>, s: Sending)
    requires Sendable(s)
    ensures ExtractAll(fu, PayloadsOf(s)).1 == UnitsOf(s)
  {
    match s
    case Single(unit) =>
      OnePacket(fu, unit);
    case Aggregate(h, units) =>
      var p := [h] + StapEntries(units);
      OnePacket(fu, p);
      AggregateSplit([h], units, []);
      assert p + [] == p;
      hide Stap, StapEntries, ExtractAll;
    case Fragmented(h, fragments) =>
      FragmentsRebuilt(fu, h, fragments);
      hide ExtractAll, FuPackets;
  }

  /** Whatever units are sent, and whichever way each is sent, they are extracted exactly and in order. */
  lemma {:induction false} SentIsExtracted(fu: Option<Nalu>, ss: seq<Sending>)
    requires AllSendable(ss)
    ensures ExtractAll(fu, AllPayloads(ss)).1 == AllUnits(ss)
    decreases |ss|
  {
    if ss != [] {
      var first, rest := PayloadsOf(ss[0]), AllPayloads(ss[1..]);
      SendingArrives(fu, ss[0]);
      ExtractConcat(fu, first, rest);
      hide ExtractAll, PayloadsOf, UnitsOf, Sendable;
      SentIsExtracted(ExtractAll(fu, first).0, ss[1..]);
    }
  }

  // ----- units through a whole run -----

  function PayloadsIn(ps: seq<Packet>): (b: seq<seq<byte>>)
    ensures |b| == |ps|
  {
    seq(|ps|, i requires 0 <= i < |ps| => ps[i].payload)
  }

  /** A flush leaves the unit in flight alone. */
  lemma HandleFu(s: State, p: Packet)
    ensures Handle(s, p).0.fu == ExtractAll(s.fu, [p.payload]).0
    ensures Extracted(s, p) == ExtractAll(s.fu, [p.payload]).1
  {
    if p.payload != [] {
      OnePacket(s.fu, p.payload);
    } else {
      assert [p.payload][1..] == [];
    }
    hide Extract, Avcc, AnyIdr;
  }

  lemma ApplyExtracts(w: World, p: Packet)
    ensures Apply(w, p).s.fu == ExtractAll(w.s.fu, [p.payload]).0
    ensures Nalus(Apply(w, p).extracted) == Nalus(w.extracted) + ExtractAll(w.s.fu, [p.payload]).1
  {
    HandleFu(w.s, p);
    hide Extracted, Handle, FlushedBy, ExtractAll;
  }

  lemma RunFront(w: World, p: Packet, ps: seq<Packet>)
    ensures Run(w, [p] + ps) == Run(Apply(w, p), ps)
  {
    hide Apply;
    assert ([p] + ps)[1..] == ps;
  }

  lemma PayloadsFront(p: Packet, ps: seq<Packet>)
    ensures PayloadsIn([p] + ps) == [p.payload] + PayloadsIn(ps)
  {
  }

  lemma {:induction false} RunExtracts(w: World, ps: seq<Packet>)
    ensures Nalus(Run(w, ps).extracted) == Nalus(w.extracted) + ExtractAll(w.s.fu, PayloadsIn(ps)).1
    decreases |ps|
  {
    if ps == [] {
      assert Nalus(w.extracted) + [] == Nalus(w.extracted);
    } else {
      hide *;
      var p, rest := ps[0], ps[1..];
      assert ps == [p] + rest;
      RunFront(w, p, rest);
      PayloadsFront(p, rest);
      ApplyExtracts(w, p);
      ExtractConcat(w.s.fu, [p.payload], PayloadsIn(rest));
      RunExtracts(Apply(w, p), rest);
      Assoc(Nalus(w.extracted), ExtractAll(w.s.fu, [p.payload]).1, ExtractAll(Apply(w, p).s.fu, PayloadsIn(rest)).1);
    }
  }

  lemma EmptyFront(a: seq<Nalu>)
    ensures [] + a == a
  {
  }

  lemma Assoc(a: seq<Nalu>, b: seq<Nalu>, c: seq<Nalu>)
    ensures a + b + c == a + (b + c)
  {
  }

  /**
   * Whatever timestamps and markers the packets carry, the units of the samples
   * pushed, followed by those still open, are the units sent, in order.
   */
  lemma SentIsDelivered(ss: seq<Sending>, ps: seq<Packet>)
    requires AllSendable(ss) && PayloadsIn(ps) == AllPayloads(ss)
    requires forall i :: 0 <= i < |ps| ==> |ps[i].payload| < 0x1_0000_0000
    ensures
      var w := Run(START_WORLD, ps);
      Nalus(Flat(w.units)) + w.s.nalus == AllUnits(ss)
  {
    assert START_WORLD.s.fu == None && Nalus(START_WORLD.extracted) == [];
    hide *;
    var w := Run(START_WORLD, ps);
    NothingLostOrReordered(ps);
    RunExtracts(START_WORLD, ps);
    SentIsExtracted(None, ss);
    NalusTagged(Flat(w.units), w.s.ts, w.s.nalus);
  }

  lemma NalusTagged(us: seq<Unit>, ts: nat, ns: seq<Nalu>)
    ensures Nalus(us + Tag(ts, ns)) == Nalus(us) + ns
  {
  }

  // ----- a sample read back -----

  /** The units of an AVCC sample, read by their lengths up to the first malformed one. */
  function ReadAvcc(avcc: seq<byte>, off: nat): seq<Nalu>
    decreases |avcc| - off
  {
    if off + 4 > |avcc| then []
    else
      var n := BigEndian(0, avcc[off..off + 4]);
      if off + 4 + n > |avcc| || n == 0 then []
      else [avcc[off + 4..off + 4 + n]] + ReadAvcc(avcc, off + 4 + n)
  }

  lemma {:induction false} ReadAfter(before: seq<byte>, ns: seq<Nalu>)
    requires forall i :: 0 <= i < |ns| ==> Proper(ns[i])
    ensures ReadAvcc(before + Avcc(ns), |before|) == ns
    decreases |ns|
  {
    hide Length4;
    if ns == [] {
      assert before + Avcc(ns) == before;
    } else {
      var n, rest := ns[0], ns[1..];
      assert ns == [n] + rest;
      AvccFront(n, rest);
      LengthRead(|n|);
      LengthSize(|n|);
      var all := before + Avcc(ns);
      var before' := before + Length4(|n|) + n;
      assert all == before' + Avcc(rest);
      assert all[|before|..|before| + 4] == Length4(|n|);
      assert all[|before| + 4..|before| + 4 + |n|] == n;
      ReadAfter(before', rest);
      hide Avcc;
    }
  }

  /** Units concatenated to a sample are read back as they were. */
  lemma AvccRoundTrip(ns: seq<Nalu>)
    requires forall i :: 0 <= i < |ns| ==> Proper(ns[i])
    ensures ReadAvcc(Avcc(ns), 0) == ns
  {
    hide *;
    ReadAfter([], ns);
    assert [] + Avcc(ns) == Avcc(ns);
  }

  // ----- access units become samples -----

  datatype AccessUnit = AccessUnit(ts: nat, ss: seq<Sending>)

  /** Packets of one timestamp, the last of them marked if so asked. */
  function Packets(ts: nat, payloads: seq<seq<byte>>, marked: bool): (ps: seq<Packet>)
    ensures |ps| == |payloads|
  {
    seq(|payloads|, i requires 0 <= i < |payloads| => Packet(ts, marked && i == |payloads| - 1, payloads[i]))
  }

  ghost predicate Complete(au: AccessUnit) {
    && AllSendable(au.ss) && AllUnits(au.ss) != []
    && forall i :: 0 <= i < |AllUnits(au.ss)| ==> |AllUnits(au.ss)[i]| < 0x1_0000_0000
  }

  ghost predicate AllComplete(aus: seq<AccessUnit>) { forall i :: 0 <= i < |aus| ==> Complete(aus[i]) }

  ghost function Stream(aus: seq<AccessUnit>): seq<Packet>
    requires AllComplete(aus)
  {
    if aus == [] then []
    else
      assert Complete(aus[0]);
      Packets(aus[0].ts, AllPayloads(aus[0].ss), true) + Stream(aus[1..])
  }

  lemma {:induction false} RunConcat(w: World, a: seq<Packet>, b: seq<Packet>)
    ensures Run(w, a + b) == Run(Run(w, a), b)
    decreases |a|
  {
    hide Apply;
    if a == [] {
      assert a + b == b;
    } else {
      RunConcat(Apply(w, a[0]), a[1..], b);
      assert (a + b)[0] == a[0] && (a + b)[1..] == a[1..] + b;
    }
  }

  /** Ready for units of timestamp ts: nothing is open, or an access unit of that timestamp is. */
  predicate Ready(s: State, ts: nat) { if s.open then s.ts == ts else s.nalus == [] }

  /** A packet of the open access unit, or the first of one, without marker. */
  lemma OneMore(w: World, ts: nat, p: seq<byte>)
    requires p != [] && Ready(w.s, ts)
    ensures
      var w', r := Apply(w, Packet(ts, false, p)), ExtractAll(w.s.fu, [p]);
      && w'.samples == w.samples && Ready(w'.s, ts)
      && w'.s.fu == r.0 && w'.s.nalus == w.s.nalus + r.1 && w'.s.base == w.s.base
  {
    OnePacket(w.s.fu, p);
    hide Extract, Avcc, AnyIdr, ExtractAll;
  }

  lemma {:induction false} GatherUnits(w: World, ts: nat, payloads: seq<seq<byte>>)
    requires (forall i :: 0 <= i < |payloads| ==> payloads[i] != []) && Ready(w.s, ts)
    ensures
      var w', r := Run(w, Packets(ts, payloads, false)), ExtractAll(w.s.fu, payloads);
      && w'.samples == w.samples && Ready(w'.s, ts)
      && w'.s.fu == r.0 && w'.s.nalus == w.s.nalus + r.1 && w'.s.base == w.s.base
    decreases |payloads|
  {
    if payloads == [] {
      assert w.s.nalus + [] == w.s.nalus;
    } else {
      hide *;
      var p, rest := payloads[0], payloads[1..];
      assert payloads == [p] + rest;
      PacketsFront(ts, p, rest);
      OneMore(w, ts, p);
      var w1 := Apply(w, Packet(ts, false, p));
      RunFront(w, Packet(ts, false, p), Packets(ts, rest, false));
      ExtractConcat(w.s.fu, [p], rest);
      GatherUnits(w1, ts, rest);
      Assoc(w.s.nalus, ExtractAll(w.s.fu, [p]).1, ExtractAll(w1.s.fu, rest).1);
    }
  }

  lemma PacketsFront(ts: nat, p: seq<byte>, rest: seq<seq<byte>>)
    ensures Packets(ts, [p] + rest, false) == [Packet(ts, false, p)] + Packets(ts, rest, false)
  {
  }

  /** w' is w with one more sample, of units ns and timestamp ts, and nothing open. */
  ghost predicate Pushed(w: World, w': World, ts: nat, ns: seq<Nalu>) {
    var t := ts * 1000 / 90;
    var base := if w.s.base.Some? then w.s.base.value else t;
    && w'.samples == w.samples + [Sample(t - base, Avcc(ns), AnyIdr(ns))]
    && !w'.s.open && w'.s.nalus == [] && w'.s.base == Some(base)
  }

  /** The marked packet that completes an access unit. */
  lemma LastOne(w: World, ts: nat, p: seq<byte>, ns: seq<Nalu>)
    requires p != [] && Ready(w.s, ts) && ns == w.s.nalus + ExtractAll(w.s.fu, [p]).1 != []
    ensures Pushed(w, Apply(w, Packet(ts, true, p)), ts, ns)
  {
    OnePacket(w.s.fu, p);
    hide Extract, Avcc, AnyIdr, ExtractAll;
  }

  /** Packets of one timestamp, the last of them marked, that carry units ns. */
  lemma OneUnit(w: World, ts: nat, init: seq<seq<byte>>, last: seq<byte>, ns: seq<Nalu>)
    requires (forall i :: 0 <= i < |init| ==> init[i] != []) && last != []
    requires !w.s.open && w.s.nalus == [] && ns != [] && ns == ExtractAll(w.s.fu, init + [last]).1
    ensures Pushed(w, Run(w, Packets(ts, init + [last], true)), ts, ns)
  {
    assert Ready(w.s, ts);
    hide *;
    GatherUnits(w, ts, init);
    var w1 := Run(w, Packets(ts, init, false));
    ExtractConcat(w.s.fu, init, [last]);
    EmptyFront(ExtractAll(w.s.fu, init).1);
    LastOne(w1, ts, last, ns);
    PacketsSplit(ts, init, last);
    RunConcat(w, Packets(ts, init, false), [Packet(ts, true, last)]);
    RunOne(w1, Packet(ts, true, last));
    PushedFrom(w, w1, Apply(w1, Packet(ts, true, last)), ts, ns);
  }

  lemma PushedFrom(w: World, w1: World, w': World, ts: nat, ns: seq<Nalu>)
    requires Pushed(w1, w', ts, ns) && w1.samples == w.samples && w1.s.base == w.s.base
    ensures Pushed(w, w', ts, ns)
  {
  }

  /** One access unit sent with its last packet marked. */
  lemma OneAccessUnit(w: World, au: AccessUnit)
    requires !w.s.open && w.s.nalus == [] && Complete(au)
    ensures Pushed(w, Run(w, Packets(au.ts, AllPayloads(au.ss), true)), au.ts, AllUnits(au.ss))
  {
    hide Pushed, Run, AllPayloads, AllUnits, AllSendable, ExtractAll;
    var all := AllPayloads(au.ss);
    SentIsExtracted(w.s.fu, au.ss);
    SomePayload(au.ss);
    var init, last := all[..|all| - 1], all[|all| - 1];
    assert all == init + [last];
    OneUnit(w, au.ts, init, last, AllUnits(au.ss));
  }

  lemma SomePayload(ss: seq<Sending>)
    requires AllSendable(ss) && AllUnits(ss) != []
    ensures AllPayloads(ss) != []
  {
    assert ss != [];
  }

  lemma PacketsSplit(ts: nat, init: seq<seq<byte>>, last: seq<byte>)
    ensures Packets(ts, init + [last], true) == Packets(ts, init, false) + [Packet(ts, true, last)]
  {
  }

  lemma RunOne(w: World, p: Packet)
    ensures Run(w, [p]) == Apply(w, p)
  {
    hide Apply;
    assert [p][1..] == [];
    assert Run(Apply(w, p), []) == Apply(w, p);
  }

  /** A sample is that access unit, timed from base: its units can be read back, and it is a key frame exactly if one of them is an IDR slice. */
  ghost predicate IsSample(x: Sample, au: AccessUnit, base: int) {
    && x.pts == au.ts * 1000 / 90 - base
    && ReadAvcc(x.data, 0) == AllUnits(au.ss)
    && (x.key <==> exists n :: n in AllUnits(au.ss) && n != [] && n[0] % 0x20 == 5)
  }

  lemma SampleIs(au: AccessUnit, base: int)
    requires Complete(au)
    ensures IsSample(Sample(au.ts * 1000 / 90 - base, Avcc(AllUnits(au.ss)), AnyIdr(AllUnits(au.ss))), au, base)
  {
    var ns := AllUnits(au.ss);
    assert forall i :: 0 <= i < |ns| ==> Proper(ns[i]) by {
      UnitsNotEmpty(au.ss);
    }
    hide AllUnits, Avcc, ReadAvcc;
    AvccRoundTrip(ns);
    assert AnyIdr(ns) <==> exists n :: n in ns && n != [] && n[0] % 0x20 == 5 by {
      if n :| n in ns && n != [] && n[0] % 0x20 == 5 {
        var i :| 0 <= i < |ns| && ns[i] == n;
        assert IsIdr(ns[i]);
      }
      if i :| 0 <= i < |ns| && IsIdr(ns[i]) {
        assert ns[i] in ns;
      }
    }
  }

  lemma {:induction false} UnitsNotEmpty(ss: seq<Sending>)
    requires AllSendable(ss)
    ensures forall i :: 0 <= i < |AllUnits(ss)| ==> AllUnits(ss)[i] != []
    decreases |ss|
  {
    if ss != [] {
      assert Sendable(ss[0]);
      UnitsNotEmpty(ss[1..]);
    }
  }

  ghost predicate AreSamples(xs: seq<Sample>, aus: seq<AccessUnit>, base: int) {
    |xs| == |aus| && forall i :: 0 <= i < |xs| ==> IsSample(xs[i], aus[i], base)
  }

  lemma SamplesFront(x: Sample, xs: seq<Sample>, au: AccessUnit, aus: seq<AccessUnit>, base: int)
    requires IsSample(x, au, base) && AreSamples(xs, aus, base)
    ensures AreSamples([x] + xs, [au] + aus, base)
  {
    hide IsSample;
  }

  lemma StreamFront(au: AccessUnit, aus: seq<AccessUnit>)
    requires Complete(au) && AllComplete(aus)
    ensures AllComplete([au] + aus) && Stream([au] + aus) == Packets(au.ts, AllPayloads(au.ss), true) + Stream(aus)
  {
    hide AllPayloads, AllUnits, Complete;
    assert ([au] + aus)[1..] == aus;
  }

  /** What one sample more makes of those before. */
  lemma PushedIs(w: World, w1: World, au: AccessUnit, base: int)
    requires Complete(au) && Pushed(w, w1, au.ts, AllUnits(au.ss))
    requires w.s.base == Some(base) || (w.s.base == None && base == au.ts * 1000 / 90)
    ensures !w1.s.open && w1.s.nalus == [] && w1.s.base == Some(base)
    ensures |w1.samples| == |w.samples| + 1 && w1.samples == w.samples + [w1.samples[|w.samples|]]
    ensures IsSample(w1.samples[|w.samples|], au, base)
  {
    SampleIs(au, base);
    hide IsSample, Complete, AllUnits, Avcc, AnyIdr;
  }

  /** The first access unit of a stream becomes a sample, and the rest follows. */
  lemma StreamStep(w: World, au: AccessUnit, rest: seq<AccessUnit>, base: int) returns (w1: World, x: Sample)
    requires !w.s.open && w.s.nalus == [] && Complete(au) && AllComplete(rest)
    requires w.s.base == Some(base) || (w.s.base == None && base == au.ts * 1000 / 90)
    ensures !w1.s.open && w1.s.nalus == [] && w1.s.base == Some(base)
    ensures w1.samples == w.samples + [x] && IsSample(x, au, base)
    ensures AllComplete([au] + rest) && Run(w, Stream([au] + rest)) == Run(w1, Stream(rest))
  {
    assert AllSendable(au.ss);
    hide *;
    StreamFront(au, rest);
    OneAccessUnit(w, au);
    w1 := Run(w, Packets(au.ts, AllPayloads(au.ss), true));
    PushedIs(w, w1, au, base);
    x := w1.samples[|w.samples|];
    RunConcat(w, Packets(au.ts, AllPayloads(au.ss), true), Stream(rest));
  }

  lemma NoStream(w: World, base: int)
    ensures AllComplete([]) && Run(w, Stream([])) == w && AreSamples([], [], base)
    ensures w.samples + [] == w.samples
  {
  }

  lemma CompleteFront(aus: seq<AccessUnit>)
    requires AllComplete(aus) && aus != []
    ensures aus == [aus[0]] + aus[1..] && Complete(aus[0]) && AllComplete(aus[1..])
  {
    hide Complete;
  }

  lemma {:induction false} StreamRuns(w: World, aus: seq<AccessUnit>, base: int) returns (xs: seq<Sample>)
    requires !w.s.open && w.s.nalus == [] && AllComplete(aus)
    requires w.s.base == Some(base) || (w.s.base == None && (aus != [] ==> base == aus[0].ts * 1000 / 90))
    ensures Run(w, Stream(aus)).s.nalus == [] && Run(w, Stream(aus)).samples == w.samples + xs && AreSamples(xs, aus, base)
    decreases |aus|
  {
    hide *;
    if aus == [] {
      NoStream(w, base);
      xs := [];
    } else {
      var au, rest := aus[0], aus[1..];
      CompleteFront(aus);
      var w1, x := StreamStep(w, au, rest, base);
      var more := StreamRuns(w1, rest, base);
      SamplesFront(x, more, au, rest, base);
      xs := [x] + more;
      assert w.samples + [x] + more == w.samples + ([x] + more);
    }
  }

  /**
   * Access units sent one after the other, each with its last packet marked and
   * its units sent whichever way, come out as samples one for one: with exactly
   * their units, the key flag exact, and timed in microseconds of the 90 kHz clock
   * from the first.
   */
  lemma AccessUnitsBecomeSamples(aus: seq<AccessUnit>)
    requires AllComplete(aus)
    ensures
      var w := Run(START_WORLD, Stream(aus));
      && |w.samples| == |aus| && w.s.nalus == []
      && forall i :: 0 <= i < |aus| ==> IsSample(w.samples[i], aus[i], aus[0].ts * 1000 / 90)
  {
    var xs := StreamRuns(START_WORLD, aus, if aus == [] then 0 else aus[0].ts * 1000 / 90);
    hide Run, Stream, Complete, IsSample;
    assert START_WORLD.samples + xs == xs;
  }
}
