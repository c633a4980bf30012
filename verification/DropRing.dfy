/**
 * The ring of upstream drop notifications a track keeps for its subscribers
 * (internal/relay/drop_distributor.go), proved to be a window over an unbounded
 * log of every drop recorded.
 */
module DropRing {
  import opened Prelude
  import opened Modular

  datatype Drop = Drop(startGroup: nat, endGroup: nat, code: nat)

  const RING_SIZE := 64

  /** The position before the oldest drop held. */
  function OldestOf(head: nat, size: nat): nat {
    if head > size then head - size else 0
  }

  /** What a read since `last` returns of the log: the drops still held, the new position, and how many are gone. */
  datatype Read = Read(drops: seq<Drop>, next: nat, lost: nat)

  function Since(log: seq<Drop>, size: nat, last: nat): Read {
    if |log| <= last then Read([], last, 0)
    else
      var from := Max(last, OldestOf(|log|, size));
      Read(log[from..], |log|, from - last)
  }

  class Distributor {
    const drops: array<Drop>
    var pos: nat
    // Every drop recorded, which the ring is a window over.
    ghost var log: seq<Drop>

    ghost predicate Valid()
      reads this, drops
    {
      && drops.Length > 0
      && pos == |log|
      && forall k: nat :: OldestOf(pos, drops.Length) <= k < pos ==> drops[k % drops.Length] == log[k]
    }

    constructor (size: int)
      ensures Valid() && log == [] && fresh(drops)
      ensures drops.Length == if size <= 0 then RING_SIZE else size
    {
      var n := if size <= 0 then RING_SIZE else size;
      drops := new Drop[n](_ => Drop(0, 0, 0));
      pos, log := 0, [];
    }

    method Record(drop: Drop)
      requires Valid()
      modifies this, drops
      ensures Valid() && log == old(log) + [drop]
    {
      var p := pos + 1;
      forall k: nat | OldestOf(p, drops.Length) <= k < pos
        ensures k % drops.Length != (p - 1) % drops.Length
      {
        SlotsApart(k, p - 1, drops.Length);
      }
      drops[(p - 1) % drops.Length] := drop;
      pos := p;
      log := log + [drop];
    }

    method Head() returns (h: nat)
      requires Valid()
      ensures h == |log|
    {
      return pos;
    }

    method Oldest() returns (o: nat)
      requires Valid()
      ensures o <= |log| && |log| - o <= drops.Length
      ensures Since(log, drops.Length, o) == Read(log[o..], |log|, 0)
      ensures forall o': nat :: o' < o ==> Since(log, drops.Length, o').lost > 0
    {
      if pos > drops.Length {
        return pos - drops.Length;
      }
      return 0;
    }

    /** The appending loop of the source, against the log. */
    method ReadSince(last: nat, buf: seq<Drop>) returns (out: seq<Drop>, next: nat, lost: nat)
      requires Valid()
      ensures
        var r := Since(log, drops.Length, last);
        out == buf + r.drops && next == r.next && lost == r.lost
    {
      var head := pos;
      if head <= last {
        return buf, last, 0;
      }
      var size := drops.Length;
      var start := last + 1;
      lost := 0;
      if head > size && start <= head - size {
        var oldest := head - size + 1;
        lost := oldest - start;
        start := oldest;
      }
      out := CopyFrom(start, buf);
      next := head;
    }

    /** The copying loop: every drop from position start to the head, all of them held. */
    method CopyFrom(start: nat, buf: seq<Drop>) returns (out: seq<Drop>)
      requires Valid() && OldestOf(pos, drops.Length) < start <= pos
      ensures out == buf + log[start - 1..]
    {
      out := buf;
      var p := start;
      while p <= pos
        invariant start <= p <= pos + 1
        invariant out == buf + log[start - 1..p - 1]
      {
        assert log[start - 1..p] == log[start - 1..p - 1] + [log[p - 1]];
        assert drops[(p - 1) % drops.Length] == log[p - 1];
        out := out + [drops[(p - 1) % drops.Length]];
        p := p + 1;
      }
      assert log[start - 1..pos] == log[start - 1..];
    }
  }

  // ----- a reader over a whole run -----

  datatype Event = Record(drop: Drop) | ReadAll

  /** A reader: where it started and is, what it was given, the log positions those came from, and how many it lost. */
  datatype Reader = Reader(from: nat, pos: nat, got: seq<Drop>, at: seq<nat>, lost: nat)

  function ReadStep(log: seq<Drop>, size: nat, r: Reader): Reader {
    var x := Since(log, size, r.pos);
    r.(pos := x.next,
       got := r.got + x.drops,
       at := r.at + seq(|x.drops|, i => x.next - |x.drops| + i),
       lost := r.lost + x.lost)
  }

  ghost function RunLog(log: seq<Drop>, es: seq<Event>): seq<Drop>
    decreases |es|
  {
    if es == [] then log
    else RunLog(if es[0].Record? then log + [es[0].drop] else log, es[1..])
  }

  ghost function RunReader(log: seq<Drop>, size: nat, r: Reader, es: seq<Event>): Reader
    decreases |es|
  {
    if es == [] then r
    else match es[0]
      case Record(d) => RunReader(log + [d], size, r, es[1..])
      case ReadAll => RunReader(log, size, ReadStep(log, size, r), es[1..])
  }

  /** What a reader got is the log at increasing positions from where it started; all others it passed are lost. */
  ghost predicate ReaderOk(log: seq<Drop>, r: Reader) {
    && |r.at| == |r.got|
    && r.from <= r.pos <= |log|
    && (forall i, j :: 0 <= i < j < |r.at| ==> r.at[i] < r.at[j])
    && (forall i :: 0 <= i < |r.at| ==> r.from <= r.at[i] < r.pos && r.got[i] == log[r.at[i]])
    && |r.got| + r.lost == r.pos - r.from
  }

  lemma ReadKeeps(log: seq<Drop>, size: nat, r: Reader)
    requires ReaderOk(log, r)
    ensures ReaderOk(log, ReadStep(log, size, r))
  {
    var x, r' := Since(log, size, r.pos), ReadStep(log, size, r);
    assert |x.drops| <= x.next;
    forall i | 0 <= i < |r'.at|
      ensures r.from <= r'.at[i] < r'.pos && r'.got[i] == log[r'.at[i]]
      ensures i >= |r.at| ==> r'.at[i] >= r.pos
    {
    }
  }

  /** Across any run of recordings and reads: a subsequence of the log, in order with no repeats, and returned plus lost is always what the reader advanced. */
  lemma {:induction false} ReaderGetsSubsequence(log: seq<Drop>, size: nat, r: Reader, es: seq<Event>)
    requires ReaderOk(log, r)
    ensures ReaderOk(RunLog(log, es), RunReader(log, size, r, es))
    decreases |es|
  {
    if es != [] {
      match es[0]
      case Record(d) => ReaderGetsSubsequence(log + [d], size, r, es[1..]);
      case ReadAll =>
        ReadKeeps(log, size, r);
        ReaderGetsSubsequence(log, size, ReadStep(log, size, r), es[1..]);
    }
  }

  /** One read loses exactly the drops overwritten before it: those more than a ring behind the head. */
  lemma OnlyOverwrittenAreLost(log: seq<Drop>, size: nat, last: nat, p: nat)
    requires size > 0 && last <= p < |log|
    ensures (p < last + Since(log, size, last).lost) <==> p + size < |log|
    ensures last + Since(log, size, last).lost + |Since(log, size, last).drops| == |log|
  {
  }

  /** A reader that starts at the oldest drop held, or is never a ring behind, loses none. */
  lemma OldestLosesNone(log: seq<Drop>, size: nat, last: nat)
    requires size > 0 && last <= |log|
    ensures Since(log, size, last).lost == 0 <==> OldestOf(|log|, size) <= last
  {
  }

  // ----- which drops a whole run loses -----

  /** The length of the log at the read that passed position p; 0 if none did. */
  ghost function HeadWhenPassed(log: seq<Drop>, size: nat, r: Reader, es: seq<Event>, p: nat): nat
    decreases |es|
  {
    if es == [] then 0
    else match es[0]
      case Record(d) => HeadWhenPassed(log + [d], size, r, es[1..], p)
      case ReadAll =>
        if r.pos <= p < ReadStep(log, size, r).pos then |log|
        else HeadWhenPassed(log, size, ReadStep(log, size, r), es[1..], p)
  }

  /** What one read does to position p: kept as it is if passed before, got exactly if still held when passed now. */
  lemma ReadAt(log: seq<Drop>, size: nat, r: Reader, p: nat)
    requires size > 0 && ReaderOk(log, r)
    ensures
      var r' := ReadStep(log, size, r);
      && r'.pos == |log|
      && (p < r.pos ==> (p in r'.at <==> p in r.at))
      && (r.pos <= p < |log| ==> (p in r'.at <==> |log| <= p + size))
  {
    var x, r' := Since(log, size, r.pos), ReadStep(log, size, r);
    var base := x.next - |x.drops|;
    assert r'.at[..|r.at|] == r.at;
    assert forall i :: |r.at| <= i < |r'.at| ==> r'.at[i] == base + i - |r.at|;
    if base <= p < x.next {
      assert r'.at[|r.at| + p - base] == p;
    }
    if i :| 0 <= i < |r.at| && r.at[i] == p {
      assert r'.at[i] == p;
    }
  }

  lemma {:induction false} PassedStays(log: seq<Drop>, size: nat, r: Reader, es: seq<Event>, p: nat)
    requires size > 0 && ReaderOk(log, r) && p < r.pos
    ensures p in RunReader(log, size, r, es).at <==> p in r.at
    decreases |es|
  {
    if es != [] {
      match es[0]
      case Record(d) => PassedStays(log + [d], size, r, es[1..], p);
      case ReadAll =>
        ReadKeeps(log, size, r);
        ReadAt(log, size, r, p);
        PassedStays(log, size, ReadStep(log, size, r), es[1..], p);
    }
  }

  /** Over any run, of the positions a reader passed it got exactly those that were at most a ring behind the head at the read that passed them. */
  lemma {:induction false} LostExactlyWhenOverwritten(log: seq<Drop>, size: nat, r: Reader, es: seq<Event>, p: nat)
    requires size > 0 && ReaderOk(log, r) && r.pos <= p < RunReader(log, size, r, es).pos
    ensures p in RunReader(log, size, r, es).at <==> HeadWhenPassed(log, size, r, es, p) <= p + size
    ensures p < HeadWhenPassed(log, size, r, es, p)
    decreases |es|
  {
    match es[0]
    case Record(d) => LostExactlyWhenOverwritten(log + [d], size, r, es[1..], p);
    case ReadAll =>
      var r' := ReadStep(log, size, r);
      ReadKeeps(log, size, r);
      ReadAt(log, size, r, p);
      if p < r'.pos {
        PassedStays(log, size, r', es[1..], p);
      } else {
        LostExactlyWhenOverwritten(log, size, r', es[1..], p);
      }
  }
}
