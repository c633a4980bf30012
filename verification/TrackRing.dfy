/**
 * The ingest ring of groups (internal/ingest/handler.go): one producer, whose
 * openGroup advances the head before it stores the group, and any number of
 * subscribers, whose next reads the head twice and then a slot.
 */
module TrackRing {
  import opened Prelude
  import opened Modular

  /** The sequence of the oldest group the ring can still hold. */
  function Earliest(head: nat, size: nat): nat {
    if head <= size then 1 else head - size + 1
  }

  /** The window of sequences a ring holds once `stored` is the newest stored. */
  predicate InRing(q: nat, stored: nat, size: nat) {
    1 <= q <= stored < q + size
  }

  /** Slot i holds the newest stored sequence that maps to it, if any; 0 is an empty slot. */
  ghost predicate RingOk(slots: seq<nat>, stored: nat) {
    && |slots| > 0
    && (forall q: nat :: InRing(q, stored, |slots|) ==> slots[q % |slots|] == q)
    && (forall i :: 0 <= i < |slots| ==> slots[i] <= stored)
  }

  /** Storing the next group keeps the ring. */
  lemma StoreKeeps(slots: seq<nat>, stored: nat)
    requires RingOk(slots, stored)
    ensures RingOk(slots[(stored + 1) % |slots| := stored + 1], stored + 1)
  {
    var n := |slots|;
    var slots' := slots[(stored + 1) % n := stored + 1];
    forall q: nat | InRing(q, stored + 1, n)
      ensures slots'[q % n] == q
    {
      if q <= stored {
        SlotsApart(q, stored + 1, n);
      }
    }
  }

  /** A slot read for sequence q finds its group exactly if it was stored and is less than a ring old. */
  lemma SlotHolds(slots: seq<nat>, stored: nat, q: nat)
    requires RingOk(slots, stored) && q >= 1
    ensures slots[q % |slots|] == q <==> InRing(q, stored, |slots|)
  {
    var n := |slots|;
    if q + n <= stored {
      // the newest stored sequence of the same slot is in the window
      var s := stored - (stored - q) % n;
      var k := (stored - q) / n;
      assert s == q + k * n;
      ModPlus(q, k, n);
      assert InRing(s, stored, n) && s % n == q % n;
      assert k >= 1;
      assert k * n >= n;
    }
  }

  // ----- the buffer as its methods run it, one at a time -----

  class TrackBuffer {
    const ring: array<nat>
    var pos: nat

    ghost predicate Valid()
      reads this, ring
    {
      ring.Length > 0 && RingOk(ring[..], pos)
    }

    constructor (size: nat)
      requires size > 0
      ensures Valid() && pos == 0 && ring.Length == size && fresh(ring)
    {
      ring := new nat[size](_ => 0);
      pos := 0;
    }

    method OpenGroup() returns (g: nat)
      requires Valid()
      modifies this, ring
      ensures Valid() && pos == old(pos) + 1 && g == pos
    {
      StoreKeeps(ring[..], pos);
      pos := pos + 1;
      ring[pos % ring.Length] := pos;
      assert ring[..] == old(ring[..])[pos % ring.Length := pos];
      g := pos;
    }

    method EarliestAvailable() returns (e: nat)
      requires Valid()
      ensures forall q: nat :: 1 <= q <= pos ==> (e <= q <==> InRing(q, pos, ring.Length))
    {
      if pos <= ring.Length {
        return 1;
      }
      return pos - ring.Length + 1;
    }

    method Get(q: nat) returns (g: Option<nat>)
      requires Valid() && q >= 1
      ensures g == if InRing(q, pos, ring.Length) then Some(q) else None
    {
      SlotHolds(ring[..], pos, q);
      var v := ring[q % ring.Length];
      if v == 0 || v != q {
        return None;
      }
      return Some(v);
    }

    /** Undisturbed, a subscriber that is behind always gets a group: the next one, or the newest if that has left the ring. */
    method Next(last: nat) returns (g: Option<nat>, served: nat, skipped: bool)
      requires Valid()
      ensures pos <= last ==> g == None && served == last && !skipped
      ensures last < pos ==> g == Some(served) && last < served <= pos
      ensures last < pos ==> (skipped <==> !InRing(last + 1, pos, ring.Length))
      ensures last < pos ==> served == if skipped then pos else last + 1
    {
      var latest := pos;
      if last >= latest {
        return None, last, false;
      }
      var from, q := last, last + 1;
      skipped := false;
      var e := EarliestAvailable();
      if q < e {
        q, from, skipped := latest, latest - 1, true;
      }
      g := Get(q);
      if g.None? {
        return None, from, skipped;
      }
      return g, q, skipped;
    }
  }
}
