/** The DASH timeline of a listed window (internal/hls/dash.go). */
module Dash {
  import opened Prelude
  import opened Ledger
  import opened Timeline

  /** A SegmentTimeline entry: a start if stated, and a duration. */
  datatype S = S(t: Option<int>, d: int)

  function TimelineOf(groups: seq<Group>): (s: seq<S>)
    ensures |s| == |groups|
  {
    seq(|groups|, i requires 0 <= i < |groups| => EntryOf(groups, i))
  }

  function EntryOf(groups: seq<Group>, i: nat): S
    requires i < |groups|
  {
    S(if i == 0 || groups[i].epoch != groups[i - 1].epoch then Some(groups[i].mediaTime) else None, groups[i].duration)
  }

  method RenderTimeline(groups: seq<Group>) returns (r: Result<seq<S>>)
    ensures r.Err? <==> exists i :: 0 <= i < |groups| && groups[i].duration <= 0
    ensures r.Ok? ==> r.value == TimelineOf(groups)
  {
    for i := 0 to |groups|
      invariant forall k :: 0 <= k < i ==> groups[k].duration > 0
    {
      if groups[i].duration <= 0 {
        return Err;
      }
    }
    var s := [];
    var prevEpoch := 0;
    for i := 0 to |groups|
      invariant i > 0 ==> prevEpoch == groups[i - 1].epoch
      invariant |s| == i && forall k: nat :: k < i ==> s[k] == EntryOf(groups, k)
    {
      var g := groups[i];
      if i == 0 || g.epoch != prevEpoch {
        s := s + [S(Some(g.mediaTime), g.duration)];
      } else {
        s := s + [S(None, g.duration)];
      }
      prevEpoch := g.epoch;
    }
    assert s == TimelineOf(groups);
    return Ok(s);
  }

  /** Every entry states how long its group lasts, and where it starts exactly if it is the first or its epoch is new. */
  lemma TimelineStates(groups: seq<Group>, i: nat)
    requires i < |groups|
    ensures TimelineOf(groups)[i].d == groups[i].duration
    ensures TimelineOf(groups)[i].t ==
            if i == 0 || groups[i - 1].epoch != groups[i].epoch then Some(groups[i].mediaTime) else None
  {
  }

  /** The start a client derives for entry i: stated, or the end of the one before. */
  function Implied(s: seq<S>, i: nat): int
    requires i < |s|
  {
    if s[i].t.Some? then s[i].t.value
    else if i == 0 then 0
    else Implied(s, i - 1) + s[i - 1].d
  }

  predicate Abuts(groups: seq<Group>, i: nat)
    requires 0 < i < |groups|
  {
    groups[i].epoch == groups[i - 1].epoch ==> groups[i].mediaTime == groups[i - 1].mediaTime + groups[i - 1].duration
  }

  /** The client derives the stored media time of group i. */
  predicate Right(groups: seq<Group>, i: nat)
    requires i < |groups|
  {
    Implied(TimelineOf(groups), i) == groups[i].mediaTime
  }

  lemma RightStep(groups: seq<Group>, i: nat)
    requires i < |groups|
    ensures i == 0 ==> Right(groups, i)
    ensures i > 0 && Right(groups, i - 1) ==> (Right(groups, i) <==> Abuts(groups, i))
  {
  }

  /** The times a client derives are the stored ones exactly if the groups abut within each epoch. */
  lemma {:induction false} ImpliedIsStored(groups: seq<Group>, n: nat)
    requires n <= |groups|
    ensures (forall i: nat :: i < n ==> Right(groups, i)) <==> (forall i: nat :: 0 < i < n ==> Abuts(groups, i))
    decreases n
  {
    hide Right, Abuts;
    if n > 0 {
      ImpliedIsStored(groups, n - 1);
      RightStep(groups, n - 1);
    }
  }

  function GroupsOf(log: seq<Entry>, lo: nat, hi: nat): (gs: seq<Group>)
    requires lo <= hi <= |log|
    ensures |gs| == hi - lo
  {
    seq(hi - lo, i requires 0 <= i < hi - lo => log[lo + i].g)
  }

  /** Whatever window of a well-timed log is listed, the DASH timeline states its media times. */
  lemma TimelineIsTheLedgers(log: seq<Entry>, timescale: nat, lo: nat, hi: nat, i: nat)
    requires WellTimed(log, timescale) && lo <= hi <= |log| && i < hi - lo
    ensures Implied(TimelineOf(GroupsOf(log, lo, hi)), i) == log[lo + i].g.mediaTime
  {
    var gs := GroupsOf(log, lo, hi);
    forall k: nat | 0 < k < |gs|
      ensures Abuts(gs, k)
    {
      assert Follows(log, lo + k, timescale);
    }
    ImpliedIsStored(gs, |gs|);
    assert Right(gs, i);
  }

  /** The wall clock the presentation began: the first anchored group's, less its offset along the timeline. */
  method AvailabilityStart(groups: seq<Group>, timescale: nat) returns (start: Option<int>)
    ensures start.None? <==> forall i :: 0 <= i < |groups| ==> groups[i].wallclock == 0
    ensures start.Some? ==> exists i ::
      && 0 <= i < |groups| && groups[i].wallclock != 0
      && (forall k :: 0 <= k < i ==> groups[k].wallclock == 0)
      && start.value == groups[i].wallclock - MediaOffset(groups[i].mediaTime, timescale)
  {
    for i := 0 to |groups|
      invariant forall k :: 0 <= k < i ==> groups[k].wallclock == 0
    {
      if groups[i].wallclock != 0 {
        return Some(groups[i].wallclock - MediaOffset(groups[i].mediaTime, timescale));
      }
    }
    return None;
  }

  /** Any group of an epoch yields the same start, the wall clock its feed was anchored at, so it holds as segments come and go. */
  lemma AnyGroupYieldsTheAnchor(log: seq<Entry>, timescale: nat, i: nat, j: nat)
    requires WellTimed(log, timescale) && i <= j < |log| && log[i].g.epoch == log[j].g.epoch
    ensures log[i].g.mediaTime >= 0 && log[j].g.mediaTime >= 0
    ensures log[i].g.wallclock - MediaOffset(log[i].g.mediaTime, timescale) == log[i].anchor
    ensures log[j].g.wallclock - MediaOffset(log[j].g.mediaTime, timescale) == log[i].anchor
  {
    SameEpoch(log, timescale, i, j);
    assert Follows(log, i, timescale) && Follows(log, j, timescale);
  }
}
