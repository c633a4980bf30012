/**
 * The window of a track's groups a manifest lists (gather, internal/hls/stream_handler.go)
 * and the media playlist rendered from it (renderHLS, internal/hls/playlist.go).
 */
module Manifest {
  import opened Prelude
  import opened Ledger

  // ----- the specification -----

  /** How many producer lifetimes a run of groups shows. */
  function Lifetimes(s: seq<Group>): nat {
    if s == [] then 0
    else if |s| == 1 then 1
    else Lifetimes(s[1..]) + (if s[0].epoch != s[1].epoch then 1 else 0)
  }

  /** Listing the log from i shows at most `window` groups and at most `epochWindow` lifetimes; a limit of zero or less is none. */
  predicate Listable(log: seq<Group>, i: nat, window: int, epochWindow: int)
    requires i <= |log|
  {
    (window > 0 ==> |log| - i <= window) && (epochWindow > 0 ==> Lifetimes(log[i..]) <= epochWindow)
  }

  /** The longest listable suffix starts at i. */
  ghost predicate IsStart(log: seq<Group>, i: nat, window: int, epochWindow: int) {
    && i <= |log|
    && Listable(log, i, window, epochWindow)
    && forall j: nat :: j < i ==> !Listable(log, j, window, epochWindow)
  }

  /** Group i opens a new lifetime. */
  predicate Opens(log: seq<Group>, i: nat)
    requires i < |log|
  {
    i > 0 && log[i].epoch != log[i - 1].epoch
  }

  /** Epoch changes among the first n groups. */
  function Changes(log: seq<Group>, n: nat): nat
    requires n <= |log|
  {
    if n == 0 then 0 else Changes(log, n - 1) + (if Opens(log, n - 1) then 1 else 0)
  }

  /** What the groups before the window imply for the manifest's numbering. */
  datatype Counts = Counts(dropped: nat, discontinuities: nat, precedingEpoch: nat)

  function CountsOf(log: seq<Group>, n: nat): Counts
    requires n <= |log|
  {
    Counts(n, Changes(log, n), if n == 0 then 0 else log[n - 1].epoch)
  }

  datatype Window = Window(groups: seq<Group>, counts: Counts)

  // ----- gathering -----

  datatype Entry = Entry(info: Group, discontinuity: bool)

  function EntryAt(log: seq<Group>, i: nat): Entry
    requires i < |log|
  {
    Entry(log[i], Opens(log, i))
  }

  function Entries(log: seq<Group>, lo: nat, hi: nat): (es: seq<Entry>)
    requires lo <= hi <= |log|
    ensures |es| == hi - lo
  {
    seq(hi - lo, i requires 0 <= i < hi - lo => EntryAt(log, lo + i))
  }

  function Evict(c: Counts, e: Entry): Counts {
    Counts(c.dropped + 1, if e.discontinuity then c.discontinuities + 1 else c.discontinuities, e.info.epoch)
  }

  lemma EvictNext(log: seq<Group>, n: nat)
    requires n < |log|
    ensures Evict(CountsOf(log, n), EntryAt(log, n)) == CountsOf(log, n + 1)
  {
  }

  /** Reading a full ring from its write cursor. */
  function Unrolled(ring: seq<Entry>, next: nat): seq<Entry>
    requires next <= |ring|
  {
    ring[next..] + ring[..next]
  }

  lemma Overwrite(ring: seq<Entry>, next: nat, e: Entry)
    requires next < |ring|
    ensures
      var next' := (next + 1) % |ring|;
      Unrolled(ring[next := e], next') == Unrolled(ring, next)[1..] + [e]
    ensures Unrolled(ring, next)[0] == ring[next]
  {
    if next + 1 < |ring| {
      assert (next + 1) % |ring| == next + 1;
    } else {
      assert (next + 1) % |ring| == 0;
    }
  }

  /** The ring after `seen` groups: all of them in order, or the newest `window` of them from the cursor on. */
  ghost predicate RingHolds(log: seq<Group>, seen: nat, window: int, ring: seq<Entry>, next: nat, counts: Counts)
    requires seen <= |log|
  {
    if window <= 0 || seen <= window then
      ring == Entries(log, 0, seen) && next == 0 && counts == CountsOf(log, 0)
    else
      && |ring| == window && next < window
      && Unrolled(ring, next) == Entries(log, seen - window, seen)
      && counts == CountsOf(log, seen - window)
  }

  lemma FillStep(log: seq<Group>, seen: nat, window: int, ring: seq<Entry>, next: nat, counts: Counts)
    requires seen < |log| && RingHolds(log, seen, window, ring, next, counts) && (window <= 0 || |ring| < window)
    ensures RingHolds(log, seen + 1, window, ring + [EntryAt(log, seen)], next, counts)
  {
  }

  lemma TurnStep(log: seq<Group>, seen: nat, window: int, ring: seq<Entry>, next: nat, counts: Counts)
    requires seen < |log| && RingHolds(log, seen, window, ring, next, counts) && window > 0 && |ring| == window
    ensures next < window
    ensures RingHolds(log, seen + 1, window, ring[next := EntryAt(log, seen)], (next + 1) % window, Evict(counts, ring[next]))
  {
    if seen == window {
      assert Unrolled(ring, 0) == ring;
    }
    assert Unrolled(ring, next) == Entries(log, seen - window, seen);
    Overwrite(ring, next, EntryAt(log, seen));
    EvictNext(log, seen - window);
    assert Entries(log, seen - window, seen)[1..] + [EntryAt(log, seen)] == Entries(log, seen - window + 1, seen + 1);
    hide Entries, CountsOf, Unrolled;
  }

  lemma WalkDone(log: seq<Group>, window: int, ring: seq<Entry>, next: nat, counts: Counts)
    requires RingHolds(log, |log|, window, ring, next, counts)
    ensures next <= |ring|
    ensures
      var from := if window > 0 && |log| > window then |log| - window else 0;
      && (if window > 0 && |ring| == window then Unrolled(ring, next) else ring) == Entries(log, from, |log|)
      && counts == CountsOf(log, from)
  {
  }

  /** The walk over the log with its ring: the newest `window` entries in commit order, and the counts of those before them. */
  method Walk(log: seq<Group>, window: int) returns (ordered: seq<Entry>, counts: Counts)
    ensures
      var from := if window > 0 && |log| > window then |log| - window else 0;
      ordered == Entries(log, from, |log|) && counts == CountsOf(log, from)
  {
    counts := Counts(0, 0, 0);
    var ring: seq<Entry> := [];
    var next: nat := 0;
    var prevEpoch := 0;
    assert RingHolds(log, 0, window, ring, next, counts);
    hide RingHolds, Entries, CountsOf;
    for seen := 0 to |log|
      invariant seen > 0 ==> prevEpoch == log[seen - 1].epoch
      invariant RingHolds(log, seen, window, ring, next, counts)
    {
      var g := log[seen];
      var e := Entry(g, seen > 0 && g.epoch != prevEpoch);
      assert e == EntryAt(log, seen);
      prevEpoch := g.epoch;
      if window <= 0 || |ring| < window {
        FillStep(log, seen, window, ring, next, counts);
        ring := ring + [e];
      } else {
        RingBound(log, seen, window, ring, next, counts);
        TurnStep(log, seen, window, ring, next, counts);
        counts := Evict(counts, ring[next]);
        ring := ring[next := e];
        next := (next + 1) % window;
      }
    }
    WalkDone(log, window, ring, next, counts);
    ordered := ring;
    if window > 0 && |ring| == window {
      ordered := ring[next..] + ring[..next];
    }
  }

  lemma RingBound(log: seq<Group>, seen: nat, window: int, ring: seq<Entry>, next: nat, counts: Counts)
    requires seen <= |log| && RingHolds(log, seen, window, ring, next, counts) && window > 0
    ensures |ring| <= window
  {
  }

  function Infos(es: seq<Entry>): (s: seq<Group>)
    ensures |s| == |es|
  {
    seq(|es|, i requires 0 <= i < |es| => es[i].info)
  }

  /** Counting lifetimes backwards from the newest entry. */
  method EpochsToDrop(ordered: seq<Entry>, epochWindow: int) returns (k: nat)
    ensures k <= |ordered|
    ensures epochWindow <= 0 ==> k == 0
    ensures epochWindow > 0 ==> Lifetimes(Infos(ordered)[k..]) <= epochWindow
    ensures k > 0 ==> Lifetimes(Infos(ordered)[k - 1..]) > epochWindow
  {
    if epochWindow <= 0 || |ordered| == 0 {
      return 0;
    }
    ghost var s := Infos(ordered);
    var lifetimes := 1;
    var epoch := ordered[|ordered| - 1].info.epoch;
    var i := |ordered| - 1;
    assert s[i..] == [s[i]];
    while i >= 0
      invariant -1 <= i < |ordered|
      invariant lifetimes <= epochWindow
      invariant i == |ordered| - 1 ==> lifetimes == 1 && epoch == s[i].epoch
      invariant i < |ordered| - 1 ==> lifetimes == Lifetimes(s[i + 1..]) && epoch == s[i + 1].epoch
      decreases i
    {
      if i < |ordered| - 1 {
        assert s[i..][0] == s[i] && s[i..][1] == s[i + 1] && s[i..][1..] == s[i + 1..];
      }
      if ordered[i].info.epoch != epoch {
        epoch := ordered[i].info.epoch;
        lifetimes := lifetimes + 1;
        if lifetimes > epochWindow {
          return i + 1;
        }
      }
      i := i - 1;
    }
    assert s[0..] == s;
    return 0;
  }

  lemma {:induction false} LifetimesGrow(s: seq<Group>, i: nat, j: nat)
    requires i <= j <= |s|
    ensures Lifetimes(s[j..]) <= Lifetimes(s[i..])
    decreases j - i
  {
    if i < j {
      assert s[i..][1..] == s[i + 1..];
      LifetimesGrow(s, i + 1, j);
    }
  }

  /** gather: exactly the longest suffix of the log the limits allow, with exactly the counts of what is left out. */
  method Gather(log: seq<Group>, window: int, epochWindow: int) returns (w: Window)
    ensures IsStart(log, w.counts.dropped, window, epochWindow)
    ensures w == Window(log[w.counts.dropped..], CountsOf(log, w.counts.dropped))
  {
    var ordered, counts := Walk(log, window);
    ghost var from := if window > 0 && |log| > window then |log| - window else 0;
    InfosOf(log, from);
    var k := EpochsToDrop(ordered, epochWindow);
    ghost var start := from + k;
    assert CountsOf(log, start).dropped == start;
    hide Entries, CountsOf, Lifetimes, Infos, IsStart;
    StartFound(log, from, k, window, epochWindow);
    ordered, counts := EvictLeading(log, from, ordered, counts, k);
    var groups := GroupsOf(ordered);
    InfosOf(log, start);
    w := Window(groups, counts);
  }

  /** Lifetimes past the window leave the way a windowed-out segment does. */
  method EvictLeading(ghost log: seq<Group>, ghost from: nat, es: seq<Entry>, counted: Counts, k: nat)
    returns (ordered: seq<Entry>, counts: Counts)
    requires from + k <= |log| && es == Entries(log, from, |log|) && counted == CountsOf(log, from)
    ensures ordered == Entries(log, from + k, |log|) && counts == CountsOf(log, from + k)
  {
    hide Entries, CountsOf;
    ordered, counts := es, counted;
    for d := 0 to k
      invariant ordered == Entries(log, from + d, |log|)
      invariant counts == CountsOf(log, from + d)
    {
      EvictFirst(log, from + d);
      counts := Evict(counts, ordered[0]);
      ordered := ordered[1..];
    }
  }

  lemma InfosOf(log: seq<Group>, from: nat)
    requires from <= |log|
    ensures Infos(Entries(log, from, |log|)) == log[from..]
  {
    var es := Entries(log, from, |log|);
    forall i | 0 <= i < |es|
      ensures Infos(es)[i] == log[from..][i]
    {
      assert es[i] == EntryAt(log, from + i);
    }
  }

  lemma EvictFirst(log: seq<Group>, n: nat)
    requires n < |log|
    ensures
      var es := Entries(log, n, |log|);
      Evict(CountsOf(log, n), es[0]) == CountsOf(log, n + 1) && es[1..] == Entries(log, n + 1, |log|)
  {
    EvictNext(log, n);
  }

  method GroupsOf(ordered: seq<Entry>) returns (groups: seq<Group>)
    ensures groups == Infos(ordered)
  {
    groups := [];
    for i := 0 to |ordered|
      invariant groups == Infos(ordered)[..i]
    {
      groups := groups + [ordered[i].info];
    }
  }

  lemma StartFound(log: seq<Group>, from: nat, k: nat, window: int, epochWindow: int)
    requires from == if window > 0 && |log| > window then |log| - window else 0
    requires from + k <= |log|
    requires epochWindow <= 0 ==> k == 0
    requires epochWindow > 0 ==> Lifetimes(log[from..][k..]) <= epochWindow
    requires k > 0 ==> Lifetimes(log[from..][k - 1..]) > epochWindow
    ensures IsStart(log, from + k, window, epochWindow)
  {
    hide Lifetimes;
    assert log[from..][k..] == log[from + k..];
    if k > 0 {
      assert log[from..][k - 1..] == log[from + k - 1..];
    }
    forall j: nat | j < from + k
      ensures !Listable(log, j, window, epochWindow)
    {
      if j >= from {
        LifetimesGrow(log, j, from + k - 1);
      }
    }
  }

  // ----- rendering -----

  /** A listed segment, with whether a discontinuity tag precedes it. */
  datatype Segment = Segment(group: Group, tagged: bool)

  datatype Playlist = Playlist(mediaSequence: nat, discontinuitySequence: nat, event: bool, segments: seq<Segment>)

  predicate Tagged(groups: seq<Group>, preceding: nat, i: nat)
    requires i < |groups|
  {
    var prev := if i == 0 then preceding else groups[i - 1].epoch;
    (i > 0 || prev != 0) && groups[i].epoch != prev
  }

  function SegmentsOf(groups: seq<Group>, preceding: nat): (s: seq<Segment>)
    ensures |s| == |groups|
  {
    seq(|groups|, i requires 0 <= i < |groups| => Segment(groups[i], Tagged(groups, preceding, i)))
  }

  function PlaylistOf(w: Window, window: int): Playlist {
    Playlist(w.counts.dropped, w.counts.discontinuities, window <= 0, SegmentsOf(w.groups, w.counts.precedingEpoch))
  }

  method RenderHls(w: Window, window: int) returns (r: Result<Playlist>)
    ensures r.Err? <==> exists i :: 0 <= i < |w.groups| && w.groups[i].duration <= 0
    ensures r.Ok? ==> r.value == PlaylistOf(w, window) && (r.value.event <==> window <= 0)
    ensures r.Ok? ==> |r.value.segments| == |w.groups| && forall i :: 0 <= i < |w.groups| ==> r.value.segments[i].group == w.groups[i]
  {
    var groups := w.groups;
    for i := 0 to |groups|
      invariant forall k :: 0 <= k < i ==> groups[k].duration > 0
    {
      if groups[i].duration <= 0 {
        return Err;
      }
    }
    var segments := [];
    var prevEpoch := w.counts.precedingEpoch;
    for i := 0 to |groups|
      invariant prevEpoch == if i == 0 then w.counts.precedingEpoch else groups[i - 1].epoch
      invariant segments == SegmentsOf(groups, w.counts.precedingEpoch)[..i]
    {
      var g := groups[i];
      segments := segments + [Segment(g, (i > 0 || prevEpoch != 0) && g.epoch != prevEpoch)];
      prevEpoch := g.epoch;
    }
    return Ok(Playlist(w.counts.dropped, w.counts.discontinuities, window <= 0, segments));
  }

  // ----- what a client sees -----

  function Tags(segments: seq<Segment>, n: nat): nat
    requires n <= |segments|
  {
    if n == 0 then 0 else Tags(segments, n - 1) + (if segments[n - 1].tagged then 1 else 0)
  }

  /** The numbers a client gives listed segment i (sections 4.3.3.2 and 4.3.3.3 of RFC 8216). */
  function MediaNumber(p: Playlist, i: nat): nat { p.mediaSequence + i }

  function DiscontinuityNumber(p: Playlist, i: nat): nat
    requires i < |p.segments|
  {
    p.discontinuitySequence + Tags(p.segments, i + 1)
  }

  /** The playlist of a log under the given limits. */
  ghost predicate Lists(log: seq<Group>, window: int, epochWindow: int, start: nat, p: Playlist) {
    && IsStart(log, start, window, epochWindow)
    && p == PlaylistOf(Window(log[start..], CountsOf(log, start)), window)
  }

  /** A reset at the first listed segment is lost when what precedes it has epoch zero, which stands for nothing. */
  predicate ResetHidden(log: seq<Group>, start: nat) {
    0 < start < |log| && log[start - 1].epoch == 0 && log[start].epoch != 0
  }

  lemma {:induction false} TagsAreChanges(log: seq<Group>, start: nat, p: Playlist, n: nat)
    requires start + n <= |log|
    requires p.segments == SegmentsOf(log[start..], CountsOf(log, start).precedingEpoch)
    ensures Changes(log, start) + Tags(p.segments, n) + (if n > 0 && ResetHidden(log, start) then 1 else 0) == Changes(log, start + n)
    decreases n
  {
    if n > 0 {
      TagsAreChanges(log, start, p, n - 1);
      var i := n - 1;
      assert log[start..][i] == log[start + i];
      if i > 0 {
        assert log[start..][i - 1] == log[start + i - 1];
      }
      assert p.segments[i].tagged <==> Tagged(log[start..], CountsOf(log, start).precedingEpoch, i);
    }
  }

  /**
   * Every listed segment's media number is its place in the whole log, and its
   * discontinuity number is the epoch changes up to it in the whole log: exactly
   * so unless a lifetime of epoch zero was cut off just before the window.
   */
  lemma NumbersAreTheLogs(log: seq<Group>, window: int, epochWindow: int, start: nat, p: Playlist, i: nat)
    requires Lists(log, window, epochWindow, start, p) && i < |p.segments|
    ensures p.segments[i].group == log[start + i]
    ensures MediaNumber(p, i) == start + i
    ensures DiscontinuityNumber(p, i) == Changes(log, start + i + 1) <==> !ResetHidden(log, start)
  {
    TagsAreChanges(log, start, p, i + 1);
  }

  lemma {:induction false} ChangesOfPrefix(log: seq<Group>, log': seq<Group>, n: nat)
    requires log <= log' && n <= |log|
    ensures Changes(log, n) == Changes(log', n)
  {
    if n > 0 {
      ChangesOfPrefix(log, log', n - 1);
      assert log[n - 1] == log'[n - 1];
      if n > 1 {
        assert log[n - 2] == log'[n - 2];
      }
    }
  }

  lemma {:induction false} LifetimesOfPrefix(s: seq<Group>, t: seq<Group>)
    requires s <= t
    ensures Lifetimes(s) <= Lifetimes(t)
    decreases |s|
  {
    if |s| > 1 {
      assert s[1..] <= t[1..];
      LifetimesOfPrefix(s[1..], t[1..]);
      assert s[0] == t[0] && s[1] == t[1];
    } else if |s| == 1 {
      Shown(t);
    }
  }

  lemma {:induction false} Shown(t: seq<Group>)
    ensures t != [] ==> Lifetimes(t) > 0
    decreases |t|
  {
    if |t| > 1 {
      Shown(t[1..]);
    }
  }

  /** What may be listed of a longer log might have been listed of a shorter one. */
  lemma ListableShrinks(log: seq<Group>, log': seq<Group>, i: nat, window: int, epochWindow: int)
    requires log <= log' && i <= |log| && Listable(log', i, window, epochWindow)
    ensures Listable(log, i, window, epochWindow)
  {
    assert log[i..] <= log'[i..];
    LifetimesOfPrefix(log[i..], log'[i..]);
  }

  /** As the log grows the first listed segment never moves back. */
  lemma WindowNeverMovesBack(log: seq<Group>, log': seq<Group>, window: int, epochWindow: int, start: nat, start': nat)
    requires log <= log' && IsStart(log, start, window, epochWindow) && IsStart(log', start', window, epochWindow)
    ensures start <= start'
  {
    if start' < start {
      ListableShrinks(log, log', start', window, epochWindow);
    }
  }

  /**
   * A segment listed in two manifests of a growing log has the same media
   * sequence and discontinuity numbers in both (section 6.2.2 of RFC 8216), epochs
   * being non-zero.
   */
  lemma NumbersAreStable(log: seq<Group>, log': seq<Group>, window: int, epochWindow: int,
                         start: nat, p: Playlist, start': nat, p': Playlist, j: nat)
    requires log <= log' && (forall i :: 0 <= i < |log'| ==> log'[i].epoch != 0)
    requires Lists(log, window, epochWindow, start, p) && Lists(log', window, epochWindow, start', p')
    requires start' <= j < |log|
    ensures start <= j
    ensures p.segments[j - start].group == p'.segments[j - start'].group == log[j]
    ensures MediaNumber(p, j - start) == MediaNumber(p', j - start')
    ensures DiscontinuityNumber(p, j - start) == DiscontinuityNumber(p', j - start')
  {
    WindowNeverMovesBack(log, log', window, epochWindow, start, start');
    assert forall i :: 0 <= i < |log| ==> log[i] == log'[i];
    NumbersAreTheLogs(log, window, epochWindow, start, p, j - start);
    NumbersAreTheLogs(log', window, epochWindow, start', p', j - start');
    ChangesOfPrefix(log, log', j + 1);
  }

  /** An unwindowed playlist lists the whole log exactly while no more than the allowed lifetimes are in it. */
  lemma EventListsAll(log: seq<Group>, epochWindow: int, start: nat, p: Playlist)
    requires Lists(log, 0, epochWindow, start, p)
    ensures p.event
    ensures start == 0 <==> epochWindow <= 0 || Lifetimes(log) <= epochWindow
  {
    assert log[0..] == log;
    if start > 0 {
      assert !Listable(log, 0, 0, epochWindow);
    }
  }

  /** A playlist of a growing log that starts where it did before has all its segments, and perhaps more. */
  lemma SameStartGrows(log: seq<Group>, log': seq<Group>, start: nat, p: Playlist, p': Playlist)
    requires log <= log' && start <= |log|
    requires p.segments == SegmentsOf(log[start..], CountsOf(log, start).precedingEpoch)
    requires p'.segments == SegmentsOf(log'[start..], CountsOf(log', start).precedingEpoch)
    ensures p.segments <= p'.segments
  {
    var gs, gs', e := log[start..], log'[start..], CountsOf(log, start).precedingEpoch;
    assert forall i :: 0 <= i < |gs| ==> gs[i] == gs'[i];
    assert e == CountsOf(log', start).precedingEpoch;
    assert forall i: nat :: i < |gs| ==> (Tagged(gs, e, i) <==> Tagged(gs', e, i));
  }

  /**
   * As the log grows, a playlist marked EVENT keeps every segment it listed, and
   * its media sequence, exactly if what it lists by then would show no more than
   * the allowed lifetimes; so always, with no limit of them.
   */
  lemma EventOnlyGrows(log: seq<Group>, log': seq<Group>, epochWindow: int, start: nat, p: Playlist, start': nat, p': Playlist)
    requires log <= log' && Lists(log, 0, epochWindow, start, p) && Lists(log', 0, epochWindow, start', p')
    ensures p.event && p'.event
    ensures p.mediaSequence == p'.mediaSequence && p.segments <= p'.segments <==>
              epochWindow <= 0 || Lifetimes(log'[start..]) <= epochWindow
  {
    WindowNeverMovesBack(log, log', 0, epochWindow, start, start');
    if start == start' {
      SameStartGrows(log, log', start, p, p');
    } else {
      assert !Listable(log', start, 0, epochWindow);
    }
  }

  /** With one, as the egress is run, a playlist marked EVENT drops segments when a new lifetime starts. */
  lemma EventMayShrink(a: Group, b: Group)
    requires a.epoch != b.epoch
    ensures Lists([a], 0, 1, 0, Playlist(0, 0, true, [Segment(a, false)]))
    ensures IsStart([a, b], 1, 0, 1)
  {
  }
}
